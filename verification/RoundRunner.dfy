/** The round thread: runs the combats of one game round, and can be stopped at any poll and in the
    middle of any action. */
module RoundRunner {
  import opened Grid
  import opened Rounds

  const SECONDS_PER_ROUND := 6

  class CombatState {
    const roster: Roster
    var resumeTurnIndex: Option<int>
    var resumeTurnStarted: bool
    var completedRoundAt: Option<int>
    // The rejections in a row the interrupted turn had seen: nothing in the program remembers them.
    ghost var rejected: nat

    ghost function View(): Combat
      reads this
    {
      Combat(roster, resumeTurnIndex, resumeTurnStarted, completedRoundAt, rejected)
    }

    constructor (roster: Roster)
      ensures View() == Combat(roster, None, false, None, 0)
    {
      this.roster := roster;
      resumeTurnIndex, resumeTurnStarted, completedRoundAt, rejected := None, false, None, 0;
    }
  }

  class Round<W(!new), A(!new)> {
    const engine: Engine<W, A>
    const minds: Minds<W, A>
    var asked: nat
    var world: W
    var log: seq<Event>
    var time: int
    var stopFlag: bool
    // Set when a turn goes on after three rejections in a row: only a stop between them, which makes
    // the program count afresh, can let that happen.
    ghost var overran: bool
    // Set when an action does what no permitted decision does: only a stop in the middle of it, which
    // declines the prompts still to come, can let that happen.
    ghost var cut: bool
    // Any property of world and log, to see what becomes of it.
    ghost const watch: Play<W> -> bool
    // What is known of the engine: rejected actions leave the world as it was, brains and reactors may
    // decide anything, no single effect breaks the watched property.
    ghost const noOps: bool
    ghost const free: bool
    ghost const keeps: bool

    constructor (engine: Engine<W, A>, minds: Minds<W, A>, world: W, log: seq<Event>, time: int,
                 ghost watch: Play<W> -> bool)
      ensures this.engine == engine && this.minds == minds && this.watch == watch
      ensures this.world == world && this.log == log && this.time == time && !stopFlag && Straight() && Known()
    {
      this.engine, this.minds, this.world, this.log, this.time := engine, minds, world, log, time;
      asked, stopFlag, overran, cut := 0, false, false, false;
      this.watch, noOps := watch, RejectionsAreNoOps(engine);
      free, keeps := Free(engine), Keeps(engine, watch);
    }

    ghost predicate Known() {
      noOps == RejectionsAreNoOps(engine) && free == Free(engine) && keeps == Keeps(engine, watch)
    }

    ghost predicate Wired() {
      && Lawful(engine) && Obey(engine, minds)
      && (noOps ==> RejectionsAreNoOps(engine)) && (free ==> Free(engine)) && (keeps ==> Keeps(engine, watch))
    }

    // No stop has led the round astray.
    ghost predicate Straight()
      reads this
    {
      !overran && !cut
    }

    // A round gone astray does not return, and some cannot go astray.
    twostate predicate Departs()
      reads this
    {
      && (old(overran) ==> overran) && (noOps ==> overran == old(overran))
      && (old(cut) ==> cut) && (free ==> cut == old(cut))
    }

    // What the watched property becomes.
    ghost predicate Watched(p: Play<W>, q: Play<W>) {
      keeps && watch(p) ==> watch(q)
    }

    ghost function Now(): Play<W>
      reads this
    {
      Play(world, log)
    }

    // Read the stop flag. A concurrent `stop()` may have set it at any moment before; nothing clears it.
    method Poll() returns (stopped: bool)
      modifies this`stopFlag
      ensures stopped == stopFlag && (old(stopFlag) ==> stopFlag)
    {
      if * {
        stopFlag := true;
      }
      stopped := stopFlag;
    }

    // Ask the brains. Whatever becomes of the decision, it will not be given again.
    method Ask(id: string) returns (d: Decision<A>)
      requires Obey(engine, minds)
      modifies this`asked
      ensures asked == old(asked) + 1 && d == minds(old(asked), world, id) && engine.may(world, id, d)
    {
      d := minds(asked, world, id);
      asked := asked + 1;
    }

    // Ask, unless the round is stopped; a decision that comes back after the stop is thrown away.
    method Decide(id: string) returns (stopped: bool, d: Decision<A>)
      requires Obey(engine, minds)
      modifies this`stopFlag, this`asked
      ensures stopped == stopFlag && (old(stopFlag) ==> stopFlag)
      ensures stopped || engine.may(world, id, d)
    {
      stopped := Poll();
      d := EndTurn;
      if !stopped {
        d := Ask(id);
        stopped := Poll();
      }
    }

    // An action runs to its end; a stop that lands in it declines the prompts still to come.
    method Dispatch(id: string, d: Decision<A>) returns (outcome: Outcome, ghost applied: Decision<A>)
      requires Wired() && engine.may(world, id, d)
      modifies this`world, this`stopFlag, this`cut
      ensures BudgetsStay(engine, old(world), world) && Watched(old(Now()), Now())
      ensures world == Passed(engine, old(world), id, applied).0 && outcome == Passed(engine, old(world), id, applied).1
      ensures applied == d || (stopFlag && exists k :: applied == Late(d, k))
      ensures cut == (old(cut) || !Permitted(engine, old(world), id, applied))
      ensures (old(stopFlag) ==> stopFlag) && (cut == old(cut) || stopFlag) && Departs()
    {
      applied := d;
      var actual := d;
      if * {
        stopFlag := true;
        var k: nat :| true;
        actual := Late(d, k);
        applied := actual;
      }
      cut := cut || !Permitted(engine, world, id, actual);
      var pass := Passed(engine, world, id, actual);
      world, outcome := pass.0, pass.1;
    }

    // Whatever may follow from `w` could have followed from `w0`.
    ghost predicate Leads(id: string, w: W, count: nat, w0: W, count0: nat) {
      forall v :: Rest(engine, w, id, count, v) ==> Rest(engine, w0, id, count0, v)
    }

    // A permitted pass: what it leads to could have followed from `w0`.
    lemma PassLeads(w: W, id: string, count: nat, d: Decision<A>, w': W, w0: W, count0: nat)
      requires engine.acting(w, id) && count < 3 && Leads(id, w, count, w0, count0)
      requires engine.may(w, id, d) && w' == Passed(engine, w, id, d).0
      ensures var outcome := Passed(engine, w, id, d).1;
              && (outcome == Ended ==> Rest(engine, w0, id, count0, w'))
              && (outcome == Acted ==> Leads(id, w', 0, w0, count0))
              && (outcome == Failed ==> Leads(id, w', count + 1, w0, count0))
              && (outcome == Failed && count + 1 >= 3 ==> Rest(engine, w0, id, count0, w'))
    {
      forall v | Goes(engine, w, id, count, d, v) ensures Rest(engine, w0, id, count0, v) {
        RestStep(engine, w, id, count, d, v);
      }
      if count + 1 >= 3 {
        RestStops(engine, w', id, count + 1, w');
      }
    }

    // Where the loop of a turn stands in the world `w`: `count` rejections in a row since the turn began,
    // of which the program knows `failures`. Unless it went astray, whatever may follow could have
    // followed from the start `w0`.
    ghost predicate InLoop(id: string, w: W, failures: nat, count: nat, straight: bool, w0: W, count0: nat) {
      && failures < 3 && failures <= count && (noOps ==> count == failures)
      && (engine.acting(w, id) ==> InTurn(engine, w, id))
      && (straight ==> Leads(id, w, count, w0, count0))
    }

    // One decision applied: the turn is done, by the decision or by three rejections in a row, or goes on.
    lemma PassKeepsLoop(id: string, w: W, d: Decision<A>, w': W, outcome: Outcome,
                        failures: nat, count: nat, straight: bool, w0: W, count0: nat)
      requires Lawful(engine) && engine.acting(w, id) && InLoop(id, w, failures, count, straight, w0, count0)
      requires straight ==> count < 3 && Permitted(engine, w, id, d)
      requires w' == Passed(engine, w, id, d).0 && outcome == Passed(engine, w, id, d).1
      ensures outcome == Ended && straight ==> Rest(engine, w0, id, count0, w')
      ensures outcome == Acted ==> InLoop(id, w', 0, 0, straight, w0, count0)
      ensures outcome == Failed && failures + 1 < 3 ==> InLoop(id, w', failures + 1, count + 1, straight, w0, count0)
      ensures outcome == Failed && failures + 1 >= 3 && straight ==> Rest(engine, w0, id, count0, w')
    {
      if straight {
        var x :| engine.may(w, id, x) && Passed(engine, w, id, x) == Passed(engine, w, id, d);
        PassLeads(w, id, count, x, w', w0, count0);
      }
    }

    // The loop of a turn that has its budget. Nothing bounds a turn; the stop that ends one in the middle
    // arrives after some number of passes, however large.
    method TurnLoop(id: string, ghost owed: nat) returns (interrupted: bool, ghost count: nat)
      requires Wired() && (engine.acting(world, id) ==> InTurn(engine, world, id)) && (noOps ==> owed < 3)
      modifies this`world, this`stopFlag, this`asked, this`overran, this`cut
      ensures !interrupted && Straight() ==> Rest(engine, old(world), id, owed, world)
      ensures interrupted ==> stopFlag && InTurn(engine, world, id) && (noOps ==> count < 3)
      ensures interrupted && Straight() ==> Leads(id, world, count, old(world), owed)
      ensures Departs() && BudgetsStay(engine, old(world), world) && Watched(old(Now()), Now())
    {
      count := if noOps then 0 else owed;
      LoopStarts(id, world, owed, Straight());
      interrupted, count := Passes(id, count, world, owed);
    }

    method Passes(id: string, ghost count0: nat, ghost w0: W, ghost owed: nat)
      returns (interrupted: bool, ghost count: nat)
      requires Wired() && InLoop(id, world, 0, count0, Straight(), w0, owed)
      modifies this`world, this`stopFlag, this`asked, this`overran, this`cut
      ensures !interrupted && Straight() ==> Rest(engine, w0, id, owed, world)
      ensures interrupted ==> stopFlag && InTurn(engine, world, id) && (noOps ==> count < 3)
      ensures interrupted && Straight() ==> Leads(id, world, count, w0, owed)
      ensures Departs() && BudgetsStay(engine, old(world), world) && Watched(old(Now()), Now())
    {
      var failures := 0;
      count := count0;
      var passes: nat :| true;
      while engine.acting(world, id) && passes > 0
        invariant InLoop(id, world, failures, count, Straight(), w0, owed)
        invariant Departs() && BudgetsStay(engine, old(world), world) && Watched(old(Now()), Now())
        decreases passes
      {
        var stopped, d := Decide(id);
        if stopped {
          return true, count;
        }
        var done: bool;
        done, failures, count := Pass(id, d, failures, count, w0, owed);
        if done {
          return false, count;
        }
        passes := passes - 1;
      }
      interrupted := engine.acting(world, id);
      if interrupted {
        stopFlag := true;
      } else {
        RestStops(engine, world, id, count, world);
      }
    }

    lemma LoopStarts(id: string, w: W, owed: nat, straight: bool)
      requires Wired() && (engine.acting(w, id) ==> InTurn(engine, w, id)) && (noOps ==> owed < 3)
      ensures InLoop(id, w, 0, if noOps then 0 else owed, straight, w, owed)
    {
      if noOps {
        CountForgotten(w, id, owed);
      }
    }

    // One decision applied: the turn may be done, by the decision or by three rejections in a row.
    method Pass(id: string, d: Decision<A>, failures: nat, ghost count: nat, ghost w0: W, ghost count0: nat)
      returns (done: bool, failures': nat, ghost count': nat)
      requires Wired() && engine.acting(world, id) && engine.may(world, id, d)
      requires InLoop(id, world, failures, count, Straight(), w0, count0)
      modifies this`world, this`stopFlag, this`overran, this`cut
      ensures done && Straight() ==> Rest(engine, w0, id, count0, world)
      ensures !done ==> InLoop(id, world, failures', count', Straight(), w0, count0)
      ensures Departs() && BudgetsStay(engine, old(world), world) && Watched(old(Now()), Now())
    {
      overran := overran || count >= 3;
      var outcome;
      ghost var applied;
      outcome, applied := Dispatch(id, d);
      PassKeepsLoop(id, old(world), applied, world, outcome, failures, count, Straight(), w0, count0);
      done := outcome == Ended || (outcome == Failed && failures + 1 >= 3);
      failures', count' := if outcome == Failed then failures + 1 else 0, if outcome == Failed then count + 1 else 0;
    }

    lemma CountForgotten(w: W, id: string, owed: nat)
      requires RejectionsAreNoOps(engine) && owed < 3
      ensures Leads(id, w, 0, w, owed)
    {
      forall v | Rest(engine, w, id, 0, v) ensures Rest(engine, w, id, owed, v) {
        FailuresMayBeForgotten(engine, w, id, owed, v);
      }
    }

    // A turn: not at all without a brain, continued with the budget it has, or prepared and recorded.
    method RunCombatTurn(c: CombatState, i: int, cont: bool) returns (interrupted: bool)
      requires Wired() && 0 <= i < |c.roster.order|
      requires cont ==> c.resumeTurnStarted && (noOps ==> c.rejected < 3)
      requires engine.hasBrain(world, c.roster.order[i]) && cont && engine.hasBudget(world, c.roster.order[i])
               ==> engine.present(world, c.roster.order[i])
      modifies this`world, this`log, this`stopFlag, this`asked, this`overran, this`cut, c`resumeTurnStarted, c`rejected
      ensures !interrupted && Straight() ==>
                Turn(engine, old(Now()), c.roster, time, Resume(i, cont, old(c.rejected)), Now())
      ensures interrupted ==> stopFlag && c.resumeTurnStarted && InTurn(engine, world, c.roster.order[i])
                              && (noOps ==> c.rejected < 3)
      ensures interrupted && Straight() ==>
                forall q :: Turn(engine, Now(), c.roster, time, Resume(i, true, c.rejected), q)
                            ==> Turn(engine, old(Now()), c.roster, time, Resume(i, cont, old(c.rejected)), q)
      ensures log == old(log)
           || (log == old(log) + [Started(c.roster.loc, time, i, c.roster.order[i])]
               && !(cont && old(engine.hasBudget(world, c.roster.order[i]))))
      ensures Departs()
      ensures BudgetsStay(engine, old(world), world) && Watched(old(Now()), Now())
    {
      var id := c.roster.order[i];
      if !engine.hasBrain(world, id) {
        return false;
      }
      ghost var owed: nat := c.rejected;
      if !(cont && engine.hasBudget(world, id)) {
        owed := 0;
        var able := engine.prepare(world, id).1;
        world, log := engine.prepare(world, id).0, log + [Started(c.roster.loc, time, i, id)];
        if !able {
          return false;
        }
        c.resumeTurnStarted := true;
      }
      ghost var count: nat;
      interrupted, count := TurnLoop(id, owed);
      c.rejected := count;
    }

    // A turn of a present creature: readied unless it continues, then run.
    method RunOneTurn(c: CombatState, i: int, cont: bool) returns (interrupted: bool)
      requires Wired() && 0 <= i < |c.roster.order| && c.resumeTurnStarted == cont
      requires engine.present(world, c.roster.order[i])
              && CanContinue(engine, noOps, world, c.roster, Resume(i, cont, c.rejected))
      requires LogOk(log) && NoLaterThan(log, time) && StartedBefore(log, c.roster.loc, time, i, cont)
      modifies this`world, this`log, this`stopFlag, this`asked, this`overran, this`cut, c`resumeTurnStarted, c`rejected
      ensures LogOk(log) && NoLaterThan(log, time) && StartedBefore(log, c.roster.loc, time, i, true)
      ensures Extends(old(log), log, c.roster.loc, time)
      ensures interrupted ==> stopFlag && c.resumeTurnStarted && InTurn(engine, world, c.roster.order[i])
                              && (noOps ==> c.rejected < 3)
      ensures Straight() ==>
                Narrows(engine, c.roster, time, Now(),
                        if interrupted then Resume(i, true, c.rejected) else Fresh(i + 1),
                        old(Now()), Resume(i, cont, old(c.rejected)))
      ensures Departs()
      ensures BudgetsStay(engine, old(world), world) && Watched(old(Now()), Now())
    {
      ghost var p, z := Now(), Resume(i, cont, c.rejected);
      if !cont {
        world := engine.ready(world, c.roster.order[i]);
        RecordStart(log, c.roster.loc, time, i, c.roster.order[i]);
      }
      interrupted := RunCombatTurn(c, i, cont);
      if Straight() {
        if interrupted {
          InterruptedNarrows(engine, c.roster, time, p, z, Now(), Resume(i, true, c.rejected));
        } else {
          PlayedNarrows(engine, c.roster, time, p, z, Now());
        }
      }
    }

    // Turn `i` of the initiative order: skipped when its creature is gone, otherwise run behind the
    // cursor, which is cleared again once the turn is complete.
    method RunOrSkip(c: CombatState, ghost z: Resume, i: int, cont: bool) returns (interrupted: bool)
      requires Wired() && 0 <= i < |c.roster.order| && z == Resume(i, cont, if cont then c.rejected else 0)
      requires CanContinue(engine, noOps, world, c.roster, z) && CursorInRange(c.View())
      requires LogOk(log) && NoLaterThan(log, time) && StartedBefore(log, c.roster.loc, time, i, cont)
      modifies this`world, this`log, this`stopFlag, this`asked, this`overran, this`cut
      modifies c`resumeTurnIndex, c`resumeTurnStarted, c`rejected
      ensures LogOk(log) && NoLaterThan(log, time) && Extends(old(log), log, c.roster.loc, time)
      ensures StartedBefore(log, c.roster.loc, time, i, true) && CursorInRange(c.View())
      ensures interrupted ==> stopFlag && ResumeAt(c.View()) == Resume(i, true, c.rejected)
                              && CanContinue(engine, noOps, world, c.roster, ResumeAt(c.View()))
      ensures Straight() ==>
                Narrows(engine, c.roster, time, Now(),
                        if interrupted then ResumeAt(c.View()) else Fresh(i + 1), old(Now()), z)
      ensures Departs()
      ensures BudgetsStay(engine, old(world), world) && Watched(old(Now()), Now())
    {
      if !engine.present(world, c.roster.order[i]) {
        SkipNarrows(engine, c.roster, time, Now(), z);
        return false;
      }
      interrupted := RunBehindCursor(c, z, i, cont);
    }

    method RunBehindCursor(c: CombatState, ghost z: Resume, i: int, cont: bool) returns (interrupted: bool)
      requires Wired() && 0 <= i < |c.roster.order| && z == Resume(i, cont, if cont then c.rejected else 0)
      requires engine.present(world, c.roster.order[i]) && CanContinue(engine, noOps, world, c.roster, z)
      requires LogOk(log) && NoLaterThan(log, time) && StartedBefore(log, c.roster.loc, time, i, cont)
      modifies this`world, this`log, this`stopFlag, this`asked, this`overran, this`cut
      modifies c`resumeTurnIndex, c`resumeTurnStarted, c`rejected
      ensures LogOk(log) && NoLaterThan(log, time) && Extends(old(log), log, c.roster.loc, time)
      ensures StartedBefore(log, c.roster.loc, time, i, true) && CursorInRange(c.View())
      ensures interrupted ==> stopFlag && ResumeAt(c.View()) == Resume(i, true, c.rejected)
                              && CanContinue(engine, noOps, world, c.roster, ResumeAt(c.View()))
      ensures Straight() ==>
                Narrows(engine, c.roster, time, Now(),
                        if interrupted then ResumeAt(c.View()) else Fresh(i + 1), old(Now()), z)
      ensures Departs()
      ensures BudgetsStay(engine, old(world), world) && Watched(old(Now()), Now())
    {
      if !cont {
        c.rejected := 0;
      }
      c.resumeTurnIndex, c.resumeTurnStarted := Some(i), cont;
      interrupted := RunOneTurn(c, i, cont);
      if !interrupted {
        c.resumeTurnIndex, c.resumeTurnStarted := None, false;
      }
    }

    // What the turns of one combat keep: where to go on, and that nothing new may happen since `p0`.
    ghost predicate Going(c: CombatState, z: Resume, p0: Play<W>, z0: Resume, log0: seq<Event>)
      reads this, c
    {
      && 0 <= z.index <= |c.roster.order| && 0 <= z0.index <= |c.roster.order|
      && CursorInRange(c.View()) && CanContinue(engine, noOps, world, c.roster, z)
      && (z.started ==> z.rejected == c.rejected) && (!z.started ==> z.rejected == 0)
      && LogOk(log) && NoLaterThan(log, time) && Extends(log0, log, c.roster.loc, time)
      && StartedBefore(log, c.roster.loc, time, z.index, z.started)
      && (Straight() ==> Narrows(engine, c.roster, time, Now(), z, p0, z0))
      && BudgetsStay(engine, p0.world, world) && Watched(p0, Now())
    }

    // The remaining initiative turns of one combat. On a stop the cursor names the turn to continue.
    method RunCombatTurns(c: CombatState) returns (interrupted: bool)
      requires Wired() && c.completedRoundAt != Some(time)
      requires CanContinue(engine, noOps, world, c.roster, ResumeAt(c.View()))
      requires LogOk(log) && NoLaterThan(log, time) && Recorded(log, c.View(), time)
      modifies this`world, this`log, this`stopFlag, this`asked, this`overran, this`cut
      modifies c`resumeTurnIndex, c`resumeTurnStarted, c`rejected
      ensures interrupted ==> stopFlag && Going(c, ResumeAt(c.View()), old(Now()), old(ResumeAt(c.View())), old(log))
      ensures !interrupted ==> Going(c, Fresh(|c.roster.order|), old(Now()), old(ResumeAt(c.View())), old(log))
      ensures Departs()
    {
      GoingStarts(c);
      var i, cont := 0, false;
      if c.resumeTurnIndex.Some? && 0 <= c.resumeTurnIndex.value < |c.roster.order| {
        i, cont := c.resumeTurnIndex.value, c.resumeTurnStarted;
      }
      interrupted := PlayFrom(c, ResumeAt(c.View()), i, cont, Now(), log);
    }

    method PlayFrom(c: CombatState, ghost z0: Resume, i0: int, cont0: bool, ghost p0: Play<W>, ghost log0: seq<Event>)
      returns (interrupted: bool)
      requires Wired()
      requires Going(c, z0, p0, z0, log0) && z0.index == i0 && z0.started == cont0
      modifies this`world, this`log, this`stopFlag, this`asked, this`overran, this`cut
      modifies c`resumeTurnIndex, c`resumeTurnStarted, c`rejected
      ensures interrupted ==> stopFlag && Going(c, ResumeAt(c.View()), p0, z0, log0)
      ensures !interrupted ==> Going(c, Fresh(|c.roster.order|), p0, z0, log0)
      ensures Departs()
    {
      var i, cont := i0, cont0;
      ghost var z := z0;
      while i < |c.roster.order|
        invariant Going(c, z, p0, z0, log0) && z.index == i && z.started == cont
        invariant Departs()
      {
        interrupted := OneMore(c, z, i, cont, p0, z0, log0);
        if interrupted {
          return true;
        }
        i, cont := i + 1, false;
        z := Fresh(i);
      }
      interrupted := false;
    }

    lemma GoingStarts(c: CombatState)
      requires Wired() && c.completedRoundAt != Some(time)
      requires CanContinue(engine, noOps, world, c.roster, ResumeAt(c.View()))
      requires LogOk(log) && NoLaterThan(log, time) && Recorded(log, c.View(), time)
      ensures Going(c, ResumeAt(c.View()), Now(), ResumeAt(c.View()), log)
    {
    }

    // Between turns the cursor is set to the one that comes next.
    method Pause(c: CombatState, ghost z: Resume, i: int, cont: bool, ghost p0: Play<W>, ghost z0: Resume,
        ghost log0: seq<Event>)
      requires 0 <= i < |c.roster.order|
      requires Going(c, z, p0, z0, log0) && z.index == i && z.started == cont
      modifies c`resumeTurnIndex, c`resumeTurnStarted
      ensures Going(c, ResumeAt(c.View()), p0, z0, log0)
    {
      c.resumeTurnIndex, c.resumeTurnStarted := Some(i), cont;
    }

    method OneMore(c: CombatState, ghost z: Resume, i: int, cont: bool, ghost p0: Play<W>, ghost z0: Resume,
        ghost log0: seq<Event>)
      returns (interrupted: bool)
      requires Wired() && 0 <= i < |c.roster.order|
      requires Going(c, z, p0, z0, log0) && z.index == i && z.started == cont
      modifies this`world, this`log, this`stopFlag, this`asked, this`overran, this`cut
      modifies c`resumeTurnIndex, c`resumeTurnStarted, c`rejected
      ensures interrupted ==> stopFlag && Going(c, ResumeAt(c.View()), p0, z0, log0)
      ensures !interrupted ==> Going(c, Fresh(i + 1), p0, z0, log0)
      ensures Departs()
    {
      var stopped := Poll();
      if stopped {
        Pause(c, z, i, cont, p0, z0, log0);
        return true;
      }
      ghost var p := Now();
      interrupted := RunOrSkip(c, z, i, cont);
      ExtendsMore(log0, p.log, log, c.roster.loc, time);
      if Straight() {
        NarrowsOn(engine, c.roster, time, p0, z0, p, z, Now(),
                  if interrupted then ResumeAt(c.View()) else Fresh(i + 1));
      }
    }

    ghost function Views(cs: seq<CombatState>): seq<Combat>
      reads cs
    {
      seq(|cs|, i requires 0 <= i < |cs| reads cs => cs[i].View())
    }

    // The combats are different objects at different places, and the log agrees with their cursors.
    ghost predicate Ready(cs: seq<CombatState>)
      reads this, cs
    {
      && Wired() && Known() && Apart(cs)
      && LogOk(log) && NoLaterThan(log, time)
      && (forall c :: c in cs ==>
              Recorded(log, c.View(), time) && CanContinue(engine, noOps, world, c.roster, ResumeAt(c.View())))
      && (forall c :: c in cs && c.completedRoundAt == Some(time) ==> c.resumeTurnIndex == None)
    }

    ghost predicate Apart(cs: seq<CombatState>) {
      forall i, j :: 0 <= i < j < |cs| ==> cs[i] != cs[j] && cs[i].roster.loc != cs[j].roster.loc
    }

    // The first `k` combats have closed, the others are as they were, and nothing new may happen since `p0`.
    ghost predicate Underway(cs: seq<CombatState>, k: int, views: seq<Combat>, p0: Play<W>)
      reads this, cs
    {
      && Ready(cs) && 0 <= k <= |cs| == |views|
      && (forall j :: 0 <= j < k ==> cs[j].completedRoundAt == Some(time))
      && (forall j :: k <= j < |cs| ==> cs[j].View() == views[j])
      && (Straight() ==> NarrowsFinish(engine, time, Now(), views[k..], p0, views))
      && Watched(p0, Now())
    }

    // The combats of one game round. A combat that already closed at this time is not run again.
    method RunCombats(cs: seq<CombatState>) returns (interrupted: bool)
      requires Ready(cs)
      modifies this`world, this`log, this`stopFlag, this`asked, this`overran, this`cut, cs
      ensures Ready(cs) && (interrupted ==> stopFlag)
      ensures !interrupted ==> forall c :: c in cs ==> c.completedRoundAt == Some(time)
      ensures Straight() ==> NarrowsFinish(engine, time, Now(), Views(cs), old(Now()), old(Views(cs)))
      ensures Departs()
      ensures Watched(old(Now()), Now())
    {
      ghost var views, p0 := Views(cs), Now();
      assert views[0..] == views;
      for k := 0 to |cs|
        invariant Underway(cs, k, views, p0)
        invariant Departs()
      {
        interrupted := CombatStep(cs, k, views, p0);
        if interrupted {
          return true;
        }
      }
      AllClosed(cs, views);
      interrupted := false;
    }

    lemma AllClosed(cs: seq<CombatState>, views: seq<Combat>)
      requires |views| == |cs| && forall c :: c in cs ==> c.completedRoundAt == Some(time)
      ensures NarrowsFinish(engine, time, Now(), Views(cs), Now(), views[|cs|..])
    {
      forall q | Finish(engine, Now(), Views(cs), time, q) ensures Finish(engine, Now(), views[|cs|..], time, q) {
        NothingLeft(engine, Now(), Views(cs), time, q);
      }
    }

    method CombatStep(cs: seq<CombatState>, k: int, ghost views: seq<Combat>, ghost p0: Play<W>)
      returns (interrupted: bool)
      requires Underway(cs, k, views, p0) && k < |cs|
      modifies this`world, this`log, this`stopFlag, this`asked, this`overran, this`cut, cs[k]
      ensures if interrupted then Ready(cs) && stopFlag && Watched(p0, Now()) else Underway(cs, k + 1, views, p0)
      ensures interrupted && Straight() ==> NarrowsFinish(engine, time, Now(), Views(cs), p0, views)
      ensures Departs()
    {
      ghost var p := Now();
      if cs[k].completedRoundAt == Some(time) {
        ClosedIsPassed(cs, k, views, p0);
        return false;
      }
      interrupted := RunAndClose(cs, k);
      if Straight() {
        if interrupted {
          ResumedNarrows(engine, time, Now(), Views(cs), p, p0, views, k);
        } else {
          ClosedNarrows(engine, time, Now(), p, p0, views, k);
        }
      }
    }

    lemma ClosedIsPassed(cs: seq<CombatState>, k: int, views: seq<Combat>, p0: Play<W>)
      requires Underway(cs, k, views, p0) && k < |cs| && cs[k].completedRoundAt == Some(time)
      ensures Underway(cs, k + 1, views, p0)
    {
      FinishNext(engine, Now(), views, time, k, Now());
    }

    method RunAndClose(cs: seq<CombatState>, k: int) returns (interrupted: bool)
      requires Ready(cs) && 0 <= k < |cs| && cs[k].completedRoundAt != Some(time)
      modifies this`world, this`log, this`stopFlag, this`asked, this`overran, this`cut, cs[k]
      ensures Ready(cs) && (interrupted ==> stopFlag)
      ensures cs[k].completedRoundAt == if interrupted then old(cs[k].completedRoundAt) else Some(time)
      ensures !interrupted && Straight() ==> FinishOne(engine, old(Now()), old(cs[k].View()), time, Now())
      ensures interrupted && Straight() ==>
                forall m :: FinishOne(engine, Now(), cs[k].View(), time, m)
                    ==> FinishOne(engine, old(Now()), old(cs[k].View()), time, m)
      ensures Departs()
      ensures Watched(old(Now()), Now())
    {
      var c := cs[k];
      ghost var p, v := Now(), c.View();
      interrupted := RunCombatTurns(c);
      if !interrupted {
        Close(c, p);
      }
      OthersStayReady(cs, c, p);
    }

    // The round of a combat that played all its turns is closed.
    method Close(c: CombatState, ghost p: Play<W>)
      requires Wired() && LogOk(log) && NoLaterThan(log, time) && CursorInRange(c.View())
      requires StartedBefore(log, c.roster.loc, time, |c.roster.order|, false)
              && Extends(p.log, log, c.roster.loc, time)
      modifies this`world, this`log, c
      ensures LogOk(log) && NoLaterThan(log, time) && Extends(p.log, log, c.roster.loc, time)
      ensures c.completedRoundAt == Some(time) && c.resumeTurnIndex == None && !c.resumeTurnStarted
      ensures Now() == Closing(engine, old(Now()), c.roster.loc, time)
      ensures BudgetsStay(engine, old(world), world) && Watched(old(Now()), Now())
    {
      ghost var mid := log;
      RecordClose(log, c.roster.loc, time, |c.roster.order|, false);
      c.completedRoundAt := Some(time);
      EndCombatRound(c);
      ExtendsMore(p.log, mid, log, c.roster.loc, time);
    }

    lemma OthersStayReady(cs: seq<CombatState>, c: CombatState, p: Play<W>)
      requires c in cs && Apart(cs)
      requires Extends(p.log, log, c.roster.loc, time) && BudgetsStay(engine, p.world, world)
      requires forall x :: x in cs && x != c ==>
                 Recorded(p.log, x.View(), time) && CanContinue(engine, noOps, p.world, x.roster, ResumeAt(x.View()))
      ensures forall x :: x in cs && x != c ==>
                 Recorded(log, x.View(), time) && CanContinue(engine, noOps, world, x.roster, ResumeAt(x.View()))
    {
      forall x | x in cs && x != c
        ensures Recorded(log, x.View(), time) && CanContinue(engine, noOps, world, x.roster, ResumeAt(x.View()))
      {
        OthersKeepRecord(p.log, log, c.roster.loc, time, x.View());
      }
    }

    // A cursor never outlives its round.
    method EndCombatRound(c: CombatState)
      modifies this`world, this`log, c`resumeTurnIndex, c`resumeTurnStarted
      ensures Now() == Closing(engine, old(Now()), c.roster.loc, time)
      ensures c.resumeTurnIndex == None && !c.resumeTurnStarted
    {
      c.resumeTurnIndex, c.resumeTurnStarted := None, false;
      world, log := engine.close(world, c.roster.loc), log + [Closed(c.roster.loc, time)];
    }

    // The active creatures outside combat act in turn; a stop skips the rest of them.
    method RunPeaceful(ids: seq<string>) returns (interrupted: bool)
      requires Wired()
      modifies this`world, this`stopFlag, this`asked
      ensures interrupted ==> stopFlag
      ensures !interrupted ==> Peaceful(engine, old(world), ids, world)
      ensures BudgetsStay(engine, old(world), world) && Watched(old(Now()), Now())
    {
      for i := 0 to |ids|
        invariant Peaceful(engine, old(world), ids[..i], world)
        invariant BudgetsStay(engine, old(world), world) && Watched(old(Now()), Now())
      {
        assert ids[..i + 1][..i] == ids[..i];
        if engine.present(world, ids[i]) && !engine.fighting(world, ids[i]) && engine.hasBrain(world, ids[i]) {
          interrupted := CalmTurn(ids[i]);
          if interrupted {
            return true;
          }
        }
      }
      assert ids[..|ids|] == ids;
      interrupted := Poll();
    }

    // A turn outside combat: queries go on, anything else ends it.
    method CalmTurn(id: string) returns (interrupted: bool)
      requires Wired()
      modifies this`world, this`stopFlag, this`asked
      ensures interrupted ==> stopFlag
      ensures !interrupted ==> Calm(engine, old(world), id, world)
      ensures BudgetsStay(engine, old(world), world) && Watched(old(Now()), Now())
    {
      var passes: nat :| true;
      while engine.acting(world, id) && passes > 0
        invariant forall v :: Calm(engine, world, id, v) ==> Calm(engine, old(world), id, v)
        invariant BudgetsStay(engine, old(world), world) && Watched(old(Now()), Now())
        decreases passes
      {
        var stopped, d := Decide(id);
        if stopped {
          return true;
        }
        var goesOn := PeacePass(id, d, old(world));
        if !goesOn {
          return false;
        }
        passes := passes - 1;
      }
      interrupted := engine.acting(world, id);
      if interrupted {
        stopFlag := true;
      } else {
        CalmStops(engine, world, id);
      }
    }

    method PeacePass(id: string, d: Decision<A>, ghost w0: W) returns (goesOn: bool)
      requires Wired() && engine.acting(world, id) && engine.may(world, id, d)
      requires forall v :: Calm(engine, world, id, v) ==> Calm(engine, w0, id, v)
      modifies this`world
      ensures if goesOn then forall v :: Calm(engine, world, id, v) ==> Calm(engine, w0, id, v)
              else Calm(engine, w0, id, world)
      ensures BudgetsStay(engine, old(world), world) && Watched(old(Now()), Now())
    {
      ghost var w := world;
      goesOn := false;
      if d.Do? {
        var pass := engine.peace(world, id, d);
        world, goesOn := pass.0, pass.1;
      }
      if goesOn {
        forall v | Calm(engine, world, id, v) ensures Calm(engine, w0, id, v) {
          CalmStep(engine, w, id, d, v);
        }
      } else {
        CalmStep(engine, w, id, d, world);
      }
    }

    // A round's time passes: the layers tick, and nothing is on record for the time that comes.
    method Elapse(cs: seq<CombatState>)
      requires Ready(cs) && forall c :: c in cs ==> c.completedRoundAt == Some(time)
      modifies this`world, this`time
      ensures Ready(cs) && time == old(time) + SECONDS_PER_ROUND && Watched(old(Now()), Now())
      ensures world == engine.elapse(old(world))
    {
      forall c | c in cs ensures Recorded(log, c.View(), time + SECONDS_PER_ROUND) {
        NewTimeIsBlank(log, c.View(), time, time + SECONDS_PER_ROUND);
      }
      world := engine.elapse(world);
      time := time + SECONDS_PER_ROUND;
    }

    /** One game round: combats, then everybody else, then six seconds pass and the layers tick. A stop
        leaves the clock alone. Unless a stop led the round astray, a completed round is combats,
        peaceful turns and a tick as they may be, and whatever a stopped round may still write is a log
        the uninterrupted round could have written. */
    method RunRound(cs: seq<CombatState>, active: seq<string>) returns (interrupted: bool)
      requires Ready(cs)
      modifies this`world, this`log, this`stopFlag, this`asked, this`overran, this`cut, this`time, cs
      ensures Ready(cs)
      ensures time == if interrupted then old(time) else old(time) + 6
      ensures interrupted ==> stopFlag
      ensures !interrupted && Straight() ==> exists q, w ::
                && Finish(engine, old(Now()), old(Views(cs)), old(time), q) && q.log == log
                && Peaceful(engine, q.world, active, w) && world == engine.elapse(w)
      ensures interrupted && Straight() ==>
                NarrowsLogs(engine, time, Now(), Views(cs), old(Now()), old(Views(cs)))
      ensures Departs() && Watched(old(Now()), Now())
    {
      ghost var p0, views0 := Now(), Views(cs);
      interrupted := RunCombats(cs);
      if Straight() {
        LogsNarrow(engine, time, Now(), Views(cs), p0, views0);
      }
      if !interrupted {
        interrupted := RunTheRest(cs, active, p0, views0);
      }
    }

    // What follows the combats of a game round.
    method RunTheRest(cs: seq<CombatState>, active: seq<string>, ghost p0: Play<W>, ghost views0: seq<Combat>)
      returns (interrupted: bool)
      requires Ready(cs) && forall c :: c in cs ==> c.completedRoundAt == Some(time)
      requires Straight() ==> NarrowsFinish(engine, time, Now(), Views(cs), p0, views0)
      modifies this`world, this`stopFlag, this`asked, this`time
      ensures Ready(cs)
      ensures time == if interrupted then old(time) else old(time) + SECONDS_PER_ROUND
      ensures interrupted ==> stopFlag
      ensures !interrupted && Straight() ==> exists q, w ::
                && Finish(engine, p0, views0, old(time), q) && q.log == log
                && Peaceful(engine, q.world, active, w) && world == engine.elapse(w)
      ensures interrupted && Straight() ==> NarrowsLogs(engine, time, Now(), Views(cs), p0, views0)
      ensures Departs() && Watched(old(Now()), Now())
    {
      ClosedLogIsFixed(cs);
      NothingLeft(engine, Now(), Views(cs), time, Now());
      if Straight() {
        LogsNarrow(engine, time, Now(), Views(cs), p0, views0);
      }
      interrupted := RunPeaceful(active);
      ClosedLogIsFixed(cs);
      if !interrupted {
        Elapse(cs);
      }
    }

    // Once all combats have closed, the log is what it is.
    lemma ClosedLogIsFixed(cs: seq<CombatState>)
      requires forall c :: c in cs ==> c.completedRoundAt == Some(time)
      ensures forall l :: PossibleLog(engine, Now(), Views(cs), time, l) <==> l == log
    {
      NothingLeft(engine, Now(), Views(cs), time, Now());
      assert Finish(engine, Now(), Views(cs), time, Play(world, log));
      forall l | PossibleLog(engine, Now(), Views(cs), time, l) ensures l == log {
        var v :| Finish(engine, Now(), Views(cs), time, Play(v, l));
        NothingLeft(engine, Now(), Views(cs), time, Play(v, l));
      }
    }

    /** The same game round across any number of stops and restarts: each restart clears the flag and
        continues. Unless a stop led it astray, the log of the completed round is one the uninterrupted
        round could have written, and the only one when the decisions are settled. It cannot be led
        astray where rejections change nothing and brains and reactors may decide anything. */
    method PlayThroughStops(cs: seq<CombatState>, active: seq<string>, restarts: nat) returns (done: bool)
      requires Ready(cs)
      modifies this`world, this`log, this`stopFlag, this`asked, this`overran, this`cut, this`time, cs
      ensures Ready(cs)
      ensures time == if done then old(time) + SECONDS_PER_ROUND else old(time)
      ensures done && Straight() ==> PossibleLog(engine, old(Now()), old(Views(cs)), old(time), log)
      ensures done && Straight() && Determined(engine) ==>
                forall l :: PossibleLog(engine, old(Now()), old(Views(cs)), old(time), l) ==> l == log
      ensures Departs() && Watched(old(Now()), Now())
      ensures RejectionsAreNoOps(engine) && Free(engine) && old(Straight()) ==> Straight()
    {
      for n := 0 to restarts
        invariant Ready(cs) && time == old(time) && Departs()
        invariant Straight() ==> NarrowsLogs(engine, time, Now(), Views(cs), old(Now()), old(Views(cs)))
        invariant Watched(old(Now()), Now())
      {
        stopFlag := false;
        var interrupted := RunRound(cs, active);
        if !interrupted {
          if Straight() && Determined(engine) {
            OnlyLog(engine, old(Now()), old(Views(cs)), old(time), log);
          }
          return true;
        }
      }
      done := false;
    }
  }
}
