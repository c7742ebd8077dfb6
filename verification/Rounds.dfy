/** The combat part of a game round as a relation: what may still happen from wherever a stop left
    the cursor, and the log of started turns and closed rounds. */
module Rounds {
  import opened Grid

  // What one pass of the turn loop did: an action, a rejected action, or the end of the turn.
  datatype Outcome = Acted | Failed | Ended

  /** What the creatures decide during one pass: to end the turn, or an action together with the answers
      to the reaction prompts it raises, one after the other, None being a decline. */
  datatype Decision<A> = EndTurn | Do(action: A, reactions: nat -> Option<A>)

  // The decision with every answer from the k-th on declined.
  function Late<A>(d: Decision<A>, k: nat): Decision<A> {
    match d
    case EndTurn => EndTurn
    case Do(a, answers) => Do(a, (i: nat) => if i < k then answers(i) else None)
  }

  /** The world as the round sees it: creatures and handlers as functions of the world state `W`, and
      what the brains and the reactors may decide in it. */
  datatype Engine<!W, !A> = Engine(
    present: (W, string) -> bool,       // a living, active creature
    hasBrain: (W, string) -> bool,
    hasBudget: (W, string) -> bool,
    ready: (W, string) -> W,            // dodging and disengaging end as a fresh turn begins
    prepare: (W, string) -> (W, bool),  // tick conditions and grant the budget; false when incapacitated
    acting: (W, string) -> bool,        // still alive and still in the world
    fighting: (W, string) -> bool,      // a member of some combat
    may: (W, string, Decision<A>) -> bool,
    act: (W, string, Decision<A>) -> (W, Outcome),
    close: (W, string) -> W,            // end of a combat round at a location
    // One action of a creature outside combat, and whether its turn goes on, as it does after a query.
    peace: (W, string, Decision<A>) -> (W, bool),
    elapse: W -> W)                     // the layers tick as a round's time passes

  datatype Event = Started(loc: string, at: int, index: int, who: string) | Closed(loc: string, at: int)

  // Where a combat takes place and its initiative order.
  datatype Roster = Roster(loc: string, order: seq<string>)

  // A combat with its resume cursor. `rejected` counts the rejections in a row the interrupted turn had
  // seen; the source does not keep it.
  datatype Combat = Combat(roster: Roster, cursor: Option<int>, started: bool, completedAt: Option<int>, rejected: nat)

  // Where to go on: the turn, whether it had started, and the rejections in a row it had seen.
  datatype Resume = Resume(index: int, started: bool, rejected: nat)

  datatype Play<!W> = Play(world: W, log: seq<Event>)

  // One pass of the turn loop. END_TURN is never dispatched.
  function Passed<W, A>(e: Engine<W, A>, w: W, id: string, d: Decision<A>): (W, Outcome) {
    if d.EndTurn? then (w, Ended) else e.act(w, id, d)
  }

  /** The handlers' side of the bargain: a creature that is still acting in its own turn is present and
      keeps its brain and the budget it was granted, and no budget is taken away. */
  ghost predicate Lawful<W(!new), A(!new)>(e: Engine<W, A>) {
    && (forall w, id, d ::
          && (InTurn(e, w, id) && !e.act(w, id, d).1.Ended? && e.acting(e.act(w, id, d).0, id)
              ==> InTurn(e, e.act(w, id, d).0, id))
          && BudgetsStay(e, w, e.act(w, id, d).0) && BudgetsStay(e, w, e.peace(w, id, d).0))
    && (forall w, id ::
          && (e.hasBrain(w, id) ==> e.hasBrain(e.ready(w, id), id))
          && BudgetsStay(e, w, e.prepare(w, id).0) && BudgetsStay(e, w, e.ready(w, id))
          && BudgetsStay(e, w, e.close(w, id))
          && (e.hasBrain(w, id) && e.prepare(w, id).1 && e.acting(e.prepare(w, id).0, id)
              ==> InTurn(e, e.prepare(w, id).0, id)))
    && (forall w {:trigger e.elapse(w)} :: BudgetsStay(e, w, e.elapse(w)))
  }

  // Nobody loses a budget once granted.
  ghost predicate BudgetsStay<W(!new), A>(e: Engine<W, A>, v: W, w: W) {
    forall x :: e.hasBudget(v, x) ==> e.hasBudget(w, x)
  }

  // The creature can be found in the middle of its turn.
  predicate InTurn<W, A>(e: Engine<W, A>, w: W, id: string) {
    e.present(w, id) && e.hasBrain(w, id) && e.hasBudget(w, id)
  }

  // A rejected action leaves the world as it was.
  ghost predicate RejectionsAreNoOps<W(!new), A(!new)>(e: Engine<W, A>) {
    forall w, id, d :: e.act(w, id, d).1 == Failed ==> e.act(w, id, d).0 == w
  }

  // Brains and reactors may decide anything.
  ghost predicate Free<W(!new), A(!new)>(e: Engine<W, A>) {
    forall w, id, d :: e.may(w, id, d)
  }

  // What the decision does is done by a permitted one too.
  ghost predicate Permitted<W(!new), A(!new)>(e: Engine<W, A>, w: W, id: string, d: Decision<A>) {
    exists x :: e.may(w, id, x) && Passed(e, w, id, x) == Passed(e, w, id, d)
  }

  // After `failures` rejections in a row the turn may end in the world `v`, `n` passes being enough.
  ghost predicate RestIn<W(!new), A(!new)>(e: Engine<W, A>, w: W, id: string, failures: nat, v: W, n: nat)
    decreases n
  {
    if !e.acting(w, id) || failures >= 3 then v == w
    else n > 0 && exists d {:trigger Passed(e, w, id, d)} ::
      e.may(w, id, d) && match Passed(e, w, id, d).1
      case Ended => v == Passed(e, w, id, d).0
      case Acted => RestIn(e, Passed(e, w, id, d).0, id, 0, v, n - 1)
      case Failed => RestIn(e, Passed(e, w, id, d).0, id, failures + 1, v, n - 1)
  }

  // The rest of a turn after `failures` rejections in a row may end in the world `v`. A turn need not
  // end: nothing bounds the number of its passes.
  ghost predicate Rest<W(!new), A(!new)>(e: Engine<W, A>, w: W, id: string, failures: nat, v: W) {
    exists n: nat :: RestIn(e, w, id, failures, v, n)
  }

  lemma RestStops<W(!new), A(!new)>(e: Engine<W, A>, w: W, id: string, failures: nat, v: W)
    requires !e.acting(w, id) || failures >= 3
    ensures Rest(e, w, id, failures, v) <==> v == w
  {
    assert RestIn(e, w, id, failures, w, 0);
  }

  // The way a turn may go on after one pass.
  ghost predicate Goes<W(!new), A(!new)>(
    e: Engine<W, A>, w: W, id: string, failures: nat, d: Decision<A>, v: W)
  {
    match Passed(e, w, id, d).1
    case Ended => v == Passed(e, w, id, d).0
    case Acted => Rest(e, Passed(e, w, id, d).0, id, 0, v)
    case Failed => Rest(e, Passed(e, w, id, d).0, id, failures + 1, v)
  }

  lemma RestStep<W(!new), A(!new)>(e: Engine<W, A>, w: W, id: string, failures: nat, d: Decision<A>, v: W)
    requires e.acting(w, id) && failures < 3 && e.may(w, id, d) && Goes(e, w, id, failures, d, v)
    ensures Rest(e, w, id, failures, v)
  {
    var pass := Passed(e, w, id, d);
    var n: nat := 0;
    if pass.1 == Acted {
      n :| RestIn(e, pass.0, id, 0, v, n);
    } else if pass.1 == Failed {
      n :| RestIn(e, pass.0, id, failures + 1, v, n);
    }
    assert RestIn(e, w, id, failures, v, n + 1);
  }

  lemma FirstPass<W(!new), A(!new)>(e: Engine<W, A>, w: W, id: string, failures: nat, v: W)
    returns (d: Decision<A>)
    requires e.acting(w, id) && failures < 3 && Rest(e, w, id, failures, v)
    ensures e.may(w, id, d) && Goes(e, w, id, failures, d, v)
  {
    var n: nat :| RestIn(e, w, id, failures, v, n);
    d :| e.may(w, id, d) && match Passed(e, w, id, d).1
         case Ended => v == Passed(e, w, id, d).0
         case Acted => RestIn(e, Passed(e, w, id, d).0, id, 0, v, n - 1)
         case Failed => RestIn(e, Passed(e, w, id, d).0, id, failures + 1, v, n - 1);
  }

  // A turn whose creature is ready: whole, or what is left of one that had started.
  ghost predicate Turn<W(!new), A(!new)>(
    e: Engine<W, A>, p: Play<W>, r: Roster, at: int, z: Resume, q: Play<W>)
    requires 0 <= z.index < |r.order|
  {
    var id := r.order[z.index];
    if !e.hasBrain(p.world, id) then q == p
    else if z.started && e.hasBudget(p.world, id) then q.log == p.log && Rest(e, p.world, id, z.rejected, q.world)
    else
      var s := Starting(e, p, r.loc, at, z.index, id);
      q.log == s.log && if e.prepare(p.world, id).1 then Rest(e, s.world, id, 0, q.world) else q.world == s.world
  }

  function Starting<W, A>(e: Engine<W, A>, p: Play<W>, loc: string, at: int, i: int, id: string): Play<W> {
    Play(e.prepare(p.world, id).0, p.log + [Started(loc, at, i, id)])
  }

  function Closing<W, A>(e: Engine<W, A>, p: Play<W>, loc: string, at: int): Play<W> {
    Play(e.close(p.world, loc), p.log + [Closed(loc, at)])
  }

  function Readied<W, A>(e: Engine<W, A>, p: Play<W>, id: string, cont: bool): Play<W> {
    if cont then p else p.(world := e.ready(p.world, id))
  }

  function Fresh(i: int): Resume {
    Resume(i, false, 0)
  }

  ghost predicate Turns<W(!new), A(!new)>(
    e: Engine<W, A>, p: Play<W>, r: Roster, at: int, z: Resume, q: Play<W>)
    requires 0 <= z.index <= |r.order|
    decreases |r.order| - z.index
  {
    if z.index == |r.order| then q == p
    else if !e.present(p.world, r.order[z.index]) then Turns(e, p, r, at, Fresh(z.index + 1), q)
    else exists m ::
      && Turn(e, Readied(e, p, r.order[z.index], z.started), r, at, z, m)
      && Turns(e, m, r, at, Fresh(z.index + 1), q)
  }

  // The turn to continue with.
  function ResumeAt(c: Combat): (z: Resume)
    ensures 0 <= z.index <= |c.roster.order|
  {
    if c.cursor.Some? && 0 <= c.cursor.value < |c.roster.order|
    then Resume(c.cursor.value, c.started, if c.started then c.rejected else 0)
    else Fresh(0)
  }

  // One combat's share of the game round may lead from `p` to `q`.
  ghost predicate FinishOne<W(!new), A(!new)>(e: Engine<W, A>, p: Play<W>, c: Combat, at: int, q: Play<W>) {
    if c.completedAt == Some(at) then q == p
    else exists m :: Turns(e, p, c.roster, at, ResumeAt(c), m) && q == Closing(e, m, c.roster.loc, at)
  }

  // The uninterrupted combat phase from here on.
  ghost predicate Finish<W(!new), A(!new)>(e: Engine<W, A>, p: Play<W>, cs: seq<Combat>, at: int, q: Play<W>)
    decreases |cs|
  {
    if cs == [] then q == p
    else exists m :: FinishOne(e, p, cs[0], at, m) && Finish(e, m, cs[1..], at, q)
  }

  // A log that the uninterrupted combat phase may write.
  ghost predicate PossibleLog<W(!new), A(!new)>(
    e: Engine<W, A>, p: Play<W>, cs: seq<Combat>, at: int, log: seq<Event>)
  {
    exists w :: Finish(e, p, cs, at, Play(w, log))
  }

  // The turn of a creature outside combat may end in the world `v`, `n` passes being enough.
  ghost predicate CalmIn<W(!new), A(!new)>(e: Engine<W, A>, w: W, id: string, v: W, n: nat)
    decreases n
  {
    if !e.acting(w, id) then v == w
    else n > 0 && exists d {:trigger e.may(w, id, d)} ::
      e.may(w, id, d) &&
      if d.EndTurn? then v == w
      else if e.peace(w, id, d).1 then CalmIn(e, e.peace(w, id, d).0, id, v, n - 1)
      else v == e.peace(w, id, d).0
  }

  ghost predicate Calm<W(!new), A(!new)>(e: Engine<W, A>, w: W, id: string, v: W) {
    exists n: nat :: CalmIn(e, w, id, v, n)
  }

  // One creature's share of the peaceful turns: nothing for who is gone, fights or has no brain.
  ghost predicate Calms<W(!new), A(!new)>(e: Engine<W, A>, w: W, id: string, v: W) {
    if e.present(w, id) && !e.fighting(w, id) && e.hasBrain(w, id) then Calm(e, w, id, v) else v == w
  }

  // The peaceful turns, one creature after the other, may lead from `w` to `v`.
  ghost predicate Peaceful<W(!new), A(!new)>(e: Engine<W, A>, w: W, ids: seq<string>, v: W)
    decreases |ids|
  {
    if ids == [] then v == w
    else
      var front, last := ids[..|ids| - 1], ids[|ids| - 1];
      exists m :: Peaceful(e, w, front, m) && Calms(e, m, last, v)
  }

  lemma CalmStops<W(!new), A(!new)>(e: Engine<W, A>, w: W, id: string)
    requires !e.acting(w, id)
    ensures Calm(e, w, id, w)
  {
    assert CalmIn(e, w, id, w, 0);
  }

  lemma CalmStep<W(!new), A(!new)>(e: Engine<W, A>, w: W, id: string, d: Decision<A>, v: W)
    requires e.acting(w, id) && e.may(w, id, d)
    requires if d.EndTurn? then v == w
             else if e.peace(w, id, d).1 then Calm(e, e.peace(w, id, d).0, id, v) else v == e.peace(w, id, d).0
    ensures Calm(e, w, id, v)
  {
    var n: nat := 0;
    if !d.EndTurn? && e.peace(w, id, d).1 {
      n :| CalmIn(e, e.peace(w, id, d).0, id, v, n);
    }
    assert CalmIn(e, w, id, v, n + 1);
  }

  // --- The count of rejections, which a stop forgets ---

  // One more rejection on the count rules nothing out, as long as the third is not reached.
  lemma CountMayGrow<W(!new), A(!new)>(e: Engine<W, A>, w: W, id: string, failures: nat, v: W)
    requires RejectionsAreNoOps(e) && failures + 1 < 3 && Rest(e, w, id, failures, v)
    ensures Rest(e, w, id, failures + 1, v)
  {
    if e.acting(w, id) {
      var d := FirstPass(e, w, id, failures, v);
      if Passed(e, w, id, d).1 != Failed {
        RestStep(e, w, id, failures + 1, d, v);
      }
    } else {
      RestStops(e, w, id, failures, v);
      RestStops(e, w, id, failures + 1, v);
    }
  }

  lemma {:induction false} CountMayShrink<W(!new), A(!new)>(e: Engine<W, A>, w: W, id: string, failures: nat, v: W)
    requires RejectionsAreNoOps(e) && failures < 3 && Rest(e, w, id, failures, v)
    ensures Rest(e, w, id, 0, v)
    decreases 3 - failures
  {
    if !e.acting(w, id) {
      RestStops(e, w, id, failures, v);
      RestStops(e, w, id, 0, v);
    } else if failures > 0 {
      var d := FirstPass(e, w, id, failures, v);
      if Passed(e, w, id, d).1 != Failed {
        RestStep(e, w, id, 0, d, v);
      } else if failures < 2 {
        CountMayShrink(e, w, id, failures + 1, v);
      } else {
        RestStops(e, w, id, 3, v);
        RestStep(e, w, id, 2, d, w);
        RestStep(e, w, id, 1, d, w);
        RestStep(e, w, id, 0, d, w);
      }
    }
  }

  /** With no-op rejections, forgetting the count changes nothing of what may happen: whoever is refused
      could have decided otherwise at once. */
  lemma {:induction false} FailuresMayBeForgotten<W(!new), A(!new)>(
    e: Engine<W, A>, w: W, id: string, failures: nat, v: W)
    requires RejectionsAreNoOps(e) && failures < 3
    ensures Rest(e, w, id, failures, v) <==> Rest(e, w, id, 0, v)
  {
    if Rest(e, w, id, failures, v) {
      CountMayShrink(e, w, id, failures, v);
    }
    if Rest(e, w, id, 0, v) && failures > 0 {
      CountMayGrow(e, w, id, 0, v);
      if failures == 2 {
        CountMayGrow(e, w, id, 1, v);
      }
    }
  }

  // What the brains decide: at the k-th pass, in the world they see.
  type Minds<!W, !A> = (nat, W, string) -> Decision<A>

  ghost predicate Obey<W(!new), A(!new)>(e: Engine<W, A>, minds: Minds<W, A>) {
    forall k, w, id :: e.may(w, id, minds(k, w, id))
  }

  // The rest of a turn ends in `v` when the decisions are given, `n` passes being enough.
  predicate EndsIn<W(==), A>(
    e: Engine<W, A>, minds: Minds<W, A>, k: nat, w: W, id: string, failures: nat, v: W, n: nat)
    decreases n
  {
    if !e.acting(w, id) || failures >= 3 then v == w
    else
      var pass := Passed(e, w, id, minds(k, w, id));
      n > 0 && match pass.1
      case Ended => v == pass.0
      case Acted => EndsIn(e, minds, k + 1, pass.0, id, 0, v, n - 1)
      case Failed => EndsIn(e, minds, k + 1, pass.0, id, failures + 1, v, n - 1)
  }

  ghost predicate Ends<W, A>(
    e: Engine<W, A>, minds: Minds<W, A>, k: nat, w: W, id: string, failures: nat, v: W)
  {
    exists n: nat :: EndsIn(e, minds, k, w, id, failures, v, n)
  }

  lemma EndsStops<W, A>(e: Engine<W, A>, minds: Minds<W, A>, k: nat, w: W, id: string, failures: nat, v: W)
    requires !e.acting(w, id) || failures >= 3
    ensures Ends(e, minds, k, w, id, failures, v) <==> v == w
  {
    assert EndsIn(e, minds, k, w, id, failures, w, 0);
  }

  lemma EndsStep<W, A>(e: Engine<W, A>, minds: Minds<W, A>, k: nat, w: W, id: string, failures: nat, v: W)
    requires e.acting(w, id) && failures < 3
    ensures var pass := Passed(e, w, id, minds(k, w, id));
            Ends(e, minds, k, w, id, failures, v) <==>
              match pass.1
              case Ended => v == pass.0
              case Acted => Ends(e, minds, k + 1, pass.0, id, 0, v)
              case Failed => Ends(e, minds, k + 1, pass.0, id, failures + 1, v)
  {
    var pass := Passed(e, w, id, minds(k, w, id));
    var f := if pass.1 == Failed then failures + 1 else 0;
    if pass.1 == Ended {
      if v == pass.0 {
        assert EndsIn(e, minds, k, w, id, failures, v, 1);
      }
    } else {
      var next := k + 1;
      if n: nat :| EndsIn(e, minds, k, w, id, failures, v, n) {
        assert EndsIn(e, minds, next, pass.0, id, f, v, n - 1);
      }
      if n: nat :| EndsIn(e, minds, next, pass.0, id, f, v, n) {
        assert EndsIn(e, minds, k, w, id, failures, v, n + 1);
      }
    }
  }

  // The next `n` passes are all rejected.
  predicate Rejected<W, A>(e: Engine<W, A>, minds: Minds<W, A>, k: nat, w: W, id: string, n: nat)
    decreases n
  {
    n == 0 || (e.acting(w, id) && Passed(e, w, id, minds(k, w, id)).1 == Failed
               && Rejected(e, minds, k + 1, Passed(e, w, id, minds(k, w, id)).0, id, n - 1))
  }

  // The world after `n` passes of one creature.
  function After<W, A>(e: Engine<W, A>, minds: Minds<W, A>, k: nat, w: W, id: string, n: nat): W
    decreases n
  {
    if n == 0 then w else After(e, minds, k + 1, Passed(e, w, id, minds(k, w, id)).0, id, n - 1)
  }

  lemma {:induction false} RejectionsCount<W, A>(
    e: Engine<W, A>, minds: Minds<W, A>, k: nat, w: W, id: string, n: nat, f: nat, v: W)
    requires f + n <= 3 && Rejected(e, minds, k, w, id, n)
    ensures Ends(e, minds, k, w, id, f, v) <==> Ends(e, minds, k + n, After(e, minds, k, w, id, n), id, f + n, v)
    decreases n
  {
    if n > 0 {
      EndsStep(e, minds, k, w, id, f, v);
      RejectionsCount(e, minds, k + 1, Passed(e, w, id, minds(k, w, id)).0, id, n - 1, f + 1, v);
    }
  }

  lemma {:induction false} OtherwiseCountIsIrrelevant<W, A>(
    e: Engine<W, A>, minds: Minds<W, A>, k: nat, w: W, id: string, n: nat, f: nat, g: nat, v: W)
    requires f + n <= 3 && g + n <= 3 && !Rejected(e, minds, k, w, id, n)
    ensures Ends(e, minds, k, w, id, f, v) <==> Ends(e, minds, k, w, id, g, v)
    decreases n
  {
    if !e.acting(w, id) {
      EndsStops(e, minds, k, w, id, f, v);
      EndsStops(e, minds, k, w, id, g, v);
    } else {
      EndsStep(e, minds, k, w, id, f, v);
      EndsStep(e, minds, k, w, id, g, v);
      var pass := Passed(e, w, id, minds(k, w, id));
      if pass.1 == Failed {
        OtherwiseCountIsIrrelevant(e, minds, k + 1, pass.0, id, n - 1, f + 1, g + 1, v);
      }
    }
  }

  // The turn ends in `u`, and nowhere else.
  ghost predicate EndsExactlyIn<W(!new), A(!new)>(
    e: Engine<W, A>, minds: Minds<W, A>, k: nat, w: W, id: string, failures: nat, u: W)
  {
    forall v :: Ends(e, minds, k, w, id, failures, v) <==> v == u
  }

  /** Exactly when a turn may forget its count, whatever the engine and the brains: unless the rejections
      that would have ended it all come, and going on after them changes something. */
  lemma ResumeIsExact<W(!new), A(!new)>(e: Engine<W, A>, minds: Minds<W, A>, k: nat, w: W, id: string, f: nat)
    requires f <= 3
    ensures (forall v :: Ends(e, minds, k, w, id, f, v) <==> Ends(e, minds, k, w, id, 0, v))
      <==> var n := 3 - f;
           var u := After(e, minds, k, w, id, n);
           !Rejected(e, minds, k, w, id, n) || EndsExactlyIn(e, minds, k + n, u, id, n, u)
  {
    var n, after := 3 - f, k + 3 - f;
    var u := After(e, minds, k, w, id, n);
    forall v
      ensures Rejected(e, minds, k, w, id, n) ==>
                && (Ends(e, minds, k, w, id, f, v) <==> v == u)
                && (Ends(e, minds, k, w, id, 0, v) <==> Ends(e, minds, after, u, id, n, v))
      ensures !Rejected(e, minds, k, w, id, n) ==>
                (Ends(e, minds, k, w, id, f, v) <==> Ends(e, minds, k, w, id, 0, v))
    {
      if Rejected(e, minds, k, w, id, n) {
        RejectionsCount(e, minds, k, w, id, n, f, v);
        RejectionsCount(e, minds, k, w, id, n, 0, v);
        EndsStops(e, minds, after, u, id, 3, v);
      } else {
        OtherwiseCountIsIrrelevant(e, minds, k, w, id, n, f, 0, v);
      }
    }
  }

  // What obedient brains decide is one of the things that may happen.
  lemma {:induction false} EndingIsPossible<W(!new), A(!new)>(
    e: Engine<W, A>, minds: Minds<W, A>, k: nat, w: W, id: string, f: nat, v: W, n: nat)
    requires Obey(e, minds) && EndsIn(e, minds, k, w, id, f, v, n)
    ensures RestIn(e, w, id, f, v, n)
    decreases n
  {
    if e.acting(w, id) && f < 3 {
      var d := minds(k, w, id);
      var pass := Passed(e, w, id, d);
      match pass.1 {
        case Ended =>
        case Acted => EndingIsPossible(e, minds, k + 1, pass.0, id, 0, v, n - 1);
        case Failed => EndingIsPossible(e, minds, k + 1, pass.0, id, f + 1, v, n - 1);
      }
      assert e.may(w, id, d);
    }
  }

  // --- What may happen is never nothing, and is one thing when the decisions are settled ---

  ghost predicate EndsSomewhere<W(!new), A(!new)>(e: Engine<W, A>, w: W, id: string, f: nat) {
    exists v :: Rest(e, w, id, f, v)
  }

  // From everywhere a turn can be brought to an end.
  ghost predicate CanEnd<W(!new), A(!new)>(e: Engine<W, A>) {
    forall w, id, f: nat :: EndsSomewhere(e, w, id, f)
  }

  // It is enough that nobody is kept from ending a turn.
  lemma EndTurnIsEnough<W(!new), A(!new)>(e: Engine<W, A>)
    requires forall w, id :: e.may(w, id, EndTurn)
    ensures CanEnd(e)
  {
    forall w, id, f: nat ensures EndsSomewhere(e, w, id, f) {
      if !e.acting(w, id) || f >= 3 {
        RestStops(e, w, id, f, w);
      } else {
        RestStep(e, w, id, f, EndTurn, w);
      }
    }
  }

  lemma {:induction false} TurnsExist<W(!new), A(!new)>(e: Engine<W, A>, p: Play<W>, r: Roster, at: int, z: Resume)
    returns (q: Play<W>)
    requires CanEnd(e) && 0 <= z.index <= |r.order|
    ensures Turns(e, p, r, at, z, q)
    decreases |r.order| - z.index
  {
    if z.index == |r.order| {
      q := p;
    } else if !e.present(p.world, r.order[z.index]) {
      q := TurnsExist(e, p, r, at, Fresh(z.index + 1));
    } else {
      var id := r.order[z.index];
      var ready := Readied(e, p, id, z.started);
      var s := Starting(e, ready, r.loc, at, z.index, id);
      assert EndsSomewhere(e, ready.world, id, z.rejected) && EndsSomewhere(e, s.world, id, 0);
      var u :| Rest(e, ready.world, id, z.rejected, u);
      var v :| Rest(e, s.world, id, 0, v);
      var m := if !e.hasBrain(ready.world, id) then ready
               else if z.started && e.hasBudget(ready.world, id) then Play(u, ready.log)
               else if e.prepare(ready.world, id).1 then Play(v, s.log) else s;
      assert Turn(e, ready, r, at, z, m);
      q := TurnsExist(e, m, r, at, Fresh(z.index + 1));
    }
  }

  lemma {:induction false} FinishExists<W(!new), A(!new)>(e: Engine<W, A>, p: Play<W>, cs: seq<Combat>, at: int)
    returns (q: Play<W>)
    requires CanEnd(e)
    ensures Finish(e, p, cs, at, q)
    decreases |cs|
  {
    if cs == [] {
      q := p;
    } else {
      var m := p;
      if cs[0].completedAt != Some(at) {
        var n := TurnsExist(e, p, cs[0].roster, at, ResumeAt(cs[0]));
        m := Closing(e, n, cs[0].roster.loc, at);
      }
      assert FinishOne(e, p, cs[0], at, m);
      q := FinishExists(e, m, cs[1..], at);
    }
  }

  // All that may be decided in a world has the same effect: brains and reactors are functions of the
  // world, as far as it matters.
  ghost predicate Determined<W(!new), A(!new)>(e: Engine<W, A>) {
    forall w, id, d, d' :: e.may(w, id, d) && e.may(w, id, d') ==> Passed(e, w, id, d) == Passed(e, w, id, d')
  }

  lemma {:induction false} RestIsDetermined<W(!new), A(!new)>(
    e: Engine<W, A>, w: W, id: string, f: nat, u: W, v: W, n: nat)
    requires Determined(e) && RestIn(e, w, id, f, u, n) && Rest(e, w, id, f, v)
    ensures u == v
    decreases n
  {
    if !e.acting(w, id) || f >= 3 {
      RestStops(e, w, id, f, v);
    } else {
      var c :| e.may(w, id, c) && match Passed(e, w, id, c).1
               case Ended => u == Passed(e, w, id, c).0
               case Acted => RestIn(e, Passed(e, w, id, c).0, id, 0, u, n - 1)
               case Failed => RestIn(e, Passed(e, w, id, c).0, id, f + 1, u, n - 1);
      var d := FirstPass(e, w, id, f, v);
      var pass := Passed(e, w, id, d);
      assert Passed(e, w, id, c) == pass;
      match pass.1 {
        case Ended =>
        case Acted => RestIsDetermined(e, pass.0, id, 0, u, v, n - 1);
        case Failed => RestIsDetermined(e, pass.0, id, f + 1, u, v, n - 1);
      }
    }
  }

  lemma TurnIsDetermined<W(!new), A(!new)>(
    e: Engine<W, A>, p: Play<W>, r: Roster, at: int, z: Resume, q: Play<W>, q': Play<W>)
    requires Determined(e) && 0 <= z.index < |r.order| && Turn(e, p, r, at, z, q) && Turn(e, p, r, at, z, q')
    ensures q == q'
  {
    var id := r.order[z.index];
    if e.hasBrain(p.world, id) {
      if z.started && e.hasBudget(p.world, id) {
        var n: nat :| RestIn(e, p.world, id, z.rejected, q.world, n);
        RestIsDetermined(e, p.world, id, z.rejected, q.world, q'.world, n);
      } else if e.prepare(p.world, id).1 {
        var n: nat :| RestIn(e, e.prepare(p.world, id).0, id, 0, q.world, n);
        RestIsDetermined(e, e.prepare(p.world, id).0, id, 0, q.world, q'.world, n);
      }
    }
  }

  lemma {:induction false} TurnsAreDetermined<W(!new), A(!new)>(
    e: Engine<W, A>, p: Play<W>, r: Roster, at: int, z: Resume, q: Play<W>, q': Play<W>)
    requires Determined(e) && 0 <= z.index <= |r.order| && Turns(e, p, r, at, z, q) && Turns(e, p, r, at, z, q')
    ensures q == q'
    decreases |r.order| - z.index
  {
    if z.index < |r.order| {
      if !e.present(p.world, r.order[z.index]) {
        TurnsAreDetermined(e, p, r, at, Fresh(z.index + 1), q, q');
      } else {
        var ready := Readied(e, p, r.order[z.index], z.started);
        var m :| Turn(e, ready, r, at, z, m) && Turns(e, m, r, at, Fresh(z.index + 1), q);
        var m' :| Turn(e, ready, r, at, z, m') && Turns(e, m', r, at, Fresh(z.index + 1), q');
        TurnIsDetermined(e, ready, r, at, z, m, m');
        TurnsAreDetermined(e, m, r, at, Fresh(z.index + 1), q, q');
      }
    }
  }

  lemma {:induction false} FinishIsDetermined<W(!new), A(!new)>(
    e: Engine<W, A>, p: Play<W>, cs: seq<Combat>, at: int, q: Play<W>, q': Play<W>)
    requires Determined(e) && Finish(e, p, cs, at, q) && Finish(e, p, cs, at, q')
    ensures q == q'
    decreases |cs|
  {
    if cs != [] {
      var m :| FinishOne(e, p, cs[0], at, m) && Finish(e, m, cs[1..], at, q);
      var m' :| FinishOne(e, p, cs[0], at, m') && Finish(e, m', cs[1..], at, q');
      if cs[0].completedAt != Some(at) {
        var r, z := cs[0].roster, ResumeAt(cs[0]);
        var n :| Turns(e, p, r, at, z, n) && m == Closing(e, n, r.loc, at);
        var n' :| Turns(e, p, r, at, z, n') && m' == Closing(e, n', r.loc, at);
        TurnsAreDetermined(e, p, r, at, z, n, n');
      }
      FinishIsDetermined(e, m, cs[1..], at, q, q');
    }
  }

  /** Settled decisions leave the uninterrupted round one log. */
  lemma OneLog<W(!new), A(!new)>(
    e: Engine<W, A>, p: Play<W>, cs: seq<Combat>, at: int, log: seq<Event>, log': seq<Event>)
    requires Determined(e) && PossibleLog(e, p, cs, at, log) && PossibleLog(e, p, cs, at, log')
    ensures log == log'
  {
    var v :| Finish(e, p, cs, at, Play(v, log));
    var v' :| Finish(e, p, cs, at, Play(v', log'));
    FinishIsDetermined(e, p, cs, at, Play(v, log), Play(v', log'));
  }

  lemma OnlyLog<W(!new), A(!new)>(e: Engine<W, A>, p: Play<W>, cs: seq<Combat>, at: int, log: seq<Event>)
    requires Determined(e) && PossibleLog(e, p, cs, at, log)
    ensures forall l :: PossibleLog(e, p, cs, at, l) ==> l == log
  {
    forall l | PossibleLog(e, p, cs, at, l) ensures l == log {
      OneLog(e, p, cs, at, l, log);
    }
  }

  // --- Interrupted and continued: nothing new may happen ---

  // Whatever may follow from `p` at `z` could have followed from `p0` at `z0`.
  ghost predicate Narrows<W(!new), A(!new)>(
    e: Engine<W, A>, r: Roster, at: int, p: Play<W>, z: Resume, p0: Play<W>, z0: Resume)
    requires 0 <= z.index <= |r.order| && 0 <= z0.index <= |r.order|
  {
    forall q :: Turns(e, p, r, at, z, q) ==> Turns(e, p0, r, at, z0, q)
  }

  ghost predicate NarrowsFinish<W(!new), A(!new)>(
    e: Engine<W, A>, at: int, p: Play<W>, cs: seq<Combat>, p0: Play<W>, cs0: seq<Combat>)
  {
    forall q :: Finish(e, p, cs, at, q) ==> Finish(e, p0, cs0, at, q)
  }

  // Whatever log may come of `p` could have come of `p0`.
  ghost predicate NarrowsLogs<W(!new), A(!new)>(
    e: Engine<W, A>, at: int, p: Play<W>, cs: seq<Combat>, p0: Play<W>, cs0: seq<Combat>)
  {
    forall l :: PossibleLog(e, p, cs, at, l) ==> PossibleLog(e, p0, cs0, at, l)
  }

  lemma LogsNarrow<W(!new), A(!new)>(
    e: Engine<W, A>, at: int, p: Play<W>, cs: seq<Combat>, p0: Play<W>, cs0: seq<Combat>)
    requires NarrowsFinish(e, at, p, cs, p0, cs0)
    ensures NarrowsLogs(e, at, p, cs, p0, cs0)
  {
    forall l | PossibleLog(e, p, cs, at, l) ensures PossibleLog(e, p0, cs0, at, l) {
      var v :| Finish(e, p, cs, at, Play(v, l));
      assert Finish(e, p0, cs0, at, Play(v, l));
    }
  }

  lemma NarrowsFinishOn<W(!new), A(!new)>(
    e: Engine<W, A>, at: int, q: Play<W>, ds: seq<Combat>, p: Play<W>, cs: seq<Combat>, p0: Play<W>,
          cs0: seq<Combat>)
    requires NarrowsFinish(e, at, p, cs, p0, cs0) && NarrowsFinish(e, at, q, ds, p, cs)
    ensures NarrowsFinish(e, at, q, ds, p0, cs0)
  {
  }

  lemma SkipNarrows<W(!new), A(!new)>(e: Engine<W, A>, r: Roster, at: int, p: Play<W>, z: Resume)
    requires 0 <= z.index < |r.order| && !e.present(p.world, r.order[z.index])
    ensures Narrows(e, r, at, p, Fresh(z.index + 1), p, z)
  {
  }

  // A turn that was played to its end.
  lemma PlayedNarrows<W(!new), A(!new)>(e: Engine<W, A>, r: Roster, at: int, p: Play<W>, z: Resume, m: Play<W>)
    requires 0 <= z.index < |r.order| && e.present(p.world, r.order[z.index])
    requires Turn(e, Readied(e, p, r.order[z.index], z.started), r, at, z, m)
    ensures Narrows(e, r, at, m, Fresh(z.index + 1), p, z)
  {
  }

  // A turn that was interrupted.
  lemma InterruptedNarrows<W(!new), A(!new)>(
    e: Engine<W, A>, r: Roster, at: int, p: Play<W>, z: Resume, m: Play<W>, y: Resume)
    requires 0 <= z.index < |r.order| && y.index == z.index && y.started
    requires e.present(p.world, r.order[z.index]) && e.present(m.world, r.order[z.index])
    requires forall q :: Turn(e, m, r, at, y, q) ==> Turn(e, Readied(e, p, r.order[z.index], z.started), r, at, z, q)
    ensures Narrows(e, r, at, m, y, p, z)
  {
    forall q | Turns(e, m, r, at, y, q) ensures Turns(e, p, r, at, z, q) {
      var n :| Turn(e, m, r, at, y, n) && Turns(e, n, r, at, Fresh(z.index + 1), q);
    }
  }

  lemma NarrowsOn<W(!new), A(!new)>(e: Engine<W, A>, r: Roster, at: int, p: Play<W>, z: Resume, m: Play<W>, y: Resume,
      q: Play<W>, x: Resume)
    requires 0 <= z.index <= |r.order| && 0 <= y.index <= |r.order| && 0 <= x.index <= |r.order|
    requires Narrows(e, r, at, m, y, p, z) && Narrows(e, r, at, q, x, m, y)
    ensures Narrows(e, r, at, q, x, p, z)
  {
  }

  lemma {:induction false} FinishSplit<W(!new), A(!new)>(
    e: Engine<W, A>, p: Play<W>, cs: seq<Combat>, at: int, k: nat, q: Play<W>)
    requires k <= |cs|
    requires forall j :: 0 <= j < k ==> cs[j].completedAt == Some(at)
    ensures Finish(e, p, cs, at, q) <==> Finish(e, p, cs[k..], at, q)
  {
    if k > 0 {
      assert cs[1..][k - 1..] == cs[k..];
      FinishSplit(e, p, cs[1..], at, k - 1, q);
      assert FinishOne(e, p, cs[0], at, p);
    }
  }

  // One combat further.
  lemma FinishNext<W(!new), A(!new)>(e: Engine<W, A>, p: Play<W>, cs: seq<Combat>, at: int, k: nat, m: Play<W>)
    requires k < |cs| && FinishOne(e, p, cs[k], at, m)
    ensures NarrowsFinish(e, at, m, cs[k + 1..], p, cs[k..])
  {
    assert cs[k..][1..] == cs[k + 1..];
  }

  /** Combat `k` was interrupted after those before it closed: what may happen from here could have
      happened as if nothing had been interrupted. */
  lemma FinishResumed<W(!new), A(!new)>(e: Engine<W, A>, p: Play<W>, cs: seq<Combat>, p0: Play<W>, cs0: seq<Combat>,
      at: int, k: nat)
    requires k < |cs| == |cs0|
    requires forall j :: 0 <= j < k ==> cs[j].completedAt == Some(at)
    requires forall j :: k < j < |cs| ==> cs[j] == cs0[j]
    requires forall m :: FinishOne(e, p, cs[k], at, m) ==> FinishOne(e, p0, cs0[k], at, m)
    ensures NarrowsFinish(e, at, p, cs, p0, cs0[k..])
  {
    forall q | Finish(e, p, cs, at, q) ensures Finish(e, p0, cs0[k..], at, q) {
      FinishSplit(e, p, cs, at, k, q);
      assert cs[k..][1..] == cs0[k..][1..];
      var m :| FinishOne(e, p, cs[k..][0], at, m) && Finish(e, m, cs[k..][1..], at, q);
      assert FinishOne(e, p0, cs0[k..][0], at, m);
    }
  }

  lemma ClosedNarrows<W(!new), A(!new)>(e: Engine<W, A>, at: int, q: Play<W>, p: Play<W>, p0: Play<W>, cs: seq<Combat>,
      k: nat)
    requires k < |cs| && NarrowsFinish(e, at, p, cs[k..], p0, cs) && FinishOne(e, p, cs[k], at, q)
    ensures NarrowsFinish(e, at, q, cs[k + 1..], p0, cs)
  {
    FinishNext(e, p, cs, at, k, q);
    NarrowsFinishOn(e, at, q, cs[k + 1..], p, cs[k..], p0, cs);
  }

  lemma ResumedNarrows<W(!new), A(!new)>(e: Engine<W, A>, at: int, q: Play<W>, ds: seq<Combat>, p: Play<W>, p0: Play<W>,
      cs: seq<Combat>, k: nat)
    requires k < |cs| == |ds| && NarrowsFinish(e, at, p, cs[k..], p0, cs)
    requires forall j :: 0 <= j < k ==> ds[j].completedAt == Some(at)
    requires forall j :: k < j < |cs| ==> ds[j] == cs[j]
    requires forall m :: FinishOne(e, q, ds[k], at, m) ==> FinishOne(e, p, cs[k], at, m)
    ensures NarrowsFinish(e, at, q, ds, p0, cs)
  {
    FinishResumed(e, q, ds, p, cs, at, k);
    NarrowsFinishOn(e, at, q, ds, p, cs[k..], p0, cs);
  }

  // A combat phase whose combats have all closed adds nothing when it is run again.
  lemma {:induction false} NothingLeft<W(!new), A(!new)>(
    e: Engine<W, A>, p: Play<W>, cs: seq<Combat>, at: int, q: Play<W>)
    requires forall c :: c in cs ==> c.completedAt == Some(at)
    ensures Finish(e, p, cs, at, q) <==> q == p
    decreases |cs|
  {
    if cs != [] {
      assert cs[0] in cs;
      NothingLeft(e, p, cs[1..], at, q);
      assert FinishOne(e, p, cs[0], at, p);
    }
  }

  // Nobody falls: every creature of the order is present and has a brain, whatever happens.
  ghost predicate NobodyFalls<W(!new), A>(e: Engine<W, A>, order: seq<string>) {
    forall w, id :: id in order ==> e.present(w, id) && e.hasBrain(w, id)
  }

  function StartsFrom(r: Roster, at: int, i: int): seq<Event>
    requires 0 <= i <= |r.order|
    decreases |r.order| - i
  {
    if i == |r.order| then [] else [Started(r.loc, at, i, r.order[i])] + StartsFrom(r, at, i + 1)
  }

  /** While nobody falls, everyone gets exactly one turn, in initiative order. */
  lemma {:induction false} EveryoneGetsATurn<W(!new), A(!new)>(
    e: Engine<W, A>, p: Play<W>, r: Roster, at: int, i: int, q: Play<W>)
    requires NobodyFalls(e, r.order) && 0 <= i <= |r.order| && Turns(e, p, r, at, Fresh(i), q)
    ensures q.log == p.log + StartsFrom(r, at, i)
    decreases |r.order| - i
  {
    if i < |r.order| {
      var m :| Turn(e, Readied(e, p, r.order[i], false), r, at, Fresh(i), m) && Turns(e, m, r, at, Fresh(i + 1), q);
      EveryoneGetsATurn(e, m, r, at, i + 1, q);
    }
  }

  /** The turn of a single combatant. A fresh one readies it, ticks its conditions and grants the budget,
      in this order, and is recorded; one that had started and has its budget goes on from where it is;
      nobody gone takes a turn. */
  lemma OneTurnInDetail<W(!new), A(!new)>(e: Engine<W, A>, p: Play<W>, loc: string, id: string, at: int, z: Resume,
      q: Play<W>)
    requires z.index == 0 && Turns(e, p, Roster(loc, [id]), at, z, q)
    ensures !e.present(p.world, id) ==> q == p
    ensures e.present(p.world, id) && !z.started && e.hasBrain(e.ready(p.world, id), id) ==>
              var prepared := e.prepare(e.ready(p.world, id), id);
              && q.log == p.log + [Started(loc, at, 0, id)]
              && (if prepared.1 then Rest(e, prepared.0, id, 0, q.world) else q.world == prepared.0)
    ensures e.present(p.world, id) && z.started && e.hasBrain(p.world, id) && e.hasBudget(p.world, id) ==>
              q.log == p.log && Rest(e, p.world, id, z.rejected, q.world)
  {
    var r := Roster(loc, [id]);
    if e.present(p.world, id) {
      var m :| Turn(e, Readied(e, p, id, z.started), r, at, z, m) && Turns(e, m, r, at, Fresh(1), q);
      assert q == m;
    } else {
      assert Turns(e, p, r, at, Fresh(1), q);
    }
  }

  // --- What the log keeps, whatever the brains and handlers do ---

  // Within one game time every turn of a combat starts at most once and in initiative order, the
  // combat closes at most once, and nothing starts after that; time never runs backwards.
  ghost predicate LogOk(log: seq<Event>) {
    forall i, j :: 0 <= i < j < |log| ==> Follows(log[i], log[j])
  }

  predicate Follows(x: Event, y: Event) {
    && x.at <= y.at
    && (x.at == y.at && x.loc == y.loc ==> x.Started? && (y.Started? ==> x.index < y.index))
  }

  // At game time `at` the combat has not closed, and started turns come before turn `i` (turn `i`
  // itself may have started when it is to be continued).
  ghost predicate StartedBefore(log: seq<Event>, loc: string, at: int, i: int, cont: bool) {
    forall x :: x in log && x.loc == loc && x.at == at ==> x.Started? && (x.index < i || (cont && x.index == i))
  }

  predicate CursorInRange(c: Combat) {
    c.cursor.Some? ==> 0 <= c.cursor.value < |c.roster.order|
  }

  // The log and the cursor of a combat agree.
  ghost predicate Recorded(log: seq<Event>, c: Combat, at: int) {
    && CursorInRange(c)
    && (c.completedAt != Some(at) ==> StartedBefore(log, c.roster.loc, at, ResumeAt(c).index, ResumeAt(c).started))
  }

  // A turn waiting to be continued still has its budget and, where rejections change nothing, an attempt.
  predicate CanContinue<W, A>(e: Engine<W, A>, noOps: bool, w: W, r: Roster, z: Resume) {
    z.started ==> 0 <= z.index < |r.order| && e.hasBudget(w, r.order[z.index]) && (noOps ==> z.rejected < 3)
  }

  // `after` adds only events of one combat at one time.
  ghost predicate Extends(before: seq<Event>, after: seq<Event>, loc: string, at: int) {
    && |before| <= |after| && after[..|before|] == before
    && forall x :: x in after[|before|..] ==> x.loc == loc && x.at == at
  }

  ghost predicate NoLaterThan(log: seq<Event>, at: int) {
    forall x :: x in log ==> x.at <= at
  }

  lemma AppendKeepsLog(log: seq<Event>, y: Event)
    requires LogOk(log) && forall x :: x in log ==> Follows(x, y)
    ensures LogOk(log + [y])
  {
  }

  lemma RecordStart(log: seq<Event>, loc: string, at: int, i: int, who: string)
    requires LogOk(log) && NoLaterThan(log, at) && StartedBefore(log, loc, at, i, false)
    ensures var more := log + [Started(loc, at, i, who)];
            LogOk(more) && NoLaterThan(more, at) && StartedBefore(more, loc, at, i, true)
  {
    AppendKeepsLog(log, Started(loc, at, i, who));
  }

  lemma RecordClose(log: seq<Event>, loc: string, at: int, i: int, cont: bool)
    requires LogOk(log) && NoLaterThan(log, at) && StartedBefore(log, loc, at, i, cont)
    ensures LogOk(log + [Closed(loc, at)]) && NoLaterThan(log + [Closed(loc, at)], at)
  {
    AppendKeepsLog(log, Closed(loc, at));
  }

  lemma ExtendsMore(before: seq<Event>, mid: seq<Event>, after: seq<Event>, loc: string, at: int)
    requires Extends(before, mid, loc, at) && Extends(mid, after, loc, at)
    ensures Extends(before, after, loc, at)
  {
    assert after[|before|..] == mid[|before|..] + after[|mid|..];
  }

  // Events of another combat leave this one's record alone.
  lemma OthersKeepRecord(before: seq<Event>, after: seq<Event>, loc: string, at: int, c: Combat)
    requires Extends(before, after, loc, at) && c.roster.loc != loc && Recorded(before, c, at)
    ensures Recorded(after, c, at)
  {
    assert after == before + after[|before|..];
  }

  // Nothing is on record for a later game time, so cursors start afresh.
  lemma NewTimeIsBlank(log: seq<Event>, c: Combat, at: int, later: int)
    requires NoLaterThan(log, at) && at < later && CursorInRange(c)
    ensures NoLaterThan(log, later) && Recorded(log, c, later)
  {
  }

  // --- Properties of world and log that no single effect breaks ---

  ghost predicate Keeps<W(!new), A(!new)>(e: Engine<W, A>, watch: Play<W> -> bool) {
    && (forall w, log, id, d :: watch(Play(w, log)) ==>
            watch(Play(e.act(w, id, d).0, log)) && watch(Play(e.peace(w, id, d).0, log)))
    && (forall w, log, id :: watch(Play(w, log)) ==> watch(Play(e.ready(w, id), log)))
    && (forall w, log, loc, at, i, id ::
            watch(Play(w, log)) ==> watch(Play(e.prepare(w, id).0, log + [Started(loc, at, i, id)])))
    && (forall w, log, loc, at :: watch(Play(w, log)) ==> watch(Play(e.close(w, loc), log + [Closed(loc, at)])))
    && (forall w, log {:trigger watch(Play(e.elapse(w), log))} :: watch(Play(w, log)) ==> watch(Play(e.elapse(w), log)))
  }
}
