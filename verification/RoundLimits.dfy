/** What a stop can change, and what a round need not have: small engines in which a stopped and resumed
    round ends differently from the round the same brains play undisturbed, and one whose turns may go
    on forever. */
module RoundLimits {
  import opened Grid
  import opened Rounds

  // Three attempts in a row fail and count down; the fourth would succeed.
  function Stubborn(): Engine<int, int> {
    Engine((w: int, id: string) => true, (w: int, id: string) => true, (w: int, id: string) => true,
           (w: int, id: string) => w, (w: int, id: string) => (w, true), (w: int, id: string) => true,
           (w: int, id: string) => true,
           (w: int, id: string, d: Decision<int>) => d.Do?,
           (w: int, id: string, d: Decision<int>) => if w < 3 then (w + 1, Failed) else (100, Ended),
           (w: int, id: string) => w, (w: int, id: string, d: Decision<int>) => (w, false), (w: int) => w)
  }

  /** A stop after one rejection wipes the count, and the turn gets the attempt that succeeds; the
      undisturbed turn cannot end that way. */
  lemma ForgottenFailuresCanMatter(minds: Minds<int, int>, k: nat)
    requires Obey(Stubborn(), minds)
    ensures var e := Stubborn();
            && Lawful(e) && Ends(e, minds, k, 1, "a", 1, 3) && Ends(e, minds, k, 1, "a", 0, 100)
            && !Rest(e, 1, "a", 1, 100)
  {
    var e := Stubborn();
    Attempts(minds, k);
    EndsStep(e, minds, k, 1, "a", 1, 3);
    EndsStep(e, minds, k + 1, 2, "a", 2, 3);
    EndsStops(e, minds, k + 2, 3, "a", 3, 3);
    EndsStep(e, minds, k, 1, "a", 0, 100);
    EndsStep(e, minds, k + 1, 2, "a", 1, 100);
    EndsStep(e, minds, k + 2, 3, "a", 2, 100);
    var n: nat :| EndsIn(e, minds, k, 1, "a", 1, 3, n);
    EndingIsPossible(e, minds, k, 1, "a", 1, 3, n);
    if Rest(e, 1, "a", 1, 100) {
      RestIsDetermined(e, 1, "a", 1, 3, 100, n);
    }
  }

  lemma Attempts(minds: Minds<int, int>, k: nat)
    requires Obey(Stubborn(), minds)
    ensures Lawful(Stubborn()) && Determined(Stubborn())
    ensures var e := Stubborn();
            && Passed(e, 1, "a", minds(k, 1, "a")) == (2, Failed)
            && Passed(e, 2, "a", minds(k + 1, 2, "a")) == (3, Failed)
            && Passed(e, 3, "a", minds(k + 2, 3, "a")) == (100, Ended)
  {
    assert Stubborn().may(1, "a", minds(k, 1, "a"));
    assert Stubborn().may(2, "a", minds(k + 1, 2, "a"));
    assert Stubborn().may(3, "a", minds(k + 2, 3, "a"));
  }

  // A free action that always succeeds, as drawing a weapon and putting it away.
  function Toggle(): Engine<bool, int> {
    Engine((w: bool, id: string) => true, (w: bool, id: string) => true, (w: bool, id: string) => true,
           (w: bool, id: string) => w, (w: bool, id: string) => (w, true), (w: bool, id: string) => true,
           (w: bool, id: string) => true,
           (w: bool, id: string, d: Decision<int>) => true,
           (w: bool, id: string, d: Decision<int>) => (!w, Acted),
           (w: bool, id: string) => w, (w: bool, id: string, d: Decision<int>) => (w, false), (w: bool) => w)
  }

  /** Nothing in the round bounds a turn: here a brain that never ends it plays on forever, and yet the
      turn may end, in either world. */
  lemma TurnsNeedNotEnd(minds: Minds<bool, int>, w: bool, v: bool)
    requires forall k, u, id :: minds(k, u, id).Do?
    ensures Lawful(Toggle()) && RejectionsAreNoOps(Toggle()) && CanEnd(Toggle())
    ensures !Ends(Toggle(), minds, 0, w, "a", 0, v) && Rest(Toggle(), w, "a", 0, v)
  {
    EndTurnIsEnough(Toggle());
    if n: nat :| EndsIn(Toggle(), minds, 0, w, "a", 0, v, n) {
      NeverEnds(minds, 0, w, v, n);
    }
    EndsEitherWay(w, v);
  }

  lemma EndsEitherWay(w: bool, v: bool)
    ensures Rest(Toggle(), w, "a", 0, v)
  {
    RestStep(Toggle(), v, "a", 0, EndTurn, v);
    if v != w {
      RestStep(Toggle(), w, "a", 0, Do(0, (i: nat) => None), v);
    }
  }

  lemma {:induction false} NeverEnds(minds: Minds<bool, int>, k: nat, w: bool, v: bool, n: nat)
    requires forall k, u, id :: minds(k, u, id).Do?
    ensures !EndsIn(Toggle(), minds, k, w, "a", 0, v, n)
    decreases n
  {
    assert minds(k, w, "a").Do?;
    if n > 0 {
      NeverEnds(minds, k + 1, !w, v, n - 1);
    }
  }

  // The mover first leaves a reactor's reach, which kills it if the reactor answers; if it lives it then
  // kills its rival.
  datatype Duel = Duel(mover: bool, rival: bool, moved: bool)

  function Acting(w: Duel, id: string): bool {
    if id == "mover" then w.mover else w.rival
  }

  function Strikes(d: Decision<int>): bool {
    d.Do? && d.reactions(0).Some?
  }

  function Act(w: Duel, id: string, d: Decision<int>): (Duel, Outcome) {
    if id != "mover" then (w, Ended)
    else if w.moved then (w.(rival := false), Ended)
    else (w.(mover := !Strikes(d), moved := true), Acted)
  }

  // The duel with a reactor that always strikes.
  function DuelToTheEnd(): Engine<Duel, int> {
    Engine(Acting, (w: Duel, id: string) => true, (w: Duel, id: string) => true,
           (w: Duel, id: string) => w, (w: Duel, id: string) => (w, true), Acting, (w: Duel, id: string) => true,
           (w: Duel, id: string, d: Decision<int>) => Strikes(d), Act,
           (w: Duel, id: string) => w, (w: Duel, id: string, d: Decision<int>) => (w, false), (w: Duel) => w)
  }

  lemma DuelIsSettled()
    ensures Lawful(DuelToTheEnd()) && RejectionsAreNoOps(DuelToTheEnd()) && Determined(DuelToTheEnd())
  {
  }

  lemma RivalsTurn(d: Decision<int>, w: Duel)
    requires w.rival && Strikes(d)
    ensures Rest(DuelToTheEnd(), w, "rival", 0, w)
  {
    RestStep(DuelToTheEnd(), w, "rival", 0, d, w);
  }

  // A whole turn of the mover, and what is left of it after its move.
  lemma MoversTurn(d: Decision<int>, w: Duel, v: Duel)
    requires w.mover && Strikes(d)
    requires v == if w.moved then w.(rival := false) else w.(mover := false, moved := true)
    ensures Rest(DuelToTheEnd(), w, "mover", 0, v)
  {
    if !w.moved {
      RestStops(DuelToTheEnd(), v, "mover", 0, v);
    }
    RestStep(DuelToTheEnd(), w, "mover", 0, d, v);
  }

  /** The answer to a prompt that a stop cuts off is lost for good. The reactor always strikes, and
      undisturbed both duellists' turns start. A stop that lands in the mover's step and declines the
      strike leaves `cut`, a world no permitted decision leads to; from there the round finishes with
      another log, and each of the two is the only one of its kind. */
  lemma DroppedReactionsCanMatter(d: Decision<int>, r: Roster, log: seq<Event>)
    requires Strikes(d) && r.order == ["mover", "rival"]
    ensures var e, w := DuelToTheEnd(), Duel(true, true, false);
            var cut := Passed(e, w, "mover", Late(d, 0)).0;
            && Lawful(e) && Determined(e) && e.may(w, "mover", d) && !Permitted(e, w, "mover", Late(d, 0))
            && (PossibleLog(e, Play(w, []), [Combat(r, None, false, None, 0)], 0, log)
                <==> log == [Started(r.loc, 0, 0, "mover"), Started(r.loc, 0, 1, "rival"), Closed(r.loc, 0)])
            && (PossibleLog(e, Play(cut, [Started(r.loc, 0, 0, "mover")]), [Combat(r, Some(0), true, None, 0)], 0, log)
                <==> log == [Started(r.loc, 0, 0, "mover"), Closed(r.loc, 0)])
  {
    var e, w := DuelToTheEnd(), Duel(true, true, false);
    var cut := Passed(e, w, "mover", Late(d, 0)).0;
    var whole := [Started(r.loc, 0, 0, "mover"), Started(r.loc, 0, 1, "rival"), Closed(r.loc, 0)];
    var half := [Started(r.loc, 0, 0, "mover"), Closed(r.loc, 0)];
    DuelIsSettled();
    Undisturbed(d, r, w);
    Disturbed(d, r, cut);
    if PossibleLog(e, Play(w, []), [Combat(r, None, false, None, 0)], 0, log) {
      OneLog(e, Play(w, []), [Combat(r, None, false, None, 0)], 0, log, whole);
    }
    var rest := Play(cut, [Started(r.loc, 0, 0, "mover")]);
    if PossibleLog(e, rest, [Combat(r, Some(0), true, None, 0)], 0, log) {
      OneLog(e, rest, [Combat(r, Some(0), true, None, 0)], 0, log, half);
    }
  }

  lemma Undisturbed(d: Decision<int>, r: Roster, w: Duel)
    requires Strikes(d) && r.order == ["mover", "rival"] && w == Duel(true, true, false)
    ensures PossibleLog(DuelToTheEnd(), Play(w, []), [Combat(r, None, false, None, 0)], 0,
                        [Started(r.loc, 0, 0, "mover"), Started(r.loc, 0, 1, "rival"), Closed(r.loc, 0)])
  {
    var v := Duel(false, true, true);
    var m := Play(v, [Started(r.loc, 0, 0, "mover")]);
    var n := Play(v, [Started(r.loc, 0, 0, "mover"), Started(r.loc, 0, 1, "rival")]);
    MoversTurn(d, w, v);
    RivalsTurn(d, v);
    TwoTurns(r, Play(w, []), m, n);
    OneCombat(DuelToTheEnd(), Play(w, []), Combat(r, None, false, None, 0), n,
              [Started(r.loc, 0, 0, "mover"), Started(r.loc, 0, 1, "rival"), Closed(r.loc, 0)]);
  }

  lemma TwoTurns(r: Roster, p: Play<Duel>, m: Play<Duel>, n: Play<Duel>)
    requires r.order == ["mover", "rival"] && p.world.mover && m.world.rival
    requires Rest(DuelToTheEnd(), p.world, "mover", 0, m.world) && m.log == p.log + [Started(r.loc, 0, 0, "mover")]
    requires Rest(DuelToTheEnd(), m.world, "rival", 0, n.world) && n.log == m.log + [Started(r.loc, 0, 1, "rival")]
    ensures Turns(DuelToTheEnd(), p, r, 0, Fresh(0), n)
  {
    var e := DuelToTheEnd();
    assert Turns(e, n, r, 0, Fresh(2), n);
    assert Turn(e, Readied(e, m, "rival", false), r, 0, Fresh(1), n);
    assert Turns(e, m, r, 0, Fresh(1), n);
    assert Turn(e, Readied(e, p, "mover", false), r, 0, Fresh(0), m);
  }

  lemma Disturbed(d: Decision<int>, r: Roster, w: Duel)
    requires Strikes(d) && r.order == ["mover", "rival"] && w == Duel(true, true, true)
    ensures PossibleLog(DuelToTheEnd(), Play(w, [Started(r.loc, 0, 0, "mover")]),
                        [Combat(r, Some(0), true, None, 0)], 0, [Started(r.loc, 0, 0, "mover"), Closed(r.loc, 0)])
  {
    var e, c := DuelToTheEnd(), Combat(r, Some(0), true, None, 0);
    var start := Play(w, [Started(r.loc, 0, 0, "mover")]);
    MoversTurn(d, w, Duel(true, false, true));
    var m := Play(Duel(true, false, true), start.log);
    assert Turn(e, Readied(e, start, "mover", true), r, 0, Resume(0, true, 0), m);
    assert Turns(e, m, r, 0, Fresh(2), m);
    assert Turns(e, m, r, 0, Fresh(1), m);
    assert Turns(e, start, r, 0, Resume(0, true, 0), m);
    OneCombat(e, start, c, m, [Started(r.loc, 0, 0, "mover"), Closed(r.loc, 0)]);
  }

  lemma OneCombat<W(!new)>(e: Engine<W, int>, p: Play<W>, c: Combat, m: Play<W>, log: seq<Event>)
    requires log == m.log + [Closed(c.roster.loc, 0)]
    requires c.completedAt == None && Turns(e, p, c.roster, 0, ResumeAt(c), m)
    ensures PossibleLog(e, p, [c], 0, log)
  {
    var q := Closing(e, m, c.roster.loc, 0);
    assert FinishOne(e, p, c, 0, q);
    assert Finish(e, q, [c][1..], 0, q);
    assert Finish(e, p, [c], 0, q);
  }
}
