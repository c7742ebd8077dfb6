/** What the rules of a game round say, unfolded into the engine's own steps. */
module RoundLaws {
  import opened Grid
  import opened Rounds

  // The way a turn goes on after one permitted decision: ending it costs nothing, an action counts as a
  // rejection only when it is rejected.
  ghost predicate GoesOn<W(!new), A(!new)>(
    e: Engine<W, A>, w: W, id: string, rejections: nat, d: Decision<A>, v: W)
  {
    match d
    case EndTurn => v == w
    case Do(_, _) =>
      var done := e.act(w, id, d);
      match done.1
      case Ended => v == done.0
      case Acted => Rest(e, done.0, id, 0, v)
      case Failed => Rest(e, done.0, id, rejections + 1, v)
  }

  /** The rest of a turn, pass by pass: over when the creature no longer acts or was refused three times in a
      row, else one permitted decision and what follows it. */
  lemma TurnsPassByPass<W(!new), A(!new)>(e: Engine<W, A>, w: W, id: string, rejections: nat, v: W)
    ensures !e.acting(w, id) || rejections >= 3 ==> (Rest(e, w, id, rejections, v) <==> v == w)
    ensures e.acting(w, id) && rejections < 3 ==>
              (Rest(e, w, id, rejections, v) <==> exists d :: e.may(w, id, d) && GoesOn(e, w, id, rejections, d, v))
  {
    if !e.acting(w, id) || rejections >= 3 {
      RestStops(e, w, id, rejections, v);
    } else {
      forall d ensures GoesOn(e, w, id, rejections, d, v) <==> Goes(e, w, id, rejections, d, v) {
      }
      if Rest(e, w, id, rejections, v) {
        var d := FirstPass(e, w, id, rejections, v);
      }
      if d :| e.may(w, id, d) && GoesOn(e, w, id, rejections, d, v) {
        RestStep(e, w, id, rejections, d, v);
      }
    }
  }

  ghost predicate CalmGoesOn<W(!new), A(!new)>(e: Engine<W, A>, w: W, id: string, d: Decision<A>, v: W) {
    match d
    case EndTurn => v == w
    case Do(_, _) => if e.peace(w, id, d).1 then Calm(e, e.peace(w, id, d).0, id, v) else v == e.peace(w, id, d).0
  }

  /** A turn outside combat, pass by pass: one action, and more only after a query. */
  lemma CalmPassByPass<W(!new), A(!new)>(e: Engine<W, A>, w: W, id: string, v: W)
    ensures !e.acting(w, id) ==> (Calm(e, w, id, v) <==> v == w)
    ensures e.acting(w, id) ==> (Calm(e, w, id, v) <==> exists d :: e.may(w, id, d) && CalmGoesOn(e, w, id, d, v))
  {
    if !e.acting(w, id) {
      CalmStops(e, w, id);
    } else {
      if Calm(e, w, id, v) {
        var d := FirstCalmPass(e, w, id, v);
      }
      if d :| e.may(w, id, d) && CalmGoesOn(e, w, id, d, v) {
        CalmStep(e, w, id, d, v);
      }
    }
  }

  lemma FirstCalmPass<W(!new), A(!new)>(e: Engine<W, A>, w: W, id: string, v: W) returns (d: Decision<A>)
    requires e.acting(w, id) && Calm(e, w, id, v)
    ensures e.may(w, id, d) && CalmGoesOn(e, w, id, d, v)
  {
    var n: nat :| CalmIn(e, w, id, v, n);
    d :| e.may(w, id, d) &&
         if d.EndTurn? then v == w
         else if e.peace(w, id, d).1 then CalmIn(e, e.peace(w, id, d).0, id, v, n - 1)
         else v == e.peace(w, id, d).0;
  }

  /** Each creature that is there, fights nowhere and has a brain gets its turn outside combat, in order; the
      others leave the world alone. */
  lemma PeacefulOneByOne<W(!new), A(!new)>(e: Engine<W, A>, w: W, ids: seq<string>, last: string, v: W)
    ensures Peaceful(e, w, [], v) <==> v == w
    ensures Peaceful(e, w, ids + [last], v) <==>
            exists m :: Peaceful(e, w, ids, m)
              && if e.present(m, last) && !e.fighting(m, last) && e.hasBrain(m, last) then Calm(e, m, last, v)
                 else v == m
  {
    var all := ids + [last];
    assert all[..|all| - 1] == ids;
    forall m
      ensures Calms(e, m, last, v) <==>
              if e.present(m, last) && !e.fighting(m, last) && e.hasBrain(m, last) then Calm(e, m, last, v) else v == m
    {
    }
  }

  /** A combat that has not closed at this game time goes on at its cursor, with the turn that had started if one
      had, and closes after its turns: the round of its location ends, and that is recorded. */
  lemma EveryCombatCloses<W(!new), A(!new)>(e: Engine<W, A>, p: Play<W>, c: Combat, at: int, q: Play<W>)
    returns (m: Play<W>)
    requires FinishOne(e, p, c, at, q)
    ensures c.completedAt == Some(at) ==> q == p
    ensures c.completedAt != Some(at) ==>
              && (match c.cursor
                  case Some(i) =>
                    if 0 <= i < |c.roster.order|
                    then Turns(e, p, c.roster, at, Resume(i, c.started, if c.started then c.rejected else 0), m)
                    else Turns(e, p, c.roster, at, Resume(0, false, 0), m)
                  case None => Turns(e, p, c.roster, at, Resume(0, false, 0), m))
              && q.world == e.close(m.world, c.roster.loc) && q.log == m.log + [Closed(c.roster.loc, at)]
  {
    m := p;
    if c.completedAt != Some(at) {
      m :| Turns(e, p, c.roster, at, ResumeAt(c), m) && q == Closing(e, m, c.roster.loc, at);
    }
  }

  ghost predicate NobodyFallsIn<W(!new), A>(e: Engine<W, A>, c: Combat) {
    NobodyFalls(e, c.roster.order)
  }

  // Nobody falls in any combat.
  ghost predicate NobodyFallsAnywhere<W(!new), A>(e: Engine<W, A>, cs: seq<Combat>) {
    forall i :: 0 <= i < |cs| ==> NobodyFallsIn(e, cs[i])
  }

  // Combats at the beginning of their rounds.
  predicate AllFresh(cs: seq<Combat>, at: int) {
    forall i :: 0 <= i < |cs| ==> cs[i].cursor == None && cs[i].completedAt != Some(at)
  }

  // One started turn for each creature of each combat, and the end of the combat's round.
  function FullLog(cs: seq<Combat>, at: int): seq<Event> {
    if cs == [] then []
    else StartsFrom(cs[0].roster, at, 0) + [Closed(cs[0].roster.loc, at)] + FullLog(cs[1..], at)
  }

  /** While nobody falls, the log of the whole combat phase is one started turn for each creature of each combat,
      in the order of the combats and of their initiative, and the end of each combat's round behind its turns. */
  lemma {:induction false} EveryCombatIsFought<W(!new), A(!new)>(
    e: Engine<W, A>, p: Play<W>, cs: seq<Combat>, at: int, q: Play<W>)
    requires NobodyFallsAnywhere(e, cs) && AllFresh(cs, at) && Finish(e, p, cs, at, q)
    ensures q.log == p.log + FullLog(cs, at)
    decreases |cs|
  {
    if cs != [] {
      OtherCombatsAreFresh(e, cs, at);
      var m := FirstCombatIsFought(e, p, cs, at, q);
      EveryCombatIsFought(e, m, cs[1..], at, q);
      assert q.log == p.log + ((StartsFrom(cs[0].roster, at, 0) + [Closed(cs[0].roster.loc, at)])
          + FullLog(cs[1..], at));
    }
  }

  lemma FirstCombatIsFought<W(!new), A(!new)>(e: Engine<W, A>, p: Play<W>, cs: seq<Combat>, at: int, q: Play<W>)
    returns (m: Play<W>)
    requires cs != [] && NobodyFallsIn(e, cs[0]) && cs[0].cursor == None && cs[0].completedAt != Some(at)
    requires Finish(e, p, cs, at, q)
    ensures Finish(e, m, cs[1..], at, q)
    ensures m.log == p.log + (StartsFrom(cs[0].roster, at, 0) + [Closed(cs[0].roster.loc, at)])
  {
    m :| FinishOne(e, p, cs[0], at, m) && Finish(e, m, cs[1..], at, q);
    OneCombatIsFought(e, p, cs[0], at, m);
  }

  lemma OtherCombatsAreFresh<W(!new), A(!new)>(e: Engine<W, A>, cs: seq<Combat>, at: int)
    requires NobodyFallsAnywhere(e, cs) && AllFresh(cs, at) && cs != []
    ensures NobodyFallsAnywhere(e, cs[1..]) && AllFresh(cs[1..], at)
    ensures NobodyFallsIn(e, cs[0]) && cs[0].cursor == None && cs[0].completedAt != Some(at)
  {
    forall i | 0 <= i < |cs[1..]| ensures NobodyFallsIn(e, cs[1..][i]) {
      assert cs[1..][i] == cs[i + 1];
    }
  }

  lemma OneCombatIsFought<W(!new), A(!new)>(e: Engine<W, A>, p: Play<W>, c: Combat, at: int, q: Play<W>)
    requires NobodyFallsIn(e, c) && FinishOne(e, p, c, at, q)
    requires c.cursor == None && c.completedAt != Some(at)
    ensures q.log == p.log + (StartsFrom(c.roster, at, 0) + [Closed(c.roster.loc, at)])
  {
    var turns := EveryCombatCloses(e, p, c, at, q);
    EveryoneGetsATurn(e, p, c.roster, at, 0, turns);
  }

  /** Started turns stand in the log with their place in the initiative order and their creature. */
  lemma {:induction false} StartsAreInOrder(r: Roster, at: int, i: nat, k: nat)
    requires i <= |r.order| && k < |r.order| - i
    ensures |StartsFrom(r, at, i)| == |r.order| - i
    ensures StartsFrom(r, at, i)[k] == Started(r.loc, at, i + k, r.order[i + k])
    decreases |r.order| - i
  {
    if k > 0 {
      StartsAreInOrder(r, at, i + 1, k - 1);
    } else if i + 1 < |r.order| {
      StartsAreInOrder(r, at, i + 1, 0);
    }
  }
}
