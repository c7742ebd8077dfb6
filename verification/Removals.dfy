/** The resume cursor is an index into the initiative order, and the dead are taken out of that order at
    once: what a removal does to a round that waits to be resumed. */
module Removals {
  import opened Grid
  import opened Rounds

  function Without(order: seq<string>, j: int): seq<string>
    requires 0 <= j < |order|
  {
    order[..j] + order[j + 1..]
  }

  function Shrunk(c: Combat, j: int): Combat
    requires 0 <= j < |c.roster.order|
  {
    c.(roster := Roster(c.roster.loc, Without(c.roster.order, j)))
  }

  /** Taking a member out of the initiative order leaves the cursor on its turn, and in the same state,
      exactly when the member comes after it. Otherwise another creature is continued or skipped, or the
      round starts over, except that the last of two who has not started yet begins either way. */
  lemma RemovalMovesTheCursor(c: Combat, j: int)
    requires c.cursor.Some? && 0 <= c.cursor.value < |c.roster.order|
    requires 0 <= j < |c.roster.order| && j != c.cursor.value
    requires forall a, b :: 0 <= a < b < |c.roster.order| ==> c.roster.order[a] != c.roster.order[b]
    ensures var z, order := ResumeAt(Shrunk(c, j)), Without(c.roster.order, j);
            (z.started == c.started && z.index < |order| && order[z.index] == c.roster.order[c.cursor.value])
            <==> c.cursor.value < j || (!c.started && |c.roster.order| == 2)
  {
  }

  // Who is gone stays gone.
  ghost predicate StaysGone<W(!new), A(!new)>(e: Engine<W, A>, x: string) {
    && (forall w, id, d {:trigger e.act(w, id, d)} :: !e.present(w, x) ==> !e.present(e.act(w, id, d).0, x))
    && (forall w, id {:trigger e.prepare(w, id)} :: !e.present(w, x) ==> !e.present(e.prepare(w, id).0, x))
    && (forall w, id {:trigger e.ready(w, id)} :: !e.present(w, x) ==> !e.present(e.ready(w, id), x))
  }

  // The same turns and closings, whatever the indices of the turns.
  predicate SameEvent(a: Event, b: Event) {
    a.loc == b.loc && a.at == b.at && (a.Started? <==> b.Started?) && (a.Started? && b.Started? ==> a.who == b.who)
  }

  ghost predicate SameLog(a: seq<Event>, b: seq<Event>) {
    |a| == |b| && forall i :: 0 <= i < |a| ==> SameEvent(a[i], b[i])
  }

  ghost predicate Alike<W>(p: Play<W>, q: Play<W>) {
    p.world == q.world && SameLog(p.log, q.log)
  }

  lemma {:induction false} RestKeepsGone<W(!new), A(!new)>(
    e: Engine<W, A>, x: string, w: W, id: string, f: nat, v: W, n: nat)
    requires StaysGone(e, x) && !e.present(w, x) && RestIn(e, w, id, f, v, n)
    ensures !e.present(v, x)
    decreases n
  {
    if e.acting(w, id) && f < 3 {
      var d :| e.may(w, id, d) && match Passed(e, w, id, d).1
               case Ended => v == Passed(e, w, id, d).0
               case Acted => RestIn(e, Passed(e, w, id, d).0, id, 0, v, n - 1)
               case Failed => RestIn(e, Passed(e, w, id, d).0, id, f + 1, v, n - 1);
      var pass := Passed(e, w, id, d);
      match pass.1 {
        case Ended =>
        case Acted => RestKeepsGone(e, x, pass.0, id, 0, v, n - 1);
        case Failed => RestKeepsGone(e, x, pass.0, id, f + 1, v, n - 1);
      }
    }
  }

  // A turn at another index, in a roster of the same place, after alike plays.
  lemma TurnElsewhere<W(!new), A(!new)>(
    e: Engine<W, A>, x: string, p: Play<W>, r: Roster, z: Resume, m: Play<W>, p': Play<W>, r': Roster, i: int, at: int)
    returns (m': Play<W>)
    requires StaysGone(e, x) && !e.present(p.world, x) && Alike(p, p') && r.loc == r'.loc
    requires 0 <= z.index < |r.order| && 0 <= i < |r'.order| && r.order[z.index] == r'.order[i]
    requires Turn(e, p, r, at, z, m)
    ensures Turn(e, p', r', at, z.(index := i), m') && Alike(m, m') && !e.present(m.world, x)
  {
    var id := r.order[z.index];
    if !e.hasBrain(p.world, id) {
      m' := p';
    } else if z.started && e.hasBudget(p.world, id) {
      m' := Play(m.world, p'.log);
      var n: nat :| RestIn(e, p.world, id, z.rejected, m.world, n);
      RestKeepsGone(e, x, p.world, id, z.rejected, m.world, n);
    } else {
      m' := Play(m.world, p'.log + [Started(r'.loc, at, i, id)]);
      if e.prepare(p.world, id).1 {
        var n: nat :| RestIn(e, e.prepare(p.world, id).0, id, 0, m.world, n);
        RestKeepsGone(e, x, e.prepare(p.world, id).0, id, 0, m.world, n);
      }
    }
  }

  // The turns of the order without its j-th member, who is gone, are turns of the order with it.
  lemma {:induction false} GoneMemberIsSkipped<W(!new), A(!new)>(
    e: Engine<W, A>, r: Roster, j: int, p: Play<W>, z: Resume, q: Play<W>, p': Play<W>, at: int)
    returns (q': Play<W>)
    requires 0 <= j < |r.order| && StaysGone(e, r.order[j]) && !e.present(p.world, r.order[j]) && Alike(p, p')
    requires 0 <= z.index <= |r.order| - 1 && (z.started ==> z.index < j)
    requires Turns(e, p, Roster(r.loc, Without(r.order, j)), at, z, q)
    ensures Turns(e, p', r, at, z.(index := if z.index < j then z.index else z.index + 1), q') && Alike(q, q')
    decreases |r.order| - z.index
  {
    var less := Roster(r.loc, Without(r.order, j));
    var i := if z.index < j then z.index else z.index + 1;
    if z.index == |less.order| {
      q' := p';
    } else if !e.present(p.world, less.order[z.index]) {
      q' := GoneMemberIsSkipped(e, r, j, p, Fresh(z.index + 1), q, p', at);
      SkipTheGone(e, r, j, p', z.index, i, q', at);
    } else {
      var id := less.order[z.index];
      var ready, ready' := Readied(e, p, id, z.started), Readied(e, p', id, z.started);
      var m :| Turn(e, ready, less, at, z, m) && Turns(e, m, less, at, Fresh(z.index + 1), q);
      var m' := TurnElsewhere(e, r.order[j], ready, less, z, m, ready', r, i, at);
      q' := GoneMemberIsSkipped(e, r, j, m, Fresh(z.index + 1), q, m', at);
      SkipTheGone(e, r, j, m', z.index, i, q', at);
    }
  }

  // Just before the gone member, going on means going on behind it.
  lemma SkipTheGone<W(!new), A(!new)>(
    e: Engine<W, A>, r: Roster, j: int, p: Play<W>, k: int, i: int, q: Play<W>, at: int)
    requires 0 <= j < |r.order| && !e.present(p.world, r.order[j])
    requires 0 <= k < |r.order| - 1 && i == (if k < j then k else k + 1)
    requires Turns(e, p, r, at, Fresh(if k + 1 < j then k + 1 else k + 2), q)
    ensures Turns(e, p, r, at, Fresh(i + 1), q)
  {
  }

  /** A member that dies while a turn waits to be continued, and comes after it, makes no difference:
      whatever the resumed combat does without it, it could have done with it, the same turns in the
      same order. */
  lemma RemovalAfterTheCursor<W(!new), A(!new)>(e: Engine<W, A>, p: Play<W>, c: Combat, j: int, at: int, q: Play<W>)
    returns (q': Play<W>)
    requires c.cursor.Some? && 0 <= c.cursor.value < j < |c.roster.order| && c.completedAt != Some(at)
    requires StaysGone(e, c.roster.order[j]) && !e.present(p.world, c.roster.order[j])
    requires FinishOne(e, p, Shrunk(c, j), at, q)
    ensures FinishOne(e, p, c, at, q') && Alike(q, q')
  {
    var z := ResumeAt(c);
    assert ResumeAt(Shrunk(c, j)) == z;
    var m :| Turns(e, p, Shrunk(c, j).roster, at, z, m) && q == Closing(e, m, c.roster.loc, at);
    var m' := GoneMemberIsSkipped(e, c.roster, j, p, z, m, p, at);
    q' := Closing(e, m', c.roster.loc, at);
  }
}
