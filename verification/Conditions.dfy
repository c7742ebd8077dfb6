/** Timed conditions tick once per started turn of their bearer. */
module Conditions {
  import opened Grid
  import opened Rounds
  import opened RoundRunner

  // Remaining rounds per condition; None is permanent.
  type ConditionMap = map<string, Option<int>>

  predicate Lapses(remaining: Option<int>) {
    remaining.Some? && remaining.value <= 1
  }

  function Ticked(m: ConditionMap): ConditionMap {
    map c | c in m && !Lapses(m[c]) :: if m[c].Some? then Some(m[c].value - 1) else None
  }

  method TickConditions(m: ConditionMap) returns (next: ConditionMap, expired: set<string>)
    ensures next == Ticked(m) && expired == (set c | c in m && Lapses(m[c]))
  {
    next, expired := m, {};
    var items := m.Keys;
    while items != {}
      invariant items <= m.Keys
      invariant expired == set c | c in m && c !in items && Lapses(m[c])
      invariant next.Keys == m.Keys - expired
      invariant forall c :: c in next ==> next[c] == if c in items then m[c]
              else if m[c].Some? then Some(m[c].value - 1) else None
      decreases items
    {
      var c :| c in items;
      items := items - {c};
      if m[c].Some? {
        if m[c].value <= 1 {
          expired := expired + {c};
          next := next - {c};
        } else {
          next := next[c := Some(m[c].value - 1)];
        }
      }
    }
  }

  // One condition: absent, permanent, or rounds left.
  type Timer = Option<Option<int>>

  function At(m: ConditionMap, c: string): Timer {
    if c in m then Some(m[c]) else None
  }

  function TickedTimer(t: Timer): Timer {
    if t.None? || Lapses(t.value) then None
    else if t.value.Some? then Some(Some(t.value.value - 1))
    else t
  }

  // The tick of the map is the tick of each of its conditions.
  lemma TickedAt(m: ConditionMap, c: string)
    ensures At(Ticked(m), c) == TickedTimer(At(m, c))
  {
  }

  function TimerAfter(t: Timer, ticks: nat): Timer {
    if ticks == 0 then t else TickedTimer(TimerAfter(t, ticks - 1))
  }

  // A condition set for `n` rounds is there for exactly `n - 1` ticks and gone after the n-th; a
  // permanent one stays.
  lemma {:induction false} CountsDown(n: int, ticks: nat)
    ensures TimerAfter(Some(Some(n)), ticks) == if ticks == 0 || ticks < n then Some(Some(n - ticks)) else None
    ensures TimerAfter(Some(None), ticks) == Some(None)
  {
    if ticks > 0 {
      CountsDown(n, ticks - 1);
    }
  }

  // Started turns of `id` in a log.
  function Starts(log: seq<Event>, id: string): nat {
    if log == [] then 0 else
    var x := log[|log| - 1];
    Starts(log[..|log| - 1], id) + if x.Started? && x.who == id then 1 else 0
  }

  lemma StartsAppend(log: seq<Event>, y: Event, id: string)
    ensures Starts(log + [y], id) == Starts(log, id) + if y.Started? && y.who == id then 1 else 0
  {
    assert (log + [y])[..|log|] == log;
  }

  type Conditions<!W> = (W, string) -> ConditionMap

  // Condition `c` of `id` is left alone by everything but its own turn preparation, which ticks it.
  ghost predicate OnlyTicks<W(!new), A(!new)>(e: Engine<W, A>, conds: Conditions<W>, id: string, c: string) {
    && (forall w, x, d {:trigger e.act(w, x, d)} :: At(conds(e.act(w, x, d).0, id), c) == At(conds(w, id), c))
    && (forall w, x, d {:trigger e.peace(w, x, d)} :: At(conds(e.peace(w, x, d).0, id), c) == At(conds(w, id), c))
    && (forall w, x {:trigger e.prepare(w, x)} ::
          At(conds(e.prepare(w, x).0, id), c) == (if x == id then At(Ticked(conds(w, id)), c) else At(conds(w, id), c)))
    && (forall w, x {:trigger e.ready(w, x)} :: At(conds(e.ready(w, x), id), c) == At(conds(w, id), c))
    && (forall w, loc {:trigger e.close(w, loc)} :: At(conds(e.close(w, loc), id), c) == At(conds(w, id), c))
    && (forall w {:trigger e.elapse(w)} :: At(conds(e.elapse(w), id), c) == At(conds(w, id), c))
  }

  // Condition `c` of `id` is what it was when `since` turns of `id` had started, ticked once for every
  // turn started since.
  ghost predicate Ledger<W>(p: Play<W>, conds: Conditions<W>, was: Timer, since: nat, id: string, c: string) {
    since <= Starts(p.log, id) && At(conds(p.world, id), c) == TimerAfter(was, Starts(p.log, id) - since)
  }

  lemma EventKeepsLedger<W>(p: Play<W>, q: Play<W>, y: Event, conds: Conditions<W>, was: Timer, since: nat, id: string,
      c: string)
    requires Ledger(p, conds, was, since, id, c) && q.log == p.log + [y]
    requires var t := At(conds(p.world, id), c);
             At(conds(q.world, id), c) == if y.Started? && y.who == id then TickedTimer(t) else t
    ensures Ledger(q, conds, was, since, id, c)
  {
    StartsAppend(p.log, y, id);
  }

  lemma PrepareTicks<W(!new), A(!new)>(e: Engine<W, A>, conds: Conditions<W>, id: string, c: string, w: W, x: string)
    requires OnlyTicks(e, conds, id, c)
    ensures At(conds(e.prepare(w, x).0, id), c) == if x == id then TickedTimer(At(conds(w, id), c))
            else At(conds(w, id), c)
  {
    TickedAt(conds(w, id), c);
  }

  // No single effect of a round breaks the ledger.
  lemma LedgerIsKept<W(!new), A(!new)>(e: Engine<W, A>, conds: Conditions<W>, was: Timer, since: nat, id: string,
      c: string, watch: Play<W> -> bool)
    requires OnlyTicks(e, conds, id, c)
    requires forall p :: watch(p) <==> Ledger(p, conds, was, since, id, c)
    ensures Keeps(e, watch)
  {
    StartsAreKept(e, conds, was, since, id, c, watch);
    ClosesAreKept(e, conds, was, since, id, c, watch);
  }

  lemma StartsAreKept<W(!new), A(!new)>(e: Engine<W, A>, conds: Conditions<W>, was: Timer, since: nat, id: string,
      c: string, watch: Play<W> -> bool)
    requires OnlyTicks(e, conds, id, c)
    requires forall p :: watch(p) <==> Ledger(p, conds, was, since, id, c)
    ensures forall w, log, loc, at, i, x ::
            watch(Play(w, log)) ==> watch(Play(e.prepare(w, x).0, log + [Started(loc, at, i, x)]))
  {
    forall w, log, loc, at, i, x | watch(Play(w, log))
      ensures watch(Play(e.prepare(w, x).0, log + [Started(loc, at, i, x)]))
    {
      StartKeepsLedger(e, conds, was, since, id, c, Play(w, log),
          Play(e.prepare(w, x).0, log + [Started(loc, at, i, x)]), loc, at, i, x);
    }
  }

  lemma ClosesAreKept<W(!new), A(!new)>(e: Engine<W, A>, conds: Conditions<W>, was: Timer, since: nat, id: string,
      c: string, watch: Play<W> -> bool)
    requires OnlyTicks(e, conds, id, c)
    requires forall p :: watch(p) <==> Ledger(p, conds, was, since, id, c)
    ensures forall w, log, loc, at :: watch(Play(w, log)) ==> watch(Play(e.close(w, loc), log + [Closed(loc, at)]))
  {
    forall w, log, loc, at | watch(Play(w, log)) ensures watch(Play(e.close(w, loc), log + [Closed(loc, at)])) {
      CloseKeepsLedger(e, conds, was, since, id, c, Play(w, log),
                       Play(e.close(w, loc), log + [Closed(loc, at)]), loc, at);
    }
  }

  lemma StartKeepsLedger<W(!new), A(!new)>(
    e: Engine<W, A>, conds: Conditions<W>, was: Timer, since: nat, id: string, c: string,
    p: Play<W>, q: Play<W>, loc: string, at: int, i: int, x: string)
    requires OnlyTicks(e, conds, id, c) && Ledger(p, conds, was, since, id, c)
    requires q.world == e.prepare(p.world, x).0 && q.log == p.log + [Started(loc, at, i, x)]
    ensures Ledger(q, conds, was, since, id, c)
  {
    PrepareTicks(e, conds, id, c, p.world, x);
    EventKeepsLedger(p, q, Started(loc, at, i, x), conds, was, since, id, c);
  }

  lemma CloseKeepsLedger<W(!new), A(!new)>(
    e: Engine<W, A>, conds: Conditions<W>, was: Timer, since: nat, id: string, c: string,
    p: Play<W>, q: Play<W>, loc: string, at: int)
    requires OnlyTicks(e, conds, id, c) && Ledger(p, conds, was, since, id, c)
    requires q.world == e.close(p.world, loc) && q.log == p.log + [Closed(loc, at)]
    ensures Ledger(q, conds, was, since, id, c)
  {
    CloseLeavesAlone(e, conds, id, c, p.world, loc);
    EventKeepsLedger(p, q, Closed(loc, at), conds, was, since, id, c);
  }

  lemma CloseLeavesAlone<W(!new), A(!new)>(
    e: Engine<W, A>, conds: Conditions<W>, id: string, c: string, w: W, loc: string)
    requires OnlyTicks(e, conds, id, c)
    ensures At(conds(e.close(w, loc), id), c) == At(conds(w, id), c)
  {
  }

  /** A condition with n rounds left is there as long as fewer than n turns of its bearer have started
      since, and gone from the n-th on. */
  lemma ExpiresAtNthStartedTurn<W>(p: Play<W>, conds: Conditions<W>, was: Timer, since: nat, id: string, c: string)
    requires was.Some? && was.value.Some? && was.value.value >= 1 && Ledger(p, conds, was, since, id, c)
    ensures var turns := Starts(p.log, id) - since;
            At(conds(p.world, id), c) == if turns < was.value.value then Some(Some(was.value.value - turns)) else None
  {
    CountsDown(was.value.value, Starts(p.log, id) - since);
  }

  /** So it stays across any number of stops and restarts, in a round left unfinished as in a finished
      one, and whatever else brains, reactors and handlers do to the bearer's other conditions. */
  method ExpiresAcrossStops<W(!new), A(!new)>(
    round: Round<W, A>, cs: seq<CombatState>, active: seq<string>, restarts: nat,
    ghost conds: Conditions<W>, ghost rounds: int, ghost since: nat, ghost id: string, ghost c: string)
    returns (done: bool)
    requires round.Ready(cs) && OnlyTicks(round.engine, conds, id, c)
    requires forall p :: round.watch(p) <==> Ledger(p, conds, Some(Some(rounds)), since, id, c)
    requires rounds >= 1 && Ledger(round.Now(), conds, Some(Some(rounds)), since, id, c)
    modifies round`world, round`log, round`stopFlag, round`asked, round`overran, round`cut, round`time, cs
    ensures round.Ready(cs) && Ledger(round.Now(), conds, Some(Some(rounds)), since, id, c)
    ensures c in conds(round.world, id) <==> Starts(round.log, id) - since < rounds
  {
    LedgerIsKept(round.engine, conds, Some(Some(rounds)), since, id, c, round.watch);
    done := round.PlayThroughStops(cs, active, restarts);
    ExpiresAtNthStartedTurn(round.Now(), conds, Some(Some(rounds)), since, id, c);
  }
}
