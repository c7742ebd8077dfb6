/** Lexicographic orders, as Python compares strings and tuples. */
module Lexicographic {

  ghost predicate StrictTotal<T(!new)>(less: (T, T) -> bool) {
    && (forall a :: !less(a, a))
    && (forall a, b, c :: less(a, b) && less(b, c) ==> less(a, c))
    && (forall a, b :: a != b ==> less(a, b) || less(b, a))
  }

  predicate Lex<T(==)>(less: (T, T) -> bool, a: seq<T>, b: seq<T>) {
    b != [] && (a == [] || less(a[0], b[0]) || (a[0] == b[0] && Lex(less, a[1..], b[1..])))
  }

  lemma {:induction false} LexIrreflexive<T(!new)>(less: (T, T) -> bool, a: seq<T>)
    requires StrictTotal(less)
    ensures !Lex(less, a, a)
  {
    if a != [] {
      LexIrreflexive(less, a[1..]);
    }
  }

  lemma {:induction false} LexTransitive<T(!new)>(less: (T, T) -> bool, a: seq<T>, b: seq<T>, c: seq<T>)
    requires StrictTotal(less) && Lex(less, a, b) && Lex(less, b, c)
    ensures Lex(less, a, c)
  {
    if a != [] && a[0] == b[0] == c[0] && !less(a[0], b[0]) && !less(b[0], c[0]) {
      LexTransitive(less, a[1..], b[1..], c[1..]);
    }
  }

  lemma {:induction false} LexTotal<T(!new)>(less: (T, T) -> bool, a: seq<T>, b: seq<T>)
    requires StrictTotal(less) && a != b
    ensures Lex(less, a, b) || Lex(less, b, a)
  {
    if a != [] && b != [] && a[0] == b[0] {
      assert a == [a[0]] + a[1..] && b == [b[0]] + b[1..];
      LexTotal(less, a[1..], b[1..]);
    }
  }

  lemma {:induction false} LexIsStrictTotal<T(!new)>(less: (T, T) -> bool)
    requires StrictTotal(less)
    ensures forall a :: !Lex(less, a, a)
    ensures forall a, b, c :: Lex(less, a, b) && Lex(less, b, c) ==> Lex(less, a, c)
    ensures forall a, b :: a != b ==> Lex(less, a, b) || Lex(less, b, a)
  {
    forall a ensures !Lex(less, a, a) { LexIrreflexive(less, a); }
    forall a, b, c | Lex(less, a, b) && Lex(less, b, c) ensures Lex(less, a, c) { LexTransitive(less, a, b, c); }
    forall a, b | a != b ensures Lex(less, a, b) || Lex(less, b, a) { LexTotal(less, a, b); }
  }

  lemma {:induction false} ExtensionIsLarger<T>(less: (T, T) -> bool, a: seq<T>, t: T)
    ensures Lex(less, a, a + [t])
  {
    if a != [] {
      assert (a + [t])[1..] == a[1..] + [t];
      ExtensionIsLarger(less, a[1..], t);
    }
  }

  // Comparing survives extension unless the smaller one is a prefix of the larger.
  lemma {:induction false} LexExtends<T>(less: (T, T) -> bool, a: seq<T>, b: seq<T>, t: T)
    requires Lex(less, a, b) && !(a <= b)
    ensures Lex(less, a + [t], b + [t])
  {
    assert (a + [t])[1..] == a[1..] + [t] && (b + [t])[1..] == b[1..] + [t];
    if !less(a[0], b[0]) {
      assert a == [a[0]] + a[1..] && b == [b[0]] + b[1..];
      LexExtends(less, a[1..], b[1..], t);
    }
  }

  // Where a smaller sequence departs from a larger one.
  lemma {:induction false} Divergence<T>(less: (T, T) -> bool, a: seq<T>, b: seq<T>) returns (k: nat)
    requires Lex(less, a, b)
    ensures k <= |a| && k < |b| && a[..k] == b[..k] && (k < |a| ==> less(a[k], b[k]))
  {
    if a == [] || less(a[0], b[0]) {
      k := 0;
    } else {
      var j := Divergence(less, a[1..], b[1..]);
      k := j + 1;
      assert a[..k] == [a[0]] + a[1..][..j] && b[..k] == [b[0]] + b[1..][..j];
    }
  }

  lemma {:induction false} SmallerFrom<T>(less: (T, T) -> bool, a: seq<T>, b: seq<T>, k: nat)
    requires k < |a| && k < |b| && a[..k] == b[..k] && less(a[k], b[k])
    ensures Lex(less, a, b)
    decreases k
  {
    if k > 0 {
      assert a[0] == a[..k][0] == b[..k][0] == b[0];
      assert a[1..][..k - 1] == a[..k][1..] && b[1..][..k - 1] == b[..k][1..];
      SmallerFrom(less, a[1..], b[1..], k - 1);
    }
  }
}

/** Routes through the location graph: the lexicographic Dijkstra behind travel and flight. */
module Locations {
  import opened Lexicographic

  type Id = string

  datatype Edge = Edge(target: Id, meters: int)

  // Every known location with its outgoing edges; an edge may point at an unknown location.
  type Graph = map<Id, seq<Edge>>

  datatype Label = Label(meters: int, route: seq<Id>)

  datatype Entry = Entry(key: Label, at: Id)

  // `Unfinished` stands for a search that was not waited for to the end.
  datatype Outcome = UnknownOrigin | UnknownDestination | NoRoute | Route(nodes: seq<Id>) | Unfinished

  predicate CharLess(a: char, b: char) { a < b }

  predicate IdLess(a: Id, b: Id) { Lex(CharLess, a, b) }

  predicate RouteLess(a: seq<Id>, b: seq<Id>) { Lex(IdLess, a, b) }

  predicate Less(a: Label, b: Label) {
    a.meters < b.meters || (a.meters == b.meters && RouteLess(a.route, b.route))
  }

  predicate EntryLess(a: Entry, b: Entry) {
    Less(a.key, b.key) || (a.key == b.key && IdLess(a.at, b.at))
  }

  lemma IdsAreOrdered()
    ensures StrictTotal(IdLess)
  {
    assert StrictTotal(CharLess);
    LexIsStrictTotal(CharLess);
  }

  lemma RoutesAreOrdered()
    ensures StrictTotal(RouteLess)
  {
    IdsAreOrdered();
    LexIsStrictTotal(IdLess);
  }

  lemma LabelsAreOrdered()
    ensures StrictTotal(Less)
  {
    RoutesAreOrdered();
  }

  lemma AtMostBelow(a: Label, b: Label, c: Label)
    requires !Less(b, a) && Less(b, c)
    ensures Less(a, c)
  {
    LabelsAreOrdered();
  }

  lemma BelowAtMost(a: Label, b: Label, c: Label)
    requires Less(a, b) && !Less(c, b)
    ensures Less(a, c)
  {
    LabelsAreOrdered();
  }

  lemma AtMostAtMost(a: Label, b: Label, c: Label)
    requires !Less(b, a) && !Less(c, b)
    ensures !Less(c, a)
  {
    LabelsAreOrdered();
  }

  lemma NotBoth(a: Label, b: Label)
    requires Less(a, b)
    ensures !Less(b, a)
  {
    LabelsAreOrdered();
  }

  lemma NotBelowItself(a: Label)
    ensures !Less(a, a)
  {
    LabelsAreOrdered();
  }

  lemma EntriesAreOrdered()
    ensures StrictTotal(EntryLess)
  {
    IdsAreOrdered();
    LabelsAreOrdered();
  }

  function End(from: Id, route: seq<Id>): Id {
    if route == [] then from else route[|route| - 1]
  }

  // The location after `k` steps.
  function At(from: Id, route: seq<Id>, k: nat): Id
    requires k <= |route|
  {
    if k == 0 then from else route[k - 1]
  }

  // The first `k` steps of `route` enter known locations over edges of total length `meters`.
  ghost predicate Steps(g: Graph, from: Id, route: seq<Id>, k: nat, meters: int)
    requires k <= |route|
  {
    if k == 0 then meters == 0
    else
      && At(from, route, k - 1) in g && route[k - 1] in g
      && exists e :: e in g[At(from, route, k - 1)] && e.target == route[k - 1]
          && Steps(g, from, route, k - 1, meters - e.meters)
  }

  // `route` lists the known locations entered by some walk over edges of total length `meters`.
  ghost predicate Walk(g: Graph, from: Id, route: seq<Id>, meters: int) {
    Steps(g, from, route, |route|, meters)
  }

  lemma {:induction false} SameSteps(g: Graph, from: Id, a: seq<Id>, b: seq<Id>, k: nat, meters: int)
    requires k <= |a| && k <= |b| && Steps(g, from, a, k, meters)
    requires forall i :: 0 <= i < k ==> a[i] == b[i]
    ensures Steps(g, from, b, k, meters)
  {
    if k > 0 {
      var e :| e in g[At(from, a, k - 1)] && e.target == a[k - 1] && Steps(g, from, a, k - 1, meters - e.meters);
      SameSteps(g, from, a, b, k - 1, meters - e.meters);
    }
  }

  lemma LastEdge(g: Graph, from: Id, route: seq<Id>, meters: int) returns (u: Id, e: Edge)
    requires Walk(g, from, route, meters) && route != []
    ensures u in g && e in g[u] && u == End(from, route[..|route| - 1]) && e.target == End(from, route) && e.target in g
    ensures Walk(g, from, route[..|route| - 1], meters - e.meters)
    ensures route == route[..|route| - 1] + [e.target]
  {
    var n := |route| - 1;
    u := At(from, route, n);
    e :| e in g[u] && e.target == route[n] && Steps(g, from, route, n, meters - e.meters);
    SameSteps(g, from, route, route[..n], n, meters - e.meters);
  }

  lemma WalkOn(g: Graph, from: Id, route: seq<Id>, meters: int, e: Edge)
    requires Walk(g, from, route, meters) && End(from, route) in g && e in g[End(from, route)] && e.target in g
    ensures Walk(g, from, route + [e.target], meters + e.meters)
  {
    SameSteps(g, from, route, route + [e.target], |route|, meters);
  }

  // What holds of staying and survives one more edge holds of every walk.
  lemma {:induction false} WalkInduction(g: Graph, from: Id, holds: (seq<Id>, int) -> bool, route: seq<Id>, meters: int)
    requires Walk(g, from, route, meters) && holds([], 0)
    requires forall r, m, e ::
            holds(r, m) && End(from, r) in g && e in g[End(from, r)] && e.target in g
            ==> holds(r + [e.target], m + e.meters)
    ensures holds(route, meters)
    decreases |route|
  {
    if route != [] {
      var u, e := LastEdge(g, from, route, meters);
      WalkInduction(g, from, holds, route[..|route| - 1], meters - e.meters);
    }
  }

  ghost predicate Simple(from: Id, route: seq<Id>) {
    && (forall i :: 0 <= i < |route| ==> route[i] != from)
    && (forall i, j :: 0 <= i < j < |route| ==> route[i] != route[j])
  }

  predicate NonNegative(g: Graph) {
    forall x, e :: x in g && e in g[x] ==> e.meters >= 0
  }

  // The shortest of all walks, and the lexicographically first of the shortest that repeat no location.
  ghost predicate IsShortest(g: Graph, from: Id, to: Id, route: seq<Id>) {
    && End(from, route) == to && Simple(from, route)
    && exists meters :: Walk(g, from, route, meters) && NoneIsShorter(g, from, to, route, meters)
  }

  ghost predicate NoneIsShorter(g: Graph, from: Id, to: Id, route: seq<Id>, meters: int) {
    && (forall r, m :: Walk(g, from, r, m) && End(from, r) == to ==> meters <= m)
    && (forall r :: Walk(g, from, r, meters) && End(from, r) == to && Simple(from, r) ==> !RouteLess(r, route))
  }

  // The search state; `settled` are the locations whose queue entry has been expanded.
  datatype State = State(best: map<Id, Label>, queue: set<Entry>, settled: set<Id>)

  ghost predicate Labelled(g: Graph, from: Id, x: Id, l: Label, settled: set<Id>) {
    && Walk(g, from, l.route, l.meters) && End(from, l.route) == x && Simple(from, l.route)
    && (x != from ==> from in settled)
    && (forall i :: 0 <= i < |l.route| - 1 ==> l.route[i] in settled)
  }

  ghost predicate Inv(g: Graph, from: Id, s: State) {
    LabelsInv(g, from, s) && QueueInv(s)
  }

  ghost predicate LabelsInv(g: Graph, from: Id, s: State) {
    && from in s.best && s.best.Keys <= g.Keys
    && (forall x :: x in s.best ==> Labelled(g, from, x, s.best[x], s.settled))
  }

  ghost predicate QueueInv(s: State) {
    && s.settled <= s.best.Keys
    && (forall x :: x in s.best && x !in s.settled ==> Entry(s.best[x], x) in s.queue)
    && (forall h :: h in s.queue ==> h.at in s.best && !Less(h.key, s.best[h.at]))
    && (forall h, x :: h in s.queue && x in s.settled ==> !Less(h.key, s.best[x]))
    && (forall x :: x in s.settled ==> Entry(s.best[x], x) !in s.queue)
  }

  function Via(l: Label, e: Edge): Label {
    Label(l.meters + e.meters, l.route + [e.target])
  }

  // No edge of `edges` out of `x` improves a label.
  ghost predicate Relaxed(g: Graph, best: map<Id, Label>, x: Id, edges: seq<Edge>) {
    x in best && forall e :: e in edges && e.target in g ==> e.target in best && !Less(Via(best[x], e), best[e.target])
  }

  ghost predicate AllRelaxed(g: Graph, best: map<Id, Label>, xs: set<Id>) {
    forall x :: x in xs ==> x in g && Relaxed(g, best, x, g[x])
  }

  lemma ViaIsLarger(l: Label, e: Edge)
    requires e.meters >= 0
    ensures Less(l, Via(l, e))
  {
    ExtensionIsLarger(IdLess, l.route, e.target);
  }

  // The next entry off the priority queue.
  method LeastEntry(queue: set<Entry>) returns (least: Entry)
    requires queue != {}
    ensures least in queue && forall h :: h in queue ==> !EntryLess(h, least)
  {
    EntriesAreOrdered();
    least :| least in queue;
    var rest := queue - {least};
    while rest != {}
      invariant rest <= queue && least in queue
      invariant forall h :: h in queue && h !in rest ==> !EntryLess(h, least)
    {
      var h :| h in rest;
      if EntryLess(h, least) {
        least := h;
      }
      rest := rest - {h};
    }
  }

  // Taking the least entry off the queue, when its location still carries that label.
  function Settle(s: State, u: Entry): State {
    State(s.best, s.queue - {u}, s.settled + {u.at})
  }

  lemma SettleKeepsInv(g: Graph, from: Id, s: State, u: Entry)
    requires Inv(g, from, s) && u in s.queue && (forall h :: h in s.queue ==> !EntryLess(h, u))
    requires u.at in s.best && s.best[u.at] == u.key
    ensures Inv(g, from, Settle(s, u)) && u.at !in s.settled
    ensures Largest(Settle(s, u), u)
  {
    SettleKeepsLabels(g, from, s, u);
    SettleKeepsQueue(s, u);
  }

  lemma SettleKeepsLabels(g: Graph, from: Id, s: State, u: Entry)
    requires LabelsInv(g, from, s)
    ensures LabelsInv(g, from, Settle(s, u))
  {
    forall x | x in s.best ensures Labelled(g, from, x, s.best[x], s.settled + {u.at}) {
      LabelledMore(g, from, x, s.best[x], s.settled, s.settled + {u.at});
    }
  }

  lemma LabelledMore(g: Graph, from: Id, x: Id, l: Label, settled: set<Id>, more: set<Id>)
    requires Labelled(g, from, x, l, settled) && settled <= more
    ensures Labelled(g, from, x, l, more)
  {
  }

  lemma SettleKeepsQueue(s: State, u: Entry)
    requires QueueInv(s) && u in s.queue && (forall h :: h in s.queue ==> !EntryLess(h, u))
    requires u.at in s.best && s.best[u.at] == u.key
    ensures QueueInv(Settle(s, u)) && u.at !in s.settled && Largest(Settle(s, u), u)
  {
    assert u == Entry(s.best[u.at], u.at);
    NotBelowItself(u.key);
  }

  lemma DropKeepsInv(g: Graph, from: Id, s: State, u: Entry)
    requires Inv(g, from, s) && u in s.queue
    requires s.best[u.at] != u.key
    ensures Inv(g, from, s.(queue := s.queue - {u}))
  {
  }

  predicate Improves(g: Graph, s: State, e: Edge, c: Label) {
    e.target in g && (e.target !in s.best || Less(c, s.best[e.target]))
  }

  function Improve(s: State, t: Id, c: Label): State {
    State(s.best[t := c], s.queue + {Entry(c, t)}, s.settled)
  }

  // A settled location is never improved, so the new label repeats no location.
  lemma ImprovedIsFresh(g: Graph, from: Id, s: State, u: Id, e: Edge)
    requires Inv(g, from, s) && u in s.settled && u in g && e in g[u] && e.meters >= 0
    requires forall x :: x in s.settled ==> !Less(s.best[u], s.best[x])
    requires Improves(g, s, e, Via(s.best[u], e))
    ensures e.target !in s.settled
    ensures Labelled(g, from, e.target, Via(s.best[u], e), s.settled)
  {
    var l, c := s.best[u], Via(s.best[u], e);
    ViaIsLarger(l, e);
    if e.target in s.settled {
      AtMostBelow(s.best[e.target], l, c);
      NotBoth(s.best[e.target], c);
      assert false;
    }
    assert Labelled(g, from, u, l, s.settled);
    ViaIsLabelled(g, from, u, l, e, s.settled);
  }

  lemma ViaIsLabelled(g: Graph, from: Id, u: Id, l: Label, e: Edge, settled: set<Id>)
    requires Labelled(g, from, u, l, settled) && u in settled && e.target !in settled
    requires u in g && e in g[u] && e.target in g
    ensures Labelled(g, from, e.target, Via(l, e), settled)
  {
    WalkOn(g, from, l.route, l.meters, e);
    ViaIsSimple(from, u, l.route, e.target, settled);
  }

  lemma ViaIsSimple(from: Id, u: Id, route: seq<Id>, t: Id, settled: set<Id>)
    requires Simple(from, route) && End(from, route) == u && u in settled && t !in settled
            && (u != from ==> from in settled)
    requires forall i :: 0 <= i < |route| - 1 ==> route[i] in settled
    ensures Simple(from, route + [t]) && End(from, route + [t]) == t && from in settled
    ensures forall i :: 0 <= i < |route| ==> (route + [t])[i] in settled
  {
    assert forall i :: 0 <= i < |route| ==> route[i] in settled;
    SimpleGrows(from, route, t);
  }

  lemma SimpleGrows(from: Id, route: seq<Id>, t: Id)
    requires Simple(from, route) && t != from && t !in route
    ensures Simple(from, route + [t])
  {
  }

  lemma ImproveKeepsInv(g: Graph, from: Id, s: State, u: Id, e: Edge)
    requires Inv(g, from, s) && u in s.settled && u in g && e in g[u] && e.meters >= 0
    requires forall x :: x in s.settled ==> !Less(s.best[u], s.best[x])
    requires Improves(g, s, e, Via(s.best[u], e))
    ensures Inv(g, from, Improve(s, e.target, Via(s.best[u], e)))
    ensures Entry(Via(s.best[u], e), e.target) !in s.queue && e.target !in s.settled
  {
    var c := Via(s.best[u], e);
    ImprovedIsFresh(g, from, s, u, e);
    ViaIsLarger(s.best[u], e);
    NotBelowItself(c);
    forall x | x in s.settled ensures !Less(c, s.best[x]) {
      AtMostBelow(s.best[x], s.best[u], c);
      NotBoth(s.best[x], c);
    }
    forall h | h in s.queue && h.at == e.target ensures Less(c, h.key) && !Less(h.key, c) {
      BelowAtMost(c, s.best[h.at], h.key);
      NotBoth(c, h.key);
    }
    ImprovedInv(s, e.target, c);
  }

  lemma ImprovedInv(s: State, t: Id, c: Label)
    requires QueueInv(s) && t !in s.settled
    requires !Less(c, c) && (forall x :: x in s.settled ==> !Less(c, s.best[x]))
    requires forall h :: h in s.queue && h.at == t ==> Less(c, h.key) && !Less(h.key, c)
    ensures QueueInv(Improve(s, t, c)) && Entry(c, t) !in s.queue
  {
    var z := Improve(s, t, c);
    assert forall h :: h in z.queue ==> h == Entry(c, t) || h in s.queue;
    assert forall x :: x in z.best && x != t ==> x in s.best && z.best[x] == s.best[x];
  }

  lemma ImproveKeepsRelaxed(g: Graph, s: State, x: Id, edges: seq<Edge>, t: Id, c: Label)
    requires Relaxed(g, s.best, x, edges) && x != t && (t in s.best ==> Less(c, s.best[t]))
    ensures Relaxed(g, Improve(s, t, c).best, x, edges)
  {
    forall e | e in edges && e.target in g && e.target == t ensures !Less(Via(s.best[x], e), c) {
      BelowAtMost(c, s.best[t], Via(s.best[x], e));
      NotBoth(c, Via(s.best[x], e));
    }
  }

  lemma ImproveKeepsAllRelaxed(g: Graph, s: State, u: Id, edges: seq<Edge>, t: Id, c: Label)
    requires t !in s.settled && u in s.settled && (t in s.best ==> Less(c, s.best[t]))
    requires AllRelaxed(g, s.best, s.settled - {u}) && Relaxed(g, s.best, u, edges)
    ensures AllRelaxed(g, Improve(s, t, c).best, s.settled - {u}) && Relaxed(g, Improve(s, t, c).best, u, edges)
  {
    forall x | x in s.settled - {u} ensures x in g && Relaxed(g, Improve(s, t, c).best, x, g[x]) {
      ImproveKeepsRelaxed(g, s, x, g[x], t, c);
    }
    ImproveKeepsRelaxed(g, s, u, edges, t, c);
  }

  // Every labelled location is settled or still queued with its label.
  predicate Reached(s: State, y: Id, l: Label) {
    (y in s.settled && y in s.best && !Less(l, s.best[y])) || exists h :: h in s.queue && !Less(l, h.key)
  }

  lemma LabelledIsReached(g: Graph, from: Id, s: State, y: Id, l: Label)
    requires Inv(g, from, s) && y in s.best && !Less(l, s.best[y])
    ensures Reached(s, y, l)
  {
    if y !in s.settled {
      assert Entry(s.best[y], y) in s.queue;
    }
  }

  // Every walk ends at a settled location with no longer a label, or has to pass the queue.
  lemma WalksAreCovered(g: Graph, from: Id, s: State, route: seq<Id>, meters: int)
    requires NonNegative(g) && Inv(g, from, s) && AllRelaxed(g, s.best, s.settled) && Walk(g, from, route, meters)
    ensures Covered(s, End(from, route), meters)
  {
    StartIsCovered(g, from, s);
    forall u, m, e | Covered(s, u, m) && u in g && e in g[u] && e.target in g
      ensures Covered(s, e.target, m + e.meters)
    {
      ExtendCovered(g, s, u, m, e);
    }
    WalkCoverInduction(g, from, s, route, meters);
  }

  lemma WalkCoverInduction(g: Graph, from: Id, s: State, route: seq<Id>, meters: int)
    requires Walk(g, from, route, meters) && Covered(s, from, 0)
    requires forall u, m, e ::
            Covered(s, u, m) && u in g && e in g[u] && e.target in g ==> Covered(s, e.target, m + e.meters)
    ensures Covered(s, End(from, route), meters)
  {
    var holds := (r: seq<Id>, m: int) => Covered(s, End(from, r), m);
    var none: seq<Id> := [];
    assert End(from, none) == from;
    assert holds(none, 0);
    forall r, m, e | holds(r, m) && End(from, r) in g && e in g[End(from, r)] && e.target in g
      ensures holds(r + [e.target], m + e.meters)
    {
      assert End(from, r + [e.target]) == e.target;
    }
    WalkInduction(g, from, holds, route, meters);
  }

  ghost predicate Covered(s: State, y: Id, meters: int) {
    (y in s.settled && y in s.best && s.best[y].meters <= meters) || exists h :: h in s.queue && h.key.meters <= meters
  }

  lemma ExtendCovered(g: Graph, s: State, u: Id, meters: int, e: Edge)
    requires QueueInv(s) && AllRelaxed(g, s.best, s.settled) && Covered(s, u, meters)
    requires u in g && e in g[u] && e.target in g && e.meters >= 0
    ensures Covered(s, e.target, meters + e.meters)
  {
    if u in s.settled && s.best[u].meters <= meters {
      assert Relaxed(g, s.best, u, g[u]);
      assert !Less(Via(s.best[u], e), s.best[e.target]);
      if e.target !in s.settled {
        assert Entry(s.best[e.target], e.target) in s.queue;
      }
    }
  }

  lemma StartIsCovered(g: Graph, from: Id, s: State)
    requires Inv(g, from, s)
    ensures Covered(s, from, 0) && s.best[from] == Label(0, [])
  {
    assert Labelled(g, from, from, s.best[from], s.settled);
    if from !in s.settled {
      assert Entry(s.best[from], from) in s.queue;
    }
  }

  lemma StartIsReached(g: Graph, from: Id, s: State)
    requires Inv(g, from, s)
    ensures Reached(s, from, Label(0, []))
  {
    StartIsCovered(g, from, s);
    NotBelowItself(Label(0, []));
    LabelledIsReached(g, from, s, from, Label(0, []));
  }

  lemma SimplePrefix(from: Id, a: seq<Id>, b: seq<Id>)
    requires Simple(from, b) && End(from, a) == End(from, b) && a <= b
    ensures a == b
  {
  }

  // The same in the order of labels, for walks that repeat no location.
  lemma SimpleWalksAreCovered(g: Graph, from: Id, s: State, route: seq<Id>, meters: int)
    requires NonNegative(g) && Inv(g, from, s) && AllRelaxed(g, s.best, s.settled)
    requires Walk(g, from, route, meters) && Simple(from, route)
    ensures Reached(s, End(from, route), Label(meters, route))
  {
    var holds := (r: seq<Id>, m: int) => Simple(from, r) ==> Reached(s, End(from, r), Label(m, r));
    StartIsReached(g, from, s);
    forall r, m, e | holds(r, m) && End(from, r) in g && e in g[End(from, r)] && e.target in g
      ensures holds(r + [e.target], m + e.meters)
    {
      if Simple(from, r + [e.target]) {
        SimpleTail(from, r, e.target);
        ExtendReached(g, from, s, End(from, r), Label(m, r), e);
      }
    }
    WalkInduction(g, from, holds, route, meters);
  }

  lemma SimpleTail(from: Id, r: seq<Id>, t: Id)
    requires Simple(from, r + [t])
    ensures Simple(from, r)
  {
    assert forall i :: 0 <= i < |r| ==> r[i] == (r + [t])[i];
  }

  lemma ExtendReached(g: Graph, from: Id, s: State, u: Id, l: Label, e: Edge)
    requires Inv(g, from, s) && AllRelaxed(g, s.best, s.settled) && Reached(s, u, l)
    requires u in g && e in g[u] && e.target in g && e.meters >= 0 && Simple(from, l.route) && End(from, l.route) == u
    ensures Reached(s, e.target, Via(l, e))
  {
    ViaIsLarger(l, e);
    if u in s.settled && !Less(l, s.best[u]) {
      assert Relaxed(g, s.best, u, g[u]);
      assert Labelled(g, from, u, s.best[u], s.settled);
      ViaIsMonotone(from, s.best[u], l, e);
      AtMostAtMost(s.best[e.target], Via(s.best[u], e), Via(l, e));
      LabelledIsReached(g, from, s, e.target, Via(l, e));
    } else {
      var h :| h in s.queue && !Less(l, h.key);
      AtMostBelow(h.key, l, Via(l, e));
      NotBoth(h.key, Via(l, e));
    }
  }

  lemma ViaIsMonotone(from: Id, a: Label, b: Label, e: Edge)
    requires Simple(from, b.route) && End(from, a.route) == End(from, b.route) && !Less(b, a)
    ensures !Less(Via(b, e), Via(a, e))
  {
    LabelsAreOrdered();
    RoutesAreOrdered();
    if a != b {
      assert Less(a, b);
      if a.meters == b.meters {
        if a.route <= b.route {
          SimplePrefix(from, a.route, b.route);
        } else {
          LexExtends(IdLess, a.route, b.route, e.target);
        }
      }
      assert Less(Via(a, e), Via(b, e));
    }
  }

  // The entry taken off the queue at the destination is the answer.
  lemma PoppedIsShortest(g: Graph, from: Id, s: State, u: Entry)
    requires NonNegative(g) && Inv(g, from, s) && AllRelaxed(g, s.best, s.settled)
    requires u in s.queue && (forall h :: h in s.queue ==> !EntryLess(h, u))
    requires s.best[u.at] == u.key
    ensures IsShortest(g, from, u.at, u.key.route)
  {
    assert Labelled(g, from, u.at, u.key, s.settled);
    forall r, m | Walk(g, from, r, m) && End(from, r) == u.at
      ensures u.key.meters <= m && (m == u.key.meters && Simple(from, r) ==> !RouteLess(r, u.key.route))
    {
      WalksAreNoShorter(g, from, s, u, r, m);
      if m == u.key.meters && Simple(from, r) {
        SimpleWalksAreNoSmaller(g, from, s, u, r, m);
      }
    }
  }

  lemma WalksAreNoShorter(g: Graph, from: Id, s: State, u: Entry, r: seq<Id>, m: int)
    requires NonNegative(g) && Inv(g, from, s) && AllRelaxed(g, s.best, s.settled)
    requires u in s.queue && (forall h :: h in s.queue ==> !EntryLess(h, u)) && s.best[u.at] == u.key
    requires Walk(g, from, r, m) && End(from, r) == u.at
    ensures u.key.meters <= m
  {
    WalksAreCovered(g, from, s, r, m);
  }

  lemma SimpleWalksAreNoSmaller(g: Graph, from: Id, s: State, u: Entry, r: seq<Id>, m: int)
    requires NonNegative(g) && Inv(g, from, s) && AllRelaxed(g, s.best, s.settled)
    requires u in s.queue && (forall h :: h in s.queue ==> !EntryLess(h, u)) && s.best[u.at] == u.key
    requires Walk(g, from, r, m) && End(from, r) == u.at && Simple(from, r)
    ensures !Less(Label(m, r), u.key)
  {
    SimpleWalksAreCovered(g, from, s, r, m);
    assert u.at !in s.settled;
    var h :| h in s.queue && !Less(Label(m, r), h.key);
    AtMostAtMost(u.key, h.key, Label(m, r));
  }

  // Edges ordered by target, equal targets in their given order.
  function SortByTarget(edges: seq<Edge>): (r: seq<Edge>)
    ensures multiset(r) == multiset(edges)
  {
    if edges == [] then []
    else
      assert edges == [edges[0]] + edges[1..];
      InsertEdge(edges[0], SortByTarget(edges[1..]))
  }

  function InsertEdge(e: Edge, sorted: seq<Edge>): (r: seq<Edge>)
    ensures multiset(r) == multiset(sorted) + multiset{e}
  {
    if sorted == [] || !IdLess(sorted[0].target, e.target) then [e] + sorted
    else
      assert sorted == [sorted[0]] + sorted[1..];
      [sorted[0]] + InsertEdge(e, sorted[1..])
  }

  ghost predicate OrderedByTarget(edges: seq<Edge>) {
    forall i, j :: 0 <= i < j < |edges| ==> !IdLess(edges[j].target, edges[i].target)
  }

  lemma {:induction false} SortOrders(edges: seq<Edge>)
    ensures OrderedByTarget(SortByTarget(edges))
  {
    if edges != [] {
      SortOrders(edges[1..]);
      InsertKeepsOrder(edges[0], SortByTarget(edges[1..]));
    }
  }

  lemma {:induction false} InsertKeepsOrder(e: Edge, sorted: seq<Edge>)
    requires OrderedByTarget(sorted)
    ensures OrderedByTarget(InsertEdge(e, sorted))
  {
    IdsAreOrdered();
    if sorted != [] && IdLess(sorted[0].target, e.target) {
      var rest := InsertEdge(e, sorted[1..]);
      InsertKeepsOrder(e, sorted[1..]);
      forall j | 0 <= j < |rest| ensures !IdLess(rest[j].target, sorted[0].target) {
        assert rest[j] in multiset(rest);
        assert rest[j] == e || rest[j] in sorted[1..];
      }
    } else {
      FirstStaysFirst(e, sorted);
    }
  }

  lemma FirstStaysFirst(e: Edge, sorted: seq<Edge>)
    requires OrderedByTarget(sorted) && (sorted == [] || !IdLess(sorted[0].target, e.target))
    ensures OrderedByTarget([e] + sorted)
  {
    IdsAreOrdered();
    forall j | 0 <= j < |sorted| ensures !IdLess(sorted[j].target, e.target) {
      assert j > 0 ==> !IdLess(sorted[j].target, sorted[0].target);
    }
  }

  lemma SortKeepsEdges(edges: seq<Edge>, e: Edge)
    ensures e in SortByTarget(edges) <==> e in edges
  {
    assert multiset(SortByTarget(edges)) == multiset(edges);
    assert e in SortByTarget(edges) <==> e in multiset(SortByTarget(edges));
    assert e in edges <==> e in multiset(edges);
  }

  function Try(g: Graph, s: State, u: Entry, e: Edge): State {
    var c := Via(u.key, e);
    if Improves(g, s, e, c) then Improve(s, e.target, c) else s
  }

  // What holds while the settled location `u` is being expanded and `edges` are done.
  ghost predicate Expanding(g: Graph, from: Id, s: State, u: Entry, edges: seq<Edge>) {
    && Inv(g, from, s) && u.at in s.settled && s.best[u.at] == u.key && u.at in g
    && AllRelaxed(g, s.best, s.settled - {u.at}) && Relaxed(g, s.best, u.at, edges)
    && Largest(s, u)
  }

  lemma TryKeepsExpanding(g: Graph, from: Id, s: State, u: Entry, edges: seq<Edge>, e: Edge)
    requires Expanding(g, from, s, u, edges) && e in g[u.at] && e.meters >= 0
    ensures Expanding(g, from, Try(g, s, u, e), u, edges + [e])
  {
    var c := Via(u.key, e);
    if Improves(g, s, e, c) {
      ImprovedKeepsExpanding(g, from, s, u, edges, e, c);
    } else {
      ImprovedIsRelaxed(g, s.best, u.at, edges, e);
    }
  }

  lemma ImprovedKeepsExpanding(g: Graph, from: Id, s: State, u: Entry, edges: seq<Edge>, e: Edge, c: Label)
    requires Expanding(g, from, s, u, edges) && e in g[u.at] && e.meters >= 0
    requires c == Via(u.key, e) && Improves(g, s, e, c)
    ensures Expanding(g, from, Improve(s, e.target, c), u, edges + [e])
  {
    ImproveKeepsInv(g, from, s, u.at, e);
    ImproveKeepsAllRelaxed(g, s, u.at, edges, e.target, c);
    NotBelowItself(c);
    ImprovedIsRelaxed(g, Improve(s, e.target, c).best, u.at, edges, e);
    ImproveKeepsLargest(s, u, e.target, c);
  }

  // `u` has the largest label settled so far.
  ghost predicate Largest(s: State, u: Entry) {
    forall x :: x in s.settled ==> x in s.best && !Less(u.key, s.best[x])
  }

  lemma ImproveKeepsLargest(s: State, u: Entry, t: Id, c: Label)
    requires Largest(s, u) && t !in s.settled
    ensures Largest(Improve(s, t, c), u)
  {
  }

  lemma ImprovedIsRelaxed(g: Graph, best: map<Id, Label>, x: Id, edges: seq<Edge>, e: Edge)
    requires Relaxed(g, best, x, edges)
    requires e.target in g ==> e.target in best && !Less(Via(best[x], e), best[e.target])
    ensures Relaxed(g, best, x, edges + [e])
  {
  }

  function TryAll(g: Graph, s: State, u: Entry, edges: seq<Edge>): State {
    if edges == [] then s else Try(g, TryAll(g, s, u, edges[..|edges| - 1]), u, edges[|edges| - 1])
  }

  // What holds before an edge is tried and survives each try holds after all of them.
  lemma {:induction false} TryAllInduction(g: Graph, s: State, u: Entry, edges: seq<Edge>,
      holds: (State, seq<Edge>) -> bool)
    requires holds(s, [])
    requires forall t, done, e :: holds(t, done) && e in edges ==> holds(Try(g, t, u, e), done + [e])
    ensures holds(TryAll(g, s, u, edges), edges)
    decreases |edges|
  {
    if edges != [] {
      var front, e := edges[..|edges| - 1], edges[|edges| - 1];
      TryAllInduction(g, s, u, front, holds);
      assert holds(Try(g, TryAll(g, s, u, front), u, e), front + [e]);
      assert front + [e] == edges;
    }
  }

  lemma TryAllKeepsExpanding(g: Graph, from: Id, s: State, u: Entry, edges: seq<Edge>)
    requires NonNegative(g) && Expanding(g, from, s, u, []) && forall e :: e in edges ==> e in g[u.at]
    ensures Expanding(g, from, TryAll(g, s, u, edges), u, edges) && TryAll(g, s, u, edges).settled == s.settled
  {
    var holds := (t: State, done: seq<Edge>) => Expanding(g, from, t, u, done) && t.settled == s.settled;
    forall t, done, e | holds(t, done) && e in edges ensures holds(Try(g, t, u, e), done + [e]) {
      TryKeepsExpanding(g, from, t, u, done, e);
    }
    TryAllInduction(g, s, u, edges, holds);
  }

  method TryEdges(g: Graph, s0: State, u: Entry, edges: seq<Edge>) returns (s: State)
    ensures s == TryAll(g, s0, u, edges)
  {
    s := s0;
    for i := 0 to |edges|
      invariant s == TryAll(g, s0, u, edges[..i])
    {
      assert edges[..i + 1][..i] == edges[..i];
      s := Try(g, s, u, edges[i]);
    }
    assert edges[..|edges|] == edges;
  }

  lemma ExpandedIsRelaxed(g: Graph, from: Id, s: State, u: Entry, t: State)
    requires NonNegative(g) && Expanding(g, from, s, u, []) && t == TryAll(g, s, u, SortByTarget(g[u.at]))
    ensures Inv(g, from, t) && AllRelaxed(g, t.best, t.settled) && t.settled == s.settled
  {
    forall e ensures e in SortByTarget(g[u.at]) <==> e in g[u.at] { SortKeepsEdges(g[u.at], e); }
    TryAllKeepsExpanding(g, from, s, u, SortByTarget(g[u.at]));
    AllEdgesDone(g, t.best, t.settled, u.at);
  }

  lemma AllEdgesDone(g: Graph, best: map<Id, Label>, settled: set<Id>, u: Id)
    requires u in g && AllRelaxed(g, best, settled - {u}) && Relaxed(g, best, u, SortByTarget(g[u]))
    ensures AllRelaxed(g, best, settled)
  {
    forall e ensures e in SortByTarget(g[u]) <==> e in g[u] { SortKeepsEdges(g[u], e); }
  }

  // --- What holds whatever the lengths of the edges ---

  // Labels are walks.
  ghost predicate Sane(g: Graph, from: Id, s: State) {
    && from in s.best && s.best.Keys <= g.Keys
    && (forall x :: x in s.best ==> Walk(g, from, s.best[x].route, s.best[x].meters) && End(from, s.best[x].route) == x)
    && (forall h :: h in s.queue ==> h.at in s.best)
  }

  ghost predicate Opened(g: Graph, best: map<Id, Label>, edges: seq<Edge>) {
    forall e :: e in edges && e.target in g ==> e.target in best
  }

  // The locations next to `x` are labelled, or will be.
  ghost predicate Tracked(g: Graph, s: State, x: Id) {
    x in s.best && x in g && (Opened(g, s.best, g[x]) || Entry(s.best[x], x) in s.queue)
  }

  ghost predicate Searching(g: Graph, from: Id, to: Id, s: State) {
    && Sane(g, from, s) && (forall x :: x in s.best ==> Tracked(g, s, x))
    && (to in s.best ==> Entry(s.best[to], to) in s.queue)
  }

  // The same while `u` is being expanded and `edges` are done.
  ghost predicate Visiting(g: Graph, from: Id, to: Id, s: State, u: Entry, edges: seq<Edge>) {
    && Sane(g, from, s) && (forall x :: x in s.best && x != u.at ==> Tracked(g, s, x))
    && (to in s.best ==> Entry(s.best[to], to) in s.queue)
    && u.at in s.best && Walk(g, from, u.key.route, u.key.meters) && End(from, u.key.route) == u.at
    && Opened(g, s.best, edges)
  }

  lemma TryKeepsVisiting(g: Graph, from: Id, to: Id, s: State, u: Entry, edges: seq<Edge>, e: Edge)
    requires Visiting(g, from, to, s, u, edges) && u.at in g && e in g[u.at]
    ensures Visiting(g, from, to, Try(g, s, u, e), u, edges + [e])
  {
    var c := Via(u.key, e);
    if Improves(g, s, e, c) {
      WalkOn(g, from, u.key.route, u.key.meters, e);
      var t := Improve(s, e.target, c);
      forall x | x in t.best && x != u.at ensures Tracked(g, t, x) {
        ImproveKeepsTracked(g, s, e.target, c, x);
      }
    }
  }

  lemma ImproveKeepsTracked(g: Graph, s: State, t: Id, c: Label, x: Id)
    requires t in g && (x == t || Tracked(g, s, x))
    ensures Tracked(g, Improve(s, t, c), x)
  {
    if x == t {
      assert Entry(c, t) in Improve(s, t, c).queue;
    }
  }

  lemma VisitKeepsSearching(g: Graph, from: Id, to: Id, s: State, u: Entry, t: State)
    requires Searching(g, from, to, s) && u in s.queue && s.best[u.at] == u.key && u.at != to
    requires t == TryAll(g, Settle(s, u), u, SortByTarget(g[u.at]))
    ensures Searching(g, from, to, t)
  {
    var edges := SortByTarget(g[u.at]);
    forall e ensures e in edges <==> e in g[u.at] { SortKeepsEdges(g[u.at], e); }
    StartVisiting(g, from, to, s, u);
    var holds := (t: State, done: seq<Edge>) => Visiting(g, from, to, t, u, done);
    forall t, done, e | holds(t, done) && e in edges ensures holds(Try(g, t, u, e), done + [e]) {
      TryKeepsVisiting(g, from, to, t, u, done, e);
    }
    TryAllInduction(g, Settle(s, u), u, edges, holds);
    assert Visiting(g, from, to, t, u, edges);
    assert Tracked(g, t, u.at);
  }

  lemma StartVisiting(g: Graph, from: Id, to: Id, s: State, u: Entry)
    requires Searching(g, from, to, s) && u in s.queue && s.best[u.at] == u.key && u.at != to
    ensures Visiting(g, from, to, Settle(s, u), u, [])
  {
    forall x | x in s.best && x != u.at ensures Tracked(g, Settle(s, u), x) {
      assert Tracked(g, s, x);
    }
  }

  lemma DropKeepsSearching(g: Graph, from: Id, to: Id, s: State, u: Entry)
    requires Searching(g, from, to, s) && u in s.queue && s.best[u.at] != u.key
    ensures Searching(g, from, to, s.(queue := s.queue - {u}))
  {
    forall x | x in s.best ensures Tracked(g, s.(queue := s.queue - {u}), x) {
      assert Tracked(g, s, x);
    }
  }

  // With nothing left to expand every location that can be walked to is labelled.
  lemma AllWalksAreLabelled(g: Graph, from: Id, to: Id, s: State, route: seq<Id>, meters: int)
    requires Searching(g, from, to, s) && s.queue == {} && Walk(g, from, route, meters)
    ensures End(from, route) != to
  {
    var holds := (r: seq<Id>, m: int) => End(from, r) in s.best;
    var none: seq<Id> := [];
    assert holds(none, 0);
    forall r, m, e | holds(r, m) && End(from, r) in g && e in g[End(from, r)] && e.target in g
      ensures holds(r + [e.target], m + e.meters)
    {
      assert Tracked(g, s, End(from, r));
      assert End(from, r + [e.target]) == e.target;
    }
    WalkInduction(g, from, holds, route, meters);
  }

  // With non-negative edges the search is Dijkstra's: expanded locations keep their labels.
  ghost predicate Dijkstra(g: Graph, from: Id, to: Id, s: State) {
    NonNegative(g) ==> Inv(g, from, s) && AllRelaxed(g, s.best, s.settled) && to !in s.settled
  }

  lemma VisitKeepsDijkstra(g: Graph, from: Id, to: Id, s: State, u: Entry, t: State)
    requires Dijkstra(g, from, to, s) && u.at != to
    requires u in s.queue && (forall h :: h in s.queue ==> !EntryLess(h, u)) && u.at in s.best && s.best[u.at] == u.key
    requires u.at in g && t == TryAll(g, Settle(s, u), u, SortByTarget(g[u.at]))
    ensures Dijkstra(g, from, to, t)
    ensures NonNegative(g) ==> |g.Keys - t.settled| < |g.Keys - s.settled|
  {
    if NonNegative(g) {
      SettleKeepsInv(g, from, s, u);
      SmallerSet(g.Keys - Settle(s, u).settled, g.Keys - s.settled);
      ExpandedIsRelaxed(g, from, Settle(s, u), u, t);
    }
  }

  // How much is left to do: locations and queue entries, or with a negative edge the patience to wait.
  function Left(g: Graph, s: State, patience: nat): nat {
    if NonNegative(g) then |g.Keys - s.settled| else patience
  }

  /** Dijkstra over (distance, route). On every graph a route is returned only along existing edges, and
      none only when the destination cannot be walked to. With non-negative edges the route is the
      shortest and the search ends. */
  method ShortestRoute(g: Graph, from: Id, to: Id, patience: nat) returns (r: Outcome)
    ensures r.UnknownOrigin? <==> from !in g
    ensures r.UnknownDestination? <==> from in g && to !in g
    ensures r.Route? ==> End(from, r.nodes) == to && exists m :: Walk(g, from, r.nodes, m)
    ensures r.Route? && NonNegative(g) ==> IsShortest(g, from, to, r.nodes)
    ensures r.NoRoute? ==> forall route, m :: Walk(g, from, route, m) ==> End(from, route) != to
    ensures r.Unfinished? ==> !NonNegative(g)
  {
    if from !in g { return UnknownOrigin; }
    if to !in g { return UnknownDestination; }
    StayingIsWalk(g, from);
    if from == to {
      if NonNegative(g) {
        StayingIsShortest(g, from);
      }
      return Route([]);
    }
    var s := State(map[from := Label(0, [])], {Entry(Label(0, []), from)}, {});
    var left := patience;
    while s.queue != {}
      invariant Searching(g, from, to, s) && Dijkstra(g, from, to, s)
      decreases Left(g, s, left), |s.queue|
    {
      if !NonNegative(g) {
        if left == 0 {
          return Unfinished;
        }
        left := left - 1;
      }
      var u := LeastEntry(s.queue);
      if s.best[u.at] != u.key {
        DropKeepsSearching(g, from, to, s, u);
        if NonNegative(g) {
          DropKeepsInv(g, from, s, u);
        }
        s := s.(queue := s.queue - {u});
        continue;
      }
      if u.at == to {
        if NonNegative(g) {
          PoppedIsShortest(g, from, s, u);
        }
        return Route(u.key.route);
      }
      s := Visit(g, from, to, s, u);
    }
    forall route, m | Walk(g, from, route, m) ensures End(from, route) != to {
      AllWalksAreLabelled(g, from, to, s, route, m);
    }
    return NoRoute;
  }

  method Visit(g: Graph, ghost from: Id, ghost to: Id, s: State, u: Entry) returns (t: State)
    requires Searching(g, from, to, s) && Dijkstra(g, from, to, s) && u.at != to
    requires u in s.queue && (forall h :: h in s.queue ==> !EntryLess(h, u)) && s.best[u.at] == u.key
    ensures Searching(g, from, to, t) && Dijkstra(g, from, to, t)
    ensures NonNegative(g) ==> |g.Keys - t.settled| < |g.Keys - s.settled|
  {
    t := TryEdges(g, Settle(s, u), u, SortByTarget(g[u.at]));
    VisitKeepsSearching(g, from, to, s, u, t);
    VisitKeepsDijkstra(g, from, to, s, u, t);
  }

  lemma StayingIsWalk(g: Graph, from: Id)
    ensures Walk(g, from, [], 0)
  {
  }

  lemma SmallerSet<T>(a: set<T>, b: set<T>)
    requires a < b
    ensures |a| < |b|
  {
    assert |b - a| > 0;
    assert b == a + (b - a);
  }

  lemma WalksAreNonNegative(g: Graph, from: Id, route: seq<Id>, meters: int)
    requires NonNegative(g) && Walk(g, from, route, meters)
    ensures meters >= 0
  {
    WalkInduction(g, from, (r, m) => m >= 0, route, meters);
  }

  lemma StayingIsShortest(g: Graph, from: Id)
    requires NonNegative(g)
    ensures IsShortest(g, from, from, [])
  {
    forall r, m | Walk(g, from, r, m) ensures 0 <= m { WalksAreNonNegative(g, from, r, m); }
    assert Walk(g, from, [], 0);
  }

  /** The answer is unique: whatever the edge order, the same route comes back. */
  lemma ShortestIsUnique(g: Graph, from: Id, to: Id, a: seq<Id>, b: seq<Id>)
    requires IsShortest(g, from, to, a) && IsShortest(g, from, to, b)
    ensures a == b
  {
    RoutesAreOrdered();
  }

  lemma EndOfJoin(from: Id, a: seq<Id>, b: seq<Id>)
    ensures End(from, a + b) == End(End(from, a), b)
  {
    assert b == [] ==> a + b == a;
  }

  lemma {:induction false} SplitWalk(g: Graph, from: Id, a: seq<Id>, b: seq<Id>, meters: int) returns (m: int)
    requires Walk(g, from, a + b, meters)
    ensures Walk(g, from, a, m) && Walk(g, End(from, a), b, meters - m)
    decreases |b|
  {
    if b == [] {
      assert a + b == a;
      m := meters;
    } else {
      var u, e := LastEdge(g, from, a + b, meters);
      var front := b[..|b| - 1];
      assert (a + b)[..|a + b| - 1] == a + front && b == front + [e.target];
      m := SplitWalk(g, from, a, front, meters - e.meters);
      EndOfJoin(from, a, front);
      WalkOnTo(g, End(from, a), front, meters - e.meters - m, e, b);
    }
  }

  lemma WalkOnTo(g: Graph, from: Id, route: seq<Id>, meters: int, e: Edge, longer: seq<Id>)
    requires Walk(g, from, route, meters) && End(from, route) in g && e in g[End(from, route)] && e.target in g
    requires longer == route + [e.target]
    ensures Walk(g, from, longer, meters + e.meters)
  {
    WalkOn(g, from, route, meters, e);
  }

  lemma JoinOneMore(g: Graph, from: Id, a: seq<Id>, m: int, r: seq<Id>, k: int, e: Edge)
    requires Walk(g, from, a + r, m + k) && End(End(from, a), r) in g && e in g[End(End(from, a), r)] && e.target in g
    ensures Walk(g, from, a + (r + [e.target]), m + (k + e.meters))
  {
    EndOfJoin(from, a, r);
    assert a + (r + [e.target]) == (a + r) + [e.target];
    WalkOnTo(g, from, a + r, m + k, e, a + (r + [e.target]));
  }

  lemma JoinWalks(g: Graph, from: Id, a: seq<Id>, m: int, b: seq<Id>, n: int)
    requires Walk(g, from, a, m) && Walk(g, End(from, a), b, n)
    ensures Walk(g, from, a + b, m + n)
  {
    var holds := (r: seq<Id>, k: int) => Walk(g, from, a + r, m + k);
    assert a + [] == a;
    forall r, k, e | holds(r, k) && End(End(from, a), r) in g && e in g[End(End(from, a), r)] && e.target in g
      ensures holds(r + [e.target], k + e.meters)
    {
      JoinOneMore(g, from, a, m, r, k, e);
    }
    WalkInduction(g, End(from, a), holds, b, n);
  }

  // A closed walk of length zero at the i-th location of the route, and the route that takes it.
  ghost predicate Detour(g: Graph, from: Id, route: seq<Id>, i: nat, cycle: seq<Id>) {
    && i <= |route| && cycle != []
    && Walk(g, End(from, route[..i]), cycle, 0) && End(End(from, route[..i]), cycle) == End(from, route[..i])
  }

  function Detoured(route: seq<Id>, i: nat, cycle: seq<Id>): seq<Id>
    requires i <= |route|
  {
    route[..i] + cycle + route[i..]
  }

  ghost predicate LeastWalk(g: Graph, from: Id, to: Id, r: seq<Id>) {
    End(from, r) == to && exists m :: Walk(g, from, r, m) && NothingShorter(g, from, to, m)
  }

  ghost predicate NothingShorter(g: Graph, from: Id, to: Id, m: int) {
    forall r, n :: Walk(g, from, r, n) && End(from, r) == to ==> m <= n
  }

  lemma DetourIsLeast(g: Graph, from: Id, to: Id, route: seq<Id>, i: nat, cycle: seq<Id>)
    requires LeastWalk(g, from, to, route) && Detour(g, from, route, i, cycle)
    ensures LeastWalk(g, from, to, Detoured(route, i, cycle))
  {
    var m :| Walk(g, from, route, m) && NothingShorter(g, from, to, m);
    assert route == route[..i] + route[i..];
    InsertCycle(g, from, route[..i], cycle, route[i..], m);
  }

  lemma InsertCycle(g: Graph, from: Id, front: seq<Id>, cycle: seq<Id>, back: seq<Id>, m: int)
    requires Walk(g, from, front + back, m) && Walk(g, End(from, front), cycle, 0)
    requires End(End(from, front), cycle) == End(from, front)
    ensures Walk(g, from, front + cycle + back, m) && End(from, front + cycle + back) == End(from, front + back)
  {
    EndOfJoin(from, front, cycle);
    EndOfJoin(from, front, back);
    EndOfJoin(from, front + cycle, back);
    var n := SplitWalk(g, from, front, back, m);
    JoinWalks(g, from, front, n, cycle, 0);
    JoinWalks(g, from, front + cycle, n, back, m - n);
  }

  // A location entered twice, the second time after the first `k` steps, which repeat nothing.
  lemma Repetition(from: Id, r: seq<Id>, k: nat) returns (a: nat, b: nat)
    requires k <= |r| && Simple(from, r[..k]) && !Simple(from, r)
    ensures a < b <= |r| && b > k && End(from, r[..a]) == End(from, r[..b])
  {
    if i :| k <= i < |r| && r[i] == from {
      a, b := 0, i + 1;
    } else {
      assert forall i :: 0 <= i < k ==> r[i] == r[..k][i];
      var i, j :| 0 <= i < j < |r| && k <= j && r[i] == r[j];
      a, b := i + 1, j + 1;
    }
  }

  // Cutting a cycle out of a least walk: the cycle has length zero, and what is left is a least walk.
  lemma LeastCycleIsZero(g: Graph, from: Id, to: Id, r: seq<Id>, m: int, a: nat, b: nat)
    requires NonNegative(g) && Walk(g, from, r, m) && End(from, r) == to && NothingShorter(g, from, to, m)
    requires a < b <= |r| && End(from, r[..a]) == End(from, r[..b])
    ensures Walk(g, End(from, r[..a]), r[a..b], 0) && End(End(from, r[..a]), r[a..b]) == End(from, r[..a])
    ensures Walk(g, from, r[..a] + r[b..], m) && End(from, r[..a] + r[b..]) == to
  {
    assert r[..b] == r[..a] + r[a..b] && r == r[..a] + r[a..b] + r[b..];
    CutOut(g, from, to, r[..a], r[a..b], r[b..], m);
  }

  lemma CutOut(g: Graph, from: Id, to: Id, front: seq<Id>, cycle: seq<Id>, back: seq<Id>, m: int)
    requires NonNegative(g) && Walk(g, from, front + cycle + back, m) && End(from, front + cycle + back) == to
    requires NothingShorter(g, from, to, m) && End(from, front) == End(from, front + cycle)
    ensures Walk(g, End(from, front), cycle, 0) && End(End(from, front), cycle) == End(from, front)
    ensures Walk(g, from, front + back, m) && End(from, front + back) == to
  {
    EndOfJoin(from, front + cycle, back);
    EndOfJoin(from, front, cycle);
    EndOfJoin(from, front, back);
    var n, k := SplitInThree(g, from, front, cycle, back, m);
    WalksAreNonNegative(g, End(from, front), cycle, n);
    assert m <= k;
  }

  lemma SplitInThree(g: Graph, from: Id, front: seq<Id>, cycle: seq<Id>, back: seq<Id>, m: int) returns (n: int, k: int)
    requires Walk(g, from, front + cycle + back, m) && End(from, front) == End(from, front + cycle)
    ensures Walk(g, End(from, front), cycle, n) && Walk(g, from, front + back, k) && n + k == m
  {
    var j := SplitWalk(g, from, front + cycle, back, m);
    var i := SplitWalk(g, from, front, cycle, j);
    JoinWalks(g, from, front, i, back, m - j);
    n, k := j - i, i + (m - j);
  }

  // A least walk that comes before the route has to go round a cycle, and taking that cycle from the
  // route comes before the route too.
  lemma {:induction false} EarlierWalkDetours(g: Graph, from: Id, to: Id, route: seq<Id>, r: seq<Id>, m: int)
    returns (i: nat, cycle: seq<Id>)
    requires NonNegative(g) && Simple(from, route) && End(from, route) == to && NoneIsShorter(g, from, to, route, m)
    requires Walk(g, from, r, m) && End(from, r) == to && RouteLess(r, route)
    ensures Detour(g, from, route, i, cycle) && RouteLess(Detoured(route, i, cycle), route)
    decreases |r|
  {
    var k := Divergence(IdLess, r, route);
    if k == |r| {
      SimplePrefix(from, r, route);
      RoutesAreOrdered();
      assert false;
    }
    assert !Simple(from, r);
    assert Simple(from, route[..k]);
    var a, b := Repetition(from, r, k);
    LeastCycleIsZero(g, from, to, r, m, a, b);
    if a > k {
      var cut := r[..a] + r[b..];
      assert cut[..k] == r[..k] && cut[k] == r[k];
      SmallerFrom(IdLess, cut, route, k);
      i, cycle := EarlierWalkDetours(g, from, to, route, cut, m);
    } else {
      i, cycle := a, r[a..b];
      assert r[..a] == r[..k][..a] == route[..k][..a] == route[..a];
      EarlierByDetour(r, route, a, b, k);
    }
  }

  lemma EarlierByDetour(r: seq<Id>, route: seq<Id>, a: nat, b: nat, k: nat)
    requires a <= k < b <= |r| && k < |route| && r[..k] == route[..k] && IdLess(r[k], route[k])
    ensures RouteLess(Detoured(route, a, r[a..b]), route)
  {
    var d := Detoured(route, a, r[a..b]);
    assert r[..a] == r[..k][..a] == route[..k][..a] == route[..a];
    assert r[..b] == r[..a] + r[a..b];
    assert d == r[..b] + route[a..];
    assert d[..k] == r[..k] && d[k] == r[k];
    SmallerFrom(IdLess, d, route, k);
  }

  /** The route is the lexicographically first of all walks of the least total distance exactly when no
      cycle of length zero at one of its locations leads to an earlier one. */
  lemma FirstOfAllIffNoDetour(g: Graph, from: Id, to: Id, route: seq<Id>)
    requires NonNegative(g) && IsShortest(g, from, to, route)
    ensures (forall r :: LeastWalk(g, from, to, r) ==> !RouteLess(r, route))
       <==> (forall i, cycle :: Detour(g, from, route, i, cycle) ==> !RouteLess(Detoured(route, i, cycle), route))
  {
    var m :| Walk(g, from, route, m) && NoneIsShorter(g, from, to, route, m);
    assert NothingShorter(g, from, to, m);
    if i, cycle :| Detour(g, from, route, i, cycle) && RouteLess(Detoured(route, i, cycle), route) {
      DetourIsLeast(g, from, to, route, i, cycle);
    }
    if r :| LeastWalk(g, from, to, r) && RouteLess(r, route) {
      var n :| Walk(g, from, r, n) && NothingShorter(g, from, to, n);
      assert n == m;
      var i, cycle := EarlierWalkDetours(g, from, to, route, r, m);
    }
  }

  /** So without a cycle of length zero through one of its locations it is the first, and any other walk
      of the least total distance comes later. */
  lemma ShortestIsFirstOfAll(g: Graph, from: Id, to: Id, route: seq<Id>, r: seq<Id>)
    requires NonNegative(g) && IsShortest(g, from, to, route) && forall i, cycle :: !Detour(g, from, route, i, cycle)
    requires LeastWalk(g, from, to, r)
    ensures r == route || RouteLess(route, r)
  {
    FirstOfAllIffNoDetour(g, from, to, route);
    RoutesAreOrdered();
  }

  function ZeroCycle(): Graph {
    map["x" := [Edge("a", 0), Edge("z", 0)], "a" := [Edge("x", 0)], "z" := []]
  }

  /** Not so with a cycle of length zero: going round it can lead to a lexicographically smaller route
      of the same length. */
  lemma ZeroCyclesCanComeFirst(route: seq<Id>, detour: seq<Id>)
    requires route == ["z"] && detour == ["a", "x", "z"]
    ensures NonNegative(ZeroCycle()) && IsShortest(ZeroCycle(), "x", "z", route)
    ensures Walk(ZeroCycle(), "x", route, 0) && Walk(ZeroCycle(), "x", detour, 0)
    ensures End("x", detour) == "z" && RouteLess(detour, route)
  {
    WalksOfZeroCycle(route, detour);
    assert IdLess("a", "z");
    DirectIsShortest(route);
  }

  lemma WalksOfZeroCycle(route: seq<Id>, detour: seq<Id>)
    requires route == ["z"] && detour == ["a", "x", "z"]
    ensures Walk(ZeroCycle(), "x", route, 0) && Walk(ZeroCycle(), "x", detour, 0)
  {
    var g := ZeroCycle();
    var none: seq<Id> := [];
    assert Walk(g, "x", none, 0);
    WalkOn(g, "x", none, 0, g["x"][1]);
    WalkOn(g, "x", none, 0, g["x"][0]);
    WalkOn(g, "x", ["a"], 0, g["a"][0]);
    WalkOn(g, "x", ["a", "x"], 0, g["x"][1]);
    assert none + ["z"] == route && none + ["a"] == ["a"] && ["a"] + ["x"] == ["a", "x"]
        && ["a", "x"] + ["z"] == detour;
  }

  lemma DirectIsShortest(route: seq<Id>)
    requires route == ["z"] && Walk(ZeroCycle(), "x", route, 0)
    ensures IsShortest(ZeroCycle(), "x", "z", route)
  {
    var g := ZeroCycle();
    forall r, m | Walk(g, "x", r, m) && End("x", r) == "z" ensures 0 <= m { WalksAreNonNegative(g, "x", r, m); }
    forall r | Walk(g, "x", r, 0) && End("x", r) == "z" && Simple("x", r) ensures !RouteLess(r, route) {
      OnlyWayToZ(g, r);
    }
    assert NoneIsShorter(g, "x", "z", route, 0);
  }

  lemma OnlyWayToZ(g: Graph, r: seq<Id>)
    requires g == ZeroCycle()
    requires Walk(g, "x", r, 0) && End("x", r) == "z" && Simple("x", r)
    ensures !RouteLess(r, ["z"])
  {
    var u, e := LastEdge(g, "x", r, 0);
    assert u == "x";
    assert r == ["z"];
    RoutesAreOrdered();
  }
}
