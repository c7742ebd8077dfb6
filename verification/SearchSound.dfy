/** What every state of the search keeps: labels are the costs of real paths, paths are simple, and
    each labelled cell either waits in the heap or has passed its label on to its neighbours. */
module SearchSound {
  import opened Grid
  import opened Search

  ghost predicate GoodPath(q: Query, path: seq<Position>, c: Position) {
    && path != [] && path[0] == q.start && Last(path) == c
    && (forall i :: 0 <= i < |path| - 1 ==> Legal(q, path[i], path[i + 1]))
  }

  ghost predicate Simple(path: seq<Position>) {
    forall i, j :: 0 <= i < j < |path| ==> path[i] != path[j]
  }

  // Every cell of the path carries a label no worse than this path gives it.
  ghost predicate Labelled(s: State, path: seq<Position>) {
    forall i :: 0 <= i < |path| ==> path[i] in s.best && s.best[path[i]] <= Cost(path[..i + 1])
  }

  ghost predicate LabelOk(q: Query, s: State, c: Position)
    requires c in s.best && c in s.result
  {
    && GoodPath(q, s.result[c], c) && Simple(s.result[c])
    && s.best[c] == Cost(s.result[c])
    && (c == q.start || s.best[c] <= q.budget)
  }

  ghost predicate LabelsOk(q: Query, s: State) {
    && s.result.Keys == s.best.Keys
    && q.start in s.best && s.result[q.start] == [q.start]
    && (forall c :: c in s.best ==> LabelOk(q, s, c))
  }

  ghost predicate PathsLabelled(s: State) {
    forall c :: c in s.result ==> Labelled(s, s.result[c])
  }

  ghost predicate EntryOk(q: Query, s: State, e: Entry) {
    && GoodPath(q, e.path, e.cell) && Simple(e.path) && Labelled(s, e.path)
    && e.cost == Cost(e.path) && e.diags == Diags(e.path)
    && e.cell in s.best && e.cell in s.result
    && s.best[e.cell] <= e.cost
    && (s.best[e.cell] == e.cost ==> s.result[e.cell] == e.path)
  }

  ghost predicate Sound(q: Query, s: State) {
    LabelsOk(q, s) && PathsLabelled(s) && forall x :: x in s.heap ==> EntryOk(q, s, x)
  }

  ghost predicate Sorted(heap: seq<Entry>) {
    forall i, j :: 0 <= i < j < |heap| ==> heap[i].cost <= heap[j].cost
  }

  lemma {:induction false} PushIsInsertion(heap: seq<Entry>, e: Entry)
    ensures forall x :: x in Push(heap, e) <==> x == e || x in heap
    ensures Sorted(heap) ==> Sorted(Push(heap, e))
  {
    if heap != [] && e.cost >= heap[0].cost {
      PushIsInsertion(heap[1..], e);
      assert heap == [heap[0]] + heap[1..];
      var p := Push(heap[1..], e);
      if Sorted(heap) {
        forall i | 0 <= i < |p| ensures heap[0].cost <= p[i].cost {
          assert p[i] in p;
          assert p[i] == e || p[i] in heap[1..];
        }
      }
    }
  }

  // The new entry comes after every entry of its own cost that is already waiting.
  lemma {:induction false} PushIsStable(heap: seq<Entry>, e: Entry) returns (k: nat)
    requires Sorted(heap)
    ensures k <= |heap| && Push(heap, e) == heap[..k] + [e] + heap[k..]
    ensures (forall i :: 0 <= i < k ==> heap[i].cost <= e.cost)
            && (forall i :: k <= i < |heap| ==> e.cost < heap[i].cost)
  {
    if heap == [] || e.cost < heap[0].cost {
      k := 0;
    } else {
      var j := PushIsStable(heap[1..], e);
      k := j + 1;
      assert heap[..k] == [heap[0]] + heap[1..][..j];
      assert forall i :: k <= i < |heap| ==> heap[i] == heap[1..][i - 1];
    }
  }

  lemma {:induction false} PrefixCostsLess(path: seq<Position>, i: nat)
    requires 1 <= i <= |path|
    ensures Cost(path[..i]) <= Cost(path)
    decreases |path|
  {
    if i < |path| {
      PrefixCostsLess(path[..|path| - 1], i);
      assert path[..|path| - 1][..i] == path[..i];
    } else {
      assert path[..i] == path;
    }
  }

  // A step that improves a label leaves the path it extends.
  lemma ImprovingStepIsNew(q: Query, s: State, e: Entry, n: Position, cost: int)
    requires EntryOk(q, s, e)
    requires cost < Label(q, s, n) && e.cost < cost
    ensures n !in e.path
  {
    if i :| 0 <= i < |e.path| && e.path[i] == n {
      PrefixCostsLess(e.path, i + 1);
    }
  }

  // The entry that the k-th step out of `e` would push.
  function Made(e: Entry, k: nat): Entry
    requires k < 8
  {
    var n := Neighbor(e.cell, k);
    var (feet, diags) := StepCost(e.cell, n, e.diags);
    Entry(e.cost + feet, n, diags, e.path + [n])
  }

  // `t` is `s` with the label of `made.cell` improved.
  ghost predicate Improves(q: Query, s: State, t: State, made: Entry) {
    && made.cost <= q.budget && made.cost < Label(q, s, made.cell)
    && t.best == s.best[made.cell := made.cost] && t.result == s.result[made.cell := made.path]
    && (forall x :: x in t.heap <==> x == made || x in s.heap)
    && (Sorted(s.heap) ==> Sorted(t.heap))
  }

  lemma RelaxCases(q: Query, s: State, e: Entry, k: nat)
    requires k < 8
    ensures var t, made := Relax(q, s, e, k), Made(e, k);
            || (t == s && (Legal(q, e.cell, made.cell) && made.cost <= q.budget
                ==> Label(q, s, made.cell) <= made.cost))
            || (Legal(q, e.cell, made.cell) && Improves(q, s, t, made))
  {
    PushIsInsertion(s.heap, Made(e, k));
  }

  lemma ImproveKeepsSound(q: Query, s: State, t: State, e: Entry, k: nat)
    requires k < 8 && Sound(q, s) && EntryOk(q, s, e)
    requires Legal(q, e.cell, Made(e, k).cell) && Improves(q, s, t, Made(e, k))
    ensures Sound(q, t) && EntryOk(q, t, e) && Made(e, k).cell !in e.path
  {
    MadeIsOk(q, s, t, e, k);
    ImprovedIsSound(q, s, t, e, Made(e, k));
  }

  lemma MadeIsOk(q: Query, s: State, t: State, e: Entry, k: nat)
    requires k < 8 && Sound(q, s) && EntryOk(q, s, e)
    requires Legal(q, e.cell, Made(e, k).cell) && Improves(q, s, t, Made(e, k))
    ensures Made(e, k).cell !in e.path && EntryOk(q, t, Made(e, k)) && LabelOk(q, t, Made(e, k).cell)
  {
    ImprovingStepIsNew(q, s, e, Made(e, k).cell, Made(e, k).cost);
    MadeCost(e, k);
    ExtendedPathOk(q, s, t, e, Made(e, k));
  }

  lemma MadeCost(e: Entry, k: nat)
    requires k < 8 && e.path != [] && Last(e.path) == e.cell && e.cost == Cost(e.path) && e.diags == Diags(e.path)
    ensures var made := Made(e, k);
            made.path == e.path + [made.cell] && made.cost == Cost(made.path) && made.diags == Diags(made.path)
  {
    CostSnoc(e.path, Made(e, k).cell);
  }

  lemma ImprovedIsSound(q: Query, s: State, t: State, e: Entry, made: Entry)
    requires Sound(q, s) && EntryOk(q, s, e) && Improves(q, s, t, made)
    requires made.cell !in e.path && EntryOk(q, t, made) && LabelOk(q, t, made.cell)
    ensures Sound(q, t) && EntryOk(q, t, e)
  {
    assert e.path[0] == q.start;
    ImprovedEntriesOk(q, s, t, e, made);
    ImprovedPathsLabelled(q, s, t, made);
    ImprovedLabelsOk(q, s, t, made);
  }

  lemma ImprovedLabelsOk(q: Query, s: State, t: State, made: Entry)
    requires LabelsOk(q, s) && made.cell != q.start
    requires t.best == s.best[made.cell := made.cost] && t.result == s.result[made.cell := made.path]
    requires LabelOk(q, t, made.cell)
    ensures LabelsOk(q, t)
  {
    forall c | c in t.best ensures LabelOk(q, t, c) {
      assert c != made.cell ==> LabelOk(q, s, c);
    }
  }

  lemma ImprovedEntriesOk(q: Query, s: State, t: State, e: Entry, made: Entry)
    requires Sound(q, s) && EntryOk(q, s, e) && Improves(q, s, t, made) && EntryOk(q, t, made)
    ensures EntryOk(q, t, e) && forall x :: x in t.heap ==> EntryOk(q, t, x)
  {
    forall x | x in s.heap || x == e ensures EntryOk(q, t, x) {
      OldEntryOk(q, s, t, x, made.cell);
    }
  }

  lemma ImprovedPathsLabelled(q: Query, s: State, t: State, made: Entry)
    requires PathsLabelled(s) && Improves(q, s, t, made) && Labelled(t, made.path)
    ensures PathsLabelled(t)
  {
    forall c | c in t.result ensures Labelled(t, t.result[c]) {
      assert c != made.cell ==> Labelled(s, s.result[c]);
    }
  }

  lemma ExtendedPathOk(q: Query, s: State, t: State, e: Entry, made: Entry)
    requires EntryOk(q, s, e) && Legal(q, e.cell, made.cell) && made.cell !in e.path
    requires made.path == e.path + [made.cell] && made.cost == Cost(made.path) && made.diags == Diags(made.path)
    requires t.best == s.best[made.cell := made.cost] && made.cost <= q.budget
            && t.result == s.result[made.cell := made.path]
    ensures EntryOk(q, t, made) && LabelOk(q, t, made.cell)
  {
    ExtendedLabelled(s, t, e.path, made.cell);
    ExtendedIsGood(q, e.path, e.cell, made.cell);
  }

  lemma ExtendedIsGood(q: Query, path: seq<Position>, c: Position, n: Position)
    requires GoodPath(q, path, c) && Simple(path) && Legal(q, c, n) && n !in path
    ensures GoodPath(q, path + [n], n) && Simple(path + [n])
  {
  }

  lemma ExtendedLabelled(s: State, t: State, path: seq<Position>, n: Position)
    requires Labelled(s, path) && n !in path && t.best == s.best[n := Cost(path + [n])]
    ensures Labelled(t, path + [n])
  {
    forall i | 0 <= i < |path + [n]|
      ensures (path + [n])[i] in t.best && t.best[(path + [n])[i]] <= Cost((path + [n])[..i + 1])
    {
      StillLabelled(s, t, path, n, path + [n], i);
    }
  }

  lemma StillLabelled(s: State, t: State, path: seq<Position>, n: Position, more: seq<Position>, i: nat)
    requires Labelled(s, path) && n !in path && t.best == s.best[n := Cost(more)]
    requires more == path + [n] && i <= |path|
    ensures more[i] in t.best && t.best[more[i]] <= Cost(more[..i + 1])
  {
    if i < |path| {
      assert path[i] in path;
      assert more[..i + 1] == path[..i + 1];
    } else {
      assert more[..i + 1] == more;
    }
  }

  // Improving the label of `n` spoils no entry made before.
  lemma OldEntryOk(q: Query, s: State, t: State, x: Entry, n: Position)
    requires EntryOk(q, s, x)
    requires n in t.best && t.best == s.best[n := t.best[n]] && n in t.result && t.result == s.result[n := t.result[n]]
    requires n in s.best ==> t.best[n] < s.best[n]
    ensures EntryOk(q, t, x)
  {
  }

  ghost predicate Reaches(q: Query, s: State, c: Position, n: Position)
    requires c in s.best && c in s.result
  {
    var cost := s.best[c] + StepCost(c, n, Diags(s.result[c])).0;
    cost <= q.budget ==> n in s.best && s.best[n] <= cost
  }

  // `c` has passed its label on.
  ghost predicate Closed(q: Query, s: State, c: Position)
    requires c in s.best && c in s.result
  {
    forall n :: Legal(q, c, n) ==> Reaches(q, s, c, n)
  }

  ghost predicate Pending(s: State, c: Position)
    requires c in s.best
  {
    exists x :: x in s.heap && x.cell == c && x.cost == s.best[c]
  }

  ghost predicate Inv(q: Query, s: State) {
    Sound(q, s) && Sorted(s.heap) && forall c :: c in s.best ==> Closed(q, s, c) || Pending(s, c)
  }

  // While entry `e` is expanded: its own cell is closed for the first `k` steps.
  ghost predicate Mid(q: Query, s: State, e: Entry, k: nat) {
    && k <= 8
    && Sound(q, s) && EntryOk(q, s, e) && e.cost == s.best[e.cell]
    && Sorted(s.heap)
    && (forall c :: c in s.best && c != e.cell ==> Closed(q, s, c) || Pending(s, c))
    && (forall j :: 0 <= j < k && Legal(q, e.cell, Neighbor(e.cell, j)) ==> Reaches(q, s, e.cell, Neighbor(e.cell, j)))
  }

  lemma ImproveKeepsMid(q: Query, s: State, t: State, e: Entry, k: nat)
    requires k < 8 && Mid(q, s, e, k)
    requires Legal(q, e.cell, Made(e, k).cell) && Improves(q, s, t, Made(e, k))
    ensures Mid(q, t, e, k + 1)
  {
    var made := Made(e, k);
    ImproveKeepsSound(q, s, t, e, k);
    forall c | c in t.best && c != e.cell ensures Closed(q, t, c) || Pending(t, c) {
      OthersStaySettled(q, s, t, c, made);
    }
    OwnStepsReach(q, s, t, e, k);
  }

  lemma OwnStepsReach(q: Query, s: State, t: State, e: Entry, k: nat)
    requires k < 8 && Mid(q, s, e, k) && Improves(q, s, t, Made(e, k)) && Made(e, k).cell !in e.path
    ensures e.cell in t.best && e.cell in t.result && e.cost == t.best[e.cell]
    ensures forall j ::
            0 <= j <= k && Legal(q, e.cell, Neighbor(e.cell, j)) ==> Reaches(q, t, e.cell, Neighbor(e.cell, j))
  {
    assert e.cell == Last(e.path) && e.cell != Made(e, k).cell;
    forall j | 0 <= j <= k && Legal(q, e.cell, Neighbor(e.cell, j)) ensures Reaches(q, t, e.cell, Neighbor(e.cell, j)) {
      if j < k {
        assert Reaches(q, s, e.cell, Neighbor(e.cell, j));
        ReachStays(q, s, t, e.cell, Neighbor(e.cell, j), Made(e, k));
      }
    }
  }

  lemma ReachStays(q: Query, s: State, t: State, c: Position, n: Position, made: Entry)
    requires c in s.best && c in s.result && c != made.cell && Reaches(q, s, c, n) && Improves(q, s, t, made)
    ensures c in t.best && c in t.result && Reaches(q, t, c, n)
  {
  }

  lemma RelaxKeepsMid(q: Query, s: State, e: Entry, k: nat)
    requires k < 8 && Mid(q, s, e, k)
    ensures Mid(q, Relax(q, s, e, k), e, k + 1)
  {
    var t := Relax(q, s, e, k);
    RelaxCases(q, s, e, k);
    if Legal(q, e.cell, Made(e, k).cell) && Improves(q, s, t, Made(e, k)) {
      ImproveKeepsMid(q, s, t, e, k);
    } else {
      RefusedKeepsMid(q, s, e, k);
    }
  }

  lemma RefusedKeepsMid(q: Query, s: State, e: Entry, k: nat)
    requires k < 8 && Mid(q, s, e, k)
    requires Legal(q, e.cell, Made(e, k).cell) && Made(e, k).cost <= q.budget
            ==> Label(q, s, Made(e, k).cell) <= Made(e, k).cost
    ensures Mid(q, s, e, k + 1)
  {
    if Legal(q, e.cell, Made(e, k).cell) {
      assert Reaches(q, s, e.cell, Neighbor(e.cell, k));
    }
  }

  lemma OthersStaySettled(q: Query, s: State, t: State, c: Position, made: Entry)
    requires s.result.Keys == s.best.Keys && c in t.best
    requires c in s.best ==> Closed(q, s, c) || Pending(s, c)
    requires Improves(q, s, t, made)
    ensures c in t.result && (Closed(q, t, c) || Pending(t, c))
  {
    if c == made.cell {
      assert made in t.heap;
    } else if Pending(s, c) {
      var x :| x in s.heap && x.cell == c && x.cost == s.best[c];
      assert x in t.heap;
    } else {
      forall n | Legal(q, c, n) ensures Reaches(q, t, c, n) {
        assert Reaches(q, s, c, n);
      }
    }
  }

  lemma {:induction false} RelaxFromKeepsMid(q: Query, s: State, e: Entry, k: nat)
    requires Mid(q, s, e, k)
    ensures Mid(q, RelaxFrom(q, s, e, k), e, 8)
    decreases 8 - k
  {
    if k < 8 {
      RelaxKeepsMid(q, s, e, k);
      RelaxFromKeepsMid(q, Relax(q, s, e, k), e, k + 1);
    }
  }

  function Tail(s: State): State
    requires s.heap != []
  {
    s.(heap := s.heap[1..])
  }

  lemma TailIsSound(q: Query, s: State)
    requires Sound(q, s) && Sorted(s.heap) && s.heap != []
    ensures Sound(q, Tail(s)) && Sorted(Tail(s).heap) && EntryOk(q, Tail(s), s.heap[0])
  {
    var t := Tail(s);
    forall x | x in t.heap || x == s.heap[0] ensures EntryOk(q, t, x) {
      assert EntryOk(q, s, x);
    }
    forall c | c in t.best ensures LabelOk(q, t, c) {
      assert LabelOk(q, s, c);
    }
    forall c | c in t.result ensures Labelled(t, t.result[c]) {
      assert Labelled(s, s.result[c]);
    }
  }

  // Popping settles nothing and unsettles only the popped cell.
  lemma TailStaysSettled(q: Query, s: State, c: Position)
    requires s.heap != [] && c in s.best && c in s.result
    requires Closed(q, s, c) || Pending(s, c)
    requires s.heap[0].cell == c ==> s.heap[0].cost != s.best[c]
    ensures Closed(q, Tail(s), c) || Pending(Tail(s), c)
  {
    if Closed(q, s, c) {
      forall n | Legal(q, c, n) ensures Reaches(q, Tail(s), c, n) {
        assert Reaches(q, s, c, n);
      }
    } else {
      var x :| x in s.heap && x.cell == c && x.cost == s.best[c];
      assert x in Tail(s).heap;
    }
  }

  lemma PopStale(q: Query, s: State)
    requires Inv(q, s) && s.heap != [] && Stale(q, s, s.heap[0])
    ensures Inv(q, Tail(s))
  {
    TailIsSound(q, s);
    forall c | c in s.best ensures Closed(q, Tail(s), c) || Pending(Tail(s), c) {
      TailStaysSettled(q, s, c);
    }
  }

  lemma PopLive(q: Query, s: State)
    requires Inv(q, s) && s.heap != [] && !Stale(q, s, s.heap[0])
    ensures Mid(q, Tail(s), s.heap[0], 0)
  {
    assert EntryOk(q, s, s.heap[0]);
    TailIsSound(q, s);
    forall c | c in s.best && c != s.heap[0].cell ensures Closed(q, Tail(s), c) || Pending(Tail(s), c) {
      TailStaysSettled(q, s, c);
    }
  }

  lemma MidEnds(q: Query, s: State, e: Entry)
    requires Mid(q, s, e, 8)
    ensures Inv(q, s)
  {
    forall n | Legal(q, e.cell, n) ensures Reaches(q, s, e.cell, n) {
      EveryNeighbor(e.cell, n);
    }
  }

  lemma StepKeepsInv(q: Query, s: State)
    requires Inv(q, s) && s.heap != []
    ensures Inv(q, Step(q, s))
  {
    if Stale(q, s, s.heap[0]) {
      PopStale(q, s);
    } else {
      PopLive(q, s);
      RelaxFromKeepsMid(q, s.(heap := s.heap[1..]), s.heap[0], 0);
      MidEnds(q, Step(q, s), s.heap[0]);
    }
  }

  lemma InitialInv(q: Query)
    ensures Inv(q, Initial(q))
  {
    var s := Initial(q);
    assert s.heap[0] in s.heap;
  }

  lemma {:induction false} RunKeepsInv(q: Query, s: State)
    requires Inv(q, s)
    ensures Inv(q, Run(q, s)) && Run(q, s).heap == []
    decreases Slack(q, s), |s.heap|
  {
    if s.heap != [] {
      StepShrinks(q, s);
      StepKeepsInv(q, s);
      RunKeepsInv(q, Step(q, s));
    }
  }

  /** Every reported path is simple, starts at the start, ends at its key, takes only legal steps
      (in bounds, past no wall, onto no occupied or disallowed cell) and fits the budget. */
  lemma ReachIsSound(q: Query, c: Position)
    requires c in Reach(q)
    ensures GoodPath(q, Reach(q)[c], c) && Simple(Reach(q)[c])
    ensures c == q.start || Cost(Reach(q)[c]) <= q.budget
    ensures q.start in Reach(q) && Reach(q)[q.start] == [q.start]
    ensures forall i :: 0 <= i < |Reach(q)[c]| ==> Reach(q)[c][i] in Reach(q)
  {
    InitialInv(q);
    RunKeepsInv(q, Initial(q));
    assert LabelOk(q, Run(q, Initial(q)), c);
  }

  // No reported path stops short of an affordable legal step that would improve on the result.
  lemma ReachIsClosed(q: Query, c: Position, n: Position)
    requires c in Reach(q) && Legal(q, c, n)
    requires Cost(Reach(q)[c] + [n]) <= q.budget
    ensures n in Reach(q) && Cost(Reach(q)[n]) <= Cost(Reach(q)[c] + [n])
  {
    var s := Run(q, Initial(q));
    InitialInv(q);
    RunKeepsInv(q, Initial(q));
    assert Closed(q, s, c) && LabelOk(q, s, c);
    CostSnoc(s.result[c], n);
    assert Reaches(q, s, c, n);
    assert LabelOk(q, s, n);
  }
}
