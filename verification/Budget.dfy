/** A larger budget changes nothing about the cells a smaller one reaches, so `find_path` walks the
    very path that was offered. */
module Budget {
  import opened Grid
  import opened BattleMaps
  import opened Search
  import opened SearchSound

  // `big` runs ahead of `small`: same cheap entries in the same order, same cheap labels and paths.
  ghost predicate Ahead(limit: int, small: State, big: State) {
    && |small.heap| <= |big.heap|
    && big.heap[..|small.heap|] == small.heap
    && (forall x :: x in small.heap ==> x.cost <= limit)
    && (forall x :: x in big.heap[|small.heap|..] ==> limit < x.cost)
    && SameBelow(limit, small, big)
  }

  ghost predicate SameBelow(limit: int, small: State, big: State) {
    && (forall c :: c in small.best <==> c in big.best && big.best[c] <= limit)
    && (forall c :: c in small.best ==> small.best[c] == big.best[c])
    && small.result.Keys == small.best.Keys && big.result.Keys == big.best.Keys
    && (forall c :: c in small.best ==> small.result[c] == big.result[c])
  }

  lemma {:induction false} PushBeforeTail(heap: seq<Entry>, tail: seq<Entry>, e: Entry)
    requires forall x :: x in tail ==> e.cost < x.cost
    ensures Push(heap + tail, e) == Push(heap, e) + tail
  {
    if heap == [] {
      assert heap + tail == tail;
      assert tail != [] ==> tail[0] in tail;
    } else {
      assert (heap + tail)[1..] == heap[1..] + tail;
      if e.cost >= heap[0].cost {
        PushBeforeTail(heap[1..], tail, e);
      }
    }
  }

  lemma {:induction false} PushIntoTail(heap: seq<Entry>, tail: seq<Entry>, e: Entry)
    requires forall x :: x in heap ==> x.cost <= e.cost
    ensures Push(heap + tail, e) == heap + Push(tail, e)
  {
    if heap == [] {
      assert heap + tail == tail;
    } else {
      assert (heap + tail)[1..] == heap[1..] + tail;
      assert heap[0] in heap;
      PushIntoTail(heap[1..], tail, e);
    }
  }

  lemma HeapSplit(small: State, big: State)
    requires |small.heap| <= |big.heap| && big.heap[..|small.heap|] == small.heap
    ensures big.heap == small.heap + big.heap[|small.heap|..]
  {
  }

  function Improved(s: State, made: Entry): State {
    State(Push(s.heap, made), s.best[made.cell := made.cost], s.result[made.cell := made.path])
  }

  lemma BothImprove(limit: int, small: State, big: State, made: Entry)
    requires Ahead(limit, small, big) && made.cost <= limit
    ensures Ahead(limit, Improved(small, made), Improved(big, made))
  {
    var tail := big.heap[|small.heap|..];
    HeapSplit(small, big);
    PushBeforeTail(small.heap, tail, made);
    PushIsInsertion(small.heap, made);
    assert Improved(big, made).heap == Push(small.heap, made) + tail;
  }

  lemma BigImproves(limit: int, small: State, big: State, made: Entry)
    requires Ahead(limit, small, big) && limit < made.cost
    requires made.cell !in small.best
    ensures Ahead(limit, small, Improved(big, made))
  {
    var tail := big.heap[|small.heap|..];
    HeapSplit(small, big);
    PushIntoTail(small.heap, tail, made);
    PushIsInsertion(tail, made);
    var t := Improved(big, made);
    assert t.heap == small.heap + Push(tail, made);
    assert t.heap[|small.heap|..] == Push(tail, made);
    DearLabelsDiffer(limit, small, big, made);
  }

  lemma DearLabelsDiffer(limit: int, small: State, big: State, made: Entry)
    requires SameBelow(limit, small, big) && limit < made.cost && made.cell !in small.best
    ensures SameBelow(limit, small, Improved(big, made))
  {
  }

  ghost predicate SameBut(q1: Query, q2: Query) {
    q1.budget <= q2.budget && q2 == q1.(budget := q2.budget)
  }

  ghost predicate Accepted(q: Query, s: State, e: Entry, k: nat)
    requires k < 8
  {
    Legal(q, e.cell, Made(e, k).cell) && Made(e, k).cost <= q.budget && Made(e, k).cost < Label(q, s, Made(e, k).cell)
  }

  lemma RelaxIsImproved(q: Query, s: State, e: Entry, k: nat)
    requires k < 8
    ensures Relax(q, s, e, k) == if Accepted(q, s, e, k) then Improved(s, Made(e, k)) else s
  {
  }

  lemma RelaxBoth(q1: Query, q2: Query, small: State, big: State, e: Entry, k: nat)
    requires SameBut(q1, q2) && k < 8 && Ahead(q1.budget, small, big)
    ensures Ahead(q1.budget, Relax(q1, small, e, k), Relax(q2, big, e, k))
  {
    var made := Made(e, k);
    RelaxIsImproved(q1, small, e, k);
    RelaxIsImproved(q2, big, e, k);
    if made.cost <= q1.budget {
      assert Accepted(q1, small, e, k) <==> Accepted(q2, big, e, k);
      BothImprove(q1.budget, small, big, made);
    } else if Accepted(q2, big, e, k) {
      BigImproves(q1.budget, small, big, made);
    }
  }

  lemma RelaxBig(q: Query, limit: int, small: State, big: State, e: Entry, k: nat)
    requires limit <= q.budget && k < 8 && Ahead(limit, small, big) && limit < e.cost
    ensures Ahead(limit, small, Relax(q, big, e, k))
  {
    RelaxIsImproved(q, big, e, k);
    if Accepted(q, big, e, k) {
      BigImproves(limit, small, big, Made(e, k));
    }
  }

  lemma {:induction false} ExpandBoth(q1: Query, q2: Query, small: State, big: State, e: Entry, k: nat)
    requires SameBut(q1, q2) && k <= 8 && Ahead(q1.budget, small, big)
    ensures Ahead(q1.budget, RelaxFrom(q1, small, e, k), RelaxFrom(q2, big, e, k))
    decreases 8 - k
  {
    if k < 8 {
      RelaxBoth(q1, q2, small, big, e, k);
      ExpandBoth(q1, q2, Relax(q1, small, e, k), Relax(q2, big, e, k), e, k + 1);
    }
  }

  lemma {:induction false} ExpandBig(q: Query, limit: int, small: State, big: State, e: Entry, k: nat)
    requires limit <= q.budget && k <= 8 && Ahead(limit, small, big) && limit < e.cost
    ensures Ahead(limit, small, RelaxFrom(q, big, e, k))
    decreases 8 - k
  {
    if k < 8 {
      RelaxBig(q, limit, small, big, e, k);
      ExpandBig(q, limit, small, Relax(q, big, e, k), e, k + 1);
    }
  }

  lemma StepBoth(q1: Query, q2: Query, small: State, big: State)
    requires SameBut(q1, q2) && Ahead(q1.budget, small, big) && small.heap != []
    ensures big.heap != [] && Ahead(q1.budget, Step(q1, small), Step(q2, big))
  {
    var e := small.heap[0];
    var small', big' := small.(heap := small.heap[1..]), big.(heap := big.heap[1..]);
    HeapSplit(small, big);
    assert small.heap == [e] + small'.heap && big.heap == [e] + big'.heap;
    assert big'.heap == small'.heap + big.heap[|small.heap|..];
    assert Ahead(q1.budget, small', big');
    assert Stale(q1, small, e) <==> Stale(q2, big, e);
    ExpandBoth(q1, q2, small', big', e, 0);
  }

  lemma StepBig(q: Query, limit: int, small: State, big: State)
    requires limit <= q.budget && Ahead(limit, small, big) && small.heap == [] && big.heap != []
    ensures Ahead(limit, small, Step(q, big))
  {
    var e := big.heap[0];
    var big' := big.(heap := big.heap[1..]);
    assert big.heap[0..] == big.heap == [e] + big'.heap;
    assert e in big.heap;
    ExpandBig(q, limit, small, big', e, 0);
  }

  lemma {:induction false} RunBoth(q1: Query, q2: Query, small: State, big: State)
    requires SameBut(q1, q2) && Ahead(q1.budget, small, big)
    ensures Ahead(q1.budget, Run(q1, small), Run(q2, big))
    decreases Slack(q2, big), |big.heap|
  {
    if big.heap != [] {
      StepShrinks(q2, big);
      if small.heap != [] {
        StepShrinks(q1, small);
        StepBoth(q1, q2, small, big);
        RunBoth(q1, q2, Step(q1, small), Step(q2, big));
      } else {
        StepBig(q2, q1.budget, small, big);
        RunBoth(q1, q2, small, Step(q2, big));
      }
    }
  }

  /** Budget stability: the result at a smaller budget is the result at a larger one, cut down to the
      cells whose path the smaller budget pays for, paths included. */
  lemma BudgetStability(q: Query, more: int, c: Position)
    requires q.budget <= more
    ensures var big := Reach(q.(budget := more));
            && (c in Reach(q) <==> c in big && (c == q.start || Cost(big[c]) <= q.budget))
            && (c in Reach(q) ==> Reach(q)[c] == big[c])
  {
    var q2 := q.(budget := more);
    ReachIsLabelled(q, c);
    ReachIsLabelled(q2, c);
    if q.budget >= 0 {
      assert Ahead(q.budget, Initial(q), Initial(q2));
      RunBoth(q, q2, Initial(q), Initial(q2));
    }
  }

  lemma ReachIsLabelled(q: Query, c: Position)
    ensures var s := Run(q, Initial(q));
            && s.result.Keys == s.best.Keys
            && q.start in Reach(q) && Reach(q)[q.start] == [q.start] && s.best[q.start] == 0
            && (c in Reach(q) ==> s.best[c] == Cost(Reach(q)[c]))
            && (c in Reach(q) && c != q.start ==> 0 < Cost(Reach(q)[c]) <= q.budget)
  {
    FinalLabels(q);
    var s := Run(q, Initial(q));
    assert LabelOk(q, s, q.start);
    if c in Reach(q) {
      assert LabelOk(q, s, c);
      StepsCostSomething(q, s.result[c], c);
    }
  }

  lemma FinalLabels(q: Query)
    ensures LabelsOk(q, Run(q, Initial(q)))
  {
    InitialInv(q);
    RunKeepsInv(q, Initial(q));
  }

  lemma StepsCostSomething(q: Query, path: seq<Position>, c: Position)
    requires GoodPath(q, path, c)
    ensures c != q.start ==> Cost(path) > 0
  {
    CostClosedForm(path);
  }

  function PathBudget(width: int, height: int): int {
    (width + height) * 2
  }

  ghost function PathTo(q: Query, goal: Position): seq<Position> {
    if q.start == goal then [goal] else if goal in Reach(q) then Reach(q)[goal] else []
  }

  method FindPath(start: Position, goal: Position, m: BattleMap, moverId: EntityId) returns (path: seq<Position>)
    requires m.Valid()
    modifies m`blockedEdges
    ensures m.Valid()
    ensures path == PathTo(QueryOn(m, start, PathBudget(m.width, m.height), moverId, AnyStep), goal)
    ensures start == goal ==> path == [start]
    ensures path != [] && start != goal ==>
              path[0] == start && path[|path| - 1] == goal && Cost(path) <= (m.width + m.height) * 2
  {
    if start == goal {
      return [start];
    }
    var reachable := ComputeReachable(start, PathBudget(m.width, m.height), m, moverId, AnyStep);
    path := if goal in reachable then reachable[goal] else [];
    if path != [] {
      ReachIsSound(QueryOn(m, start, PathBudget(m.width, m.height), moverId, AnyStep), goal);
    }
  }

  /** A cell offered at any budget is found again by `find_path`, along the same path, exactly when
      that path costs no more than `find_path` searches for; otherwise `find_path` returns nothing. */
  lemma FindPathAgrees(q: Query, goal: Position)
    requires goal in Reach(q)
    ensures var found := PathTo(q.(budget := PathBudget(q.width, q.height)), goal);
            && (goal == q.start || Cost(Reach(q)[goal]) <= (q.width + q.height) * 2 ==> found == Reach(q)[goal])
            && (goal != q.start && Cost(Reach(q)[goal]) > (q.width + q.height) * 2 ==> found == [])
  {
    var limit := PathBudget(q.width, q.height);
    var p := q.(budget := limit);
    ReachIsLabelled(q, goal);
    ReachIsLabelled(p, goal);
    if q.budget <= limit {
      BudgetStability(q, limit, goal);
    } else {
      assert p.(budget := q.budget) == q;
      BudgetStability(p, q.budget, goal);
    }
  }
}
