/** On a map without walls, other combatants or disallowed steps the search is exact, although its
    labels forget the diagonal parity of the path that earned them. */
module OpenMap {
  import opened Grid
  import opened Search
  import opened SearchSound

  ghost predicate OpenQuery(q: Query) {
    && q.walls == [] && q.occupied == {} && InBounds(q, q.start)
    && forall a, b :: q.allowed(a, b)
  }

  // In-bounds cells of the start's lattice.
  predicate OnMap(q: Query, c: Position) {
    InBounds(q, c) && SameGrid(q.start, c)
  }

  function Dist(q: Query, c: Position): nat {
    GridDistance(q.start, c)
  }

  predicate PureDiagonal(q: Query, c: Position) {
    Span(q.start.x, c.x) == Span(q.start.y, c.y)
  }

  // Cells on the two diagonals through the start, once labelled with their distance, hold a path of
  // diagonals only (up to parity): this is what keeps the alternating cost exact.
  ghost predicate Parity(q: Query, s: State) {
    forall c :: c in s.best && c in s.result && PureDiagonal(q, c) && s.best[c] == Dist(q, c)
                ==> Diags(s.result[c]) % 2 == Span(q.start.x, c.x) % 2
  }

  lemma GoodPathIsWalk(q: Query, path: seq<Position>, c: Position)
    requires OpenQuery(q) && GoodPath(q, path, c)
    ensures Walk(path) && OnMap(q, c)
    ensures Dist(q, c) <= Cost(path)
  {
    DistanceIsLowerBound(path);
    WalkSpan(path);
    if |path| > 1 {
      assert Legal(q, path[|path| - 2], path[|path| - 1]);
    }
  }

  lemma OpenStepsAreLegal(q: Query, a: Position, b: Position)
    requires OpenQuery(q) && InBounds(q, b) && Adjacent(a, b)
    ensures Legal(q, a, b)
  {
  }

  // One step of the distance recurrence, whatever the parity of the path unless both ends are on a
  // diagonal through the start.
  lemma LastStepCost(q: Query, c: Position, diags: nat)
    requires OnMap(q, c) && c != q.start && InBounds(q, q.start)
    requires var p := Before(q.start, c);
             PureDiagonal(q, p) && PureDiagonal(q, c) ==> diags % 2 == Span(q.start.x, p.x) % 2
    ensures var p := Before(q.start, c);
            && Adjacent(p, c) && OnMap(q, p)
            && StepCost(p, c, diags).0 == Dist(q, c) - Dist(q, p)
            && Dist(q, p) < Dist(q, c)
  {
    BeforeIsCloser(q.start, c);
    LastStepOfDistance(q.start, c);
  }

  // Cells no farther than every waiting entry carry their distance.
  lemma {:induction false} NearCellsAreExact(q: Query, s: State, reach: int, c: Position)
    requires OpenQuery(q) && Inv(q, s) && Parity(q, s)
    requires forall x :: x in s.heap ==> reach <= x.cost
    requires OnMap(q, c) && Dist(q, c) <= reach && (c == q.start || Dist(q, c) <= q.budget)
    ensures c in s.best && s.best[c] == Dist(q, c)
    decreases Abs(q.start.x - c.x) + Abs(q.start.y - c.y)
  {
    if c == q.start {
      assert LabelOk(q, s, c);
    } else {
      var p := Before(q.start, c);
      BeforeIsNear(q, c);
      NearCellsAreExact(q, s, reach, p);
      PassesOn(q, s, p, c);
      NoLabelIsTooLow(q, s, c);
    }
  }

  lemma BeforeIsNear(q: Query, c: Position)
    requires OnMap(q, c) && c != q.start && InBounds(q, q.start)
    ensures var p := Before(q.start, c);
            && OnMap(q, p) && Dist(q, p) < Dist(q, c)
            && Abs(q.start.x - p.x) + Abs(q.start.y - p.y) < Abs(q.start.x - c.x) + Abs(q.start.y - c.y)
  {
    var p := Before(q.start, c);
    BeforeIsCloser(q.start, c);
    LastStepOfDistance(q.start, c);
    LastStepCost(q, c, Span(q.start.x, p.x));
  }

  lemma NoLabelIsTooLow(q: Query, s: State, c: Position)
    requires OpenQuery(q) && Inv(q, s) && c in s.best
    ensures Dist(q, c) <= s.best[c]
  {
    assert LabelOk(q, s, c);
    GoodPathIsWalk(q, s.result[c], c);
  }

  lemma PassesOn(q: Query, s: State, p: Position, c: Position)
    requires OpenQuery(q) && Inv(q, s) && Parity(q, s)
    requires OnMap(q, c) && c != q.start && p == Before(q.start, c) && Dist(q, c) <= q.budget
    requires p in s.best && s.best[p] == Dist(q, p)
    requires forall x :: x in s.heap ==> Dist(q, p) < x.cost
    ensures c in s.best && s.best[c] <= Dist(q, c)
  {
    assert LabelOk(q, s, p);
    LastStepCost(q, c, Diags(s.result[p]));
    OpenStepsAreLegal(q, p, c);
    assert Closed(q, s, p);
    assert Reaches(q, s, p, c);
  }

  // Diagonal cells whose predecessor on the diagonal was expanded before cost `reach`.
  ghost predicate DiagonalsReady(q: Query, s: State, reach: int) {
    forall c :: OnMap(q, c) && c != q.start && PureDiagonal(q, c) && Dist(q, c) <= q.budget
                && Dist(q, Before(q.start, c)) < reach
                ==> c in s.best && s.best[c] <= Dist(q, c)
  }

  lemma PopMakesReady(q: Query, s: State, e: Entry)
    requires OpenQuery(q) && Inv(q, s) && Parity(q, s)
    requires e in s.heap && forall x :: x in s.heap ==> e.cost <= x.cost
    ensures DiagonalsReady(q, s, e.cost)
    ensures OnMap(q, e.cell) && (e.cost == s.best[e.cell] ==> e.cost == Dist(q, e.cell))
  {
    forall c | OnMap(q, c) && c != q.start && PureDiagonal(q, c) && Dist(q, c) <= q.budget
               && Dist(q, Before(q.start, c)) < e.cost
      ensures c in s.best && s.best[c] <= Dist(q, c)
    {
      var p := Before(q.start, c);
      BeforeIsCloser(q.start, c);
      LastStepCost(q, c, Span(q.start.x, p.x));
      NearCellsAreExact(q, s, e.cost, p);
      PassesOn(q, s, p, c);
    }
    GoodPathIsWalk(q, e.path, e.cell);
    assert LabelOk(q, s, e.cell);
    if e.cost == s.best[e.cell] {
      NearCellsAreExact(q, s, e.cost, e.cell);
    }
  }

  // The delicate case: a cell beside the diagonal reaches (k, k) at its distance only for even k, and
  // then (k-1, k-1) is 5 ft nearer than that cell, so it was expanded first.
  lemma BesideTheDiagonal(q: Query, n: Position, c: Position)
    requires SameGrid(q.start, c) && PureDiagonal(q, c) && c != q.start
    requires Adjacent(n, c) && n != Before(q.start, c)
    ensures Dist(q, n) >= Dist(q, c) - 5
    ensures Dist(q, n) == Dist(q, c) - 5 ==> Dist(q, Before(q.start, c)) < Dist(q, n)
  {
    DistanceClosedForm(q.start, n);
    DistanceClosedForm(q.start, c);
    DistanceClosedForm(q.start, Before(q.start, c));
    BeforeIsCloser(q.start, c);
    NotTheInnerCorner(q, n, c);
  }

  lemma NotTheInnerCorner(q: Query, n: Position, c: Position)
    requires SameGrid(q.start, c) && PureDiagonal(q, c) && c != q.start
    requires Adjacent(n, c) && n != Before(q.start, c)
    ensures var k := Span(q.start.x, c.x);
            Span(q.start.x, n.x) >= k || Span(q.start.y, n.y) >= k
    ensures Span(q.start.x, n.x) >= Span(q.start.x, c.x) - 1 && Span(q.start.y, n.y) >= Span(q.start.y, c.y) - 1
  {
    SpanStep(q.start.x, c.x, n.x);
    SpanStep(q.start.y, c.y, n.y);
  }

  // A diagonal cell improved to its distance is entered from the diagonal cell before it.
  lemma ImprovedDiagonal(q: Query, s: State, e: Entry, c: Position, cost: int)
    requires SameGrid(q.start, c) && InBounds(q, c) && PureDiagonal(q, c) && c != q.start
    requires DiagonalsReady(q, s, e.cost) && e.cost == Dist(q, e.cell)
    requires Adjacent(e.cell, c) && cost == Dist(q, c) <= q.budget
    requires e.cost + 5 <= cost < Label(q, s, c)
    ensures e.cell == Before(q.start, c)
  {
    if e.cell != Before(q.start, c) {
      BesideTheDiagonal(q, e.cell, c);
    }
  }

  lemma EntersDiagonal(q: Query, s: State, e: Entry, c: Position)
    requires DiagonalsReady(q, s, e.cost) && e.cost == Dist(q, e.cell) && OnMap(q, e.cell)
    requires Adjacent(e.cell, c) && InBounds(q, c) && PureDiagonal(q, c)
    requires e.cost + StepCost(e.cell, c, e.diags).0 == Dist(q, c) <= q.budget
    requires Dist(q, c) < Label(q, s, c)
    ensures OnMap(q, c) && c != q.start && e.cell == Before(q.start, c)
  {
    StepsStayOnMap(q, e.cell, c);
    ImprovedDiagonal(q, s, e, c, Dist(q, c));
  }

  lemma StepsStayOnMap(q: Query, a: Position, c: Position)
    requires OnMap(q, a) && Adjacent(a, c) && InBounds(q, c)
    ensures OnMap(q, c) && (Dist(q, a) < Dist(q, c) ==> c != q.start)
  {
    SpanStep(q.start.x, a.x, c.x);
    SpanStep(q.start.y, a.y, c.y);
  }

  lemma DiagonalStepFlipsParity(q: Query, c: Position, diags: nat)
    requires SameGrid(q.start, c) && c != q.start && PureDiagonal(q, c)
    requires var p := Before(q.start, c);
             PureDiagonal(q, p) ==> diags % 2 == Span(q.start.x, p.x) % 2
    ensures StepCost(Before(q.start, c), c, diags).1 % 2 == Span(q.start.x, c.x) % 2
  {
    BeforeIsCloser(q.start, c);
  }

  lemma ImproveKeepsParity(q: Query, s: State, t: State, made: Entry, reach: int)
    requires Parity(q, s) && DiagonalsReady(q, s, reach)
    requires Improves(q, s, t, made)
    requires PureDiagonal(q, made.cell) && made.cost == Dist(q, made.cell)
             ==> Diags(made.path) % 2 == Span(q.start.x, made.cell.x) % 2
    ensures Parity(q, t) && DiagonalsReady(q, t, reach)
  {
  }

  lemma RelaxKeepsParity(q: Query, s: State, e: Entry, k: nat)
    requires OpenQuery(q) && k < 8 && Mid(q, s, e, k) && Parity(q, s) && DiagonalsReady(q, s, e.cost)
    requires e.cost == Dist(q, e.cell) && OnMap(q, e.cell)
    ensures Parity(q, Relax(q, s, e, k)) && DiagonalsReady(q, Relax(q, s, e, k), e.cost)
  {
    var made := Made(e, k);
    RelaxCases(q, s, e, k);
    if Legal(q, e.cell, made.cell) && Improves(q, s, Relax(q, s, e, k), made) {
      if PureDiagonal(q, made.cell) && made.cost == Dist(q, made.cell) {
        EntersDiagonal(q, s, e, made.cell);
        DiagonalStepFlipsParity(q, made.cell, e.diags);
        CostSnoc(e.path, made.cell);
      }
      ImproveKeepsParity(q, s, Relax(q, s, e, k), made, e.cost);
    }
  }

  lemma {:induction false} ExpandKeepsParity(q: Query, s: State, e: Entry, k: nat)
    requires OpenQuery(q) && Mid(q, s, e, k) && Parity(q, s) && DiagonalsReady(q, s, e.cost)
    requires e.cost == Dist(q, e.cell) && OnMap(q, e.cell)
    ensures Parity(q, RelaxFrom(q, s, e, k))
    decreases 8 - k
  {
    if k < 8 {
      RelaxKeepsMid(q, s, e, k);
      RelaxKeepsParity(q, s, e, k);
      ExpandKeepsParity(q, Relax(q, s, e, k), e, k + 1);
    }
  }

  lemma StepKeepsParity(q: Query, s: State)
    requires OpenQuery(q) && Inv(q, s) && Parity(q, s) && s.heap != []
    ensures Parity(q, Step(q, s))
  {
    var e := s.heap[0];
    if !Stale(q, s, e) {
      assert EntryOk(q, s, e);
      PopMakesReady(q, s, e);
      PopLive(q, s);
      ExpandKeepsParity(q, s.(heap := s.heap[1..]), e, 0);
    }
  }

  lemma {:induction false} RunKeepsParity(q: Query, s: State)
    requires OpenQuery(q) && Inv(q, s) && Parity(q, s)
    ensures Inv(q, Run(q, s)) && Parity(q, Run(q, s)) && Run(q, s).heap == []
    decreases Slack(q, s), |s.heap|
  {
    if s.heap != [] {
      StepShrinks(q, s);
      StepKeepsInv(q, s);
      StepKeepsParity(q, s);
      RunKeepsParity(q, Step(q, s));
    }
  }

  /** On an open map the reachable cells are exactly those within the budget by `GridDistance`, each
      with a path that costs exactly its distance. */
  lemma OpenMapIsExact(q: Query, c: Position)
    requires OpenQuery(q)
    ensures c in Reach(q) <==> OnMap(q, c) && (c == q.start || Dist(q, c) <= q.budget)
    ensures c in Reach(q) ==> Cost(Reach(q)[c]) == Dist(q, c)
  {
    var s := Run(q, Initial(q));
    InitialInv(q);
    RunKeepsParity(q, Initial(q));
    if c in Reach(q) {
      assert LabelOk(q, s, c);
      GoodPathIsWalk(q, s.result[c], c);
    }
    if OnMap(q, c) && (c == q.start || Dist(q, c) <= q.budget) {
      NearCellsAreExact(q, s, Dist(q, c), c);
      assert LabelOk(q, s, c);
    }
  }
}
