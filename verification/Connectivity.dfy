/** With the unbounded budget the search decides connectivity: simple paths never cost as much. */
module Connectivity {
  import opened Grid
  import opened Search
  import opened SearchSound

  function UnboundedBudget(width: int, height: int): int {
    width * height * 15
  }

  // Some sequence of legal steps leads from the start to `c`.
  ghost predicate Connected(q: Query, c: Position) {
    exists path :: GoodPath(q, path, c)
  }

  // Row-major number of a cell's square.
  function SquareIndex(q: Query, c: Position): int {
    (c.x / 5) * (q.height / 5 + 1) + c.y / 5
  }

  function Squares(q: Query): int {
    (q.width / 5 + 1) * (q.height / 5 + 1)
  }

  lemma SquareIndexInRange(q: Query, c: Position)
    requires InBounds(q, c)
    ensures 0 <= SquareIndex(q, c) < Squares(q)
  {
    var rows, col := q.height / 5 + 1, c.x / 5;
    assert 0 <= col <= q.width / 5;
    assert col * rows <= (q.width / 5) * rows;
    assert (q.width / 5 + 1) * rows == (q.width / 5) * rows + rows;
  }

  lemma SameSquareSameCell(q: Query, a: Position, b: Position)
    requires InBounds(q, a) && InBounds(q, b) && SameGrid(a, b)
    requires SquareIndex(q, a) == SquareIndex(q, b)
    ensures a == b
  {
    DigitsAreUnique(a.x / 5, b.x / 5, a.y / 5, b.y / 5, q.height / 5 + 1);
  }

  lemma DigitsAreUnique(c: int, d: int, r: int, s: int, rows: int)
    requires 0 <= r < rows && 0 <= s < rows && c * rows + r == d * rows + s
    ensures c == d && r == s
  {
    assert (c - d) * rows == s - r;
    assert c - d >= 1 ==> (c - d) * rows >= rows;
    assert c - d <= -1 ==> (c - d) * rows <= -rows;
  }

  // Pigeonhole: distinct numbers below `n` are at most `n`.
  lemma {:induction false} DistinctBelow(s: seq<int>, n: nat)
    requires forall i :: 0 <= i < |s| ==> 0 <= s[i] < n
    requires forall i, j :: 0 <= i < j < |s| ==> s[i] != s[j]
    ensures |s| <= n
    decreases n
  {
    if |s| > 0 {
      assert 0 <= s[0];
      if i :| 0 <= i < |s| && s[i] == n - 1 {
        DistinctBelow(s[..i] + s[i + 1..], n - 1);
      } else {
        DistinctBelow(s, n - 1);
      }
    }
  }

  lemma {:induction false} GoodPathStaysOnMap(q: Query, path: seq<Position>, i: nat)
    requires InBounds(q, q.start) && path != [] && GoodPath(q, path, Last(path)) && i < |path|
    ensures InBounds(q, path[i]) && SameGrid(q.start, path[i])
  {
    if i > 0 {
      GoodPathStaysOnMap(q, path, i - 1);
      assert Legal(q, path[i - 1], path[i]);
      SpanStep(q.start.x, path[i - 1].x, path[i].x);
      SpanStep(q.start.y, path[i - 1].y, path[i].y);
    }
  }

  lemma OneLattice(a: Position, b: Position, c: Position)
    requires SameGrid(a, b) && SameGrid(a, c)
    ensures SameGrid(b, c)
  {
  }

  lemma PathSquaresDiffer(q: Query, path: seq<Position>, i: nat, j: nat)
    requires InBounds(q, q.start) && path != [] && GoodPath(q, path, Last(path)) && Simple(path)
    requires i < j < |path|
    ensures SquareIndex(q, path[i]) != SquareIndex(q, path[j])
  {
    GoodPathStaysOnMap(q, path, i);
    GoodPathStaysOnMap(q, path, j);
    OneLattice(q.start, path[i], path[j]);
    if SquareIndex(q, path[i]) == SquareIndex(q, path[j]) {
      SameSquareSameCell(q, path[i], path[j]);
    }
  }

  lemma SimplePathsAreShort(q: Query, path: seq<Position>)
    requires InBounds(q, q.start) && path != [] && GoodPath(q, path, Last(path)) && Simple(path)
    ensures |path| <= Squares(q)
  {
    var s := seq(|path|, i requires 0 <= i < |path| => SquareIndex(q, path[i]));
    forall i | 0 <= i < |s| ensures 0 <= s[i] < Squares(q) {
      GoodPathStaysOnMap(q, path, i);
      SquareIndexInRange(q, path[i]);
    }
    forall i, j | 0 <= i < j < |s| ensures s[i] != s[j] {
      PathSquaresDiffer(q, path, i, j);
    }
    SquareIndexInRange(q, q.start);
    DistinctBelow(s, Squares(q));
  }

  lemma UnboundedCoversSquares(w: int, h: int)
    requires w > 0 && h > 0
    ensures 10 * ((w / 5 + 1) * (h / 5 + 1) - 1) <= UnboundedBudget(w, h)
  {
    var a, b := w / 5, h / 5;
    AreaBounds(w, h, a, b);
    assert (a + 1) * (b + 1) - 1 == a * b + a + b;
    assert UnboundedBudget(w, h) == 15 * (w * h);
  }

  lemma AreaBounds(w: int, h: int, a: int, b: int)
    requires w >= 1 && h >= 1 && 0 <= 5 * a <= w && 0 <= 5 * b <= h
    ensures 5 * a <= w * h && 5 * b <= w * h && 5 * (a * b) <= w * h
  {
    ProductGrows(w, 1, w, h);
    ProductGrows(1, h, w, h);
    ProductGrows(5 * a, b, w, h);
    assert (5 * a) * b == 5 * (a * b);
  }

  lemma ProductGrows(a: int, b: int, c: int, d: int)
    requires 0 <= a <= c && 0 <= b <= d
    ensures a * b <= c * d
  {
    assert a * (d - b) >= 0 && (c - a) * d >= 0;
  }

  lemma SimplePathsFitTheBudget(q: Query, path: seq<Position>)
    requires InBounds(q, q.start) && q.width > 0 && q.height > 0
    requires path != [] && GoodPath(q, path, Last(path)) && Simple(path)
    ensures Cost(path) <= UnboundedBudget(q.width, q.height)
  {
    CostClosedForm(path);
    SimplePathsAreShort(q, path);
    UnboundedCoversSquares(q.width, q.height);
  }

  lemma NeighboursAreReached(q: Query, c: Position, n: Position)
    requires InBounds(q, q.start) && q.width > 0 && q.height > 0
    requires q.budget == UnboundedBudget(q.width, q.height)
    requires c in Reach(q) && Legal(q, c, n)
    ensures n in Reach(q)
  {
    ReachIsSound(q, c);
    var path := Reach(q)[c] + [n];
    if n !in Reach(q) {
      assert Simple(path);
      SimplePathsFitTheBudget(q, path);
      ReachIsClosed(q, c, n);
    }
  }

  lemma {:induction false} ConnectedCellsAreReached(q: Query, path: seq<Position>, i: nat)
    requires InBounds(q, q.start) && q.width > 0 && q.height > 0
    requires q.budget == UnboundedBudget(q.width, q.height)
    requires path != [] && GoodPath(q, path, Last(path)) && i < |path|
    ensures path[i] in Reach(q)
  {
    if i == 0 {
      InitialInv(q);
      RunKeepsInv(q, Initial(q));
    } else {
      ConnectedCellsAreReached(q, path, i - 1);
      assert Legal(q, path[i - 1], path[i]);
      NeighboursAreReached(q, path[i - 1], path[i]);
    }
  }

  /** On a map with area, the unbounded search reports exactly the connected cells. */
  lemma UnboundedIsConnectivity(q: Query, c: Position)
    requires InBounds(q, q.start) && q.width > 0 && q.height > 0
    requires q.budget == UnboundedBudget(q.width, q.height)
    ensures c in Reach(q) <==> Connected(q, c)
  {
    if c in Reach(q) {
      ReachIsSound(q, c);
    }
    if path :| GoodPath(q, path, c) {
      ConnectedCellsAreReached(q, path, |path| - 1);
    }
  }

  // A one-row or one-column map makes the "unbounded" budget zero: there the answer is right exactly
  // when the start has no legal step at all.
  lemma ZeroAreaIsExactOnlyWhenStuck(q: Query)
    requires InBounds(q, q.start) && (q.width == 0 || q.height == 0)
    requires q.budget == UnboundedBudget(q.width, q.height)
    ensures (forall c :: c in Reach(q) <==> Connected(q, c)) <==> (forall n :: !Legal(q, q.start, n))
  {
    assert q.budget == 0;
    ReachHasStart(q);
    if n :| Legal(q, q.start, n) {
      assert GoodPath(q, [q.start, n], n);
      NothingWithinZero(q, n);
      assert Connected(q, n) && n !in Reach(q);
    } else {
      forall c ensures c in Reach(q) <==> Connected(q, c) {
        OnlyStartIsConnected(q, c);
        if c in Reach(q) {
          NothingWithinZero(q, c);
        }
      }
    }
  }

  lemma NothingWithinZero(q: Query, c: Position)
    requires q.budget <= 0
    ensures c in Reach(q) ==> c == q.start
  {
    if c in Reach(q) && c != q.start {
      ReachIsSound(q, c);
      CostClosedForm(Reach(q)[c]);
    }
  }

  lemma OnlyStartIsConnected(q: Query, c: Position)
    requires forall n :: !Legal(q, q.start, n)
    ensures Connected(q, c) <==> c == q.start
  {
    assert GoodPath(q, [q.start], q.start);
    if path :| GoodPath(q, path, c) {
      assert |path| > 1 ==> Legal(q, path[0], path[1]);
    }
  }

  lemma ReachHasStart(q: Query)
    ensures q.start in Reach(q) && Reach(q)[q.start] == [q.start]
  {
    InitialInv(q);
    RunKeepsInv(q, Initial(q));
  }
}
