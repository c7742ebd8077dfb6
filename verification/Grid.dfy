/** The battle grid: cells in feet, the closed-form distance and the cost of a walk
    under the alternating diagonal rule (5 ft, 10 ft, 5 ft, ...). */
module Grid {

  datatype Option<+T> = None | Some(value: T)

  datatype Position = Position(x: int, y: int)

  function Abs(n: int): nat {
    if n < 0 then -n else n
  }

  function Max(a: int, b: int): int {
    if a < b then b else a
  }

  function Min(a: int, b: int): int {
    if a < b then a else b
  }

  // Squares between two coordinates.
  function Span(a: int, b: int): nat {
    Abs(a - b) / 5
  }

  // Both cells lie on the same 5-ft lattice.
  predicate SameGrid(a: Position, b: Position) {
    (a.x - b.x) % 5 == 0 && (a.y - b.y) % 5 == 0
  }

  function GridDistance(a: Position, b: Position): nat {
    var dx := Span(a.x, b.x);
    var dy := Span(a.y, b.y);
    var straight := Abs(dx - dy);
    var diag := Min(dx, dy);
    straight * 5 + ((diag / 2) * 15 + (diag % 2) * 5)
  }

  predicate IsDiagonal(a: Position, b: Position) {
    a.x != b.x && a.y != b.y
  }

  // Cost of one step and the diagonal count after it.
  function StepCost(cur: Position, next: Position, diags: nat): (nat, nat) {
    if IsDiagonal(cur, next) then (if diags % 2 == 1 then 10 else 5, diags + 1) else (5, diags)
  }

  // `b` is one of the eight cells around `a`.
  predicate Adjacent(a: Position, b: Position) {
    && a != b
    && (b.x - a.x == -5 || b.x == a.x || b.x - a.x == 5)
    && (b.y - a.y == -5 || b.y == a.y || b.y - a.y == 5)
  }

  predicate Walk(path: seq<Position>) {
    && path != []
    && forall i :: 0 <= i < |path| - 1 ==> Adjacent(path[i], path[i + 1])
  }

  function Last(path: seq<Position>): Position
    requires path != []
  {
    path[|path| - 1]
  }

  // Number of diagonal steps of a path.
  function Diags(path: seq<Position>): nat {
    if |path| <= 1 then 0
    else StepCost(path[|path| - 2], Last(path), Diags(path[..|path| - 1])).1
  }

  // Feet paid by a walker that takes the steps of `path` in order.
  function Cost(path: seq<Position>): nat {
    if |path| <= 1 then 0
    else
      var init := path[..|path| - 1];
      Cost(init) + StepCost(Last(init), Last(path), Diags(init)).0
  }

  method PathCost(path: seq<Position>) returns (spent: nat)
    ensures spent == Cost(path)
  {
    spent := 0;
    var diags := 0;
    var i := 1;
    while i < |path|
      invariant 1 <= i <= Max(1, |path|)
      invariant path != [] ==> spent == Cost(path[..i]) && diags == Diags(path[..i])
      invariant path == [] ==> spent == 0
    {
      CostSnoc(path[..i], path[i]);
      assert path[..i] + [path[i]] == path[..i + 1];
      var (cost, d) := StepCost(path[i - 1], path[i], diags);
      spent, diags, i := spent + cost, d, i + 1;
    }
    assert path != [] ==> path[..i] == path;
  }

  // The order of straight and diagonal steps does not matter: every step costs 5 ft, and every
  // second diagonal 5 ft more.
  lemma {:induction false} CostClosedForm(path: seq<Position>)
    requires path != []
    ensures Cost(path) == 5 * (|path| - 1) + 5 * (Diags(path) / 2)
    ensures Diags(path) <= |path| - 1
  {
    if |path| > 1 {
      CostClosedForm(path[..|path| - 1]);
    }
  }

  lemma CostSnoc(path: seq<Position>, next: Position)
    requires path != []
    ensures Cost(path + [next]) == Cost(path) + StepCost(Last(path), next, Diags(path)).0
    ensures Diags(path + [next]) == StepCost(Last(path), next, Diags(path)).1
  {
    assert (path + [next])[..|path|] == path;
  }

  lemma SpanStep(a: int, b: int, c: int)
    requires (a - b) % 5 == 0
    requires c - b == -5 || c == b || c - b == 5
    ensures (a - c) % 5 == 0
    ensures Span(a, b) - 1 <= Span(a, c) <= Span(a, b) + 1
  {
  }

  // How far a walk of given straight and diagonal steps can get.
  lemma {:induction false} WalkSpan(path: seq<Position>)
    requires Walk(path)
    ensures SameGrid(path[0], Last(path))
    ensures var dx, dy := Span(path[0].x, Last(path).x), Span(path[0].y, Last(path).y);
            Max(dx, dy) <= |path| - 1 && dx + dy <= |path| - 1 + Diags(path)
  {
    if |path| > 1 {
      var init := path[..|path| - 1];
      WalkSpan(init);
      assert Adjacent(path[|path| - 2], path[|path| - 1]);
      SpanStep(path[0].x, Last(init).x, Last(path).x);
      SpanStep(path[0].y, Last(init).y, Last(path).y);
    }
  }

  lemma DistanceClosedForm(a: Position, b: Position)
    ensures var dx, dy := Span(a.x, b.x), Span(a.y, b.y);
            GridDistance(a, b) == 5 * Max(dx, dy) + 5 * (Min(dx, dy) / 2)
  {
  }

  // No walk beats the closed-form distance ...
  lemma DistanceIsLowerBound(path: seq<Position>)
    requires Walk(path)
    ensures GridDistance(path[0], Last(path)) <= Cost(path)
  {
    WalkSpan(path);
    CostClosedForm(path);
    DistanceClosedForm(path[0], Last(path));
    CheapestMix(Span(path[0].x, Last(path).x), Span(path[0].y, Last(path).y), |path| - 1, Diags(path));
  }

  lemma CheapestMix(dx: nat, dy: nat, steps: nat, diags: nat)
    requires Max(dx, dy) <= steps && dx + dy <= steps + diags
    ensures Max(dx, dy) + Min(dx, dy) / 2 <= steps + diags / 2
  {
  }

  function Toward(from: int, to: int): int {
    if from < to then from + 5 else if from > to then from - 5 else from
  }

  lemma TowardCloses(from: int, to: int)
    requires (to - from) % 5 == 0
    ensures (to - Toward(from, to)) % 5 == 0
    ensures Span(to, Toward(from, to)) == if from == to then 0 else Span(to, from) - 1
    ensures Abs(to - Toward(from, to)) == if from == to then 0 else Abs(to - from) - 5
  {
  }

  // The cell before `b` on the direct walk from `a`: straight along the longer axis while the axes
  // differ, diagonal once they agree.
  function Before(a: Position, b: Position): Position {
    var dx, dy := Abs(a.x - b.x), Abs(a.y - b.y);
    Position(if dx >= dy then Toward(b.x, a.x) else b.x, if dy >= dx then Toward(b.y, a.y) else b.y)
  }

  lemma BeforeIsCloser(a: Position, b: Position)
    requires SameGrid(a, b) && a != b
    ensures SameGrid(a, Before(a, b)) && Adjacent(Before(a, b), b)
    ensures var p, dx, dy := Before(a, b), Span(a.x, b.x), Span(a.y, b.y);
            && Span(a.x, p.x) == (if dx >= dy then dx - 1 else dx)
            && Span(a.y, p.y) == (if dy >= dx then dy - 1 else dy)
            && (IsDiagonal(p, b) <==> dx == dy)
    ensures Abs(a.x - Before(a, b).x) + Abs(a.y - Before(a, b).y) < Abs(a.x - b.x) + Abs(a.y - b.y)
  {
    TowardCloses(b.x, a.x);
    TowardCloses(b.y, a.y);
  }

  function DirectWalk(a: Position, b: Position): seq<Position>
    requires SameGrid(a, b)
    decreases Abs(a.x - b.x) + Abs(a.y - b.y)
  {
    if a == b then [a] else BeforeIsCloser(a, b); DirectWalk(a, Before(a, b)) + [b]
  }

  lemma LastStepOfDistance(a: Position, b: Position)
    requires SameGrid(a, b) && a != b
    ensures var p := Before(a, b);
            var diags := Min(Span(a.x, p.x), Span(a.y, p.y));
            StepCost(p, b, diags) == (GridDistance(a, b) - GridDistance(a, p), Min(Span(a.x, b.x), Span(a.y, b.y)))
  {
    BeforeIsCloser(a, b);
    DistanceClosedForm(a, Before(a, b));
    DistanceClosedForm(a, b);
  }

  // ... and one walk attains it.
  lemma {:induction false} DistanceIsAttained(a: Position, b: Position)
    requires SameGrid(a, b)
    ensures var path := DirectWalk(a, b);
            && Walk(path) && path[0] == a && Last(path) == b
            && Cost(path) == GridDistance(a, b)
    ensures Diags(DirectWalk(a, b)) == Min(Span(a.x, b.x), Span(a.y, b.y))
    decreases Abs(a.x - b.x) + Abs(a.y - b.y)
  {
    if a != b {
      var p := Before(a, b);
      BeforeIsCloser(a, b);
      DistanceIsAttained(a, p);
      CostSnoc(DirectWalk(a, p), b);
      LastStepOfDistance(a, b);
    }
  }

  lemma TriangleWithSlack(a: Position, b: Position, c: Position)
    requires SameGrid(a, b) && SameGrid(b, c)
    ensures GridDistance(a, c) <= GridDistance(a, b) + GridDistance(b, c) + 5
    ensures GridDistance(a, c) > GridDistance(a, b) + GridDistance(b, c)
            ==> Min(Span(a.x, b.x), Span(a.y, b.y)) % 2 == 1 && Min(Span(b.x, c.x), Span(b.y, c.y)) % 2 == 1
  {
    TriangleIsLegs(a, b, c);
  }

  lemma TriangleIsLegs(a: Position, b: Position, c: Position)
    requires SameGrid(a, b) && SameGrid(b, c)
    ensures var (x1, y1, x2, y2) := (Span(a.x, b.x), Span(a.y, b.y), Span(b.x, c.x), Span(b.y, c.y));
            && GridDistance(a, b) + GridDistance(b, c) == 5 * (Length(x1, y1) + Length(x2, y2))
            && GridDistance(a, c) == 5 * Length(Span(a.x, c.x), Span(a.y, c.y))
            && Length(Span(a.x, c.x), Span(a.y, c.y)) <= Length(x1, y1) + Length(x2, y2) + 1
            && (Length(Span(a.x, c.x), Span(a.y, c.y)) > Length(x1, y1) + Length(x2, y2)
                <==> Undercut(x1, y1, x2, y2, Span(a.x, c.x), Span(a.y, c.y)))
  {
    DistanceClosedForm(a, b);
    DistanceClosedForm(b, c);
    DistanceClosedForm(a, c);
    SpanTriangle(a.x, b.x, c.x);
    SpanTriangle(a.y, b.y, c.y);
    LegsTriangle(Span(a.x, b.x), Span(a.y, b.y), Span(b.x, c.x), Span(b.y, c.y), Span(a.x, c.x), Span(a.y, c.y));
  }

  // Cells paid for, every second diagonal twice.
  function Length(x: nat, y: nat): nat {
    Max(x, y) + Min(x, y) / 2
  }

  // Both legs have an odd number of diagonals, lean to the same axis and go the same way on both axes.
  predicate Undercut(x1: nat, y1: nat, x2: nat, y2: nat, x: nat, y: nat) {
    && Min(x1, y1) % 2 == 1 && Min(x2, y2) % 2 == 1
    && ((x1 >= y1 && x2 >= y2) || (x1 <= y1 && x2 <= y2))
    && x == x1 + x2 && y == y1 + y2
  }

  /** Exactly when two legs undercut the direct distance. */
  lemma TriangleFailsExactly(a: Position, b: Position, c: Position)
    requires SameGrid(a, b) && SameGrid(b, c)
    ensures GridDistance(a, c) > GridDistance(a, b) + GridDistance(b, c)
       <==> Undercut(Span(a.x, b.x), Span(a.y, b.y), Span(b.x, c.x), Span(b.y, c.y), Span(a.x, c.x), Span(a.y, c.y))
  {
    TriangleIsLegs(a, b, c);
  }

  lemma SpanTriangle(a: int, b: int, c: int)
    requires (a - b) % 5 == 0 && (b - c) % 5 == 0
    ensures Span(a, c) <= Span(a, b) + Span(b, c)
  {
  }

  lemma LegsTriangle(x1: nat, y1: nat, x2: nat, y2: nat, x: nat, y: nat)
    requires x <= x1 + x2 && y <= y1 + y2
    ensures Length(x, y) <= Length(x1, y1) + Length(x2, y2) + 1
    ensures Length(x, y) > Length(x1, y1) + Length(x2, y2) <==> Undercut(x1, y1, x2, y2, x, y)
  {
  }

  // The slack is real: two single diagonals cost 5 ft each, the double one 15 ft.
  lemma TriangleIsNotExact()
    ensures exists a: Position, b: Position, c: Position ::
              SameGrid(a, b) && SameGrid(b, c)
              && GridDistance(a, c) == GridDistance(a, b) + GridDistance(b, c) + 5
  {
    var a, b, c := Position(0, 0), Position(5, 5), Position(10, 10);
    assert GridDistance(a, c) == GridDistance(a, b) + GridDistance(b, c) + 5;
  }
}
