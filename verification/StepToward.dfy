/** Walking square by square in a compass direction, with the position clamped to the map. */
module StepToward {
  import opened Grid
  import opened BattleMaps
  import opened Search

  const DIRECTIONS: map<string, (int, int)> := map[
    "north" := (0, 1), "south" := (0, -1), "east" := (1, 0), "west" := (-1, 0),
    "northeast" := (1, 1), "northwest" := (-1, 1), "southeast" := (1, -1), "southwest" := (-1, -1)]

  function Sign(n: int): int {
    if n > 0 then 1 else if n < 0 then -1 else 0
  }

  function Clamp(n: int, limit: int): int {
    Max(0, Min(n, limit))
  }

  // The walker pays for the step it means to take, also when the clamp turns a diagonal into a
  // straight step.
  datatype Walker = Walker(cur: Position, spent: nat, diags: nat)

  // The walker's next state, or None when it stops.
  ghost function NextStep(q: Query, target: Position, speed: int, w: Walker): Option<Walker> {
    var sx, sy := 5 * Sign(target.x - w.cur.x), 5 * Sign(target.y - w.cur.y);
    var diagonal := sx != 0 && sy != 0;
    var cost := if diagonal && w.diags % 2 == 1 then 10 else 5;
    var n := Position(Clamp(w.cur.x + sx, q.width), Clamp(w.cur.y + sy, q.height));
    if w.spent >= speed || w.cur == target || w.spent + cost > speed || n == w.cur
       || StepBlocked(q.walls, w.cur, n) || n in q.occupied
    then None
    else Some(Walker(n, w.spent + cost, if diagonal then w.diags + 1 else w.diags))
  }

  ghost function WalkFrom(q: Query, target: Position, speed: int, w: Walker): (path: seq<Position>)
    ensures path != [] && path[0] == w.cur
    decreases speed - w.spent
  {
    match NextStep(q, target, speed, w)
    case None => [w.cur]
    case Some(next) => [w.cur] + WalkFrom(q, target, speed, next)
  }

  ghost predicate AlignedMap(q: Query) {
    q.width % 5 == 0 && q.height % 5 == 0 && q.allowed == AnyStep
  }

  predicate Aligned(c: Position) {
    c.x % 5 == 0 && c.y % 5 == 0
  }

  method StepTowardTarget(origin: Position, target: Position, speed: int, m: BattleMap, moverId: EntityId)
    returns (cur: Position)
    requires m.Valid()
    modifies m`blockedEdges
    ensures m.Valid()
    ensures cur == Last(WalkFrom(QueryOn(m, origin, speed, moverId, AnyStep), target, speed, Walker(origin, 0, 0)))
  {
    ghost var q := QueryOn(m, origin, speed, moverId, AnyStep);
    cur := origin;
    var spent, diags := 0, 0;
    var occupied := m.Occupied(moverId);
    while spent < speed
      invariant m.Valid()
      invariant Last(WalkFrom(q, target, speed, Walker(cur, spent, diags)))
             == Last(WalkFrom(q, target, speed, Walker(origin, 0, 0)))
    {
      WalkOn(q, target, speed, Walker(cur, spent, diags));
      var next := OneStep(q, target, speed, Walker(cur, spent, diags), m, occupied);
      if next.None? {
        break;
      }
      cur, spent, diags := next.value.cur, next.value.spent, next.value.diags;
    }
    WalkOn(q, target, speed, Walker(cur, spent, diags));
  }

  // One pass of the walk: the next square, or None where the walk stops.
  method OneStep(ghost q: Query, target: Position, speed: int, w: Walker, m: BattleMap, occupied: set<Position>)
    returns (next: Option<Walker>)
    requires m.Valid() && w.spent < speed
    requires q.width == m.width && q.height == m.height && q.walls == m.walls && q.occupied == occupied
    modifies m`blockedEdges
    ensures m.Valid() && next == NextStep(q, target, speed, w)
  {
    var dx, dy := target.x - w.cur.x, target.y - w.cur.y;
    if dx == 0 && dy == 0 {
      return None;
    }
    var sx := if dx > 0 then 5 else if dx < 0 then -5 else 0;
    var sy := if dy > 0 then 5 else if dy < 0 then -5 else 0;
    var cost, diags := 5, w.diags;
    if sx != 0 && sy != 0 {
      cost := if w.diags % 2 == 1 then 10 else 5;
      diags := w.diags + 1;
    }
    if w.spent + cost > speed {
      return None;
    }
    var n := Position(Max(0, Min(w.cur.x + sx, m.width)), Max(0, Min(w.cur.y + sy, m.height)));
    if n == w.cur {
      return None;
    }
    var blocked := m.IsStepBlocked(w.cur, n);
    if blocked || n in occupied {
      return None;
    }
    next := Some(Walker(n, w.spent + cost, diags));
  }

  lemma WalkOn(q: Query, target: Position, speed: int, w: Walker)
    ensures match NextStep(q, target, speed, w)
            case None => Last(WalkFrom(q, target, speed, w)) == w.cur
            case Some(next) => Last(WalkFrom(q, target, speed, w)) == Last(WalkFrom(q, target, speed, next))
  {
  }

  // The letters of the eight names have no capitals outside ASCII.
  function Lower(name: string): (r: string)
    ensures |r| == |name|
    ensures forall i :: 0 <= i < |r| ==> !('A' <= r[i] <= 'Z') && (!('A' <= name[i] <= 'Z') ==> r[i] == name[i])
  {
    if name == [] then []
    else
      var c := if 'A' <= name[0] <= 'Z' then name[0] - 'A' + 'a' else name[0];
      [c] + Lower(name[1..])
  }

  method MoveDirection(origin: Position, direction: string, speed: int, m: BattleMap, moverId: EntityId)
    returns (cur: Position)
    requires m.Valid()
    modifies m`blockedEdges
    ensures m.Valid()
    ensures Lower(direction) !in DIRECTIONS ==> cur == origin
    ensures Lower(direction) in DIRECTIONS ==>
              var v := DIRECTIONS[Lower(direction)];
              var far := Position(origin.x + v.0 * speed * 2, origin.y + v.1 * speed * 2);
              cur == Last(WalkFrom(QueryOn(m, origin, speed, moverId, AnyStep), far, speed, Walker(origin, 0, 0)))
  {
    if Lower(direction) !in DIRECTIONS {
      return origin;
    }
    var v := DIRECTIONS[Lower(direction)];
    cur := StepTowardTarget(origin, Position(origin.x + v.0 * speed * 2, origin.y + v.1 * speed * 2), speed, m,
        moverId);
  }

  lemma ClampedStep(q: Query, a: Position, sx: int, sy: int)
    requires q.width % 5 == 0 && q.height % 5 == 0 && Aligned(a) && InBounds(q, a)
    requires sx in {-5, 0, 5} && sy in {-5, 0, 5}
    ensures var n := Position(Clamp(a.x + sx, q.width), Clamp(a.y + sy, q.height));
            && InBounds(q, n) && Aligned(n)
            && (n == a || Adjacent(a, n))
            && (IsDiagonal(a, n) ==> sx != 0 && sy != 0)
  {
  }

  // A legal walk prefixed by one legal step.
  lemma LegalCons(q: Query, a: Position, path: seq<Position>)
    requires path != [] && Legal(q, a, path[0])
    requires forall i :: 0 <= i < |path| - 1 ==> Legal(q, path[i], path[i + 1])
    ensures var p := [a] + path; forall i :: 0 <= i < |p| - 1 ==> Legal(q, p[i], p[i + 1])
  {
  }

  lemma {:induction false} ConsCounts(a: Position, path: seq<Position>)
    requires path != []
    ensures Diags([a] + path) == Diags(path) + (if IsDiagonal(a, path[0]) then 1 else 0)
  {
    var p := [a] + path;
    assert p[..|p| - 1] == [a] + path[..|path| - 1];
    if |path| > 1 {
      ConsCounts(a, path[..|path| - 1]);
      assert p[|p| - 2] == path[|path| - 2];
    } else {
      assert p[..1] == [a];
    }
  }

  lemma NextStepIsLegal(q: Query, target: Position, speed: int, w: Walker)
    requires AlignedMap(q) && Aligned(w.cur) && InBounds(q, w.cur)
    requires NextStep(q, target, speed, w).Some?
    ensures var next := NextStep(q, target, speed, w).value;
            && Legal(q, w.cur, next.cur) && Aligned(next.cur) && InBounds(q, next.cur)
            && w.diags + (if IsDiagonal(w.cur, next.cur) then 1 else 0) <= next.diags <= w.diags + 1
            && next.spent == w.spent + 5 + 5 * (next.diags / 2) - 5 * (w.diags / 2)
            && next.spent <= speed
  {
    var sx, sy := 5 * Sign(target.x - w.cur.x), 5 * Sign(target.y - w.cur.y);
    ClampedStep(q, w.cur, sx, sy);
  }

  // The remaining walk is legal; the spend so far plus its steps, and every second meant diagonal,
  // stay within the speed.
  lemma {:induction false} WalkIsLegal(q: Query, target: Position, speed: int, w: Walker)
    requires AlignedMap(q) && Aligned(w.cur) && InBounds(q, w.cur) && w.spent <= Max(0, speed)
    ensures var path := WalkFrom(q, target, speed, w);
            && (forall i :: 0 <= i < |path| - 1 ==> Legal(q, path[i], path[i + 1]))
            && w.spent + 5 * (|path| - 1) + 5 * ((w.diags + Diags(path)) / 2) - 5 * (w.diags / 2) <= Max(0, speed)
    decreases speed - w.spent
  {
    if NextStep(q, target, speed, w).Some? {
      var next := NextStep(q, target, speed, w).value;
      var rest := WalkFrom(q, target, speed, next);
      NextStepIsLegal(q, target, speed, w);
      WalkIsLegal(q, target, speed, next);
      LegalCons(q, w.cur, rest);
      ConsCounts(w.cur, rest);
      MeantDiagonalsCostMore(w.diags, next.diags, Diags(rest), Diags([w.cur] + rest));
    }
  }

  lemma MeantDiagonalsCostMore(d: nat, d': nat, rest: nat, all: nat)
    requires d <= d' <= d + 1 && rest <= all <= rest + (d' - d)
    ensures (d + all) / 2 <= (d' + rest) / 2
  {
  }

  /** On an aligned map, the cells walked by a compass move form a legal path from the origin whose
      cost is within the speed, clamped diagonals included. */
  lemma CompassWalkIsLegal(q: Query, target: Position, speed: int)
    requires AlignedMap(q) && Aligned(q.start) && InBounds(q, q.start)
    ensures var path := WalkFrom(q, target, speed, Walker(q.start, 0, 0));
            && path[0] == q.start
            && (forall i :: 0 <= i < |path| - 1 ==> Legal(q, path[i], path[i + 1]))
            && Cost(path) <= Max(0, speed)
  {
    WalkIsLegal(q, target, speed, Walker(q.start, 0, 0));
    CostClosedForm(WalkFrom(q, target, speed, Walker(q.start, 0, 0)));
  }

  // --- Where the walk goes, and why it stops ---

  // 5 ft toward `to`, and no farther than the edge of the map.
  function Toward(n: int, to: int, limit: int): int {
    var next := if to > n then n + 5 else if to < n then n - 5 else n;
    var capped := if next > limit then limit else next;
    if capped < 0 then 0 else capped
  }

  function SquareToward(q: Query, target: Position, c: Position): Position {
    Position(Toward(c.x, target.x, q.width), Toward(c.y, target.y, q.height))
  }

  // The steps of a walk that head for the target on both axes.
  function Slants(path: seq<Position>, target: Position): nat {
    if |path| <= 1 then 0
    else (if path[0].x != target.x && path[0].y != target.y then 1 else 0) + Slants(path[1..], target)
  }

  // What `n` steps cost, `slants` of them diagonal: 5 ft each, and 5 ft more for every second diagonal.
  function Feet(n: nat, slants: nat): nat {
    5 * n + 5 * (slants / 2)
  }

  lemma NextSquare(q: Query, target: Position, speed: int, w: Walker)
    ensures var (n, next) := (SquareToward(q, target, w.cur), NextStep(q, target, speed, w));
            var slant := if w.cur.x != target.x && w.cur.y != target.y then 1 else 0;
            var cost := if slant == 1 && w.diags % 2 == 1 then 10 else 5;
            && (next.Some? <==> w.cur != target && n != w.cur && !StepBlocked(q.walls, w.cur, n) && n !in q.occupied
                                && w.spent + cost <= speed)
            && (next.Some? ==> next.value == Walker(n, w.spent + cost, w.diags + slant))
  {
  }

  /** Every step heads straight for the target, onto a free square that no wall closes off. */
  lemma {:induction false} WalkHeadsForTarget(q: Query, target: Position, speed: int, w: Walker, i: nat)
    requires i + 1 < |WalkFrom(q, target, speed, w)|
    ensures var path := WalkFrom(q, target, speed, w);
            && path[i + 1] == SquareToward(q, target, path[i]) && path[i + 1] !in q.occupied
            && !StepBlocked(q.walls, path[i], path[i + 1])
    decreases i
  {
    NextSquare(q, target, speed, w);
    var next := NextStep(q, target, speed, w).value;
    if i > 0 {
      WalkHeadsForTarget(q, target, speed, next, i - 1);
    }
  }

  // The walker where the walk stops.
  lemma {:induction false} LastWalker(q: Query, target: Position, speed: int, w: Walker) returns (l: Walker)
    ensures var path := WalkFrom(q, target, speed, w);
            && l.cur == Last(path) && NextStep(q, target, speed, l).None?
            && l.diags == w.diags + Slants(path, target)
            && l.spent == w.spent + 5 * (|path| - 1) + 5 * (l.diags / 2 - w.diags / 2)
            && (|path| > 1 ==> l.spent <= speed)
    decreases speed - w.spent
  {
    l := w;
    if NextStep(q, target, speed, w).Some? {
      NextSquare(q, target, speed, w);
      var next := NextStep(q, target, speed, w).value;
      l := LastWalker(q, target, speed, next);
      SlantsOn(w.cur, WalkFrom(q, target, speed, next), target);
    }
  }

  lemma SlantsOn(c: Position, rest: seq<Position>, target: Position)
    requires rest != []
    ensures Slants([c] + rest, target) == (if c.x != target.x && c.y != target.y then 1 else 0) + Slants(rest, target)
  {
    assert ([c] + rest)[1..] == rest;
  }

  /** The walk stops at the target, at the edge of the map, before a wall or an occupied square, or where the
      next step costs more than is left of the speed, and nowhere before. */
  lemma WalkGoesAsFarAsItCan(q: Query, target: Position, speed: int)
    ensures var path := WalkFrom(q, target, speed, Walker(q.start, 0, 0));
            var (l, slants) := (Last(path), Slants(path, target));
            var (n, spent) := (SquareToward(q, target, l), Feet(|path| - 1, slants));
            && (|path| > 1 ==> spent <= speed)
            && (|| l == target || n == l || StepBlocked(q.walls, l, n) || n in q.occupied
                || spent + (if l.x != target.x && l.y != target.y && slants % 2 == 1 then 10 else 5) > speed)
  {
    var last := LastWalker(q, target, speed, Walker(q.start, 0, 0));
    NextSquare(q, target, speed, last);
  }

  /** The names point where they say: the first part north or south, the last east or west. */
  lemma NamesPointTheirWay(name: string)
    requires name in DIRECTIONS
    ensures DIRECTIONS[name].1 == if "north" <= name then 1 else if "south" <= name then -1 else 0
    ensures DIRECTIONS[name].0 == if EndsWith(name, "east") then 1 else if EndsWith(name, "west") then -1 else 0
  {
    assert |name| == 4 || |name| == 5 || |name| == 9;
    assert |name| >= 5 ==> name[0] == 'n' || name[0] == 's';
    assert |name| == 9 ==> name[5..] == "east" || name[5..] == "west";
    assert |name| == 5 ==> name == "north" || name == "south";
    assert |name| == 5 ==> name[1..] == "orth" || name[1..] == "outh";
  }

  predicate EndsWith(name: string, end: string) {
    |name| >= |end| && name[|name| - |end|..] == end
  }
}
