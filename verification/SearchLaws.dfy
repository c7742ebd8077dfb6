/** What the search promises, said of cells, walls and combatants and not of the search's own notion of a
    step. */
module SearchLaws {
  import opened Grid
  import opened BattleMaps
  import opened Search
  import opened SearchSound

  ghost predicate AlignedWalls(walls: seq<Wall>) {
    forall i :: 0 <= i < |walls| ==> AlignedWall(walls[i])
  }

  // Some wall stands between two orthogonal neighbours.
  predicate Apart(walls: seq<Wall>, a: Position, b: Position) {
    exists i :: 0 <= i < |walls| && Separates(walls[i], a, b)
  }

  // A wall in the way: between orthogonal neighbours, or on both ways round the corner of a diagonal.
  predicate WalledOff(walls: seq<Wall>, a: Position, b: Position) {
    if a.x != b.x && a.y != b.y then
      var horizontal, vertical := Position(b.x, a.y), Position(a.x, b.y);
      && (Apart(walls, a, horizontal) || Apart(walls, horizontal, b))
      && (Apart(walls, a, vertical) || Apart(walls, vertical, b))
    else Apart(walls, a, b)
  }

  // One of the eight cells around: 5 ft along an axis or both.
  predicate NextTo(a: Position, b: Position) {
    && a != b && (b.x == a.x - 5 || b.x == a.x || b.x == a.x + 5) && (b.y == a.y - 5 || b.y == a.y || b.y == a.y + 5)
  }

  predicate OnLattice(c: Position) {
    c.x % 5 == 0 && c.y % 5 == 0
  }

  lemma ClosedMeansApart(walls: seq<Wall>, a: Position, b: Position)
    requires AlignedWalls(walls) && OnLattice(a) && NextTo(a, b) && (a.x == b.x || a.y == b.y)
    ensures Open(walls, a, b) <==> !Apart(walls, a, b)
  {
    forall i | 0 <= i < |walls| ensures ClosesEdge(walls[i], {a, b}) <==> Separates(walls[i], a, b) {
      EdgesAreCrossings(walls[i], a, b);
    }
  }

  lemma ClosedCorner(walls: seq<Wall>, a: Position, corner: Position, b: Position)
    requires AlignedWalls(walls) && OnLattice(a) && NextTo(a, corner) && NextTo(corner, b)
    requires (a.x == corner.x || a.y == corner.y) && (corner.x == b.x || corner.y == b.y)
    ensures Open(walls, a, corner) && Open(walls, corner, b) <==> !(Apart(walls, a, corner) || Apart(walls, corner, b))
  {
    ClosedMeansApart(walls, a, corner);
    ClosedMeansApart(walls, corner, b);
  }

  /** On the 5-ft grid a step is blocked exactly when walls stand in its way. */
  lemma BlockedMeansWalledOff(walls: seq<Wall>, a: Position, b: Position)
    requires AlignedWalls(walls) && OnLattice(a) && NextTo(a, b)
    ensures StepBlocked(walls, a, b) <==> WalledOff(walls, a, b)
  {
    if a.x != b.x && a.y != b.y {
      var horizontal, vertical := Position(b.x, a.y), Position(a.x, b.y);
      ClosedCorner(walls, a, horizontal, b);
      ClosedCorner(walls, a, vertical, b);
    } else {
      ClosedMeansApart(walls, a, b);
    }
  }

  /** Every step of a reported path goes to a neighbouring cell on the map, onto nobody else's cell, as
      allowed, and on the 5-ft grid past no wall. */
  lemma StepsOfReportedPaths(q: Query, c: Position, i: nat)
    requires c in Reach(q) && i < |Reach(q)[c]| - 1
    ensures var a, b := Reach(q)[c][i], Reach(q)[c][i + 1];
            && NextTo(a, b) && 0 <= b.x <= q.width && 0 <= b.y <= q.height && b !in q.occupied && q.allowed(a, b)
            && (AlignedWalls(q.walls) && OnLattice(q.start) ==> OnLattice(a) && !WalledOff(q.walls, a, b))
  {
    ReachIsSound(q, c);
    var path := Reach(q)[c];
    assert Legal(q, path[i], path[i + 1]);
    if AlignedWalls(q.walls) && OnLattice(q.start) {
      PathsStayOnLattice(q, path, c, i);
      BlockedMeansWalledOff(q.walls, path[i], path[i + 1]);
    }
  }

  lemma {:induction false} PathsStayOnLattice(q: Query, path: seq<Position>, c: Position, i: nat)
    requires GoodPath(q, path, c) && OnLattice(q.start) && i < |path|
    ensures OnLattice(path[i])
  {
    if i > 0 {
      PathsStayOnLattice(q, path, c, i - 1);
      assert Legal(q, path[i - 1], path[i]);
    }
  }

  /** Conversely, a neighbour of a reported cell that lies on the map, is free, is allowed, has no wall in
      the way and is still paid for is reported, and at no greater cost. */
  lemma FreeNeighboursAreReported(q: Query, c: Position, n: Position)
    requires c in Reach(q) && NextTo(c, n) && 0 <= n.x <= q.width && 0 <= n.y <= q.height
    requires n !in q.occupied && q.allowed(c, n)
    requires AlignedWalls(q.walls) && OnLattice(q.start) && !WalledOff(q.walls, c, n)
    requires Cost(Reach(q)[c] + [n]) <= q.budget
    ensures n in Reach(q) && Cost(Reach(q)[n]) <= Cost(Reach(q)[c] + [n])
  {
    ReachIsSound(q, c);
    PathsStayOnLattice(q, Reach(q)[c], c, |Reach(q)[c]| - 1);
    BlockedMeansWalledOff(q.walls, c, n);
    ReachIsClosed(q, c, n);
  }

  /** What the query takes from a map: its bounds and walls, and the cells of everybody but the mover. */
  lemma QueryTakesTheMap(m: BattleMap, start: Position, budget: int, moverId: EntityId,
                         allowed: (Position, Position) -> bool, c: Position)
    ensures var q := QueryOn(m, start, budget, moverId, allowed);
            && q.start == start && q.budget == budget && q.width == m.width && q.height == m.height
            && q.walls == m.walls && q.allowed == allowed
            && (c in q.occupied <==> exists id :: id in m.positions && id != moverId && m.positions[id] == c)
  {
  }
}
