/** Walls on grid edges and the battle map that answers whether a step crosses one. */
module BattleMaps {
  import opened Grid

  datatype Wall = Wall(x1: int, y1: int, x2: int, y2: int)

  // `edge` is one of the cell pairs that `wall` closes: every 5 ft along the segment, the pair of
  // cells on either side of it. A wall that is neither vertical nor horizontal closes nothing.
  ghost predicate ClosesEdge(wall: Wall, edge: set<Position>) {
    if wall.x1 == wall.x2 then
      exists y :: InRange(y, wall.y1, wall.y2) && edge == VerticalEdge(wall.x1, y)
    else wall.y1 == wall.y2
         && exists x :: InRange(x, wall.x1, wall.x2) && edge == HorizontalEdge(x, wall.y1)
  }

  // A member of Python's range(min(a, b), max(a, b), 5).
  predicate InRange(n: int, a: int, b: int) {
    Min(a, b) <= n < Max(a, b) && (n - Min(a, b)) % 5 == 0
  }

  function VerticalEdge(x: int, y: int): set<Position> {
    {Position(x - 5, y), Position(x, y)}
  }

  function HorizontalEdge(x: int, y: int): set<Position> {
    {Position(x, y - 5), Position(x, y)}
  }

  ghost predicate EdgeBlocked(walls: seq<Wall>, edge: set<Position>) {
    exists i :: 0 <= i < |walls| && ClosesEdge(walls[i], edge)
  }

  ghost predicate Open(walls: seq<Wall>, a: Position, b: Position) {
    !EdgeBlocked(walls, {a, b})
  }

  // A diagonal step needs one of its two L-shaped detours open.
  ghost predicate StepBlocked(walls: seq<Wall>, a: Position, b: Position) {
    if IsDiagonal(a, b) then
      var midH, midV := Position(b.x, a.y), Position(a.x, b.y);
      && !(Open(walls, a, midH) && Open(walls, midH, b))
      && !(Open(walls, a, midV) && Open(walls, midV, b))
    else !Open(walls, a, b)
  }

  // Combatants are known by id; a brain's own view of the map knows only itself and occupied cells.
  datatype EntityId = Named(id: string) | OccupiedCell(cell: Position) | Myself

  class BattleMap {
    const width: int
    const height: int
    const walls: seq<Wall>
    var positions: map<EntityId, Position>
    var corpses: map<EntityId, Position>
    var blockedEdges: Option<set<set<Position>>>

    // The cache, once built, holds exactly the edges that some wall closes.
    ghost predicate Valid()
      reads this
    {
      blockedEdges.Some? ==> forall e :: e in blockedEdges.value <==> EdgeBlocked(walls, e)
    }

    constructor (width: int, height: int, walls: seq<Wall>, positions: map<EntityId, Position>)
      ensures Valid() && blockedEdges == None
      ensures this.width == width && this.height == height && this.walls == walls
      ensures this.positions == positions && corpses == map[]
    {
      this.width, this.height, this.walls := width, height, walls;
      this.positions, corpses := positions, map[];
      blockedEdges := None;
    }

    predicate InBounds(pos: Position) {
      0 <= pos.x <= width && 0 <= pos.y <= height
    }

    function Occupied(moverId: EntityId): set<Position>
      reads this
    {
      set id | id in positions && id != moverId :: positions[id]
    }

    method SetPosition(id: EntityId, pos: Position) returns (ok: bool)
      requires Valid()
      modifies this`positions
      ensures Valid() && (ok <==> 0 <= pos.x <= width && 0 <= pos.y <= height)
      ensures positions == if ok then old(positions)[id := pos] else old(positions)
    {
      ok := InBounds(pos);
      if ok {
        positions := positions[id := pos];
      }
    }

    // A dead entity leaves the live cells and keeps its last cell as a corpse cell.
    method LeaveCorpse(id: EntityId)
      requires Valid()
      modifies this`positions, this`corpses
      ensures Valid() && positions == old(positions) - {id}
      ensures corpses == if id in old(positions) then old(corpses)[id := old(positions)[id]] else old(corpses)
    {
      if id in positions {
        corpses := corpses[id := positions[id]];
        positions := positions - {id};
      }
    }

    method GetBlockedEdges() returns (edges: set<set<Position>>)
      requires Valid()
      modifies this`blockedEdges
      ensures Valid() && blockedEdges == Some(edges)
      ensures forall e :: e in edges <==> EdgeBlocked(walls, e)
    {
      if blockedEdges.Some? {
        return blockedEdges.value;
      }
      edges := {};
      for i := 0 to |walls|
        invariant forall e :: e in edges <==> EdgeBlocked(walls[..i], e)
      {
        var added := EdgesOf(walls[i]);
        forall e
          ensures EdgeBlocked(walls[..i + 1], e) <==> EdgeBlocked(walls[..i], e) || ClosesEdge(walls[i], e)
        {
          MoreWalls(walls[..i], walls[i], e);
          assert walls[..i] + [walls[i]] == walls[..i + 1];
        }
        edges := edges + added;
      }
      assert walls[..|walls|] == walls;
      blockedEdges := Some(edges);
    }

    method IsStepBlocked(from: Position, to: Position) returns (blocked: bool)
      requires Valid()
      modifies this`blockedEdges
      ensures Valid() && blocked == StepBlocked(walls, from, to)
    {
      if walls == [] {
        return false;
      }
      var edges := GetBlockedEdges();
      if from.x != to.x && from.y != to.y {
        var midH := Position(to.x, from.y);
        var hOk := {from, midH} !in edges && {midH, to} !in edges;
        var midV := Position(from.x, to.y);
        var vOk := {from, midV} !in edges && {midV, to} !in edges;
        return !hOk && !vOk;
      }
      return {from, to} in edges;
    }
  }

  lemma MoreWalls(walls: seq<Wall>, wall: Wall, e: set<Position>)
    ensures EdgeBlocked(walls + [wall], e) <==> EdgeBlocked(walls, e) || ClosesEdge(wall, e)
  {
    var all := walls + [wall];
    assert all[|walls|] == wall;
    if EdgeBlocked(walls, e) {
      var i :| 0 <= i < |walls| && ClosesEdge(walls[i], e);
      assert all[i] == walls[i];
    }
  }

  // The pairs of cells one wall separates, collected 5 ft at a time.
  method EdgesOf(wall: Wall) returns (edges: set<set<Position>>)
    ensures forall e :: e in edges <==> ClosesEdge(wall, e)
  {
    edges := {};
    if wall.x1 == wall.x2 {
      var y := Min(wall.y1, wall.y2);
      while y < Max(wall.y1, wall.y2)
        invariant Min(wall.y1, wall.y2) <= y && (y - Min(wall.y1, wall.y2)) % 5 == 0
        invariant forall e :: e in edges <==>
                    exists k :: k < y && InRange(k, wall.y1, wall.y2) && e == VerticalEdge(wall.x1, k)
      {
        edges := edges + {VerticalEdge(wall.x1, y)};
        y := y + 5;
      }
    } else if wall.y1 == wall.y2 {
      var x := Min(wall.x1, wall.x2);
      while x < Max(wall.x1, wall.x2)
        invariant Min(wall.x1, wall.x2) <= x && (x - Min(wall.x1, wall.x2)) % 5 == 0
        invariant forall e :: e in edges <==>
                    exists k :: k < x && InRange(k, wall.x1, wall.x2) && e == HorizontalEdge(k, wall.y1)
      {
        edges := edges + {HorizontalEdge(x, wall.y1)};
        x := x + 5;
      }
    }
  }

  // The wall's segment separates two orthogonally adjacent cells: it stands on the far side of one
  // and spans the other axis at their row or column.
  predicate Separates(wall: Wall, a: Position, b: Position) {
    if wall.x1 == wall.x2 then
      a.y == b.y && Min(a.x, b.x) < wall.x1 <= Max(a.x, b.x) && Min(wall.y1, wall.y2) <= a.y < Max(wall.y1, wall.y2)
    else
      && wall.y1 == wall.y2 && a.x == b.x
      && Min(a.y, b.y) < wall.y1 <= Max(a.y, b.y) && Min(wall.x1, wall.x2) <= a.x < Max(wall.x1, wall.x2)
  }

  predicate AlignedWall(wall: Wall) {
    wall.x1 % 5 == 0 && wall.y1 % 5 == 0 && wall.x2 % 5 == 0 && wall.y2 % 5 == 0
  }

  // With everything on multiples of 5 ft, the cached edges are the geometric crossings.
  lemma EdgesAreCrossings(wall: Wall, a: Position, b: Position)
    requires AlignedWall(wall) && a.x % 5 == 0 && a.y % 5 == 0
    requires Adjacent(a, b) && !IsDiagonal(a, b)
    ensures ClosesEdge(wall, {a, b}) <==> Separates(wall, a, b)
  {
    if wall.x1 == wall.x2 {
      if ClosesEdge(wall, {a, b}) {
        var y :| InRange(y, wall.y1, wall.y2) && {a, b} == VerticalEdge(wall.x1, y);
        PairsAgree(a, b, Position(wall.x1 - 5, y), Position(wall.x1, y));
      }
      if Separates(wall, a, b) {
        assert {a, b} == VerticalEdge(wall.x1, a.y) && InRange(a.y, wall.y1, wall.y2);
      }
    } else if wall.y1 == wall.y2 {
      if ClosesEdge(wall, {a, b}) {
        var x :| InRange(x, wall.x1, wall.x2) && {a, b} == HorizontalEdge(x, wall.y1);
        PairsAgree(a, b, Position(x, wall.y1 - 5), Position(x, wall.y1));
      }
      if Separates(wall, a, b) {
        assert {a, b} == HorizontalEdge(a.x, wall.y1) && InRange(a.x, wall.x1, wall.x2);
      }
    }
  }

  lemma PairsAgree<T>(a: T, b: T, c: T, d: T)
    requires {a, b} == {c, d} && a != b && c != d
    ensures (a == c && b == d) || (a == d && b == c)
  {
    assert a in {c, d} && b in {c, d};
  }

  // A wall blocks both directions of a step.
  lemma StepBlockedIsSymmetric(walls: seq<Wall>, a: Position, b: Position)
    ensures StepBlocked(walls, a, b) <==> StepBlocked(walls, b, a)
  {
    var midH, midV := Position(b.x, a.y), Position(a.x, b.y);
    assert {a, b} == {b, a} && {a, midH} == {midH, a} && {midH, b} == {b, midH};
    assert {a, midV} == {midV, a} && {midV, b} == {b, midV};
  }
}
