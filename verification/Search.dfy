/** The label-correcting search behind every reachability question: `Run` is the value the search
    loop computes, `ComputeReachable` is the loop. */
module Search {
  import opened Grid
  import opened BattleMaps

  datatype Query = Query(start: Position, budget: int, width: int, height: int, walls: seq<Wall>,
                         occupied: set<Position>, allowed: (Position, Position) -> bool)

  datatype Entry = Entry(cost: nat, cell: Position, diags: nat, path: seq<Position>)

  // The heap is kept in pop order: by cost, earlier pushes first.
  datatype State = State(heap: seq<Entry>, best: map<Position, int>, result: map<Position, seq<Position>>)

  // The default for `allowed`: no steps are excluded beyond walls and occupied cells.
  predicate AnyStep(a: Position, b: Position) {
    true
  }

  predicate InBounds(q: Query, c: Position) {
    0 <= c.x <= q.width && 0 <= c.y <= q.height
  }

  // One step the mover may take.
  ghost predicate Legal(q: Query, a: Position, b: Position) {
    Adjacent(a, b) && InBounds(q, b) && !StepBlocked(q.walls, a, b) && b !in q.occupied && q.allowed(a, b)
  }

  const STEPS: seq<(int, int)> := [(-5, 0), (5, 0), (0, -5), (0, 5), (-5, -5), (-5, 5), (5, -5), (5, 5)]

  function Neighbor(c: Position, k: nat): (n: Position)
    requires k < 8
    ensures Adjacent(c, n)
  {
    Position(c.x + STEPS[k].0, c.y + STEPS[k].1)
  }

  lemma EveryNeighbor(a: Position, b: Position)
    requires Adjacent(a, b)
    ensures exists k: nat :: k < 8 && Neighbor(a, k) == b
  {
    var d := (b.x - a.x, b.y - a.y);
    assert STEPS[0] == d || STEPS[1] == d || STEPS[2] == d || STEPS[3] == d
        || STEPS[4] == d || STEPS[5] == d || STEPS[6] == d || STEPS[7] == d;
    var k: nat :| k < 8 && STEPS[k] == d;
    assert Neighbor(a, k) == b;
  }

  function Label(q: Query, s: State, c: Position): int {
    if c in s.best then s.best[c] else q.budget + 1
  }

  function Push(heap: seq<Entry>, e: Entry): seq<Entry> {
    if heap == [] || e.cost < heap[0].cost then [e] + heap else [heap[0]] + Push(heap[1..], e)
  }

  function Initial(q: Query): State {
    State([Entry(0, q.start, 0, [q.start])], map[q.start := 0], map[q.start := [q.start]])
  }

  // Try the k-th step out of entry `e`.
  ghost function Relax(q: Query, s: State, e: Entry, k: nat): State
    requires k < 8
  {
    var n := Neighbor(e.cell, k);
    if !Legal(q, e.cell, n) then s else
    var (feet, diags) := StepCost(e.cell, n, e.diags);
    var cost := e.cost + feet;
    if cost > q.budget || cost >= Label(q, s, n) then s else
    var path := e.path + [n];
    State(Push(s.heap, Entry(cost, n, diags, path)), s.best[n := cost], s.result[n := path])
  }

  ghost function RelaxFrom(q: Query, s: State, e: Entry, k: nat): State
    requires k <= 8
    decreases 8 - k
  {
    if k == 8 then s else RelaxFrom(q, Relax(q, s, e, k), e, k + 1)
  }

  predicate Stale(q: Query, s: State, e: Entry) {
    e.cost > Label(q, s, e.cell)
  }

  ghost function Step(q: Query, s: State): State
    requires s.heap != []
  {
    var rest := s.(heap := s.heap[1..]);
    if Stale(q, s, s.heap[0]) then rest else RelaxFrom(q, rest, s.heap[0], 0)
  }

  ghost function Cells(q: Query): set<Position> {
    set x: int, y: int | 0 <= x <= q.width && 0 <= y <= q.height :: Position(x, y)
  }

  // Label values still free to be taken; every accepted relaxation takes one or more away.
  ghost function Slack(q: Query, s: State): set<(Position, int)> {
    set c, v | c in Cells(q) && 0 <= v <= q.budget && v < Label(q, s, c) :: (c, v)
  }

  ghost function Run(q: Query, s: State): State
    decreases Slack(q, s), |s.heap|
  {
    if s.heap == [] then s else
    StepShrinks(q, s);
    Run(q, Step(q, s))
  }

  // What compute_reachable returns: a path for every labelled cell.
  ghost function Reach(q: Query): map<Position, seq<Position>> {
    Run(q, Initial(q)).result
  }

  lemma RelaxShrinks(q: Query, s: State, e: Entry, k: nat)
    requires k < 8
    ensures Relax(q, s, e, k) == s || Slack(q, Relax(q, s, e, k)) < Slack(q, s)
  {
    var t := Relax(q, s, e, k);
    if t != s {
      var n := Neighbor(e.cell, k);
      assert (n, t.best[n]) in Slack(q, s) && (n, t.best[n]) !in Slack(q, t);
    }
  }

  lemma {:induction false} RelaxFromShrinks(q: Query, s: State, e: Entry, k: nat)
    requires k <= 8
    ensures RelaxFrom(q, s, e, k) == s || Slack(q, RelaxFrom(q, s, e, k)) < Slack(q, s)
    decreases 8 - k
  {
    if k < 8 {
      RelaxShrinks(q, s, e, k);
      RelaxFromShrinks(q, Relax(q, s, e, k), e, k + 1);
    }
  }

  lemma StepShrinks(q: Query, s: State)
    requires s.heap != []
    ensures var t := Step(q, s);
            Slack(q, t) < Slack(q, s) || (Slack(q, t) == Slack(q, s) && |t.heap| < |s.heap|)
  {
    var rest := s.(heap := s.heap[1..]);
    assert Slack(q, rest) == Slack(q, s);
    RelaxFromShrinks(q, rest, s.heap[0], 0);
  }

  function QueryOn(m: BattleMap, start: Position, budget: int, moverId: EntityId,
                         allowed: (Position, Position) -> bool): Query
    reads m
  {
    Query(start, budget, m.width, m.height, m.walls, m.Occupied(moverId), allowed)
  }

  method ComputeReachable(start: Position, budget: int, m: BattleMap, moverId: EntityId,
                          allowed: (Position, Position) -> bool)
    returns (result: map<Position, seq<Position>>)
    requires m.Valid()
    modifies m`blockedEdges
    ensures m.Valid()
    ensures result == Reach(QueryOn(m, start, budget, moverId, allowed))
    ensures forall c, id :: c in result && c != start && id in m.positions && id != moverId ==> m.positions[id] != c
    ensures forall c :: c in result && c != start ==> 0 <= c.x <= m.width && 0 <= c.y <= m.height
  {
    var q := QueryOn(m, start, budget, moverId, allowed);
    var occupied := m.Occupied(moverId);
    result := map[start := [start]];
    var best := map[start := 0];
    var heap := [Entry(0, start, 0, [start])];
    while heap != []
      invariant m.Valid()
      invariant Run(q, State(heap, best, result)) == Run(q, Initial(q))
      decreases Slack(q, State(heap, best, result)), |heap|
    {
      StepShrinks(q, State(heap, best, result));
      var e := heap[0];
      heap := heap[1..];
      if e.cost <= (if e.cell in best then best[e.cell] else budget + 1) {
        heap, best, result := Expand(q, m, occupied, e, heap, best, result);
      }
    }
    RunStandsFree(q, Initial(q));
  }

  // Every cell entered lies on the map, and nobody else stands on it.
  ghost predicate StandsFree(q: Query, s: State) {
    forall c :: c in s.result && c != q.start ==> 0 <= c.x <= q.width && 0 <= c.y <= q.height && c !in q.occupied
  }

  lemma {:induction false} ExpandStandsFree(q: Query, s: State, e: Entry, k: nat)
    requires k <= 8 && StandsFree(q, s)
    ensures StandsFree(q, RelaxFrom(q, s, e, k))
    decreases 8 - k
  {
    if k < 8 {
      ExpandStandsFree(q, Relax(q, s, e, k), e, k + 1);
    }
  }

  lemma {:induction false} RunStandsFree(q: Query, s: State)
    requires StandsFree(q, s)
    ensures StandsFree(q, Run(q, s))
    decreases Slack(q, s), |s.heap|
  {
    if s.heap != [] {
      StepShrinks(q, s);
      ExpandStandsFree(q, s.(heap := s.heap[1..]), s.heap[0], 0);
      RunStandsFree(q, Step(q, s));
    }
  }

  // The loop over the eight steps out of one popped entry.
  method Expand(q: Query, m: BattleMap, occupied: set<Position>, e: Entry,
                heap0: seq<Entry>, best0: map<Position, int>, result0: map<Position, seq<Position>>)
    returns (heap: seq<Entry>, best: map<Position, int>, result: map<Position, seq<Position>>)
    requires m.Valid() && q.width == m.width && q.height == m.height && q.walls == m.walls && q.occupied == occupied
    modifies m`blockedEdges
    ensures m.Valid()
    ensures State(heap, best, result) == RelaxFrom(q, State(heap0, best0, result0), e, 0)
  {
    heap, best, result := heap0, best0, result0;
    for k := 0 to 8
      invariant m.Valid()
      invariant RelaxFrom(q, State(heap, best, result), e, k) == RelaxFrom(q, State(heap0, best0, result0), e, 0)
    {
      heap, best, result := TryStep(q, m, occupied, e, k, heap, best, result);
    }
  }

  method TryStep(q: Query, m: BattleMap, occupied: set<Position>, e: Entry, k: nat,
                 heap0: seq<Entry>, best0: map<Position, int>, result0: map<Position, seq<Position>>)
    returns (heap: seq<Entry>, best: map<Position, int>, result: map<Position, seq<Position>>)
    requires k < 8
    requires m.Valid() && q.width == m.width && q.height == m.height && q.walls == m.walls && q.occupied == occupied
    modifies m`blockedEdges
    ensures m.Valid()
    ensures State(heap, best, result) == Relax(q, State(heap0, best0, result0), e, k)
  {
    heap, best, result := heap0, best0, result0;
    var n := Position(e.cell.x + STEPS[k].0, e.cell.y + STEPS[k].1);
    assert n == Neighbor(e.cell, k);
    if n.x < 0 || n.x > m.width || n.y < 0 || n.y > m.height {
      return;
    }
    var blocked := m.IsStepBlocked(e.cell, n);
    if blocked || n in occupied || !q.allowed(e.cell, n) {
      return;
    }
    var (feet, diags) := StepCost(e.cell, n, e.diags);
    var cost := e.cost + feet;
    if cost <= q.budget && cost < (if n in best then best[n] else q.budget + 1) {
      var path := e.path + [n];
      heap, best, result := Push(heap, Entry(cost, n, diags, path)), best[n := cost], result[n := path];
    }
  }
}
