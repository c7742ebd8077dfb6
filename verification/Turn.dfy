/** What a turn may spend, and the MOVE_TO handler that charges for the distance walked. */
module Turn {
  import opened Grid
  import opened BattleMaps
  import opened Search
  import opened SearchSound

  datatype ActionCost = ActionCost(actions: int, bonus: int, movement: int, reaction: int)

  datatype Budget = Budget(actions: int, bonus: int, movement: int, reaction: int) {
    predicate TurnOver() {
      actions <= 0 && bonus <= 0 && movement <= 0
    }

    predicate CanAfford(cost: ActionCost) {
      actions >= cost.actions && bonus >= cost.bonus && movement >= cost.movement && reaction >= cost.reaction
    }

    function Minus(cost: ActionCost): Budget {
      Budget(actions - cost.actions, bonus - cost.bonus, movement - cost.movement, reaction - cost.reaction)
    }

    predicate NonNegative() {
      actions >= 0 && bonus >= 0 && movement >= 0 && reaction >= 0
    }
  }

  // The running tally of one turn.
  class TurnBudget {
    var value: Budget

    constructor (value: Budget)
      ensures this.value == value
    {
      this.value := value;
    }

    // Refuses a cost it cannot cover and changes nothing then; so no field it spends drops below zero.
    method Consume(cost: ActionCost) returns (ok: bool)
      modifies this
      ensures ok <==> old(value).actions >= cost.actions && old(value).bonus >= cost.bonus
                      && old(value).movement >= cost.movement && old(value).reaction >= cost.reaction
      ensures !ok ==> value == old(value)
      ensures ok ==>
                && value.actions == old(value).actions - cost.actions && value.bonus == old(value).bonus - cost.bonus
                && value.movement == old(value).movement - cost.movement
                && value.reaction == old(value).reaction - cost.reaction
      ensures old(value).NonNegative() ==>
              value.actions >= 0 && value.bonus >= 0 && value.movement >= 0 && value.reaction >= 0
    {
      ok := value.CanAfford(cost);
      if ok {
        value := Budget(value.actions - cost.actions, value.bonus - cost.bonus,
                        value.movement - cost.movement, value.reaction - cost.reaction);
      }
    }
  }

  // `walked` counts the steps taken before the walk ended.
  datatype MoveOutcome = Rejected | Arrived(spent: nat) | Died(walked: nat, spent: nat)

  // The route MOVE_TO walks: its own search with what is left of the movement.
  ghost function Route(q: Query, target: Position): seq<Position> {
    if target in Reach(q) then Reach(q)[target] else []
  }

  // A walk that is legal, starts where the actor stands and is paid for in full.
  ghost predicate Walkable(m: BattleMap, actor: EntityId, path: seq<Position>, movement: int)
    reads m
  {
    && |path| > 1 && actor in m.positions && m.positions[actor] == path[0]
    && Cost(path) <= movement
    && forall i :: 0 <= i < |path| ==> m.InBounds(path[i])
  }

  lemma NextCost(path: seq<Position>, i: nat)
    requires 1 <= i < |path|
    ensures var (cost, d) := StepCost(path[i - 1], path[i], Diags(path[..i]));
            Cost(path[..i + 1]) == Cost(path[..i]) + cost && Diags(path[..i + 1]) == d
  {
    NextSnoc(path[..i], path[..i + 1], path[i]);
  }

  lemma NextSnoc(front: seq<Position>, path: seq<Position>, next: Position)
    requires front != [] && path == front + [next]
    ensures var (cost, d) := StepCost(Last(front), next, Diags(front));
            Cost(path) == Cost(front) + cost && Diags(path) == d
  {
    CostSnoc(front, next);
  }

  // The cost of the i-th step of a path that `movement` covers: it can always be paid, so the walk
  // never stops short for lack of movement.
  method PayStep(path: seq<Position>, i: nat, movement: int, spent: nat, diags: nat) returns (spent': nat, diags': nat)
    requires 1 <= i < |path| && spent == Cost(path[..i]) && diags == Diags(path[..i]) && Cost(path) <= movement
    ensures spent' == Cost(path[..i + 1]) <= movement && diags' == Diags(path[..i + 1])
  {
    NextCost(path, i);
    PrefixCostsLess(path, i + 1);
    var (cost, d) := StepCost(path[i - 1], path[i], diags);
    spent', diags' := spent + cost, d;
  }

  lemma Updated<K, V>(m: map<K, V>, k: K, a: V, b: V)
    ensures m[k := a][k := b] == m[k := b] && (k in m && m[k] == a ==> m[k := a] == m)
  {
  }

  method WalkPath(m: BattleMap, actor: EntityId, path: seq<Position>, movement: int, survives: nat -> bool)
    returns (r: MoveOutcome)
    requires m.Valid() && Walkable(m, actor, path, movement)
    modifies m`positions
    ensures m.Valid() && !r.Rejected?
    ensures r.Arrived? ==>
              && (forall i :: 0 <= i < |path| - 1 ==> survives(i))
              && r.spent == Cost(path) && m.positions == old(m.positions)[actor := Last(path)]
    ensures r.Died? ==>
              && r.walked < |path| - 1 && !survives(r.walked) && (forall i :: 0 <= i < r.walked ==> survives(i))
              && r.spent == Cost(path[..r.walked + 1]) && m.positions == old(m.positions)[actor := path[r.walked]]
  {
    var spent, diags := 0, 0;
    ghost var before := m.positions;
    Updated(before, actor, path[0], path[0]);
    for i := 1 to |path|
      invariant m.Valid()
      invariant spent == Cost(path[..i]) && diags == Diags(path[..i])
      invariant forall j :: 0 <= j < i - 1 ==> survives(j)
      invariant m.positions == before[actor := path[i - 1]]
    {
      var spent', diags' := PayStep(path, i, movement, spent, diags);
      if !survives(i - 1) {
        return Died(i - 1, spent);
      }
      Updated(before, actor, path[i - 1], path[i]);
      var ok := m.SetPosition(actor, path[i]);
      spent, diags := spent', diags';
    }
    assert path[..|path|] == path;
    r := Arrived(spent);
  }

  method HandleMoveTo(m: BattleMap, actor: EntityId, inCombat: bool, movement: int, target: Position,
      survives: nat -> bool)
    returns (r: MoveOutcome)
    requires m.Valid() && (actor in m.positions ==> m.InBounds(m.positions[actor]))
    modifies m`positions, m`blockedEdges
    ensures m.Valid()
    ensures r.Rejected? <==> movement <= 0 || !inCombat || actor !in old(m.positions)
                             || target == old(m.positions)[actor]
                             || target !in Reach(old(QueryOn(m, m.positions[actor], movement, actor, AnyStep)))
    ensures r.Rejected? ==> m.positions == old(m.positions)
    ensures !r.Rejected? ==>
              var path := Route(old(QueryOn(m, m.positions[actor], movement, actor, AnyStep)), target);
              && |path| > 1 && Last(path) == target && 0 < Cost(path) <= movement
              && (r.Arrived? ==> r.spent == Cost(path) && m.positions == old(m.positions)[actor := target])
              && (r.Died? ==> r.walked < |path| - 1 && !survives(r.walked)
                              && r.spent == Cost(path[..r.walked + 1])
                              && m.positions == old(m.positions)[actor := path[r.walked]])
  {
    if movement <= 0 || !inCombat || actor !in m.positions {
      return Rejected;
    }
    var start := m.positions[actor];
    if target == start {
      return Rejected;
    }
    ghost var q := QueryOn(m, start, movement, actor, AnyStep);
    var reachable := ComputeReachable(start, movement, m, actor, AnyStep);
    if target !in reachable {
      return Rejected;
    }
    RouteIsWalkable(q, target);
    r := WalkPath(m, actor, reachable[target], movement, survives);
  }

  lemma RouteIsWalkable(q: Query, target: Position)
    requires target in Reach(q) && target != q.start && InBounds(q, q.start)
    ensures var path := Route(q, target);
            && |path| > 1 && path[0] == q.start && Last(path) == target && 0 < Cost(path) <= q.budget
            && forall i :: 0 <= i < |path| ==> InBounds(q, path[i])
  {
    ReachIsSound(q, target);
    var path := Reach(q)[target];
    CostClosedForm(path);
    forall i | 0 <= i < |path| ensures InBounds(q, path[i]) {
      assert i > 0 ==> Legal(q, path[i - 1], path[i]);
    }
  }
}
