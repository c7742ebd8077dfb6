/** The planning half of the rule-driven brain: where to stand to attack, and which way to walk. */
module RuleBrain {
  import opened Grid
  import opened BattleMaps
  import opened Search
  import opened SearchSound
  import opened Connectivity
  import opened Reactions

  const MAX_SAFE_DETOUR_FT := 10

  datatype Enemy = Enemy(id: string, cell: Position, hostile: bool, canReact: bool, reach: int, distance: int)

  // What the brain knows of the fight; `target` is its preferred enemy.
  datatype Context = Context(self: Position, width: int, height: int, walls: seq<Wall>, occupied: set<Position>,
                             nearby: seq<Enemy>, movement: int, reach: int, target: Option<Enemy>)

  datatype Approach = Approach(target: Enemy, path: seq<Position>, safe: bool)

  // Every enemy that can take an opportunity attack.
  function Threats(nearby: seq<Enemy>): (ts: seq<Threat>)
    ensures forall t :: t in ts <==> exists e ::
            e in nearby && e.hostile && e.canReact && e.cell == t.cell && e.reach == t.reach
  {
    if nearby == [] then [] else
    var e := nearby[|nearby| - 1];
    var rest := Threats(nearby[..|nearby| - 1]);
    if e.hostile && e.canReact then rest + [Threat(e.cell, e.reach)] else rest
  }

  // --- Candidates: the target first, then the other hostiles, nearest first ---

  function InsertByDistance(e: Enemy, es: seq<Enemy>): (r: seq<Enemy>)
    ensures forall x :: x in r <==> x == e || x in es
    ensures multiset(r) == multiset(es) + multiset{e}
  {
    if es == [] || e.distance < es[0].distance then [e] + es
    else
      assert es == [es[0]] + es[1..];
      [es[0]] + InsertByDistance(e, es[1..])
  }

  // The hostiles other than `targetId` in a stable order by distance.
  function Others(nearby: seq<Enemy>, targetId: string): (r: seq<Enemy>)
    ensures forall x :: x in r <==> x in nearby && x.hostile && x.id != targetId
  {
    if nearby == [] then [] else
    var e := nearby[|nearby| - 1];
    var rest := Others(nearby[..|nearby| - 1], targetId);
    if e.hostile && e.id != targetId then InsertByDistance(e, rest) else rest
  }

  predicate ByDistance(es: seq<Enemy>) {
    forall i, j :: 0 <= i < j < |es| ==> es[i].distance <= es[j].distance
  }

  lemma {:induction false} InsertKeepsOrder(e: Enemy, es: seq<Enemy>)
    requires ByDistance(es)
    ensures ByDistance(InsertByDistance(e, es))
  {
    if es != [] && e.distance >= es[0].distance {
      InsertKeepsOrder(e, es[1..]);
      var r := InsertByDistance(e, es[1..]);
      forall i | 0 <= i < |r| ensures es[0].distance <= r[i].distance {
        assert r[i] in r;
        assert r[i] == e || r[i] in es[1..];
      }
    }
  }

  lemma {:induction false} OthersAreNearestFirst(nearby: seq<Enemy>, targetId: string)
    ensures ByDistance(Others(nearby, targetId))
  {
    if nearby != [] {
      OthersAreNearestFirst(nearby[..|nearby| - 1], targetId);
      InsertKeepsOrder(nearby[|nearby| - 1], Others(nearby[..|nearby| - 1], targetId));
    }
  }

  function Candidates(ctx: Context): seq<Enemy>
    requires ctx.target.Some?
  {
    [ctx.target.value] + Others(ctx.nearby, ctx.target.value.id)
  }

  // --- The cheapest cell to attack from ---

  ghost predicate WellKeyed(paths: map<Position, seq<Position>>) {
    forall c :: c in paths ==> paths[c] != [] && Last(paths[c]) == c
  }

  predicate AttackCell(paths: map<Position, seq<Position>>, c: Position, enemy: Position, reach: int) {
    c in paths && GridDistance(c, enemy) <= reach
  }

  function SquareDistance(a: Position, b: Position): int {
    (a.x - b.x) * (a.x - b.x) + (a.y - b.y) * (a.y - b.y)
  }

  // The order of attack paths: cost, squareness to the enemy, then the cell itself.
  predicate NotWorse(p: seq<Position>, r: seq<Position>, enemy: Position)
    requires p != [] && r != []
  {
    var (cp, cr, dp, dr) := (Cost(p), Cost(r), SquareDistance(Last(p), enemy), SquareDistance(Last(r), enemy));
    cp < cr || (cp == cr && (dp < dr || (dp == dr
      && (Last(p).x < Last(r).x || (Last(p).x == Last(r).x && Last(p).y <= Last(r).y)))))
  }

  ghost predicate IsCheapest(paths: map<Position, seq<Position>>, enemy: Position, reach: int, p: seq<Position>) {
    && p != [] && AttackCell(paths, Last(p), enemy, reach) && p == paths[Last(p)]
    && forall d :: AttackCell(paths, d, enemy, reach) && paths[d] != [] ==> NotWorse(p, paths[d], enemy)
  }

  method CheapestAttackPath(paths: map<Position, seq<Position>>, enemy: Position, reach: int)
    returns (best: Option<seq<Position>>)
    requires WellKeyed(paths)
    ensures best.None? <==> forall c :: !AttackCell(paths, c, enemy, reach)
    ensures best.Some? ==> IsCheapest(paths, enemy, reach, best.value)
  {
    best := None;
    var cells := paths.Keys;
    while cells != {}
      invariant cells <= paths.Keys
      invariant best.None? ==> forall c :: c !in cells ==> !AttackCell(paths, c, enemy, reach)
      invariant best.Some? ==>
                  && best.value != [] && AttackCell(paths, Last(best.value), enemy, reach)
                  && best.value == paths[Last(best.value)]
                  && forall d :: d !in cells && AttackCell(paths, d, enemy, reach)
                      ==> NotWorse(best.value, paths[d], enemy)
      decreases cells
    {
      var c :| c in cells;
      cells := cells - {c};
      if GridDistance(c, enemy) <= reach && (best.None? || !NotWorse(best.value, paths[c], enemy)) {
        best := Some(paths[c]);
      }
    }
  }

  // The order is total on cells, so the choice does not depend on the order of iteration.
  lemma CheapestIsUnique(paths: map<Position, seq<Position>>, enemy: Position, reach: int, p: seq<Position>,
      r: seq<Position>)
    requires IsCheapest(paths, enemy, reach, p) && IsCheapest(paths, enemy, reach, r)
    ensures p == r
  {
    assert NotWorse(p, paths[Last(r)], enemy) && NotWorse(r, paths[Last(p)], enemy);
  }

  // --- The approach ---

  predicate HasView(ctx: Context) {
    ctx.width > 0 && ctx.height > 0
  }

  ghost function ViewQuery(ctx: Context, budget: int): Query {
    Query(ctx.self, budget, ctx.width, ctx.height, ctx.walls, ctx.occupied, AnyStep)
  }

  function SafeStep(threats: seq<Threat>): (Position, Position) -> bool {
    (cur, next) => !Provokes([cur, next], threats)
  }

  ghost function Paths(ctx: Context): map<Position, seq<Position>> {
    Reach(ViewQuery(ctx, UnboundedBudget(ctx.width, ctx.height)))
  }

  ghost function SafePaths(ctx: Context): map<Position, seq<Position>> {
    var threats := Threats(ctx.nearby);
    if threats == [] then Paths(ctx)
    else Reach(ViewQuery(ctx, UnboundedBudget(ctx.width, ctx.height)).(allowed := SafeStep(threats)))
  }

  lemma ReachIsWellKeyed(q: Query)
    ensures WellKeyed(Reach(q))
  {
    forall c | c in Reach(q) ensures Reach(q)[c] != [] && Last(Reach(q)[c]) == c {
      ReachIsSound(q, c);
    }
  }

  // A safe detour is taken when it is short and does not spoil an attack this turn.
  predicate TakesDetour(ctx: Context, best: seq<Position>, safe: seq<Position>) {
    Cost(safe) - Cost(best) <= MAX_SAFE_DETOUR_FT && (Cost(best) > ctx.movement || Cost(safe) <= ctx.movement)
  }

  ghost predicate ChosenPath(ctx: Context, a: Approach) {
    exists best ::
      && IsCheapest(Paths(ctx), a.target.cell, ctx.reach, best)
      && if a.safe then IsCheapest(SafePaths(ctx), a.target.cell, ctx.reach, a.path) && TakesDetour(ctx, best, a.path)
         else a.path == best && forall s ::
                 IsCheapest(SafePaths(ctx), a.target.cell, ctx.reach, s) ==> !TakesDetour(ctx, best, s)
  }

  ghost predicate NoAttackCell(ctx: Context, e: Enemy) {
    forall c :: !AttackCell(Paths(ctx), c, e.cell, ctx.reach)
  }

  // The plan: nothing, or the first candidate that has an attack cell with its chosen path.
  ghost predicate IsPlan(ctx: Context, plan: Option<Approach>) {
    match plan
    case None => ctx.target.None? || !HasView(ctx) || forall e :: e in Candidates(ctx) ==> NoAttackCell(ctx, e)
    case Some(a) =>
      && ctx.target.Some? && HasView(ctx) && ChosenPath(ctx, a)
      && exists i :: 0 <= i < |Candidates(ctx)| && a.target == Candidates(ctx)[i]
                     && forall j :: 0 <= j < i ==> NoAttackCell(ctx, Candidates(ctx)[j])
  }

  // The brain's own copy of the battle map: other combatants' cells and itself.
  method MapView(ctx: Context) returns (view: BattleMap)
    requires HasView(ctx)
    ensures fresh(view) && view.Valid()
    ensures forall budget, allowed ::
              QueryOn(view, ctx.self, budget, SELF_ID, allowed) == ViewQuery(ctx, budget).(allowed := allowed)
  {
    var positions := map c | c in ctx.occupied :: CellId(c) := c;
    var all := positions[SELF_ID := ctx.self];
    view := new BattleMap(ctx.width, ctx.height, ctx.walls, all);
    forall c | c in ctx.occupied ensures c in view.Occupied(SELF_ID) {
      assert CellId(c) in all && all[CellId(c)] == c;
    }
    assert view.Occupied(SELF_ID) == ctx.occupied;
  }

  const SELF_ID: EntityId := Myself

  function CellId(c: Position): EntityId {
    OccupiedCell(c)
  }

  method PlanApproach(ctx: Context) returns (plan: Option<Approach>)
    ensures IsPlan(ctx, plan)
  {
    if ctx.target.None? || !HasView(ctx) {
      return None;
    }
    var view := MapView(ctx);
    var budget := UnboundedBudget(ctx.width, ctx.height);
    var paths := ComputeReachable(ctx.self, budget, view, SELF_ID, AnyStep);
    var threats := Threats(ctx.nearby);
    var safePaths := paths;
    if threats != [] {
      safePaths := ComputeReachable(ctx.self, budget, view, SELF_ID, SafeStep(threats));
    }
    ReachIsWellKeyed(ViewQuery(ctx, budget));
    ReachIsWellKeyed(ViewQuery(ctx, budget).(allowed := SafeStep(threats)));
    plan := FirstApproach(ctx, paths, safePaths);
  }

  method FirstApproach(ctx: Context, paths: map<Position, seq<Position>>, safePaths: map<Position, seq<Position>>)
    returns (plan: Option<Approach>)
    requires ctx.target.Some? && HasView(ctx)
    requires paths == Paths(ctx) && safePaths == SafePaths(ctx) && WellKeyed(paths) && WellKeyed(safePaths)
    ensures IsPlan(ctx, plan)
  {
    var candidates := Candidates(ctx);
    for i := 0 to |candidates|
      invariant forall j :: 0 <= j < i ==> NoAttackCell(ctx, candidates[j])
    {
      var e := candidates[i];
      var best := CheapestAttackPath(paths, e.cell, ctx.reach);
      if best.None? {
        continue;
      }
      var safe := CheapestAttackPath(safePaths, e.cell, ctx.reach);
      var approach := ChoosePath(ctx, safePaths, e, best.value, safe);
      return Some(approach);
    }
    plan := None;
  }

  // The safe path if it is worth its detour, else the cheapest.
  method ChoosePath(ctx: Context, safePaths: map<Position, seq<Position>>, e: Enemy, best: seq<Position>,
      safe: Option<seq<Position>>)
    returns (a: Approach)
    requires safePaths == SafePaths(ctx) && WellKeyed(safePaths) && IsCheapest(Paths(ctx), e.cell, ctx.reach, best)
    requires safe.Some? ==> IsCheapest(safePaths, e.cell, ctx.reach, safe.value)
    requires safe.None? ==> forall c :: !AttackCell(safePaths, c, e.cell, ctx.reach)
    ensures a.target == e && ChosenPath(ctx, a)
  {
    if safe.Some? {
      var cost := PathCost(best);
      var safeCost := PathCost(safe.value);
      if safeCost - cost <= MAX_SAFE_DETOUR_FT && (cost > ctx.movement || safeCost <= ctx.movement) {
        return Approach(e, safe.value, true);
      }
    }
    forall s | IsCheapest(safePaths, e.cell, ctx.reach, s) ensures !TakesDetour(ctx, best, s) {
      assert AttackCell(safePaths, Last(s), e.cell, ctx.reach);
      CheapestIsUnique(safePaths, e.cell, ctx.reach, s, safe.value);
    }
    a := Approach(e, best, false);
  }

  /** There is no plan exactly when no candidate enemy can be attacked from any cell connected to the
      brain's own; only then may it dodge instead of advancing. */
  lemma NoPlanIffUnreachable(ctx: Context, plan: Option<Approach>)
    requires ctx.target.Some? && HasView(ctx) && IsPlan(ctx, plan)
    requires InBounds(ViewQuery(ctx, 0), ctx.self)
    ensures plan.None? <==>
            forall e, c :: e in Candidates(ctx) && Connected(ViewQuery(ctx, UnboundedBudget(ctx.width, ctx.height)), c)
                           ==> GridDistance(c, e.cell) > ctx.reach
  {
    var q := ViewQuery(ctx, UnboundedBudget(ctx.width, ctx.height));
    forall c ensures c in Paths(ctx) <==> Connected(q, c) {
      UnboundedIsConnectivity(q, c);
    }
    if plan.None? {
      forall e, c | e in Candidates(ctx) && Connected(q, c) ensures GridDistance(c, e.cell) > ctx.reach {
        assert NoAttackCell(ctx, e);
        assert !AttackCell(Paths(ctx), c, e.cell, ctx.reach);
      }
    } else {
      var a := plan.value;
      var best :| IsCheapest(Paths(ctx), a.target.cell, ctx.reach, best);
      assert AttackCell(Paths(ctx), Last(best), a.target.cell, ctx.reach);
      assert a.target in Candidates(ctx);
    }
  }
}
