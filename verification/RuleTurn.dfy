/** A whole combat turn of the rule-driven brain: the rule list, what each choice costs, and why the
    turn ends. */
module RuleTurn {
  import opened Grid
  import opened Search
  import opened SearchSound
  import opened Reactions
  import opened RuleBrain
  import opened Turn

  datatype Action = Equip | UseItem | MoveTo(goal: Position) | Flee | Disengage | Attack(enemy: string)
                  | Dash(bonus: bool) | Dodge | Idle | EndTurn

  const POTION_HP_THRESHOLD := 0.5
  const FLEE_SAFE_DISTANCE_FT := 15

  // The brain's awareness at one iteration of the turn loop. `fleeStatus` is the server's flee verdict
  // when it was filled in; `dashBonus` tells whether a feature lets Dash cost the bonus action.
  datatype Mind = Mind(ctx: Context, budget: Budget, unarmed: bool, canEquip: bool, hasPotion: bool, hp: real,
                       fleeBelow: real, dodgeBelow: real, disengaging: bool, fleeStatus: Option<bool>, dashBonus: bool)

  function Hostiles(nearby: seq<Enemy>): (r: seq<Enemy>)
    ensures forall e :: e in r <==> e in nearby && e.hostile
  {
    if nearby == [] then [] else
    var rest := Hostiles(nearby[..|nearby| - 1]);
    var e := nearby[|nearby| - 1];
    if e.hostile then rest + [e] else rest
  }

  function NearestDistance(es: seq<Enemy>): int
    requires es != []
  {
    if |es| == 1 then es[0].distance else Min(NearestDistance(es[..|es| - 1]), es[|es| - 1].distance)
  }

  predicate FleeAllowed(m: Mind) {
    match m.fleeStatus
    case Some(allowed) => allowed
    case None => forall e :: e in m.ctx.nearby && e.hostile ==> e.distance > FLEE_SAFE_DISTANCE_FT
  }

  // --- Moving away ---

  function Clearance(c: Position, threats: seq<Enemy>): nat
    requires threats != []
  {
    var d := GridDistance(c, threats[|threats| - 1].cell);
    if |threats| == 1 then d else Min(Clearance(c, threats[..|threats| - 1]), d)
  }

  ghost function Affordable(ctx: Context): map<Position, seq<Position>> {
    Reach(ViewQuery(ctx, ctx.movement))
  }

  // The order of escape cells: most clearance, cheapest walk, then the cell itself.
  predicate NoBetterEscape(paths: map<Position, seq<Position>>, c: Position, d: Position, threats: seq<Enemy>)
    requires c in paths && d in paths && threats != []
  {
    var (kc, kd, pc, pd) := (Clearance(c, threats), Clearance(d, threats), Cost(paths[c]), Cost(paths[d]));
    kd < kc || (kd == kc && (pc < pd || (pc == pd && (c.x < d.x || (c.x == d.x && c.y <= d.y)))))
  }

  // The cell `_move_away_from` heads for; None when no affordable cell gains distance.
  ghost predicate IsEscape(ctx: Context, threats: seq<Enemy>, goal: Option<Position>) {
    if !HasView(ctx) || threats == [] then goal == None
    else match goal
      case None => forall c :: c in Affordable(ctx) ==> Clearance(c, threats) <= Clearance(ctx.self, threats)
      case Some(g) => g in Affordable(ctx) && Clearance(g, threats) > Clearance(ctx.self, threats)
                      && forall c :: c in Affordable(ctx) ==> NoBetterEscape(Affordable(ctx), g, c, threats)
  }

  method MoveAwayFrom(ctx: Context, threats: seq<Enemy>) returns (goal: Option<Position>)
    ensures IsEscape(ctx, threats, goal)
  {
    if !HasView(ctx) || threats == [] {
      return None;
    }
    var view := MapView(ctx);
    var affordable := ComputeReachable(ctx.self, ctx.movement, view, SELF_ID, AnyStep);
    Connectivity.ReachHasStart(ViewQuery(ctx, ctx.movement));
    var best := ctx.self;
    var cells := affordable.Keys;
    while cells != {}
      invariant cells <= affordable.Keys && best in affordable
      invariant forall c :: c in affordable && c !in cells ==> NoBetterEscape(affordable, best, c, threats)
      decreases cells
    {
      var c :| c in cells;
      cells := cells - {c};
      if !NoBetterEscape(affordable, best, c, threats) {
        best := c;
      }
    }
    if Clearance(best, threats) <= Clearance(ctx.self, threats) {
      return None;
    }
    return Some(best);
  }

  // --- Advancing ---

  ghost predicate GoodStop(ctx: Context, a: Approach, c: Position) {
    c in Affordable(ctx) && (a.safe ==> !Provokes(Affordable(ctx)[c], Threats(ctx.nearby)))
  }

  // The farthest cell of the approach that this turn's movement reaches, without provoking anyone when
  // the approach is a safe one.
  ghost predicate IsAdvance(ctx: Context, a: Approach, goal: Option<Position>) {
    match goal
    case None => forall i :: 1 <= i < |a.path| ==> !GoodStop(ctx, a, a.path[i])
    case Some(g) => exists i :: 1 <= i < |a.path| && g == a.path[i] && GoodStop(ctx, a, g)
                                && forall j :: i < j < |a.path| ==> !GoodStop(ctx, a, a.path[j])
  }

  method AdvanceGoal(ctx: Context, a: Approach) returns (goal: Option<Position>)
    requires HasView(ctx) && a.path != [] && a.path[0] == ctx.self
    ensures IsAdvance(ctx, a, goal)
  {
    var view := MapView(ctx);
    var affordable := ComputeReachable(a.path[0], ctx.movement, view, SELF_ID, AnyStep);
    var threats := Threats(ctx.nearby);
    for i := |a.path| downto 1
      invariant forall j :: i <= j < |a.path| ==> !GoodStop(ctx, a, a.path[j])
    {
      var c := a.path[i];
      if c in affordable && (!a.safe || !Provokes(affordable[c], threats)) {
        return Some(c);
      }
    }
    goal := None;
  }

  // --- The rule list ---

  predicate ShouldEquip(m: Mind) {
    m.canEquip && m.unarmed
  }

  predicate ShouldDrink(m: Mind) {
    m.budget.actions > 0 && m.hp < POTION_HP_THRESHOLD && m.hasPotion
  }

  predicate ShouldRetreat(m: Mind) {
    m.disengaging && m.budget.movement >= 5
  }

  predicate WantsToFlee(m: Mind) {
    m.hp < m.fleeBelow
  }

  // Pinned, but nobody in reach: back off without provoking.
  predicate ShouldBackOff(m: Mind) {
    var hostiles := Hostiles(m.ctx.nearby);
    && WantsToFlee(m) && !FleeAllowed(m) && hostiles != [] && m.budget.movement >= 5
    && m.ctx.reach < NearestDistance(hostiles) <= FLEE_SAFE_DISTANCE_FT
  }

  predicate ShouldDisengage(m: Mind)
    requires m.ctx.nearby != []
  {
    m.hp < m.dodgeBelow && NearestDistance(m.ctx.nearby) <= m.ctx.reach && m.budget.actions > 0
  }

  predicate TargetInReach(m: Mind) {
    m.ctx.target.Some? && m.ctx.target.value.distance <= m.ctx.reach
  }

  // The rules from the first advance on, given the plan.
  predicate Approaches(m: Mind, plan: Option<Approach>, advance: Option<Position>, act: Action) {
    if plan.Some? && m.ctx.target.Some? && !TargetInReach(m) && |plan.value.path| == 1
       && plan.value.target != m.ctx.target.value && m.budget.actions > 0 then
      act == Attack(plan.value.target.id)
    else if plan.Some? && m.ctx.target.Some? && !TargetInReach(m) && |plan.value.path| > 1 && advance.Some? then
      act == MoveTo(advance.value)
    else if plan.Some? && |plan.value.path| != 1 && m.dashBonus && m.budget.bonus > 0 then
      act == Dash(true)
    else if plan.Some? && |plan.value.path| != 1 && m.budget.actions > 0 then
      act == Dash(false)
    else if m.ctx.target.Some? && m.budget.actions > 0 && plan.None? then
      act == Dodge
    else
      act == EndTurn
  }

  // What the brain decides: the first rule that yields an action.
  ghost predicate Decides(m: Mind, act: Action) {
    if m.budget.TurnOver() then act == EndTurn
    else if m.ctx.nearby == [] then act == Idle
    else if ShouldEquip(m) then act == Equip
    else if ShouldDrink(m) then act == UseItem
    else exists escape :: IsEscape(m.ctx, Hostiles(m.ctx.nearby), escape) && DecidesAfter(m, escape, act)
  }

  ghost predicate DecidesAfter(m: Mind, escape: Option<Position>, act: Action)
    requires m.ctx.nearby != []
  {
    if ShouldRetreat(m) && escape.Some? then act == MoveTo(escape.value)
    else if WantsToFlee(m) && FleeAllowed(m) && m.budget.actions > 0 then act == Flee
    else if ShouldBackOff(m) && escape.Some? then act == MoveTo(escape.value)
    else if ShouldDisengage(m) then act == Disengage
    else if TargetInReach(m) && m.budget.actions > 0 then act == Attack(m.ctx.target.value.id)
    else exists plan, advance ::
           && IsPlan(m.ctx, plan)
           && (plan.Some? ==> IsAdvance(m.ctx, plan.value, advance))
           && Approaches(m, plan, advance, act)
  }

  method ChooseAction(m: Mind) returns (act: Action)
    requires m.ctx.movement == m.budget.movement
    ensures Decides(m, act)
  {
    if m.budget.TurnOver() {
      return EndTurn;
    }
    if m.ctx.nearby == [] {
      return Idle;
    }
    if ShouldEquip(m) {
      return Equip;
    }
    if ShouldDrink(m) {
      return UseItem;
    }
    var escape := MoveAwayFrom(m.ctx, Hostiles(m.ctx.nearby));
    act := ChooseAfter(m, escape);
  }

  method ChooseAfter(m: Mind, escape: Option<Position>) returns (act: Action)
    requires m.ctx.nearby != []
    ensures DecidesAfter(m, escape, act)
  {
    if ShouldRetreat(m) && escape.Some? {
      return MoveTo(escape.value);
    }
    if WantsToFlee(m) && FleeAllowed(m) && m.budget.actions > 0 {
      return Flee;
    }
    if ShouldBackOff(m) && escape.Some? {
      return MoveTo(escape.value);
    }
    if ShouldDisengage(m) {
      return Disengage;
    }
    if TargetInReach(m) && m.budget.actions > 0 {
      return Attack(m.ctx.target.value.id);
    }
    var plan := PlanApproach(m.ctx);
    var advance: Option<Position> := None;
    if plan.Some? {
      PlanStartsHere(m.ctx, plan.value);
      advance := AdvanceGoal(m.ctx, plan.value);
    }
    act := ChooseApproach(m, plan, advance);
  }

  method ChooseApproach(m: Mind, plan: Option<Approach>, advance: Option<Position>) returns (act: Action)
    ensures Approaches(m, plan, advance, act)
  {
    if plan.Some? && m.ctx.target.Some? && !TargetInReach(m) {
      if |plan.value.path| == 1 && plan.value.target != m.ctx.target.value && m.budget.actions > 0 {
        return Attack(plan.value.target.id);
      }
      if |plan.value.path| > 1 && advance.Some? {
        return MoveTo(advance.value);
      }
    }
    if plan.Some? && |plan.value.path| != 1 {
      if m.dashBonus && m.budget.bonus > 0 {
        return Dash(true);
      }
      if m.budget.actions > 0 {
        return Dash(false);
      }
    }
    if m.ctx.target.Some? && m.budget.actions > 0 && plan.None? {
      return Dodge;
    }
    act := EndTurn;
  }

  // A planned path is one of the search's: it starts at the brain's cell and, on a safe approach,
  // provokes nobody.
  lemma PlanStartsHere(ctx: Context, a: Approach)
    requires IsPlan(ctx, Some(a))
    ensures HasView(ctx) && a.path != [] && a.path[0] == ctx.self && Simple(a.path)
  {
    var best :| IsCheapest(Paths(ctx), a.target.cell, ctx.reach, best);
    var budget := Connectivity.UnboundedBudget(ctx.width, ctx.height);
    var q := ViewQuery(ctx, budget);
    var threats := Threats(ctx.nearby);
    if a.safe && threats != [] {
      ReachIsSound(q.(allowed := SafeStep(threats)), Last(a.path));
    } else {
      ReachIsSound(q, Last(a.path));
    }
  }

  lemma SafeApproachProvokesNobody(ctx: Context, a: Approach)
    requires IsPlan(ctx, Some(a)) && a.safe
    ensures !Provokes(a.path, Threats(ctx.nearby))
  {
    var threats := Threats(ctx.nearby);
    if threats != [] {
      var q := ViewQuery(ctx, Connectivity.UnboundedBudget(ctx.width, ctx.height)).(allowed := SafeStep(threats));
      ReachIsSound(q, Last(a.path));
      SafeStepsProvokeNobody(q, a.path, threats);
    }
  }

  lemma SafeStepsProvokeNobody(q: Query, path: seq<Position>, threats: seq<Threat>)
    requires q.allowed == SafeStep(threats)
    requires forall i :: 0 <= i < |path| - 1 ==> Legal(q, path[i], path[i + 1])
    ensures !Provokes(path, threats)
  {
    forall i, t | 0 <= i < |path| - 1 && t in threats ensures !LeavesReach(t.cell, t.reach, path[i], path[i + 1]) {
      var step := [path[i], path[i + 1]];
      assert Legal(q, path[i], path[i + 1]);
      assert !Provokes(step, threats);
      assert step[0] == path[i] && step[1] == path[i + 1];
    }
  }

  /** Advancing on a safe approach: the route MOVE_TO will walk to the chosen cell is affordable, moves
      the brain, and triggers no opportunity attack from anyone it can see. */
  lemma AdvanceIsAffordableAndSafe(ctx: Context, a: Approach, goal: Position, cs: seq<Combatant>, scene: Scene)
    requires IsPlan(ctx, Some(a)) && IsAdvance(ctx, a, Some(goal))
    requires SeesReactors(Threats(ctx.nearby), cs, scene)
    ensures var path := Route(ViewQuery(ctx, ctx.movement), goal);
            && goal != ctx.self && |path| > 1 && 0 < Cost(path) <= ctx.movement
            && (a.safe ==> Triggers(path, Steps(path), cs, scene) == [])
  {
    PlanStartsHere(ctx, a);
    var i :| 1 <= i < |a.path| && goal == a.path[i] && GoodStop(ctx, a, goal);
    assert a.path[0] != a.path[i];
    ReachIsSound(ViewQuery(ctx, ctx.movement), goal);
    var path := Route(ViewQuery(ctx, ctx.movement), goal);
    CostClosedForm(path);
    ProvokesIffTriggers(path, Threats(ctx.nearby), cs, scene);
  }

  // --- Costs, progress, termination ---

  function CostOf(act: Action): ActionCost {
    match act
    case Equip | MoveTo(_) | Idle | EndTurn => ActionCost(0, 0, 0, 0)
    case Dash(true) => ActionCost(0, 1, 0, 0)
    case UseItem | Flee | Disengage | Attack(_) | Dash(false) | Dodge => ActionCost(1, 0, 0, 0)
  }

  // A move goes to another cell this turn's movement pays for.
  ghost predicate PaidMove(m: Mind, goal: Position) {
    var path := Route(ViewQuery(m.ctx, m.ctx.movement), goal);
    goal != m.ctx.self && |path| > 1 && 0 < Cost(path) <= m.ctx.movement
  }

  lemma EscapeIsPaid(m: Mind, goal: Position)
    requires IsEscape(m.ctx, Hostiles(m.ctx.nearby), Some(goal))
    ensures PaidMove(m, goal)
  {
    ReachIsSound(ViewQuery(m.ctx, m.ctx.movement), goal);
    CostClosedForm(Route(ViewQuery(m.ctx, m.ctx.movement), goal));
  }

  lemma AdvanceIsPaid(m: Mind, a: Approach, goal: Position)
    requires IsPlan(m.ctx, Some(a)) && IsAdvance(m.ctx, a, Some(goal))
    ensures PaidMove(m, goal)
  {
    PlanStartsHere(m.ctx, a);
    var i :| 1 <= i < |a.path| && goal == a.path[i] && GoodStop(m.ctx, a, goal);
    assert a.path[0] != a.path[i];
    ReachIsSound(ViewQuery(m.ctx, m.ctx.movement), goal);
    CostClosedForm(Route(ViewQuery(m.ctx, m.ctx.movement), goal));
  }

  lemma MovesArePaid(m: Mind, goal: Position)
    requires Decides(m, MoveTo(goal))
    ensures PaidMove(m, goal)
  {
    var escape :| IsEscape(m.ctx, Hostiles(m.ctx.nearby), escape) && DecidesAfter(m, escape, MoveTo(goal));
    if escape == Some(goal) {
      EscapeIsPaid(m, goal);
    } else {
      LaterMovesArePaid(m, escape, goal);
    }
  }

  lemma LaterMovesArePaid(m: Mind, escape: Option<Position>, goal: Position)
    requires m.ctx.nearby != [] && DecidesAfter(m, escape, MoveTo(goal)) && escape != Some(goal)
    ensures PaidMove(m, goal)
  {
    var plan, advance :| IsPlan(m.ctx, plan) && (plan.Some? ==> IsAdvance(m.ctx, plan.value, advance))
                         && Approaches(m, plan, advance, MoveTo(goal));
    AdvanceIsPaid(m, plan.value, goal);
  }

  lemma ApproachesAreAffordable(m: Mind, plan: Option<Approach>, advance: Option<Position>, act: Action)
    requires Approaches(m, plan, advance, act) && m.budget.NonNegative()
    ensures m.budget.CanAfford(CostOf(act)) && !act.Equip?
  {
  }

  lemma LaterChoicesAreAffordable(m: Mind, escape: Option<Position>, act: Action)
    requires m.ctx.nearby != [] && DecidesAfter(m, escape, act) && m.budget.NonNegative()
    ensures m.budget.CanAfford(CostOf(act)) && !act.Equip?
  {
    if !act.MoveTo? && !act.Flee? && !act.Disengage? && !act.Attack? {
      var plan, advance :| IsPlan(m.ctx, plan) && (plan.Some? ==> IsAdvance(m.ctx, plan.value, advance))
                           && Approaches(m, plan, advance, act);
      ApproachesAreAffordable(m, plan, advance, act);
    } else if act.Attack? && !(TargetInReach(m) && m.budget.actions > 0) {
      var plan, advance :| IsPlan(m.ctx, plan) && (plan.Some? ==> IsAdvance(m.ctx, plan.value, advance))
                           && Approaches(m, plan, advance, act);
      ApproachesAreAffordable(m, plan, advance, act);
    }
  }

  /** Whatever the brain decides, the budget covers; it equips only when unarmed and moves only to a
      different cell it can pay for. */
  lemma DecisionsAreAffordable(m: Mind, act: Action)
    requires Decides(m, act) && m.budget.NonNegative()
    ensures m.budget.CanAfford(CostOf(act))
    ensures act.Equip? ==> m.unarmed
    ensures act.MoveTo? ==> PaidMove(m, act.goal)
  {
    if act.MoveTo? {
      MovesArePaid(m, act.goal);
    }
    if !m.budget.TurnOver() && m.ctx.nearby != [] && !ShouldEquip(m) && !ShouldDrink(m) {
      var escape :| IsEscape(m.ctx, Hostiles(m.ctx.nearby), escape) && DecidesAfter(m, escape, act);
      LaterChoicesAreAffordable(m, escape, act);
    }
  }

  /** The brain dodges only when no candidate enemy can be attacked from any cell it could ever walk to. */
  lemma DodgesOnlyWhenCutOff(m: Mind)
    requires Decides(m, Dodge) && HasView(m.ctx) && InBounds(ViewQuery(m.ctx, 0), m.ctx.self)
    ensures forall e, c :: e in Candidates(m.ctx)
              && Connectivity.Connected(ViewQuery(m.ctx, Connectivity.UnboundedBudget(m.ctx.width, m.ctx.height)), c)
              ==> GridDistance(c, e.cell) > m.ctx.reach
  {
    var escape :| IsEscape(m.ctx, Hostiles(m.ctx.nearby), escape) && DecidesAfter(m, escape, Dodge);
    var plan := DodgesWithoutPlan(m, escape);
    NoPlanIffUnreachable(m.ctx, plan);
  }

  lemma DodgesWithoutPlan(m: Mind, escape: Option<Position>) returns (plan: Option<Approach>)
    requires m.ctx.nearby != [] && DecidesAfter(m, escape, Dodge)
    ensures IsPlan(m.ctx, plan) && plan.None? && m.ctx.target.Some?
  {
    var advance;
    plan, advance :| IsPlan(m.ctx, plan) && (plan.Some? ==> IsAdvance(m.ctx, plan.value, advance))
                     && Approaches(m, plan, advance, Dodge);
  }

  datatype TurnState = TurnState(mind: Mind, failures: nat)

  ghost predicate Coherent(m: Mind) {
    m.ctx.movement == m.budget.movement && m.budget.NonNegative()
  }

  // One pass of the turn loop that does not end the turn. The world may change in any way, within what
  // the handlers promise: a refused action spends nothing, a cost is deducted, a finished MOVE_TO
  // charges its route, DASH adds the speed, EQUIP leaves a weapon in hand, and nothing disarms the
  // creature or refills its budget. FLEE ends the turn and IDLE is refused in combat.
  ghost predicate LoopsOn(s: TurnState, t: TurnState) {
    && Coherent(s.mind) && Coherent(t.mind)
    && exists act :: Decides(s.mind, act) && act != EndTurn && (Refused(s, t) || Performed(s, t, act))
  }

  ghost predicate Refused(s: TurnState, t: TurnState) {
    && t.failures == s.failures + 1 && t.failures < 3
    && t.mind.unarmed == s.mind.unarmed && t.mind.budget == s.mind.budget
  }

  ghost predicate Performed(s: TurnState, t: TurnState, act: Action) {
    var b, b' := s.mind.budget.Minus(CostOf(act)), t.mind.budget;
    && act != Flee && act != Idle && t.failures == 0 && !t.mind.budget.TurnOver()
    && b'.actions == b.actions && b'.bonus == b.bonus
    && (if act.Equip? then !t.mind.unarmed else t.mind.unarmed ==> s.mind.unarmed)
    && (act.MoveTo? ==> b'.movement == b.movement - Cost(Route(ViewQuery(s.mind.ctx, s.mind.ctx.movement), act.goal)))
    && (!act.MoveTo? && !act.Dash? ==> b'.movement == b.movement)
  }

  // The measure of the turn: weapon still to draw, actions left, movement left, patience left.
  function Unarmed(s: TurnState): nat {
    if s.mind.unarmed then 1 else 0
  }

  function Acts(s: TurnState): nat {
    Max(0, s.mind.budget.actions + s.mind.budget.bonus)
  }

  function Feet(s: TurnState): nat {
    Max(0, s.mind.budget.movement)
  }

  function Patience(s: TurnState): nat {
    3 - Min(3, s.failures)
  }

  lemma EveryLoopFalls(s: TurnState, t: TurnState)
    requires LoopsOn(s, t)
    ensures Unarmed(t) < Unarmed(s) || (Unarmed(t) == Unarmed(s)
      && (Acts(t) < Acts(s) || (Acts(t) == Acts(s)
      && (Feet(t) < Feet(s) || (Feet(t) == Feet(s) && Patience(t) < Patience(s))))))
  {
    var act :| Decides(s.mind, act) && act != EndTurn && (Refused(s, t) || Performed(s, t, act));
    DecisionsAreAffordable(s.mind, act);
  }

  /** No run of the turn loop goes on forever: from any point some pass ends the turn. */
  lemma {:induction false} RuleTurnEnds(run: nat -> TurnState, i: nat)
    ensures exists n: nat :: i <= n && !LoopsOn(run(n), run(n + 1))
    decreases Unarmed(run(i)), Acts(run(i)), Feet(run(i)), Patience(run(i))
  {
    if LoopsOn(run(i), run(i + 1)) {
      EveryLoopFalls(run(i), run(i + 1));
      RuleTurnEnds(run, i + 1);
    }
  }
}
