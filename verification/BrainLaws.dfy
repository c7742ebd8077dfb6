/** What the rule-driven brain does, said of distances, hit points and what it sees, and not of its own
    rules. */
module BrainLaws {
  import opened Grid
  import opened Search
  import opened Reactions
  import opened RuleBrain
  import opened RuleTurn
  import Connectivity
  import SearchSound

  // The distances the brain is told are those of the grid.
  ghost predicate DistancesAreTrue(ctx: Context) {
    && (forall e :: e in ctx.nearby ==> e.distance == GridDistance(ctx.self, e.cell))
    && (ctx.target.Some? ==> ctx.target.value.distance == GridDistance(ctx.self, ctx.target.value.cell))
  }

  // Somebody to attack: the target, or another hostile creature.
  predicate Foe(ctx: Context, e: Enemy) {
    ctx.target.Some? && (e == ctx.target.value || (e in ctx.nearby && e.hostile && e.id != ctx.target.value.id))
  }

  // Where a walk of at most `budget` feet can end.
  ghost function Walks(ctx: Context, budget: int): map<Position, seq<Position>> {
    Reach(Query(ctx.self, budget, ctx.width, ctx.height, ctx.walls, ctx.occupied, AnyStep))
  }

  // Cells the brain could ever walk to.
  ghost function Everywhere(ctx: Context): map<Position, seq<Position>> {
    Walks(ctx, 15 * (ctx.width * ctx.height))
  }

  // A step from within to beyond the reach of an enemy that can strike.
  predicate LeavesSomebody(nearby: seq<Enemy>, a: Position, b: Position) {
    exists e :: e in nearby && e.hostile && e.canReact
                && GridDistance(e.cell, a) <= e.reach && GridDistance(e.cell, b) > e.reach
  }

  predicate Unharmed(nearby: seq<Enemy>, path: seq<Position>) {
    forall i :: 0 <= i < |path| - 1 ==> !LeavesSomebody(nearby, path[i], path[i + 1])
  }

  predicate LeavesThreat(threats: seq<Threat>, a: Position, b: Position) {
    exists t :: t in threats && LeavesReach(t.cell, t.reach, a, b)
  }

  lemma LeaversAreThreats(nearby: seq<Enemy>, a: Position, b: Position)
    ensures LeavesSomebody(nearby, a, b) <==> LeavesThreat(Threats(nearby), a, b)
  {
    if LeavesSomebody(nearby, a, b) {
      var e :| e in nearby && e.hostile && e.canReact
               && GridDistance(e.cell, a) <= e.reach && GridDistance(e.cell, b) > e.reach;
      var t := Threat(e.cell, e.reach);
      assert t in Threats(nearby) && LeavesReach(t.cell, t.reach, a, b);
    }
  }

  lemma UnharmedMeansUnprovoking(nearby: seq<Enemy>, path: seq<Position>)
    ensures Unharmed(nearby, path) <==> !Provokes(path, Threats(nearby))
  {
    forall i | 0 <= i < |path| - 1
      ensures LeavesSomebody(nearby, path[i], path[i + 1]) <==> LeavesThreat(Threats(nearby), path[i], path[i + 1])
    {
      LeaversAreThreats(nearby, path[i], path[i + 1]);
    }
  }

  // A step the safe search takes is one that leaves nobody's reach.
  lemma SafeStepLeavesNobody(nearby: seq<Enemy>, a: Position, b: Position)
    ensures SafeStep(Threats(nearby))(a, b) <==> !LeavesSomebody(nearby, a, b)
  {
    UnharmedMeansUnprovoking(nearby, [a, b]);
    assert [a, b][0] == a && [a, b][1] == b;
  }

  lemma EverywhereIsUnbounded(ctx: Context)
    ensures Paths(ctx) == Everywhere(ctx)
  {
  }

  // --- The rules above the fight ---

  // Anything at all left to spend.
  predicate MayAct(m: Mind) {
    m.budget.actions > 0 || m.budget.bonus > 0 || m.budget.movement > 0
  }

  /** The turn ends at once with nothing left to spend; nobody nearby means idling; an unarmed creature
      draws its weapon before anything else, and one below half its hit points then drinks. */
  lemma FirstThings(m: Mind, act: Action)
    requires Decides(m, act)
    ensures !MayAct(m) ==> act == EndTurn
    ensures act == Idle <==> MayAct(m) && m.ctx.nearby == []
    ensures act == Equip <==> MayAct(m) && m.ctx.nearby != [] && m.canEquip && m.unarmed
    ensures act == UseItem <==> m.ctx.nearby != [] && !(m.canEquip && m.unarmed)
                                && m.budget.actions > 0 && m.hasPotion && m.hp < 0.5
  {
  }

  // The rules of drawing, drinking and retreating have nothing to do.
  predicate Ready(m: Mind) {
    && MayAct(m) && m.ctx.nearby != [] && !(m.canEquip && m.unarmed)
    && !(m.budget.actions > 0 && m.hasPotion && m.hp < 0.5)
    && !(m.disengaging && m.budget.movement >= 5)
  }

  // The flee verdict, or without one: every hostile more than 15 ft away.
  predicate FreeToFlee(m: Mind) {
    match m.fleeStatus
    case Some(allowed) => allowed
    case None => forall e :: e in m.ctx.nearby && e.hostile ==> e.distance > 15
  }

  /** A creature flees only when badly hurt, allowed to and with an action left; and nothing but drawing,
      drinking and retreating comes before. */
  lemma FleesWhenHurtAndFree(m: Mind, act: Action)
    requires Decides(m, act)
    ensures act == Flee ==> m.hp < m.fleeBelow && FreeToFlee(m) && m.budget.actions > 0
    ensures Ready(m) && m.budget.actions > 0 && m.hp < m.fleeBelow && FreeToFlee(m) ==> act == Flee
  {
    if act == Flee {
      var escape :| IsEscape(m.ctx, Hostiles(m.ctx.nearby), escape) && DecidesAfter(m, escape, act);
      FleesOnlyThen(m, escape);
    } else if Ready(m) {
      var escape := AfterFirstThings(m, act);
      assert !ShouldRetreat(m);
    }
  }

  lemma FleesOnlyThen(m: Mind, escape: Option<Position>)
    requires m.ctx.nearby != [] && DecidesAfter(m, escape, Flee)
    ensures WantsToFlee(m) && FleeAllowed(m) && m.budget.actions > 0
  {
  }

  lemma {:induction false} NearestIsNear(es: seq<Enemy>) returns (e: Enemy)
    requires es != []
    ensures e in es && e.distance == NearestDistance(es)
    ensures forall x :: x in es ==> NearestDistance(es) <= x.distance
  {
    var front, last := es[..|es| - 1], es[|es| - 1];
    e := last;
    if front != [] {
      var near := NearestIsNear(front);
      if near.distance < last.distance {
        e := near;
      }
    }
    forall x | x in es ensures e.distance <= x.distance {
      assert x in front || x == last;
    }
  }

  // Hurt, and not about to flee.
  predicate Held(m: Mind) {
    Ready(m) && m.budget.actions > 0 && m.hp < m.dodgeBelow && (m.hp >= m.fleeBelow || !FreeToFlee(m))
  }

  /** It disengages only when hurt, with somebody in reach and an action left; and it does when an enemy
      in reach keeps it from fleeing. */
  lemma DisengagesWhenHurtAndHeld(m: Mind, act: Action)
    requires Decides(m, act)
    ensures act == Disengage ==> m.hp < m.dodgeBelow && m.budget.actions > 0
                                 && exists e :: e in m.ctx.nearby && e.distance <= m.ctx.reach
    ensures forall e :: e in m.ctx.nearby && e.hostile && e.distance <= m.ctx.reach && Held(m) ==> act == Disengage
  {
    if m.ctx.nearby != [] {
      var near := NearestIsNear(m.ctx.nearby);
      forall e | e in m.ctx.nearby && e.hostile && e.distance <= m.ctx.reach && Held(m) ensures act == Disengage
      {
        var hostiles := Hostiles(m.ctx.nearby);
        assert e in hostiles;
        var nearHostile := NearestIsNear(hostiles);
      }
    }
  }

  // --- Moving away ---

  lemma {:induction false} ClearanceIsLeast(c: Position, threats: seq<Enemy>) returns (e: Enemy)
    requires threats != []
    ensures e in threats && GridDistance(c, e.cell) == Clearance(c, threats)
    ensures forall x :: x in threats ==> Clearance(c, threats) <= GridDistance(c, x.cell)
  {
    var front, last := threats[..|threats| - 1], threats[|threats| - 1];
    var d := GridDistance(c, last.cell);
    e := last;
    if front != [] {
      var near := ClearanceIsLeast(c, front);
      if Clearance(c, front) < d {
        e := near;
      }
    }
    forall x | x in threats ensures Clearance(c, threats) <= GridDistance(c, x.cell) {
      assert x in front || x == last;
    }
  }

  // Somebody stands at least as near to `c` as anybody does to `d`.
  predicate NoClearer(c: Position, d: Position, threats: seq<Enemy>) {
    exists near :: near in threats && forall e :: e in threats ==> GridDistance(c, near.cell) <= GridDistance(d, e.cell)
  }

  lemma NoClearerMeans(c: Position, d: Position, threats: seq<Enemy>)
    requires threats != []
    ensures NoClearer(c, d, threats) <==> Clearance(c, threats) <= Clearance(d, threats)
  {
    var nearC := ClearanceIsLeast(c, threats);
    var nearD := ClearanceIsLeast(d, threats);
  }

  /** A creature that moves away ends farther from the nearest enemy than it stood, no affordable cell is
      farther, and among the cells as far it takes the cheapest to walk to, then the least. */
  lemma EscapesGainDistance(ctx: Context, threats: seq<Enemy>, goal: Position, c: Position)
    requires IsEscape(ctx, threats, Some(goal)) && c in Walks(ctx, ctx.movement)
    ensures goal in Walks(ctx, ctx.movement) && !NoClearer(goal, ctx.self, threats) && NoClearer(c, goal, threats)
    ensures NoClearer(goal, c, threats) ==>
              InOrder(Cost(Walks(ctx, ctx.movement)[goal]), Cost(Walks(ctx, ctx.movement)[c]), goal, c)
  {
    var paths := Walks(ctx, ctx.movement);
    assert Affordable(ctx) == paths;
    NoClearerMeans(goal, ctx.self, threats);
    NoClearerMeans(c, goal, threats);
    NoClearerMeans(goal, c, threats);
    EscapeOrder(paths, goal, c, threats);
  }

  // Cheaper, or as cheap and to the left, or straight below.
  predicate InOrder(costA: int, costB: int, a: Position, b: Position) {
    costA < costB || (costA == costB && (a.x < b.x || (a.x == b.x && a.y <= b.y)))
  }

  lemma EscapeOrder(paths: map<Position, seq<Position>>, goal: Position, c: Position, threats: seq<Enemy>)
    requires goal in paths && c in paths && threats != [] && NoBetterEscape(paths, goal, c, threats)
    ensures Clearance(c, threats) <= Clearance(goal, threats)
    ensures Clearance(goal, threats) <= Clearance(c, threats) ==> InOrder(Cost(paths[goal]), Cost(paths[c]), goal, c)
  {
  }

  /** It stays only where no affordable cell gains distance. */
  lemma StaysWhereNothingGains(ctx: Context, threats: seq<Enemy>, c: Position)
    requires IsEscape(ctx, threats, None) && ctx.width > 0 && ctx.height > 0 && threats != []
    requires c in Walks(ctx, ctx.movement)
    ensures NoClearer(c, ctx.self, threats)
  {
    assert Affordable(ctx) == Walks(ctx, ctx.movement);
    NoClearerMeans(c, ctx.self, threats);
  }

  // --- The plan ---

  lemma CandidatesAreFoes(ctx: Context, e: Enemy)
    requires ctx.target.Some?
    ensures e in Candidates(ctx) <==> Foe(ctx, e)
  {
  }

  function Squareness(a: Position, b: Position): int {
    (a.x - b.x) * (a.x - b.x) + (a.y - b.y) * (a.y - b.y)
  }

  // Cheaper first; of equal cost the squarest to the enemy, then the least x, then the least y.
  lemma CheapestInOrder(paths: map<Position, seq<Position>>, enemy: Position, reach: int, p: seq<Position>, c: Position)
    requires IsCheapest(paths, enemy, reach, p) && WellKeyed(paths)
    requires c in paths && GridDistance(c, enemy) <= reach
    ensures GridDistance(Last(p), enemy) <= reach && Last(p) in paths && p == paths[Last(p)]
    ensures Cost(p) <= Cost(paths[c])
    ensures Cost(p) == Cost(paths[c]) ==> Squareness(Last(p), enemy) <= Squareness(c, enemy)
    ensures Cost(p) == Cost(paths[c]) && Squareness(Last(p), enemy) == Squareness(c, enemy) ==>
              Last(p).x < c.x || (Last(p).x == c.x && Last(p).y <= c.y)
  {
    assert AttackCell(paths, c, enemy, reach);
    OrderedPaths(p, paths[c], enemy);
  }

  lemma OrderedPaths(p: seq<Position>, r: seq<Position>, enemy: Position)
    requires p != [] && r != [] && NotWorse(p, r, enemy)
    ensures Cost(p) <= Cost(r)
    ensures Cost(p) == Cost(r) ==> Squareness(Last(p), enemy) <= Squareness(Last(r), enemy)
    ensures Cost(p) == Cost(r) && Squareness(Last(p), enemy) == Squareness(Last(r), enemy) ==>
              Last(p).x < Last(r).x || (Last(p).x == Last(r).x && Last(p).y <= Last(r).y)
  {
    SameSquareness(Last(p), enemy);
    SameSquareness(Last(r), enemy);
    KeysInOrder(Cost(p), Cost(r), Squareness(Last(p), enemy), Squareness(Last(r), enemy), Last(p), Last(r));
  }

  lemma SameSquareness(a: Position, b: Position)
    ensures Squareness(a, b) == SquareDistance(a, b)
  {
  }

  lemma KeysInOrder(cp: int, cr: int, dp: int, dr: int, p: Position, r: Position)
    requires cp < cr || (cp == cr && (dp < dr || (dp == dr && (p.x < r.x || (p.x == r.x && p.y <= r.y)))))
    ensures cp <= cr && (cp == cr ==> dp <= dr)
    ensures cp == cr && dp == dr ==> p.x < r.x || (p.x == r.x && p.y <= r.y)
  {
  }

  // What the safe search reports, when anybody can strike at all.
  ghost function SafeWalks(ctx: Context): map<Position, seq<Position>> {
    Reach(Query(ctx.self, 15 * (ctx.width * ctx.height), ctx.width, ctx.height, ctx.walls, ctx.occupied,
                SafeStep(Threats(ctx.nearby))))
  }

  predicate AnyoneCanStrike(nearby: seq<Enemy>) {
    exists e :: e in nearby && e.hostile && e.canReact
  }

  lemma SafePathsAreReported(ctx: Context)
    ensures SafePaths(ctx) == if AnyoneCanStrike(ctx.nearby) then SafeWalks(ctx) else Everywhere(ctx)
  {
    EverywhereIsUnbounded(ctx);
    ThreatsMeanStrikers(ctx.nearby);
  }

  lemma ThreatsMeanStrikers(nearby: seq<Enemy>)
    ensures AnyoneCanStrike(nearby) <==> Threats(nearby) != []
  {
    if e :| e in nearby && e.hostile && e.canReact {
      assert Threat(e.cell, e.reach) in Threats(nearby);
    } else if Threats(nearby) != [] {
      assert Threats(nearby)[0] in Threats(nearby);
    }
  }

  /** A planned path leads from the brain to a cell with its enemy in reach, at most 10 ft dearer than any
      other such path, and no dearer at all unless it is a safe one; a safe one leaves nobody's reach and
      still arrives this turn whenever any path does. */
  lemma PlannedPath(ctx: Context, a: Approach, c: Position)
    requires IsPlan(ctx, Some(a)) && c in Everywhere(ctx) && GridDistance(c, a.target.cell) <= ctx.reach
    ensures Foe(ctx, a.target) && a.path != [] && a.path[0] == ctx.self
    ensures GridDistance(Last(a.path), a.target.cell) <= ctx.reach
    ensures Cost(a.path) <= Cost(Everywhere(ctx)[c]) + if a.safe then 10 else 0
    ensures a.safe ==> Unharmed(ctx.nearby, a.path)
    ensures a.safe && Cost(Everywhere(ctx)[c]) <= ctx.movement ==> Cost(a.path) <= ctx.movement
  {
    PlanStartsHere(ctx, a);
    EverywhereIsUnbounded(ctx);
    ReachIsWellKeyed(ViewQuery(ctx, Connectivity.UnboundedBudget(ctx.width, ctx.height)));
    var best :| IsCheapest(Paths(ctx), a.target.cell, ctx.reach, best)
                && if a.safe then IsCheapest(SafePaths(ctx), a.target.cell, ctx.reach, a.path)
                                  && TakesDetour(ctx, best, a.path)
                   else a.path == best;
    CheapestInOrder(Paths(ctx), a.target.cell, ctx.reach, best, c);
    if a.safe {
      SafeApproachProvokesNobody(ctx, a);
      UnharmedMeansUnprovoking(ctx.nearby, a.path);
    }
    assert a.target in Candidates(ctx);
  }

  /** Somebody nearer, or the target itself, is passed over only when nowhere has them in reach. */
  lemma NearerFoesFirst(ctx: Context, a: Approach, e: Enemy, c: Position)
    requires IsPlan(ctx, Some(a)) && Foe(ctx, e) && a.target != e && c in Everywhere(ctx)
    requires e == ctx.target.value || (a.target != ctx.target.value && e.distance < a.target.distance)
    ensures GridDistance(c, e.cell) > ctx.reach
  {
    EverywhereIsUnbounded(ctx);
    var i :| 0 <= i < |Candidates(ctx)| && a.target == Candidates(ctx)[i]
             && forall j :: 0 <= j < i ==> NoAttackCell(ctx, Candidates(ctx)[j]);
    var k := NearerComesEarlier(ctx, a.target, e, i);
    assert NoAttackCell(ctx, Candidates(ctx)[k]);
    assert !AttackCell(Paths(ctx), c, e.cell, ctx.reach);
  }

  lemma NearerComesEarlier(ctx: Context, far: Enemy, e: Enemy, i: nat) returns (k: nat)
    requires Foe(ctx, e) && far != e && i < |Candidates(ctx)| && far == Candidates(ctx)[i]
    requires e == ctx.target.value || (far != ctx.target.value && e.distance < far.distance)
    ensures k < i && Candidates(ctx)[k] == e
  {
    k := 0;
    if e != ctx.target.value {
      var others := Others(ctx.nearby, ctx.target.value.id);
      OthersAreNearestFirst(ctx.nearby, ctx.target.value.id);
      var before := EarlierByDistance(others, far, e, i - 1);
      k := before + 1;
    }
  }

  lemma EarlierByDistance(es: seq<Enemy>, far: Enemy, e: Enemy, i: nat) returns (k: nat)
    requires ByDistance(es) && e in es && i < |es| && es[i] == far && e.distance < far.distance
    ensures k < i && es[k] == e
  {
    k :| 0 <= k < |es| && es[k] == e;
  }

  lemma {:induction false} CheapestExists(paths: map<Position, seq<Position>>, cells: set<Position>, enemy: Position,
      reach: int) returns (p: seq<Position>)
    requires WellKeyed(paths) && cells != {} && forall c :: c in cells ==> AttackCell(paths, c, enemy, reach)
    ensures p != [] && AttackCell(paths, Last(p), enemy, reach) && p == paths[Last(p)]
    ensures forall c :: c in cells && AttackCell(paths, c, enemy, reach) ==> NotWorse(p, paths[c], enemy)
    decreases cells
  {
    var c :| c in cells;
    p := paths[c];
    if cells != {c} {
      var r := CheapestExists(paths, cells - {c}, enemy, reach);
      if NotWorse(r, p, enemy) {
        p := r;
      }
    } else {
      assert forall d :: d in cells ==> d == c;
    }
  }

  /** A path that leaves nobody's reach is passed over only when it costs over 10 ft more, or when it would
      not arrive this turn and the cheapest path does. */
  lemma SafePathIsTaken(ctx: Context, a: Approach, c: Position)
    requires IsPlan(ctx, Some(a)) && !a.safe && AnyoneCanStrike(ctx.nearby)
    requires c in SafeWalks(ctx) && GridDistance(c, a.target.cell) <= ctx.reach
    ensures Cost(SafeWalks(ctx)[c]) > Cost(a.path) + 10 || Cost(a.path) <= ctx.movement < Cost(SafeWalks(ctx)[c])
  {
    var q := ViewQuery(ctx, Connectivity.UnboundedBudget(ctx.width, ctx.height));
    ReachIsWellKeyed(q.(allowed := SafeStep(Threats(ctx.nearby))));
    SafePathsAreReported(ctx);
    var s := CheapestTo(SafeWalks(ctx), a.target.cell, ctx.reach, c);
    assert !TakesDetour(ctx, a.path, s);
  }

  lemma CheapestTo(paths: map<Position, seq<Position>>, enemy: Position, reach: int, c: Position)
    returns (s: seq<Position>)
    requires WellKeyed(paths) && AttackCell(paths, c, enemy, reach)
    ensures IsCheapest(paths, enemy, reach, s) && Cost(s) <= Cost(paths[c])
  {
    var cells := set d | d in paths && AttackCell(paths, d, enemy, reach);
    assert c in cells;
    s := CheapestExists(paths, cells, enemy, reach);
    assert NotWorse(s, paths[c], enemy);
  }

  // --- The fight ---

  // Well enough to fight on: above the thresholds of fleeing and disengaging.
  predicate Fit(m: Mind) {
    Ready(m) && m.hp >= m.fleeBelow && m.hp >= m.dodgeBelow
  }

  /** A fit brain attacks a target within its reach. */
  lemma TargetsInReachAreAttacked(m: Mind, act: Action)
    requires Fit(m) && Decides(m, act) && m.budget.actions > 0
    requires m.ctx.target.Some? && m.ctx.target.value.distance <= m.ctx.reach
    ensures act == Attack(m.ctx.target.value.id)
  {
    var escape :| IsEscape(m.ctx, Hostiles(m.ctx.nearby), escape) && DecidesAfter(m, escape, act);
  }

  // A plan of a single cell has its enemy in reach already.
  lemma StandingPlan(ctx: Context, a: Approach)
    requires IsPlan(ctx, Some(a))
    ensures |a.path| == 1 <==> GridDistance(ctx.self, a.target.cell) <= ctx.reach
    ensures ctx.self in Everywhere(ctx) && Foe(ctx, a.target)
  {
    PlanStartsHere(ctx, a);
    var best :| IsCheapest(Paths(ctx), a.target.cell, ctx.reach, best)
                && if a.safe then IsCheapest(SafePaths(ctx), a.target.cell, ctx.reach, a.path) else a.path == best;
    EverywhereIsUnbounded(ctx);
    CandidatesAreFoes(ctx, a.target);
    var q := ViewQuery(ctx, Connectivity.UnboundedBudget(ctx.width, ctx.height));
    CheapestStands(q, a.target.cell, ctx.reach, best);
    if a.safe && Threats(ctx.nearby) != [] {
      CheapestStands(q.(allowed := SafeStep(Threats(ctx.nearby))), a.target.cell, ctx.reach, a.path);
    } else if a.safe {
      CheapestIsUnique(Paths(ctx), a.target.cell, ctx.reach, a.path, best);
    }
  }

  // Where standing still is enough, no walk is cheaper.
  lemma CheapestStands(q: Query, enemy: Position, reach: int, p: seq<Position>)
    requires IsCheapest(Reach(q), enemy, reach, p)
    ensures q.start in Reach(q) && (|p| == 1 <==> GridDistance(q.start, enemy) <= reach)
  {
    Connectivity.ReachHasStart(q);
    SearchSound.ReachIsSound(q, Last(p));
    SearchSound.ReachIsSound(q, q.start);
    CostClosedForm(p);
    if GridDistance(q.start, enemy) <= reach {
      assert AttackCell(Reach(q), q.start, enemy, reach);
      OrderedPaths(p, Reach(q)[q.start], enemy);
      CostClosedForm(Reach(q)[q.start]);
    }
  }

  // With nobody to attack where it stands, a fit brain follows its plan.
  lemma FitFollowsPlan(m: Mind, act: Action) returns (plan: Option<Approach>, advance: Option<Position>)
    requires Fit(m) && Decides(m, act) && !(TargetInReach(m) && m.budget.actions > 0)
    ensures IsPlan(m.ctx, plan) && (plan.Some? ==> IsAdvance(m.ctx, plan.value, advance))
    ensures Approaches(m, plan, advance, act)
  {
    var escape := AfterFirstThings(m, act);
    assert !ShouldRetreat(m) && !WantsToFlee(m) && !ShouldBackOff(m) && !ShouldDisengage(m);
    plan, advance :| IsPlan(m.ctx, plan) && (plan.Some? ==> IsAdvance(m.ctx, plan.value, advance))
                     && Approaches(m, plan, advance, act);
  }

  lemma AfterFirstThings(m: Mind, act: Action) returns (escape: Option<Position>)
    requires Ready(m) && Decides(m, act)
    ensures DecidesAfter(m, escape, act)
  {
    escape :| IsEscape(m.ctx, Hostiles(m.ctx.nearby), escape) && DecidesAfter(m, escape, act);
  }

  /** Nobody out of reach is attacked: whoever is attacked is the target or another hostile, within reach
      of where the brain stands. */
  lemma AttacksAreInReach(m: Mind, id: string)
    requires Decides(m, Attack(id)) && DistancesAreTrue(m.ctx)
    ensures exists e :: Foe(m.ctx, e) && e.id == id && GridDistance(m.ctx.self, e.cell) <= m.ctx.reach
    ensures m.budget.actions > 0
  {
    var escape :| IsEscape(m.ctx, Hostiles(m.ctx.nearby), escape) && DecidesAfter(m, escape, Attack(id));
    if TargetInReach(m) && m.budget.actions > 0 {
      var e := m.ctx.target.value;
      assert m.ctx.target.value.id == id ==> Foe(m.ctx, e) && e.id == id;
      if e.id != id {
        var e' := PlannedAttack(m, escape, id);
      }
    } else {
      var e := PlannedAttack(m, escape, id);
    }
  }

  lemma PlannedAttack(m: Mind, escape: Option<Position>, id: string) returns (e: Enemy)
    requires m.ctx.nearby != [] && DecidesAfter(m, escape, Attack(id)) && !(TargetInReach(m) && m.budget.actions > 0)
    ensures Foe(m.ctx, e) && e.id == id && GridDistance(m.ctx.self, e.cell) <= m.ctx.reach && m.budget.actions > 0
  {
    var plan, advance :| IsPlan(m.ctx, plan) && (plan.Some? ==> IsAdvance(m.ctx, plan.value, advance))
                         && Approaches(m, plan, advance, Attack(id));
    e := plan.value.target;
    StandingPlan(m.ctx, plan.value);
  }

  // Some enemy can be attacked from somewhere.
  ghost predicate SomeoneIsReachable(ctx: Context) {
    exists e, c :: Foe(ctx, e) && c in Everywhere(ctx) && GridDistance(c, e.cell) <= ctx.reach
  }

  /** A fit brain with a target engages: while any enemy can be attacked from anywhere it attacks, walks or
      dashes, and it dodges exactly when none can. */
  lemma FitBrainsEngage(m: Mind, act: Action)
    requires Fit(m) && Decides(m, act) && DistancesAreTrue(m.ctx) && m.budget.actions > 0
    requires m.ctx.width > 0 && m.ctx.height > 0 && m.ctx.target.Some?
    ensures act == Dodge <==> !SomeoneIsReachable(m.ctx)
    ensures SomeoneIsReachable(m.ctx) ==> act.Attack? || act.MoveTo? || act.Dash?
  {
    if TargetInReach(m) {
      TargetsInReachAreAttacked(m, act);
      EverywhereIsUnbounded(m.ctx);
      Connectivity.ReachHasStart(ViewQuery(m.ctx, Connectivity.UnboundedBudget(m.ctx.width, m.ctx.height)));
      var e := m.ctx.target.value;
      assert Foe(m.ctx, e) && m.ctx.self in Everywhere(m.ctx) && GridDistance(m.ctx.self, e.cell) <= m.ctx.reach;
    } else {
      var plan, advance := FitFollowsPlan(m, act);
      ReachableMeansPlanned(m.ctx, plan);
      PlansEngage(m, plan, advance, act);
    }
  }

  lemma PlansEngage(m: Mind, plan: Option<Approach>, advance: Option<Position>, act: Action)
    requires Approaches(m, plan, advance, act) && m.budget.actions > 0 && m.ctx.target.Some? && !TargetInReach(m)
    requires IsPlan(m.ctx, plan) && DistancesAreTrue(m.ctx)
    ensures act == Dodge <==> plan.None?
    ensures plan.Some? ==> act.Attack? || act.MoveTo? || act.Dash?
  {
    if plan.Some? {
      StandingPlan(m.ctx, plan.value);
    }
  }

  lemma ReachableMeansPlanned(ctx: Context, plan: Option<Approach>)
    requires IsPlan(ctx, plan) && ctx.target.Some? && HasView(ctx)
    ensures plan.Some? <==> SomeoneIsReachable(ctx)
  {
    EverywhereIsUnbounded(ctx);
    if plan.Some? {
      StandingPlan(ctx, plan.value);
    } else if SomeoneIsReachable(ctx) {
      var e, c :| Foe(ctx, e) && c in Everywhere(ctx) && GridDistance(c, e.cell) <= ctx.reach;
      CandidatesAreFoes(ctx, e);
      assert NoAttackCell(ctx, e);
      assert AttackCell(Paths(ctx), c, e.cell, ctx.reach);
    }
  }

  // A cell of the plan worth stopping at: walked to this turn, on a safe approach without harm.
  ghost predicate WorthStopping(ctx: Context, a: Approach, c: Position) {
    c in Walks(ctx, ctx.movement) && (a.safe ==> Unharmed(ctx.nearby, Walks(ctx, ctx.movement)[c]))
  }

  /** A fit brain that moves goes to the farthest cell of its plan that it can walk to this turn, and only
      when its target is out of reach. */
  lemma AdvancesAsFarAsItCan(m: Mind, goal: Position) returns (a: Approach, i: nat)
    requires Fit(m) && Decides(m, MoveTo(goal))
    ensures IsPlan(m.ctx, Some(a)) && 1 <= i < |a.path| && goal == a.path[i] && WorthStopping(m.ctx, a, goal)
    ensures forall j :: i < j < |a.path| ==> !WorthStopping(m.ctx, a, a.path[j])
    ensures m.ctx.target.Some? && m.ctx.target.value.distance > m.ctx.reach
  {
    if TargetInReach(m) && m.budget.actions > 0 {
      TargetsInReachAreAttacked(m, MoveTo(goal));
    }
    var plan, advance := FitFollowsPlan(m, MoveTo(goal));
    a := plan.value;
    i := FarthestStop(m.ctx, a, goal);
  }

  lemma FarthestStop(ctx: Context, a: Approach, goal: Position) returns (i: nat)
    requires IsAdvance(ctx, a, Some(goal))
    ensures 1 <= i < |a.path| && goal == a.path[i] && WorthStopping(ctx, a, goal)
    ensures forall j :: i < j < |a.path| ==> !WorthStopping(ctx, a, a.path[j])
  {
    i :| 1 <= i < |a.path| && goal == a.path[i] && GoodStop(ctx, a, goal)
         && forall j :: i < j < |a.path| ==> !GoodStop(ctx, a, a.path[j]);
    StopsAgree(ctx, a);
  }

  /** A fit brain whose target is out of reach stands still, or dashes, only where no cell of its plan is
      worth walking to this turn; it dashes only with an enemy to get to, and at the bonus cost if it may. */
  lemma StandsStillWhereItCannotWalk(m: Mind, act: Action) returns (plan: Option<Approach>)
    requires Fit(m) && Decides(m, act) && !act.MoveTo?
    requires m.ctx.target.Some? && m.ctx.target.value.distance > m.ctx.reach
    ensures IsPlan(m.ctx, plan)
    ensures plan.Some? && GridDistance(m.ctx.self, plan.value.target.cell) > m.ctx.reach ==>
              forall j :: 1 <= j < |plan.value.path| ==> !WorthStopping(m.ctx, plan.value, plan.value.path[j])
    ensures act.Dash? ==> plan.Some? && GridDistance(m.ctx.self, plan.value.target.cell) > m.ctx.reach
    ensures act.Dash? ==> (act.bonus <==> m.dashBonus && m.budget.bonus > 0) && (!act.bonus ==> m.budget.actions > 0)
  {
    var advance;
    plan, advance := FitFollowsPlan(m, act);
    if plan.Some? {
      StandingPlan(m.ctx, plan.value);
      StopsAgree(m.ctx, plan.value);
      PlanStartsHere(m.ctx, plan.value);
      NowhereToWalk(m, plan.value, advance, act);
    }
  }

  lemma NowhereToWalk(m: Mind, a: Approach, advance: Option<Position>, act: Action)
    requires Approaches(m, Some(a), advance, act) && IsAdvance(m.ctx, a, advance) && !act.MoveTo?
    requires m.ctx.target.Some? && !TargetInReach(m) && a.path != []
    ensures |a.path| != 1 ==> forall j :: 1 <= j < |a.path| ==> !GoodStop(m.ctx, a, a.path[j])
    ensures act.Dash? ==> |a.path| != 1 && (act.bonus <==> m.dashBonus && m.budget.bonus > 0)
    ensures act.Dash? && !act.bonus ==> m.budget.actions > 0
  {
  }

  /** Among none but friends it ends its turn. */
  lemma NobodyToFight(m: Mind, act: Action)
    requires Fit(m) && Decides(m, act) && m.ctx.target.None?
    ensures act == EndTurn
  {
    var plan, advance := FitFollowsPlan(m, act);
  }

  lemma StopsAgree(ctx: Context, a: Approach)
    ensures forall c :: WorthStopping(ctx, a, c) <==> GoodStop(ctx, a, c)
  {
    assert Affordable(ctx) == Walks(ctx, ctx.movement);
    forall c | c in Affordable(ctx)
      ensures Unharmed(ctx.nearby, Affordable(ctx)[c]) <==> !Provokes(Affordable(ctx)[c], Threats(ctx.nearby))
    {
      UnharmedMeansUnprovoking(ctx.nearby, Affordable(ctx)[c]);
    }
  }

  /** A creature that has disengaged, or cannot flee though nobody has reached it, uses its movement to gain
      distance from every hostile, if any cell does. */
  lemma RetreatsAndBacksOff(m: Mind, act: Action) returns (escape: Option<Position>)
    requires Decides(m, act) && m.ctx.nearby != [] && m.budget.movement >= 5
    requires !(m.canEquip && m.unarmed) && !(m.budget.actions > 0 && m.hasPotion && m.hp < 0.5)
    requires m.disengaging || Cornered(m)
    ensures IsEscape(m.ctx, Hostiles(m.ctx.nearby), escape) && (escape.Some? ==> act == MoveTo(escape.value))
    ensures forall e :: e in Hostiles(m.ctx.nearby) <==> e in m.ctx.nearby && e.hostile
  {
    escape :| IsEscape(m.ctx, Hostiles(m.ctx.nearby), escape) && DecidesAfter(m, escape, act);
    if !m.disengaging {
      CorneredBacksOff(m);
    }
  }

  // Hurt and not free to flee, with the nearest hostile within 15 ft but none in reach.
  predicate Cornered(m: Mind) {
    && m.hp < m.fleeBelow && !FreeToFlee(m)
    && (forall e :: e in m.ctx.nearby && e.hostile ==> e.distance > m.ctx.reach)
    && exists e :: e in m.ctx.nearby && e.hostile && e.distance <= 15
  }

  lemma CorneredBacksOff(m: Mind)
    requires Cornered(m) && m.budget.movement >= 5
    ensures ShouldBackOff(m) && !FleeAllowed(m)
  {
    var hostiles := Hostiles(m.ctx.nearby);
    var e :| e in m.ctx.nearby && e.hostile && e.distance <= 15;
    assert e in hostiles;
    var near := NearestIsNear(hostiles);
  }
}
