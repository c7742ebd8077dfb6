/** Opportunity attacks: which steps of a walk leave whose reach. */
module Reactions {
  import opened Grid
  import CombatSides

  // The trigger for one step: within reach before it, outside reach after it.
  predicate LeavesReach(reactor: Position, reach: int, cur: Position, next: Position) {
    GridDistance(reactor, cur) <= reach < GridDistance(reactor, next)
  }

  // `reaction` is None for a creature without a turn budget.
  datatype Combatant = Combatant(id: string, alive: bool, incapacitated: bool, reaction: Option<int>, reach: int)

  datatype Scene = Scene(moverId: string, cells: map<string, Position>, sides: Option<map<string, int>>)

  predicate CanReact(c: Combatant, scene: Scene) {
    && c.id != scene.moverId && c.alive
    && (scene.sides.Some? ==> !CombatSides.AreAllies(scene.sides.value, scene.moverId, c.id))
    && !c.incapacitated
    && c.reaction.Some? && c.reaction.value > 0
    && c.id in scene.cells
  }

  predicate Reacts(c: Combatant, scene: Scene, cur: Position, next: Position) {
    CanReact(c, scene) && LeavesReach(scene.cells[c.id], c.reach, cur, next)
  }

  // The reactors to one step, in combatant order.
  function ReactorsTo(cs: seq<Combatant>, scene: Scene, cur: Position, next: Position): (r: seq<Combatant>)
    ensures forall c :: c in r <==> c in cs && Reacts(c, scene, cur, next)
  {
    if cs == [] then [] else
    var rest := ReactorsTo(cs[..|cs| - 1], scene, cur, next);
    if Reacts(cs[|cs| - 1], scene, cur, next) then rest + [cs[|cs| - 1]] else rest
  }

  datatype Trigger = Trigger(step: nat, reactors: seq<Combatant>)

  // The triggers of the first `n` steps of a path.
  function Triggers(path: seq<Position>, n: nat, cs: seq<Combatant>, scene: Scene): seq<Trigger>
    requires n == 0 || n < |path|
  {
    if n == 0 then [] else
    var before := Triggers(path, n - 1, cs, scene);
    var rs := ReactorsTo(cs, scene, path[n - 1], path[n]);
    if rs == [] then before else before + [Trigger(n - 1, rs)]
  }

  function Steps(path: seq<Position>): nat {
    if path == [] then 0 else |path| - 1
  }

  method FindOaTriggers(path: seq<Position>, disengaging: bool, cs: seq<Combatant>, scene: Scene)
    returns (triggers: seq<Trigger>)
    ensures triggers == if disengaging then [] else Triggers(path, Steps(path), cs, scene)
  {
    triggers := [];
    if disengaging || |path| < 2 {
      return;
    }
    var potential: seq<(Combatant, Position)> := [];
    for i := 0 to |cs|
      invariant forall cur, next :: Leavers(potential, cur, next) == ReactorsTo(cs[..i], scene, cur, next)
    {
      ghost var was := potential;
      assert cs[..i + 1][..i] == cs[..i];
      if CanReact(cs[i], scene) {
        potential := potential + [(cs[i], scene.cells[cs[i].id])];
        assert potential[..|potential| - 1] == was;
      }
    }
    assert cs[..|cs|] == cs;
    for i := 0 to |path| - 1
      invariant triggers == Triggers(path, i, cs, scene)
    {
      var reactors := [];
      for j := 0 to |potential|
        invariant reactors == Leavers(potential[..j], path[i], path[i + 1])
      {
        assert potential[..j + 1][..j] == potential[..j];
        if LeavesReach(potential[j].1, potential[j].0.reach, path[i], path[i + 1]) {
          reactors := reactors + [potential[j].0];
        }
      }
      assert potential[..|potential|] == potential;
      if reactors != [] {
        triggers := triggers + [Trigger(i, reactors)];
      }
    }
  }

  function Leavers(ps: seq<(Combatant, Position)>, cur: Position, next: Position): seq<Combatant> {
    if ps == [] then [] else
    var rest := Leavers(ps[..|ps| - 1], cur, next);
    var (c, cell) := ps[|ps| - 1];
    if LeavesReach(cell, c.reach, cur, next) then rest + [c] else rest
  }

  ghost predicate Strikes(ts: seq<Trigger>, i: nat, c: Combatant) {
    exists k :: 0 <= k < |ts| && ts[k].step == i && c in ts[k].reactors
  }

  // The result lists exactly the provoking steps, each once and in walking order, each with exactly
  // those who may strike.
  lemma {:induction false} TriggersAreExact(path: seq<Position>, n: nat, cs: seq<Combatant>, scene: Scene)
    requires n == 0 || n < |path|
    ensures forall i, j :: 0 <= i < j < |Triggers(path, n, cs, scene)| ==>
              Triggers(path, n, cs, scene)[i].step < Triggers(path, n, cs, scene)[j].step
    ensures forall t :: t in Triggers(path, n, cs, scene) ==> t.step < n && t.reactors != []
    ensures forall i: nat, c :: Strikes(Triggers(path, n, cs, scene), i, c) <==> MayStrike(path, n, cs, scene, i, c)
  {
    if n > 0 {
      TriggersAreExact(path, n - 1, cs, scene);
      var before, ts := Triggers(path, n - 1, cs, scene), Triggers(path, n, cs, scene);
      var rs := ReactorsTo(cs, scene, path[n - 1], path[n]);
      forall i: nat, c ensures Strikes(ts, i, c) <==> MayStrike(path, n, cs, scene, i, c) {
        assert Strikes(before, i, c) <==> MayStrike(path, n - 1, cs, scene, i, c);
        if k :| 0 <= k < |before| && before[k].step == i && c in before[k].reactors {
          assert ts[k] == before[k];
        }
        if i == n - 1 && c in rs {
          assert ts[|ts| - 1] == Trigger(i, rs);
        }
      }
      forall k | 0 <= k < |before| ensures before[k].step < n - 1 {
        assert before[k] in before;
      }
    }
  }

  predicate MayStrike(path: seq<Position>, n: nat, cs: seq<Combatant>, scene: Scene, i: nat, c: Combatant)
    requires n == 0 || n < |path|
  {
    i < n && c in cs && Reacts(c, scene, path[i], path[i + 1])
  }

  // Alive, able to act, with a reaction to spend, on the map, and not on the mover's side.
  predicate StandsGuard(c: Combatant, scene: Scene) {
    && c.id != scene.moverId && c.alive && !c.incapacitated && c.reaction.Some? && c.reaction.value >= 1
    && c.id in scene.cells
    && match scene.sides
       case None => true
       case Some(sideOf) =>
         scene.moverId in sideOf && c.id in sideOf ==> sideOf[scene.moverId] != sideOf[c.id]
  }

  /** A combatant strikes at a step exactly when it stands guard, had the mover within its reach before the
      step and no longer has it after. */
  lemma StrikersLetNobodyGo(path: seq<Position>, cs: seq<Combatant>, scene: Scene, i: nat, c: Combatant)
    ensures Strikes(Triggers(path, Steps(path), cs, scene), i, c) <==>
            && i + 1 < |path| && c in cs && StandsGuard(c, scene)
            && GridDistance(scene.cells[c.id], path[i]) <= c.reach
            && GridDistance(scene.cells[c.id], path[i + 1]) > c.reach
  {
    TriggersAreExact(path, Steps(path), cs, scene);
    assert Strikes(Triggers(path, Steps(path), cs, scene), i, c) <==>
           MayStrike(path, Steps(path), cs, scene, i, c);
  }

  /** Whoever walks out of the reach of a guard is struck at on the way. */
  lemma WalkingOutIsStruck(path: seq<Position>, cs: seq<Combatant>, scene: Scene, c: Combatant) returns (i: nat)
    requires path != [] && c in cs && StandsGuard(c, scene)
    requires GridDistance(scene.cells[c.id], path[0]) <= c.reach < GridDistance(scene.cells[c.id], Last(path))
    ensures Strikes(Triggers(path, Steps(path), cs, scene), i, c)
  {
    i := Crossing(path, scene.cells[c.id], c.reach);
    StrikersLetNobodyGo(path, cs, scene, i, c);
  }

  lemma {:induction false} Crossing(path: seq<Position>, cell: Position, reach: int) returns (i: nat)
    requires path != [] && GridDistance(cell, path[0]) <= reach < GridDistance(cell, Last(path))
    ensures i + 1 < |path| && GridDistance(cell, path[i]) <= reach < GridDistance(cell, path[i + 1])
  {
    i := |path| - 2;
    if GridDistance(cell, path[i]) > reach {
      i := Crossing(path[..i + 1], cell, reach);
    }
  }

  // A planner's view of the enemies that can strike: cell and reach only.
  datatype Threat = Threat(cell: Position, reach: int)

  predicate Provokes(path: seq<Position>, threats: seq<Threat>) {
    exists i, t :: 0 <= i < |path| - 1 && t in threats && LeavesReach(t.cell, t.reach, path[i], path[i + 1])
  }

  // The planner sees exactly the creatures that can react, each by its cell and reach.
  ghost predicate SeesReactors(threats: seq<Threat>, cs: seq<Combatant>, scene: Scene) {
    && (forall c :: c in cs && CanReact(c, scene) ==> Threat(scene.cells[c.id], c.reach) in threats)
    && (forall t :: t in threats ==> exists c ::
            c in cs && CanReact(c, scene) && scene.cells[c.id] == t.cell && c.reach == t.reach)
  }

  /** The planner's prediction is the engine's verdict: a walk provokes a threat exactly when it
      triggers an opportunity attack. */
  lemma ProvokesIffTriggers(path: seq<Position>, threats: seq<Threat>, cs: seq<Combatant>, scene: Scene)
    requires SeesReactors(threats, cs, scene)
    ensures Provokes(path, threats) <==> Triggers(path, Steps(path), cs, scene) != []
  {
    var ts := Triggers(path, Steps(path), cs, scene);
    TriggersAreExact(path, Steps(path), cs, scene);
    if Provokes(path, threats) {
      var i: nat, t :| i < |path| - 1 && t in threats && LeavesReach(t.cell, t.reach, path[i], path[i + 1]);
      var c :| c in cs && CanReact(c, scene) && scene.cells[c.id] == t.cell && c.reach == t.reach;
      assert MayStrike(path, Steps(path), cs, scene, i, c);
    }
    if ts != [] {
      assert ts[0] in ts;
      var c := ts[0].reactors[0];
      assert Strikes(ts, ts[0].step, c);
      assert MayStrike(path, Steps(path), cs, scene, ts[0].step, c);
      assert Threat(scene.cells[c.id], c.reach) in threats;
    }
  }
}
