/** The action dispatcher: check, run the handler, charge the budget. What an action costs may be
    lowered by a class feature; what a turn spends is conserved. */
module Dispatch {
  import opened Grid
  import opened Turn

  datatype CostType = Free | FullAction | BonusAction | Reaction {
    function Name(): string {
      match this
      case Free => "free"
      case FullAction => "action"
      case BonusAction => "bonus_action"
      case Reaction => "reaction"
    }

    function Cost(): ActionCost {
      match this
      case Free => ActionCost(0, 0, 0, 0)
      case FullAction => ActionCost(1, 0, 0, 0)
      case BonusAction => ActionCost(0, 1, 0, 0)
      case Reaction => ActionCost(0, 0, 0, 1)
    }
  }

  datatype Override = Override(action: string, cost: CostType)

  // An action with its default cost and the cost mode it asks for.
  datatype Request = Request(action: string, default: CostType, mode: Option<string>)

  predicate AsksForMode(r: Request) {
    r.mode.Some? && r.mode.value != ""
  }

  predicate Grants(o: Override, r: Request) {
    o.action == r.action && r.mode == Some(o.cost.Name())
  }

  // None where the source raises.
  function CostOf(r: Request, overrides: seq<Override>): Option<ActionCost> {
    if !AsksForMode(r) then Some(r.default.Cost())
    else if overrides == [] then None
    else if Grants(overrides[0], r) then Some(overrides[0].cost.Cost())
    else CostOf(r, overrides[1..])
  }

  predicate ModeAllowed(r: Request, overrides: seq<Override>) {
    AsksForMode(r) ==> exists o :: o in overrides && Grants(o, r)
  }

  /** The cost can be computed exactly for the modes the validator lets through, and a mode costs what
      its name says, whichever feature grants it. */
  lemma {:induction false} ValidModesHaveCosts(r: Request, overrides: seq<Override>)
    ensures CostOf(r, overrides).Some? <==> ModeAllowed(r, overrides)
    ensures forall o :: o in overrides && AsksForMode(r) && Grants(o, r) ==> CostOf(r, overrides) == Some(o.cost.Cost())
  {
    if AsksForMode(r) && overrides != [] {
      assert overrides == [overrides[0]] + overrides[1..];
      ValidModesHaveCosts(r, overrides[1..]);
      forall o, p | Grants(o, r) && Grants(p, r) ensures o.cost == p.cost {
        NamesDiffer(o.cost, p.cost);
      }
    }
  }

  lemma NamesDiffer(a: CostType, b: CostType)
    requires a.Name() == b.Name()
    ensures a == b
  {
    var n := a.Name();
    assert |n| == 4 || |n| == 6 || |n| == 12 || |n| == 8;
  }

  // What a handler does to the actor's budget, and whether it succeeds.
  datatype Handled = Handled(success: bool, left: Budget)

  type Handler = Budget -> Handled

  // `Crashed` is the error raised when a finished action can no longer be paid for.
  datatype Outcome = Refused | Failed | Done | Crashed

  datatype Dispatched = Dispatched(outcome: Outcome, left: Budget)

  // `checks` is the verdict of the checks that do not look at the budget.
  function Dispatching(b: Budget, r: Request, overrides: seq<Override>, checks: bool, h: Handler): Dispatched {
    if !checks || CostOf(r, overrides).None? || !b.CanAfford(CostOf(r, overrides).value) then Dispatched(Refused, b)
    else if !h(b).success then Dispatched(Failed, h(b).left)
    else if !h(b).left.CanAfford(CostOf(r, overrides).value) then Dispatched(Crashed, h(b).left)
    else Dispatched(Done, h(b).left.Minus(CostOf(r, overrides).value))
  }

  method RunDispatch(budget: TurnBudget, r: Request, overrides: seq<Override>, checks: bool, h: Handler)
    returns (outcome: Outcome)
    modifies budget
    ensures Dispatched(outcome, budget.value) == Dispatching(old(budget.value), r, overrides, checks, h)
  {
    if !checks {
      return Refused;
    }
    var cost := CostOf(r, overrides);
    if cost.None? || !budget.value.CanAfford(cost.value) {
      return Refused;
    }
    var handled := h(budget.value);
    budget.value := handled.left;
    if !handled.success {
      return Failed;
    }
    var paid := budget.Consume(cost.value);
    return if paid then Done else Crashed;
  }

  // What an action of each kind costs: nothing, an action, a bonus action or the reaction.
  predicate Costs(t: CostType, c: ActionCost) {
    && c.movement == 0
    && c.actions == (if t == FullAction then 1 else 0)
    && c.bonus == (if t == BonusAction then 1 else 0)
    && c.reaction == (if t == Reaction then 1 else 0)
  }

  predicate Named(t: CostType, name: string) {
    match t
    case Free => name == "free"
    case FullAction => name == "action"
    case BonusAction => name == "bonus_action"
    case Reaction => name == "reaction"
  }

  /** What is charged: without a mode, or with an empty one, the default of the action; with a mode, what it
      names, and only if one of the creature's features offers it for this action. */
  lemma ChargesAreByName(r: Request, overrides: seq<Override>)
    ensures r.mode == None || r.mode == Some("") ==>
              CostOf(r, overrides).Some? && Costs(r.default, CostOf(r, overrides).value)
    ensures r.mode.Some? && r.mode.value != "" ==>
              (CostOf(r, overrides).Some? <==>
                 exists o :: o in overrides && o.action == r.action && Named(o.cost, r.mode.value))
    ensures r.mode.Some? && r.mode.value != "" ==>
              forall t: CostType :: Named(t, r.mode.value) && CostOf(r, overrides).Some? ==>
                Costs(t, CostOf(r, overrides).value)
  {
    ValidModesHaveCosts(r, overrides);
    if AsksForMode(r) {
      forall o | o in overrides
        ensures Grants(o, r) <==> o.action == r.action && Named(o.cost, r.mode.value)
      {
      }
      forall t: CostType | Named(t, r.mode.value) && CostOf(r, overrides).Some?
        ensures Costs(t, CostOf(r, overrides).value)
      {
        var o :| o in overrides && Grants(o, r);
        NamesDiffer(o.cost, t);
      }
    }
  }

  /** Nothing is handled that does not pass the checks or cannot be paid for, and then nothing changes; a
      handled action is charged once, and only when it succeeds. */
  lemma ChargedOnlyForSuccess(b: Budget, r: Request, overrides: seq<Override>, checks: bool, h: Handler)
    ensures var (d, c) := (Dispatching(b, r, overrides, checks, h), CostOf(r, overrides));
            && (d.outcome == Refused <==> !checks || c.None? || b.actions < c.value.actions || b.bonus < c.value.bonus
                                          || b.movement < c.value.movement || b.reaction < c.value.reaction)
            && (d.outcome == Refused ==> d.left == b)
            && (d.outcome == Done ==> h(b).success && c.Some? && d.left.actions == h(b).left.actions - c.value.actions
                                      && d.left.bonus == h(b).left.bonus - c.value.bonus
                                      && d.left.movement == h(b).left.movement - c.value.movement
                                      && d.left.reaction == h(b).left.reaction - c.value.reaction)
            && (d.outcome == Failed ==> !h(b).success && d.left == h(b).left)
            && (d.outcome == Crashed ==> h(b).success && d.left == h(b).left)
  {
  }

  // Handlers spend movement only, never more than is left; anything else they can only grant.
  ghost predicate Thrifty(h: Handler) {
    forall b: Budget :: b.NonNegative() ==>
      var left := h(b).left;
      left.actions >= b.actions && left.bonus >= b.bonus && left.reaction >= b.reaction && left.movement >= 0
  }

  /** With thrifty handlers the charge after the fact always succeeds, and no field goes below zero. */
  lemma ChecksCoverTheCharge(b: Budget, r: Request, overrides: seq<Override>, checks: bool, h: Handler)
    requires Thrifty(h) && b.NonNegative()
    ensures var d := Dispatching(b, r, overrides, checks, h);
            d.outcome != Crashed && d.left.NonNegative()
  {
    ValidModesHaveCosts(r, overrides);
    assert CostOf(r, overrides).Some? ==> CostOf(r, overrides).value.movement == 0 by {
      CostsNoMovement(r, overrides);
    }
  }

  lemma {:induction false} CostsNoMovement(r: Request, overrides: seq<Override>)
    ensures CostOf(r, overrides).Some? ==> CostOf(r, overrides).value.movement == 0
  {
    if AsksForMode(r) && overrides != [] {
      CostsNoMovement(r, overrides[1..]);
    }
  }

  datatype Move = Move(request: Request, overrides: seq<Override>, checks: bool, handler: Handler)

  // The budget after a sequence of dispatches, the actions charged for, and the actions granted on the way.
  datatype Tally = Tally(left: Budget, charged: int, granted: int)

  function Played(b: Budget, moves: seq<Move>): Tally {
    if moves == [] then Tally(b, 0, 0)
    else
      var t, m := Played(b, moves[..|moves| - 1]), moves[|moves| - 1];
      var d := Dispatching(t.left, m.request, m.overrides, m.checks, m.handler);
      var handled := d.outcome != Refused;
      Tally(d.left,
            t.charged + (if d.outcome == Done then CostOf(m.request, m.overrides).value.actions else 0),
            t.granted + (if handled then m.handler(t.left).left.actions - t.left.actions else 0))
  }

  /** Over any sequence of dispatches what was granted and not charged is what is left: no action is
      paid for twice, given away or taken on credit. */
  lemma {:induction false} ActionsAreConserved(b: Budget, moves: seq<Move>)
    requires b.NonNegative() && forall m :: m in moves ==> Thrifty(m.handler)
    ensures var t := Played(b, moves);
            && t.left.actions == b.actions + t.granted - t.charged
            && t.left.NonNegative() && t.granted >= 0 && t.charged <= b.actions + t.granted
  {
    if moves != [] {
      ActionsAreConserved(b, moves[..|moves| - 1]);
      var t, m := Played(b, moves[..|moves| - 1]), moves[|moves| - 1];
      assert m in moves;
      ChecksCoverTheCharge(t.left, m.request, m.overrides, m.checks, m.handler);
    }
  }
}
