# Verified model of the D&D simulator engine

This project models the parts of the simulator whose correctness depends on several functions, or on a
whole run, at once, and proves what they promise each other. The parts and their files:

| part | files |
|---|---|
| the battle grid: distances, walls, the reachability search and everything that trusts it | `Grid`, `BattleMap`, `Search`, `SearchSound`, `SearchLaws`, `OpenMap`, `Connectivity`, `Budget`, `StepToward` |
| opportunity attacks and the rule-driven brain that plans around them | `Reactions`, `RuleBrain`, `Turn`, `Dispatch`, `RuleTurn`, `BrainLaws` |
| the interruptible game round, its conditions and the stop handshake | `Rounds`, `RoundLaws`, `RoundRunner`, `RoundLimits`, `Removals`, `Conditions`, `Handshake` |
| routes between locations, the calendar and the clock of the layers | `Location`, `Calendar` |
| combat sides, the inner self's digest and alignment, the player's event log | `CombatSides`, `SideLaws`, `Digest`, `SelfLaws`, `LogProcessing`, `LogLaws` |

`dafny verify dfyconfig.toml` checks all of it.

## How to read it

Distances on the grid are in feet; a step moves a coordinate by 5. A value-level function or relation (`Search.Run`,
`Rounds.Finish`, `CombatSides.BuildFrom`, `InnerSelves.Derived`) says what an operation computes, a method with
the loops and the state of the source is proved equal to it, and lemmas prove the properties. The modules whose names
end in `Laws` say what an operation means to those who use it, in terms of cells, distances, seats, events and rows alone:
they do not mention the predicates that the operation itself tests.

The search keys its labels by cell, although the cost of a diagonal step depends on how many diagonals came
before. Cheapest paths are therefore not claimed where walls or combatants stand in the way. What holds of every
map is soundness (`SearchSound.ReachIsSound`), local closedness (`SearchSound.ReachIsClosed`) and stability under a
larger budget (`Budget.BudgetStability`); on a map without obstacles the answer is exact (`OpenMap.OpenMapIsExact`),
and with the unbounded budget it decides connectivity (`Connectivity.UnboundedIsConnectivity`).

The round is run against an arbitrary engine: handlers and conditions are functions of an arbitrary world state, and
every pass of a turn takes a decision, to end the turn or an action with the answers to the reaction prompts it raises.
The engine also says which decisions the brains and reactors may take; so the uninterrupted round is a relation
(`Rounds.Finish`), whatever they decide within that. Of the handlers it is asked (`Rounds.Lawful`) that a creature still
acting in its own turn stays present and keeps its brain and its budget. Turns need not be finite: free actions may go on
forever (`RoundLimits.TurnsNeedNotEnd`), and everything is said of the rounds that complete and of the states in between.

`RoundRunner.Round.Poll` is the place where a stop may arrive between two actions, and `RoundRunner.Round.Dispatch` lets it
land in the middle of one: the answers still to come are then declined, while the action completes. A decision that
comes back after the stop is used up without being applied. A stop can lead a round astray in two ways, both recorded: a
turn goes on after three rejections in a row, because the count starts afresh (`overran`), or a declined answer makes an
action do what no permitted decision does (`cut`). Otherwise the log of the completed round is one that the
uninterrupted round may write, and the only one when the permitted decisions of every moment have the same effect
(`Rounds.Determined`). Where rejected actions change nothing and brains and reactors may decide anything, a round cannot
be led astray.

The handshake is a transition system of a round thread, a stopper and any number of transport threads; statements
about runs quantify over all interleavings.

Where the source does not do what one would expect of it, the model follows the source and a lemma says when:

- `Connectivity.ZeroAreaIsExactOnlyWhenStuck`: the unbounded budget is zero on a map with one row or column.
- `RoundLimits.ForgottenFailuresCanMatter`: the count of consecutive rejections is lost when a turn is stopped;
  `Rounds.ResumeIsExact` gives the exact condition under which the turn ends the same all the same.
- `RoundLimits.DroppedReactionsCanMatter`: a reaction cut off by a stop is lost for good, so a round in which that happened
  may write another log; by `RoundRunner.Round.PlayThroughStops` this and a lost count are all that can make it differ.
- `Removals.RemovalMovesTheCursor`: the resume cursor is an index, so removing a creature that stands before it in the
  initiative order continues somebody else's turn.
- `Locations.ZeroCyclesCanComeFirst`: with cycles of length zero the route need not be the lexicographically first walk;
  `Locations.FirstOfAllIffNoDetour` says exactly when it is.
- `InnerSelves.MoodDependsOnBatching`: a mood, unlike relations and goals, depends on where a batch is cut;
  `InnerSelves.MoodsAgreeExactly` and `InnerSelves.DigestMoodsAgreeExactly` say exactly when.
- `Grid.TriangleIsNotExact`: two legs can undercut the direct distance; `Grid.TriangleFailsExactly` says exactly when.

## Model

| member | source | states |
|---|---|---|
| `Grid.PathCost` | src/dnd_simulator/rules/movement.py:212-219 | the loop over a walk returns its alternating-diagonal cost, whatever the walk |
| `Grid.CostClosedForm` | src/dnd_simulator/rules/movement.py:236-248 | the history-dependent step costs of a walk add up to a function of its numbers of steps and diagonals alone |
| `Grid.DistanceIsLowerBound` | src/dnd_simulator/rules/movement.py:31-43 | no 8-neighbour walk between two cells costs less than their grid distance |
| `Grid.DistanceIsAttained` | src/dnd_simulator/rules/movement.py:31-43 | some walk costs exactly the grid distance |
| `Grid.TriangleWithSlack` | src/dnd_simulator/rules/movement.py:31-43 | the triangle inequality holds up to 5 ft |
| `Grid.TriangleFailsExactly` | src/dnd_simulator/rules/movement.py:31-43 | the exact inequality fails exactly when both legs have an odd number of diagonals, lean to the same axis and go the same way on both axes |
| `Grid.TriangleIsNotExact` | src/dnd_simulator/rules/movement.py:31-43 | two single diagonals cost 5 + 5 where the double one costs 15, so the slack is needed |
| `BattleMaps.BattleMap.SetPosition` | src/dnd_simulator/core/combat.py:92-98 | an entity is placed exactly when the cell is on the map; otherwise nothing changes |
| `BattleMaps.BattleMap.LeaveCorpse` | src/dnd_simulator/core/combat.py:108-112 | the cell moves from the live positions to the corpses, and nothing else changes |
| `BattleMaps.BattleMap.GetBlockedEdges` | src/dnd_simulator/core/combat.py:142-169 | the cached set, filled on first use, is exactly the edges some wall closes |
| `BattleMaps.BattleMap.IsStepBlocked` | src/dnd_simulator/core/combat.py:118-140 | the verdict from the cached edges agrees with the walls, for straight and diagonal steps |
| `BattleMaps.EdgesOf` | src/dnd_simulator/core/combat.py:142-169 | walking a wall 5 ft at a time collects exactly the edges it closes, and for a slanted wall none |
| `BattleMaps.EdgesAreCrossings` | src/dnd_simulator/core/combat.py:45-59 | on the 5-ft grid the collected edges are the pairs of cells the wall geometrically separates |
| `BattleMaps.StepBlockedIsSymmetric` | src/dnd_simulator/core/combat.py:118-140 | a wall blocks a step in both directions or in neither |
| `Search.ComputeReachable` | src/dnd_simulator/rules/movement.py:141-204 | the heap loop over the live map returns the result of the search specification; no cell but the start is off the map or anybody else's |
| `Search.StepShrinks` | src/dnd_simulator/rules/movement.py:162-202 | every pop lowers a measure, so the search ends on every map and budget |
| `SearchSound.PushIsInsertion` | src/dnd_simulator/rules/movement.py:201-202 | pushing keeps the queue sorted by cost and adds just that entry |
| `SearchSound.PushIsStable` | src/dnd_simulator/rules/movement.py:201-202 | the new entry stands right behind all entries of no greater cost, so equal costs are popped in the order they were pushed |
| `SearchSound.RunKeepsInv` | src/dnd_simulator/rules/movement.py:162-202 | the whole run keeps the search invariant and ends with an empty queue |
| `SearchSound.ReachIsSound` | src/dnd_simulator/rules/movement.py:141-204 | every reported path is simple, legal step by step, ends at its key and costs no more than the budget |
| `SearchSound.ReachIsClosed` | src/dnd_simulator/rules/movement.py:181-202 | extending a reported path by an affordable legal step never beats the reported path to that cell |
| `SearchLaws.QueryTakesTheMap` | src/dnd_simulator/rules/movement.py:141-161 | the search takes bounds and walls from the map, and the cells of everybody but the mover as occupied |
| `SearchLaws.BlockedMeansWalledOff` | src/dnd_simulator/core/combat.py:118-140 | on the 5-ft grid a straight step is blocked exactly when a wall stands between the cells, a diagonal one exactly when both ways round the corner are closed |
| `SearchLaws.StepsOfReportedPaths` | src/dnd_simulator/rules/movement.py:181-202 | every step of a reported path goes to a neighbouring cell on the map that nobody else stands on, as allowed, and past no wall |
| `SearchLaws.FreeNeighboursAreReported` | src/dnd_simulator/rules/movement.py:181-202 | a free, allowed, unseparated neighbour of a reported cell is reported when the budget still pays for it, at no greater cost |
| `OpenMap.BesideTheDiagonal` | src/dnd_simulator/rules/movement.py:31-43 | a cell beside the diagonal is at most 5 ft nearer than the diagonal cell it leads to, and if it is nearer at all, the diagonal cell before is nearer still and was expanded first |
| `OpenMap.RunKeepsParity` | src/dnd_simulator/rules/movement.py:194-202 | on an open map every label of a pure-diagonal cell carries the diagonal count of the direct walk |
| `OpenMap.OpenMapIsExact` | src/dnd_simulator/rules/movement.py:141-204 | on an open map the reported cells are exactly those within the budget by grid distance, each at exactly that cost |
| `Connectivity.SimplePathsFitTheBudget` | src/dnd_simulator/rules/movement.py:207-209 | a simple path never costs more than the unbounded budget |
| `Connectivity.UnboundedIsConnectivity` | src/dnd_simulator/rules/movement.py:207-209 | with the unbounded budget exactly the cells connected by legal steps are reported |
| `Connectivity.ZeroAreaIsExactOnlyWhenStuck` | src/dnd_simulator/rules/movement.py:207-209 | on a map of zero width or height that is true exactly when the start has no legal step |
| `Budget.BudgetStability` | src/dnd_simulator/rules/movement.py:199-202 | a smaller budget reports the larger budget's cells whose path it pays for, with the same paths |
| `Budget.FindPath` | src/dnd_simulator/rules/movement.py:222-233 | the start alone, the search's path within (width + height) * 2, or nothing |
| `Budget.FindPathAgrees` | src/dnd_simulator/rules/movement.py:222-233 | a cell reported at any budget is found again, by the same path, exactly when that path costs no more than the path budget |
| `StepToward.StepTowardTarget` | src/dnd_simulator/rules/movement.py:251-295 | the square-by-square walk with clamping ends where its specification ends; the lemmas below say where that is |
| `StepToward.MoveDirection` | src/dnd_simulator/rules/movement.py:132-138 | a known compass direction, in whatever case, walks that way; an unknown one stays |
| `StepToward.CompassWalkIsLegal` | src/dnd_simulator/rules/movement.py:251-295 | the cells walked are a legal path whose real cost is within the speed, although clamped diagonals are charged as diagonals |
| `StepToward.WalkHeadsForTarget` | src/dnd_simulator/rules/movement.py:251-295 | every step goes 5 ft toward the target on each axis that differs, no farther than the edge of the map, onto a free square that no wall closes off |
| `StepToward.WalkGoesAsFarAsItCan` | src/dnd_simulator/rules/movement.py:251-295 | the walk stops only at the target, at the edge, before a wall or an occupied square, or where the next step costs more than is left of the speed |
| `StepToward.NamesPointTheirWay` | src/dnd_simulator/rules/movement.py:18-28 | north and south are up and down, east and west right and left, and the compound names both |
| `Reactions.FindOaTriggers` | src/dnd_simulator/rules/reactions.py:24-81 | the loops return the trigger list of the specification; disengaging movers trigger nobody |
| `Reactions.TriggersAreExact` | src/dnd_simulator/rules/reactions.py:64-81 | a combatant is in the trigger of a step exactly when it can react, is no ally of the mover, and that step leaves its reach |
| `Reactions.StrikersLetNobodyGo` | src/dnd_simulator/rules/reactions.py:24-81 | somebody strikes at a step exactly when alive, able, on the map, with a reaction, not the mover or on its side, and the step leads from within to beyond its reach |
| `Reactions.WalkingOutIsStruck` | src/dnd_simulator/rules/reactions.py:16-81 | whoever walks from within to beyond the reach of such a guard is struck at on the way |
| `Reactions.ProvokesIffTriggers` | src/dnd_simulator/rules/rule_brain.py:433-436 | the planner predicts a provocation exactly when the engine's trigger list is not empty, for reactors with the same cells and reaches |
| `RuleBrain.OthersAreNearestFirst` | src/dnd_simulator/rules/rule_brain.py:398-400 | the fallback targets are the other hostiles, nearest first |
| `RuleBrain.CheapestAttackPath` | src/dnd_simulator/rules/rule_brain.py:415-431 | the least attack path by cost, squareness and cell; none exactly when no reported cell has the enemy in reach |
| `RuleBrain.CheapestIsUnique` | src/dnd_simulator/rules/rule_brain.py:415-431 | the ordering leaves one answer, independent of dictionary order |
| `RuleBrain.MapView` | src/dnd_simulator/rules/rule_brain.py:357-371 | the brain's map has the seen bounds and walls, every occupied cell, and the brain itself |
| `RuleBrain.PlanApproach` | src/dnd_simulator/rules/rule_brain.py:373-413 | the first target with an attack path, by its cheapest path or by a safe one within the detour limit |
| `BrainLaws.PlannedPath` | src/dnd_simulator/rules/rule_brain.py:386-412 | a planned path ends with its enemy in reach, at most 10 ft dearer than any other such path and no dearer unless safe; a safe one leaves no reach and arrives this turn whenever any does |
| `BrainLaws.SafePathIsTaken` | src/dnd_simulator/rules/rule_brain.py:386-412 | a path leaving no reach is passed over only when over 10 ft dearer, or late where the cheapest is in time |
| `BrainLaws.NearerFoesFirst` | src/dnd_simulator/rules/rule_brain.py:398-412 | the target, or a nearer hostile, is passed over only when no cell it can ever walk to has it in reach |
| `RuleBrain.NoPlanIffUnreachable` | src/dnd_simulator/rules/rule_brain.py:348-413 | there is no plan exactly when no candidate can be attacked from any cell connected to the brain's |
| `Turn.TurnBudget.Consume` | src/dnd_simulator/core/turn_budget.py:47-59 | succeeds exactly when all four fields cover the cost, deducts each then, and changes nothing otherwise |
| `Turn.WalkPath` | src/dnd_simulator/rules/handlers/movement.py:146-174 | the actor ends at the goal having paid the whole path, or where it died having paid the steps taken |
| `Turn.HandleMoveTo` | src/dnd_simulator/rules/handlers/movement.py:109-191 | the refusals are exactly five, and a move charges the cost of the route walked |
| `Turn.RouteIsWalkable` | src/dnd_simulator/rules/handlers/movement.py:136-160 | the route to another reachable cell moves, is paid for and stays on the map |
| `Dispatch.ValidModesHaveCosts` | src/dnd_simulator/rules/actions.py:21-50 | the cost lookup raises exactly for the modes the validator refuses; a granted mode costs what it names |
| `Dispatch.RunDispatch` | src/dnd_simulator/service/action_dispatcher.py:102-138 | check, handle, charge: the outcome and the budget it leaves |
| `Dispatch.ChargesAreByName` | src/dnd_simulator/rules/actions.py:21-50 | without a mode the default is charged, with one what it names, and only if a feature offers it for this action |
| `Dispatch.ChargedOnlyForSuccess` | src/dnd_simulator/service/action_dispatcher.py:102-138 | an action is refused exactly when a check fails or a field falls short, and then nothing changes; a handled one is charged once, only on success |
| `Dispatch.ChecksCoverTheCharge` | src/dnd_simulator/service/action_dispatcher.py:117-136 | with handlers that spend only movement the charge after the handler never fails |
| `Dispatch.ActionsAreConserved` | src/dnd_simulator/service/action_dispatcher.py:133-136 | over any sequence of dispatches actions left = actions at first + granted - charged, never below zero |
| `RuleTurn.MoveAwayFrom` | src/dnd_simulator/rules/rule_brain.py:438-456 | the affordable cell of greatest clearance, then least cost, then least cell; none when no cell gains distance |
| `BrainLaws.EscapesGainDistance` | src/dnd_simulator/rules/rule_brain.py:438-456 | an escape gains distance from the nearest threat, no affordable cell is farther, and of those as far it is the cheapest, then the least |
| `BrainLaws.StaysWhereNothingGains` | src/dnd_simulator/rules/rule_brain.py:438-456 | without an escape no affordable cell gains distance |
| `RuleTurn.AdvanceGoal` | src/dnd_simulator/rules/rule_brain.py:313-330 | the last cell of the planned path that this turn can reach, on a safe approach without provoking |
| `RuleTurn.ChooseAction` | src/dnd_simulator/rules/rule_brain.py:132-154 | the first rule of the list that yields an action |
| `BrainLaws.FirstThings` | src/dnd_simulator/rules/rule_brain.py:132-217 | nothing left to spend ends the turn, nobody nearby means idling, and exactly when arming or drinking is due it comes first |
| `BrainLaws.FleesWhenHurtAndFree` | src/dnd_simulator/rules/rule_brain.py:227-251 | it flees only when hurt, allowed to and with an action; and then it does, unless it has to arm, drink or retreat first |
| `BrainLaws.DisengagesWhenHurtAndHeld` | src/dnd_simulator/rules/rule_brain.py:252-259 | it disengages only when hurt with somebody in reach, and does so when an enemy in reach keeps it from fleeing |
| `BrainLaws.RetreatsAndBacksOff` | src/dnd_simulator/rules/rule_brain.py:219-251 | disengaged, or cornered with nobody in reach, it moves to the escape cell, if there is one |
| `BrainLaws.TargetsInReachAreAttacked` | src/dnd_simulator/rules/rule_brain.py:268-277 | a fit brain with an action left attacks a target within its reach |
| `BrainLaws.AttacksAreInReach` | src/dnd_simulator/rules/rule_brain.py:268-316 | whoever is attacked is the target or another hostile, within reach by grid distance |
| `BrainLaws.FitBrainsEngage` | src/dnd_simulator/rules/rule_brain.py:268-355 | a fit brain attacks, moves or dashes while any enemy can be attacked from any cell it can ever walk to, and dodges exactly when none can |
| `BrainLaws.AdvancesAsFarAsItCan` | src/dnd_simulator/rules/rule_brain.py:313-330 | a fit brain that moves goes to the last cell of its plan that it can walk to this turn, on a safe plan without leaving a reach |
| `BrainLaws.StandsStillWhereItCannotWalk` | src/dnd_simulator/rules/rule_brain.py:313-346 | with the target out of reach it stands still or dashes only where no cell of the plan is worth walking to, and dashes at the bonus cost exactly when it may |
| `BrainLaws.NobodyToFight` | src/dnd_simulator/rules/rule_brain.py:132-154 | without a target a fit brain ends its turn |
| `RuleTurn.DodgesOnlyWhenCutOff` | src/dnd_simulator/rules/rule_brain.py:348-355 | a decision to dodge means that no candidate can be attacked from any cell connected to the brain's |
| `RuleTurn.SafeApproachProvokesNobody` | src/dnd_simulator/rules/rule_brain.py:386-412 | a path planned as safe leaves no threat's reach |
| `RuleTurn.AdvanceIsAffordableAndSafe` | src/dnd_simulator/rules/rule_brain.py:300-330 | the route MOVE_TO takes to the chosen cell is paid for, moves, and on a safe approach triggers nobody |
| `RuleTurn.DecisionsAreAffordable` | src/dnd_simulator/rules/rule_brain.py:182-355 | every decision is covered by the budget, equips only when unarmed, moves only to another affordable cell |
| `RuleTurn.EveryLoopFalls` | src/dnd_simulator/round.py:339-407 | a pass of the turn loop that does not end the turn lowers (unarmed, actions + bonus, movement, patience) |
| `RuleTurn.RuleTurnEnds` | src/dnd_simulator/round.py:339-407 | no run of the turn loop under the rule-driven brain goes on forever |
| `Rounds.EveryoneGetsATurn` | src/dnd_simulator/round.py:645-700 | while nobody falls the log of a combat is one started turn per creature, in initiative order, whatever is decided |
| `Rounds.OneTurnInDetail` | src/dnd_simulator/round.py:305-375 | a fresh turn readies, ticks conditions and grants the budget in this order and is recorded; a started one with its budget goes on; nobody gone takes a turn |
| `RoundLaws.TurnsPassByPass` | src/dnd_simulator/round.py:339-407 | the rest of a turn is over when the creature no longer acts or was refused three times in a row, else one permitted decision and what follows it |
| `RoundLaws.EveryCombatCloses` | src/dnd_simulator/round.py:584-620 | a combat goes on at its cursor and closes after its turns, ending the round at its location; one that closed at this time is left alone |
| `RoundLaws.EveryCombatIsFought` | src/dnd_simulator/round.py:584-620 | while nobody falls the log is one started turn per creature of each combat, in order, and the end of each round behind its turns |
| `RoundLaws.CalmPassByPass` | src/dnd_simulator/round.py:409-473 | a turn outside combat is one action, and more only after a query |
| `RoundLaws.PeacefulOneByOne` | src/dnd_simulator/round.py:622-637 | who is there, fights nowhere and has a brain gets a turn outside combat, in order; the others change nothing |
| `Rounds.FailuresMayBeForgotten` | src/dnd_simulator/round.py:339-375 | where rejections change nothing, restarting their count leaves what may happen in the rest of a turn as it was |
| `Rounds.ResumeIsExact` | src/dnd_simulator/round.py:339-375 | for any brains and handlers, the turn resumed after f rejections ends, or does not end, like the uninterrupted one exactly when the next 3 - f passes are not all rejected or going on after them changes nothing |
| `Rounds.EndingIsPossible` | src/dnd_simulator/round.py:339-407 | where brains that keep to what they may decide end a turn is one of the ways it may end |
| `Rounds.EndTurnIsEnough` | src/dnd_simulator/round.py:357-358 | as END_TURN is never dispatched, every turn can be brought to an end where it may be decided |
| `Rounds.FinishExists` | src/dnd_simulator/round.py:584-620 | where every turn can be brought to an end, the combat phase can be finished from every state, with any cursors |
| `Rounds.FinishIsDetermined` | src/dnd_simulator/round.py:584-620 | when the permitted decisions of every moment have the same effect, the combat phase ends in one world with one log |
| `Rounds.OneLog` | src/dnd_simulator/round.py:584-620 | two logs that may be written are then the same |
| `Rounds.FinishResumed` | src/dnd_simulator/round.py:665-681 | what may follow an interrupted combat could have followed without the interruption, the closed combats before it skipped |
| `Rounds.RecordStart` | src/dnd_simulator/round.py:321-330 | starting the next turn keeps the log in order, each turn at most once |
| `Rounds.NothingLeft` | src/dnd_simulator/core/combat.py:331-335 | combats that closed at this game time add nothing when the phase is run again |
| `RoundLimits.ForgottenFailuresCanMatter` | src/dnd_simulator/round.py:339-375 | a lawful engine whose resumed turn ends as the uninterrupted one cannot |
| `RoundLimits.TurnsNeedNotEnd` | src/dnd_simulator/core/action_defs.py:349-362 | a free action that always succeeds lets a lawful turn go on forever, and end after any number of passes |
| `RoundLimits.DroppedReactionsCanMatter` | src/dnd_simulator/round.py:498-501 | a stop that cuts off one reaction leaves a world no permitted decision leads to, and from there the only log is another than the only one undisturbed |
| `RoundRunner.Round.Decide` | src/dnd_simulator/round.py:343-354 | a decision comes back, one that may be taken, unless a stop has arrived by then |
| `RoundRunner.Round.Dispatch` | src/dnd_simulator/round.py:490-508 | the action completes; only a stop in the middle changes the decision, by declining the answers from some prompt on, and `cut` records exactly when that does what no permitted decision does |
| `RoundRunner.Round.TurnLoop` | src/dnd_simulator/round.py:339-407 | unless led astray, a turn that ends does so as it may, and what may follow a stopped one could have followed from its start |
| `RoundRunner.Round.RunCombatTurn` | src/dnd_simulator/round.py:305-407 | a turn starts at most once: a continued one keeps its budget and is not logged again |
| `RoundRunner.Round.RunCombatTurns` | src/dnd_simulator/round.py:645-700 | started turns are logged once and in order; on a stop the cursor names the turn to continue, and nothing new may happen from it |
| `RoundRunner.Round.EndCombatRound` | src/dnd_simulator/layers/entities/combat_manager.py:208-217 | the cursor never outlives its combat round |
| `RoundRunner.Round.RunCombats` | src/dnd_simulator/round.py:584-620 | every combat closes once at this game time, and a stop in one leaves the others' records alone |
| `RoundRunner.Round.RunRound` | src/dnd_simulator/round.py:584-643 | exactly a round that was not stopped moves the clock, by 6 seconds; it then ends in a world that the combats, the turns outside combat and one tick of the layers may lead to, in this order, with the log of those combats; any log still to come after a stop is one the uninterrupted round may write |
| `RoundRunner.Round.PlayThroughStops` | src/dnd_simulator/round.py:715-743 | over any number of stops and restarts the completed game round advances time once; unless led astray it has such a log, the only one when decisions are settled, and it cannot be led astray where rejections change nothing and decisions are free |
| `Conditions.TickConditions` | src/dnd_simulator/rules/conditions.py:27-38 | decrements every timed condition and returns exactly those it drops |
| `Conditions.TickedAt` | src/dnd_simulator/rules/conditions.py:27-38 | the tick treats each condition by itself |
| `Conditions.CountsDown` | src/dnd_simulator/rules/conditions.py:27-38 | after k ticks a condition of n rounds is there exactly when k < n, with n - k left; a permanent one stays |
| `Conditions.LedgerIsKept` | src/dnd_simulator/round.py:213-266 | nothing that happens in a round, applied or cut short, breaks "ticked once per turn started since" for a condition that only turn preparation touches |
| `Conditions.ExpiresAtNthStartedTurn` | src/dnd_simulator/rules/conditions.py:27-38 | such a condition with n rounds left is gone exactly from its bearer's n-th started turn on |
| `Conditions.ExpiresAcrossStops` | src/dnd_simulator/round.py:715-743 | so it is at every stop and at the end, over any number of stops and restarts |
| `Removals.RemovalMovesTheCursor` | src/dnd_simulator/layers/entities/combat_manager.py:273-293 | removing a creature keeps the cursor on its turn, started or not, exactly when the creature stands after it, or when the last of two has yet to start |
| `Removals.RemovalAfterTheCursor` | src/dnd_simulator/round.py:662-681 | when a creature behind the cursor dies, what the resumed combat does without it could have been done with it, turn for turn |
| `Handshake.PlayerBrain.SubmitReaction` | src/dnd_simulator/core/brain.py:130-141 | accepted exactly while a prompt is pending, and then queued for that prompt as it is; otherwise no trace |
| `Handshake.PlayerBrain.OpenPrompt` | src/dnd_simulator/core/brain.py:111-124 | declined exactly when closed; otherwise a prompt is pending |
| `Handshake.PlayerBrain.Close` | src/dnd_simulator/core/brain.py:143-147 | closes, and skips a pending prompt |
| `Handshake.RunsKeepInv` | src/dnd_simulator/service/session.py:463-483 | the invariant of round thread, stopper and transports holds in every reachable state |
| `Handshake.ChannelIsExact` | src/dnd_simulator/core/brain.py:111-147 | at most one queued answer; each prompt consumes only the answer accepted for it; no decision that came after the flag is applied |
| `Handshake.AnswersArriveUnchanged` | src/dnd_simulator/core/brain.py:111-141 | in every run the choice given to a prompt is the one recorded when its answer was accepted, and a prompt that was never opened is declined, by a closed brain only |
| `Handshake.AnswersStand` | src/dnd_simulator/core/brain.py:130-141 | the first accepted answer of a prompt stands |
| `Handshake.ActionsArriveInOrder` | src/dnd_simulator/core/brain.py:101-128 | actions taken and actions queued are together, in order, the actions submitted |
| `Handshake.DecisionsAreCarriedOut` | src/dnd_simulator/round.py:343-358 | what is decided is what was taken; it is dispatched, ends the turn, or is dropped exactly for a stop that has arrived |
| `Handshake.NeverStuckAfterStop` | src/dnd_simulator/service/session.py:463-483 | after the stop sequence the round thread is finished or can step, never blocked on an empty queue |
| `Handshake.FlaggedThreadWindsDown` | src/dnd_simulator/round.py:103-117 | after the flag every step of the round thread lowers its rank and nobody else raises it |
| `Handshake.StopIsBounded` | src/dnd_simulator/round.py:103-117 | after the flag the round thread takes at most its rank in steps, in every interleaving |
| `Locations.SortByTarget` | src/dnd_simulator/core/location.py:104 | sorting a location's edges loses and adds none |
| `Locations.SortOrders` | src/dnd_simulator/core/location.py:104 | the sorted edges are in the order of their targets |
| `Locations.WalksAreCovered` | src/dnd_simulator/core/location.py:98-110 | every walk has passed a queued entry no longer than itself, or ends at an expanded location labelled no longer |
| `Locations.ImprovedIsFresh` | src/dnd_simulator/core/location.py:107-110 | an expanded location is never improved, so no route revisits a location |
| `Locations.AllWalksAreLabelled` | src/dnd_simulator/core/location.py:98-112 | on any graph, negative edges included, an empty queue means that the destination cannot be walked to |
| `Locations.ShortestRoute` | src/dnd_simulator/core/location.py:87-112 | the two unknown endpoints are refused; on any graph a route returned is a walk to the destination and none means there is no walk; with non-negative edges the search ends and the route is the shortest |
| `Locations.ShortestIsUnique` | src/dnd_simulator/core/location.py:87-112 | shortest and first among equals leaves one route, whatever the edge order |
| `Locations.FirstOfAllIffNoDetour` | src/dnd_simulator/core/location.py:87-112 | the route is lexicographically the first of all walks of least length exactly when no zero-length cycle at one of its locations leads to an earlier one |
| `Locations.ShortestIsFirstOfAll` | src/dnd_simulator/core/location.py:87-112 | without a zero-length cycle through its locations every other least walk comes later |
| `Locations.ZeroCyclesCanComeFirst` | src/dnd_simulator/core/location.py:107-110 | with a cycle of length zero a longer walk round it comes before the route returned |
| `Calendar.AdvanceAddsSeconds` | src/dnd_simulator/core/models.py:177-194 | advancing any date by any signed amounts adds exactly those seconds and normalizes the date |
| `Calendar.TotalIsInjective` | src/dnd_simulator/core/models.py:219-227 | two normalized dates with the same seconds are the same date |
| `Calendar.DatesAreSeconds` | src/dnd_simulator/core/models.py:219-227 | normalized dates and seconds since the epoch are in bijection |
| `Calendar.AdvanceComposes` | src/dnd_simulator/core/models.py:177-194 | advancing twice is advancing once by the sum |
| `WorldClock.World.AdvanceTime` | src/dnd_simulator/core/world.py:78-97 | the loop over the layers ticks, and records, as the specification says |
| `WorldClock.World.FastForward` | src/dnd_simulator/round.py:745-771 | time lands exactly on the wake time, or stays when it has passed or nobody waits |
| `WorldClock.TicksAddUp` | src/dnd_simulator/core/world.py:78-97 | over any run a layer has been handed exactly the seconds from the start to its last tick, and is owed less than its interval |
| `WorldClock.ExactlyTheDueTick` | src/dnd_simulator/core/world.py:78-97 | one pass hands exactly the layers whose interval has passed, or that have none, the seconds since their last tick, in order |
| `CombatSides.JoinIsSound` | src/dnd_simulator/rules/combat_sides.py:60-92 | one creature joining, also a table with emptied sides, keeps membership consistent, sides mutually friendly and forced pairs apart |
| `CombatSides.SideForIsFirstWelcome` | src/dnd_simulator/rules/combat_sides.py:60-92 | a creature with a faction takes the least side that holds no opponent and only mutual friends, a new one exactly when there is none; a factionless one always a new one |
| `SideLaws.NobodyFightsApartWithoutReason` | src/dnd_simulator/rules/combat_sides.py:18-92 | in the finished table every side before the own holds somebody, seated earlier, who is a forced opponent or no mutual friend |
| `SideLaws.SidesAreTrust` | src/dnd_simulator/rules/reputation.py:59-91 | those who share a side trust each other: by a reputation of at least 75, else by one faction or friendly factions |
| `SideLaws.ComradesFightTogether` | src/dnd_simulator/rules/combat_sides.py:18-92 | where all trust each other and nobody is forced apart, all fight on one side |
| `CombatSides.RemovalKeepsGood` | src/dnd_simulator/layers/entities/combat_manager.py:288-291 | a removal, which may empty a side, keeps everything a later joiner relies on |
| `CombatSides.SidesPartitionTheCombatants` | src/dnd_simulator/rules/combat_sides.py:18-57 | the sides partition the creatures, hold mutual friends only, keep forced opponents apart, and leave the factionless alone |
| `CombatSides.FactionlessStandsAlone` | src/dnd_simulator/rules/reputation.py:68-91 | under the effective relation nobody ever shares a side with a creature without a faction |
| `CombatSides.ForcedPairsAreSymmetric` | src/dnd_simulator/rules/combat_sides.py:18-57 | the opponents computed from the forced pairs are exactly those paired with a creature in either order |
| `CombatSides.Sides.JoinSide` | src/dnd_simulator/rules/combat_sides.py:60-92 | the tables updated in place are those of the specification, and the side is returned |
| `CombatSides.Sides.BuildCombatSides` | src/dnd_simulator/rules/combat_sides.py:18-57 | the loop over the creatures builds the specified tables |
| `InnerSelves.DeriveDelta` | src/dnd_simulator/rules/inner_self_digest.py:85-141 | refuses exactly a batch with an attack by somebody nameless; otherwise returns the specified delta |
| `InnerSelves.MergePut` | src/dnd_simulator/rules/inner_self_digest.py:144-152 | updating the pending dictionary and merging is merging and updating the relation list, order included |
| `InnerSelves.DigestIsEventByEvent` | src/dnd_simulator/rules/inner_self_digest.py:85-178 | a batch does to relations and goals what its events would have done one at a time |
| `SelfLaws.HatredCountsAttacks` | src/dnd_simulator/rules/inner_self_digest.py:85-178 | k attacks raise hatred by 10 each, from 50 with the first of somebody not yet hated, to 100 at most; without attacks it stays |
| `SelfLaws.OtherFeelingsAreKept` | src/dnd_simulator/rules/inner_self_digest.py:144-178 | no other kind of relationship appears, changes or goes |
| `SelfLaws.RelationsKeepTheirPlaces` | src/dnd_simulator/rules/inner_self_digest.py:144-152 | known relationships keep their places |
| `SelfLaws.GoalsAreSettledByDeaths` | src/dnd_simulator/rules/inner_self_digest.py:117-170 | an active goal to kill is achieved and one to protect failed exactly when its target died; every other stays |
| `SelfLaws.MoodFollowsEvents` | src/dnd_simulator/rules/inner_self_digest.py:94-134 | grief for an ally, failing that anger at an attacker, failing both the mood it had |
| `SelfLaws.BetrayalsWeighOnAlignment` | src/dnd_simulator/rules/inner_self_digest.py:113-115 | each attack on an ally, and nothing else, adds one to the pressure on both axes |
| `InnerSelves.BatchingIsIrrelevant` | src/dnd_simulator/rules/inner_self_digest.py:85-178 | digesting e1 + e2 is digesting e1 and then e2, for relations and goals, whatever the allies |
| `InnerSelves.DigestKeepsValid` | src/dnd_simulator/core/inner_self.py:83-88 | one relationship of a type per target and intensities in 1..100 after every digest |
| `InnerSelves.MoodIsDecidedByTheSet` | src/dnd_simulator/rules/inner_self_digest.py:94-134 | within a batch the mood depends on which events occurred, not on their order |
| `InnerSelves.EvidenceIsBetrayals` | src/dnd_simulator/rules/inner_self_digest.py:113-115 | the alignment evidence of a batch is one step, on both axes, for each attack of the bearer on an ally |
| `InnerSelves.MoodsAgreeExactly` | src/dnd_simulator/rules/inner_self_digest.py:94-134 | with the same allies, one batch and two give the same mood exactly unless grief over the first is overwritten by anger in the second, without grief there |
| `InnerSelves.AlliesOnlyShrink` | src/dnd_simulator/rules/inner_self_digest.py:218-229 | a digest makes no new allies |
| `InnerSelves.DigestMoodsAgreeExactly` | src/dnd_simulator/rules/inner_self_digest.py:85-178 | the exact condition for digests as they are run, where the second may know fewer allies |
| `InnerSelves.MoodDependsOnBatching` | src/dnd_simulator/rules/inner_self_digest.py:134-134 | two batches can end angry where one ends grieving |
| `Alignments.ShiftAlignment` | src/dnd_simulator/rules/inner_self_digest.py:181-202 | the two axes shift independently of each other |
| `SelfLaws.PressureMovesAlignment` | src/dnd_simulator/rules/inner_self_digest.py:181-215 | a pressure of three moves one step toward chaos or law, evil or good, if there is one; less moves nothing |
| `SelfLaws.PressureIsUsedUp` | src/dnd_simulator/rules/inner_self_digest.py:205-215 | a step leaves half the pressure, two at most, and the end of an axis leaves two |
| `Alignments.DigestKeepsLifeInv` | src/dnd_simulator/rules/inner_self_digest.py:205-215 | one digest keeps the pressure within 2, moves an axis at most one step, and pays for reversals |
| `Alignments.ReversalsCostEvidence` | src/dnd_simulator/rules/inner_self_digest.py:181-215 | over any run of digests R reversals need at least 4R pieces of evidence |
| `Alignments.BetrayalNeverRedeems` | src/dnd_simulator/rules/inner_self_digest.py:205-215 | under evidence that is never negative, as the rules' is, an axis never moves back |
| `Alignments.FourAreEnough` | src/dnd_simulator/rules/inner_self_digest.py:205-215 | every R can be had for exactly 4R, so the bound is sharp |
| `LogProcessing.ProcessLogEntries` | frontend/src/lib/logProcessing.ts:167-255 | rows flatten to the input with rounds in place; runs are folded whole with distances summed; in combat each row stands under its actor's header; headers appear only for a new actor |
| `LogLaws.RunsAreFoldedWhole` | frontend/src/lib/logProcessing.ts:167-255 | no two rows with only turn headers between them show moves of one actor |
| `LogLaws.FoldedRowsAddUp` | frontend/src/lib/logProcessing.ts:132-165 | a folded row holds two or more moves of one actor, its name, and all the feet moved |
| `LogLaws.CombatRowsAreHeaded` | frontend/src/lib/logProcessing.ts:167-255 | between the start and the end of a combat every row of an actor stands under its header, with no round beginning in between |
| `LogLaws.HeadersAnnounceTheirActor` | frontend/src/lib/logProcessing.ts:167-255 | a header stands directly before a row of its actor, under its name, only within a combat |
| `LogLaws.HeadersAreNotRepeated` | frontend/src/lib/logProcessing.ts:167-255 | no header is repeated without another, a new round, or a combat starting or ending |
| `LogLaws.RoundsAreNumbered` | frontend/src/lib/logProcessing.ts:167-255 | every round that begins has its header, in order and with its number |
| `LogProcessing.RowsShowTheLog` | frontend/src/lib/logProcessing.ts:167-255 | read off the rows, the shown entries are the input without its round starts |

## Left out

- RoundRunner.Round.PlayThroughStops: a turn that neither ends nor is stopped is an execution of which nothing is said.
- RoundRunner.Round.RunRound: the initiative orders and the set of combats are fixed during a game round, apart from the
  removals of `Removals`; combats that begin, end or gain members between a stop and the resumption are not modelled.
- RoundRunner.Round.RunPeaceful: peaceful turns have no cursor; what they do is stated for a round that was not stopped, while
  after a stop the next round may run them again. The list of active creatures is fixed when they begin.
- Locations.ShortestRoute: with a negative edge, which the loader does not refuse, it is not claimed that the search ends or
  that the route is the shortest; a negative cycle keeps the search going forever, cut off here after `patience` entries.
- SearchSound.PushIsInsertion: the binary heap with its tie-breaking counter is a list kept sorted, earlier entries first
  among equals; that is the order in which the heap gives them up.
- Locations.LeastEntry: the route queue is the set of its entries; no entry is ever pushed twice, and equal entries would
  be interchangeable.
- RuleTurn.ChooseAction: the target (`_pick_target` with its scores), the weapon, the potion and the flee verdict are inputs.
- Alignments.ShiftAlignment: halving the pressure is integer division toward zero; the source multiplies by a float, exact
  for pressures below 2^53.
- WorldClock.World.FastForward: the activation of creatures after the jump is not modelled.
- WorldClock.World.AdvanceTime: events emitted by a layer's tick and their propagation are not modelled.
- Handshake.StopIsBounded: the time limit on joining the round thread, listeners and session eviction are not modelled.
- Dispatch.RunDispatch: the checks that do not concern the budget are one verdict; a null cost mode is not modelled.
- LogProcessing.ProcessLogEntries: icons and colours of rows are not modelled, and distances are real numbers, without rounding.
- InnerSelves.DeriveDelta: journal, thoughts and the language-model digest are not modelled.
- Turn.HandleMoveTo: a turn without a budget is one with no movement; coordinates that are no integers are not modelled.
- Hit points as a share of the maximum are real numbers.
- Random placement, map rendering, direction labels for display, attack breakdowns, dice, trade, loot, levelling,
  settlements, politics, saving and loading, the REST and WebSocket layers and the React views.
