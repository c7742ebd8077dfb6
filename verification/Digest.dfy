/** How a creature's inner self digests a batch of perceived events: relations, goals and mood. */
module InnerSelves {
  import opened Grid

  type Id = string

  datatype RelationshipType = Loves | Hates | Trusts | Fears | LoyalTo

  datatype RelationKey = RelationKey(target: Id, kind: RelationshipType)

  datatype Relationship = Relationship(target: Id, kind: RelationshipType, intensity: int) {
    function Key(): RelationKey { RelationKey(target, kind) }
  }

  datatype GoalType = Kill | Protect | ReachPlace | Obtain | FleeFrom | Serve

  datatype GoalStatus = Active | Achieved | Failed

  datatype GoalKey = GoalKey(kind: GoalType, target: Id)

  datatype Goal = Typed(kind: GoalType, target: Id, status: GoalStatus) | Freeform(text: string, status: GoalStatus)

  datatype Mood = Neutral | Angry | Tired | Happy | Scared | Grieving | Suspicious | Alerted

  datatype EventType = EntityAttack | EntityDied | OtherEvent

  datatype Event = Event(kind: EventType, actor: Option<Id>, target: Option<Id>)

  datatype Pressure = Pressure(lawChaos: int, goodEvil: int)

  // The part of the inner self that rules read and write.
  datatype InnerSelf = InnerSelf(relations: seq<Relationship>, mood: Mood, goals: seq<Goal>, alignment: Pressure)

  // `updates` and `changes` are the dictionaries of a batch, in order of first insertion.
  datatype Delta = Delta(updates: seq<Relationship>, angry: bool, grieving: bool, changes: map<GoalKey, GoalStatus>,
      shift: Pressure)

  const HateStep := 10
  const DefaultIntensity := 50
  const MaxIntensity := 100

  ghost predicate UniqueKeys(rs: seq<Relationship>) {
    forall i, j :: 0 <= i < j < |rs| ==> rs[i].Key() != rs[j].Key()
  }

  // What the constructors of the source accept.
  ghost predicate Valid(core: InnerSelf) {
    UniqueKeys(core.relations) && forall r :: r in core.relations ==> 1 <= r.intensity <= MaxIntensity && r.target != ""
  }

  // A dictionary keyed by relationship: lookup, insertion in place or at the end, and removal.
  function Find(rs: seq<Relationship>, k: RelationKey): (r: Option<Relationship>)
    ensures r.Some? ==> r.value in rs && r.value.Key() == k
    ensures r.None? ==> forall x :: x in rs ==> x.Key() != k
  {
    if rs == [] then None else if rs[0].Key() == k then Some(rs[0]) else Find(rs[1..], k)
  }

  function Put(rs: seq<Relationship>, r: Relationship): (s: seq<Relationship>)
    ensures r in s && forall x :: x in s ==> x == r || x in rs
  {
    if rs == [] then [r] else if rs[0].Key() == r.Key() then [r] + rs[1..] else [rs[0]] + Put(rs[1..], r)
  }

  function Remove(rs: seq<Relationship>, k: RelationKey): seq<Relationship> {
    if rs == [] then [] else if rs[0].Key() == k then rs[1..] else [rs[0]] + Remove(rs[1..], k)
  }

  // The relations with every update popped into its place, and the rest of the updates behind them.
  function Merge(relations: seq<Relationship>, updates: seq<Relationship>): seq<Relationship> {
    if relations == [] then updates
    else
      var k := relations[0].Key();
      var head := match Find(updates, k) case Some(r) => r case None => relations[0];
      [head] + Merge(relations[1..], Remove(updates, k))
  }

  function Strengthened(known: Option<Relationship>, actor: Id): Relationship {
    match known
    case None => Relationship(actor, Hates, DefaultIntensity)
    case Some(r) => Relationship(actor, Hates, if r.intensity + HateStep < MaxIntensity then r.intensity + HateStep
        else MaxIntensity)
  }

  // An attack on the bearer by somebody else.
  predicate IsAttackOn(self: Id, e: Event) {
    e.kind == EntityAttack && e.target == Some(self) && e.actor.Some? && e.actor.value != self
  }

  // An attacker without a name makes the relationship's constructor refuse.
  predicate Raises(self: Id, e: Event) {
    IsAttackOn(self, e) && e.actor.value == ""
  }

  function Outcome(kind: GoalType): Option<GoalStatus> {
    match kind
    case Kill => Some(Achieved)
    case Protect => Some(Failed)
    case _ => None
  }

  predicate IsActive(g: Goal, died: Id) {
    g.Typed? && g.status == Active && g.target == died
  }

  function GoalChanges(goals: seq<Goal>, died: Id, changes: map<GoalKey, GoalStatus>): map<GoalKey, GoalStatus> {
    if goals == [] then changes
    else
      var before := GoalChanges(goals[..|goals| - 1], died, changes);
      var g := goals[|goals| - 1];
      if IsActive(g, died) && Outcome(g.kind).Some? then before[GoalKey(g.kind, g.target) := Outcome(g.kind).value]
          else before
  }

  function AlliedIds(core: InnerSelf, allied: set<Id>): set<Id> {
    allied
    + (set r | r in core.relations && (r.kind == Loves || r.kind == Trusts || r.kind == LoyalTo) :: r.target)
    + (set g | g in core.goals && g.Typed? && g.kind == Protect && g.status == Active :: g.target)
  }

  function NoDelta(): Delta {
    Delta([], false, false, map[], Pressure(0, 0))
  }

  // What one event adds to a batch.
  function Observe(core: InnerSelf, self: Id, allies: set<Id>, d: Delta, e: Event): Delta {
    match e.kind
    case EntityAttack =>
      var attacked :=
        if IsAttackOn(self, e) then
          var k := RelationKey(e.actor.value, Hates);
          var known := if Find(d.updates, k).Some? then Find(d.updates, k) else Find(core.relations, k);
          d.(updates := Put(d.updates, Strengthened(known, e.actor.value)), angry := true)
        else d;
      if e.actor == Some(self) && e.target.Some? && e.target.value in allies
      then attacked.(shift := Pressure(d.shift.lawChaos + 1, d.shift.goodEvil + 1))
      else attacked
    case EntityDied =>
      if e.target.None? then d
      else d.(grieving := d.grieving || e.target.value in allies,
              changes := GoalChanges(core.goals, e.target.value, d.changes))
    case OtherEvent => d
  }

  function Derived(core: InnerSelf, self: Id, allies: set<Id>, events: seq<Event>): Delta {
    if events == [] then NoDelta()
    else Observe(core, self, allies, Derived(core, self, allies, events[..|events| - 1]), events[|events| - 1])
  }

  function MoodOf(d: Delta): Option<Mood> {
    if d.grieving then Some(Grieving) else if d.angry then Some(Angry) else None
  }

  function ApplyToGoal(g: Goal, changes: map<GoalKey, GoalStatus>): Goal {
    if g.Typed? && g.status == Active && GoalKey(g.kind, g.target) in changes
    then Typed(g.kind, g.target, changes[GoalKey(g.kind, g.target)])
    else g
  }

  function ApplyDelta(core: InnerSelf, d: Delta): InnerSelf {
    InnerSelf(
      Merge(core.relations, d.updates),
      if MoodOf(d).Some? then MoodOf(d).value else core.mood,
      seq(|core.goals|, i requires 0 <= i < |core.goals| => ApplyToGoal(core.goals[i], d.changes)),
      Pressure(core.alignment.lawChaos + d.shift.lawChaos, core.alignment.goodEvil + d.shift.goodEvil))
  }

  /** The batch, one event after the other; none when an event is refused. */
  method DeriveDelta(core: InnerSelf, self: Id, allied: set<Id>, events: seq<Event>) returns (r: Option<Delta>)
    ensures r.None? <==> exists e :: e in events && Raises(self, e)
    ensures r.None? <==> exists e ::
            e in events && e.kind == EntityAttack && e.target == Some(self) && e.actor == Some("") && self != ""
    ensures r.Some? ==> r.value == Derived(core, self, AlliedIds(core, allied), events)
  {
    var allies := AlliedIds(core, allied);
    var updates: seq<Relationship>, changes: map<GoalKey, GoalStatus> := [], map[];
    var angry, grieving, lawChaos, goodEvil := false, false, 0, 0;
    for n := 0 to |events|
      invariant forall e :: e in events[..n] ==> !Raises(self, e)
      invariant Delta(updates, angry, grieving, changes, Pressure(lawChaos, goodEvil))
              == Derived(core, self, allies, events[..n])
    {
      var e := events[n];
      assert events[..n + 1][..n] == events[..n];
      if e.kind == EntityAttack {
        if IsAttackOn(self, e) {
          var k := RelationKey(e.actor.value, Hates);
          var known := Find(updates, k);
          if known.None? {
            known := Find(core.relations, k);
          }
          if e.actor.value == "" {
            assert e in events && Raises(self, e);
            return None;
          }
          updates := Put(updates, Strengthened(known, e.actor.value));
          angry := true;
        }
        if e.actor == Some(self) && e.target.Some? && e.target.value in allies {
          lawChaos, goodEvil := lawChaos + 1, goodEvil + 1;
        }
      }
      if e.kind == EntityDied && e.target.Some? {
        if e.target.value in allies {
          grieving := true;
        }
        changes := ChangeGoals(core.goals, e.target.value, changes);
      }
    }
    assert events[..|events|] == events;
    r := Some(Delta(updates, angry, grieving, changes, Pressure(lawChaos, goodEvil)));
  }

  method ChangeGoals(goals: seq<Goal>, died: Id, before: map<GoalKey, GoalStatus>)
    returns (changes: map<GoalKey, GoalStatus>)
    ensures changes == GoalChanges(goals, died, before)
  {
    changes := before;
    for i := 0 to |goals|
      invariant changes == GoalChanges(goals[..i], died, before)
    {
      assert goals[..i + 1][..i] == goals[..i];
      var g := goals[i];
      if IsActive(g, died) && Outcome(g.kind).Some? {
        changes := changes[GoalKey(g.kind, g.target) := Outcome(g.kind).value];
      }
    }
    assert goals[..|goals|] == goals;
  }

  // The reference: events change the relations and the goals themselves, one at a time.
  function Hated(rs: seq<Relationship>, self: Id, e: Event): seq<Relationship> {
    if IsAttackOn(self, e) then Put(rs, Strengthened(Find(rs, RelationKey(e.actor.value, Hates)), e.actor.value))
        else rs
  }

  function HatedAll(rs: seq<Relationship>, self: Id, events: seq<Event>): seq<Relationship> {
    if events == [] then rs else Hated(HatedAll(rs, self, events[..|events| - 1]), self, events[|events| - 1])
  }

  function Settled(g: Goal, e: Event): Goal {
    if e.kind == EntityDied && e.target.Some? && IsActive(g, e.target.value) && Outcome(g.kind).Some?
    then Typed(g.kind, g.target, Outcome(g.kind).value)
    else g
  }

  function SettledAll(g: Goal, events: seq<Event>): Goal {
    if events == [] then g else Settled(SettledAll(g, events[..|events| - 1]), events[|events| - 1])
  }

  lemma {:induction false} RemovePut(rs: seq<Relationship>, r: Relationship, k: RelationKey)
    ensures Remove(Put(rs, r), k) == if r.Key() == k then Remove(rs, k) else Put(Remove(rs, k), r)
  {
    if rs != [] {
      RemovePut(rs[1..], r, k);
    }
  }

  lemma {:induction false} FindPut(rs: seq<Relationship>, r: Relationship, k: RelationKey)
    ensures Find(Put(rs, r), k) == if r.Key() == k then Some(r) else Find(rs, k)
  {
    if rs != [] {
      FindPut(rs[1..], r, k);
    }
  }

  lemma {:induction false} FindRemove(rs: seq<Relationship>, k: RelationKey, other: RelationKey)
    requires k != other
    ensures Find(Remove(rs, k), other) == Find(rs, other)
  {
    if rs != [] {
      FindRemove(rs[1..], k, other);
    }
  }

  lemma {:induction false} MergePut(relations: seq<Relationship>, updates: seq<Relationship>, r: Relationship)
    ensures Merge(relations, Put(updates, r)) == Put(Merge(relations, updates), r)
  {
    if relations != [] {
      var k := relations[0].Key();
      FindPut(updates, r, k);
      RemovePut(updates, r, k);
      if k != r.Key() {
        MergePut(relations[1..], Remove(updates, k), r);
      }
    }
  }

  lemma {:induction false} FindMerge(relations: seq<Relationship>, updates: seq<Relationship>, k: RelationKey)
    ensures Find(Merge(relations, updates), k) == if Find(updates, k).Some? then Find(updates, k)
            else Find(relations, k)
  {
    if relations != [] {
      var k0 := relations[0].Key();
      if k0 != k {
        FindRemove(updates, k0, k);
        FindMerge(relations[1..], Remove(updates, k0), k);
      }
    }
  }

  lemma {:induction false} RelationsEventByEvent(core: InnerSelf, self: Id, allies: set<Id>, events: seq<Event>)
    ensures Merge(core.relations, Derived(core, self, allies, events).updates) == HatedAll(core.relations, self, events)
  {
    if events == [] {
      MergeNothing(core.relations);
    } else {
      var before, e := events[..|events| - 1], events[|events| - 1];
      RelationsEventByEvent(core, self, allies, before);
      var d := Derived(core, self, allies, before);
      if IsAttackOn(self, e) {
        MergeHate(core.relations, d.updates, self, e);
      }
    }
  }

  lemma MergeHate(relations: seq<Relationship>, updates: seq<Relationship>, self: Id, e: Event)
    requires IsAttackOn(self, e)
    ensures var k := RelationKey(e.actor.value, Hates);
            var known := if Find(updates, k).Some? then Find(updates, k) else Find(relations, k);
            Merge(relations, Put(updates, Strengthened(known, e.actor.value)))
                == Hated(Merge(relations, updates), self, e)
  {
    var k := RelationKey(e.actor.value, Hates);
    FindMerge(relations, updates, k);
    var known := if Find(updates, k).Some? then Find(updates, k) else Find(relations, k);
    MergePut(relations, updates, Strengthened(known, e.actor.value));
  }

  lemma {:induction false} MergeNothing(relations: seq<Relationship>)
    ensures Merge(relations, []) == relations
  {
    if relations != [] {
      MergeNothing(relations[1..]);
    }
  }

  lemma {:induction false} GoalChangesExactly(goals: seq<Goal>, died: Id, changes: map<GoalKey, GoalStatus>, k: GoalKey)
    requires forall x :: x in changes ==> Outcome(x.kind) == Some(changes[x])
    ensures
      var after := GoalChanges(goals, died, changes);
      && (k in after <==>
              k in changes || (k.target == died && Outcome(k.kind).Some? && Typed(k.kind, died, Active) in goals))
      && (forall x :: x in after ==> Outcome(x.kind) == Some(after[x]))
  {
    if goals != [] {
      var front, g := goals[..|goals| - 1], goals[|goals| - 1];
      assert goals == front + [g];
      GoalChangesExactly(front, died, changes, k);
    }
  }

  lemma {:induction false} GoalsEventByEvent(core: InnerSelf, self: Id, allies: set<Id>, events: seq<Event>, g: Goal)
    requires g in core.goals
    ensures
      var changes := Derived(core, self, allies, events).changes;
      && ApplyToGoal(g, changes) == SettledAll(g, events)
      && (forall x :: x in changes ==> Outcome(x.kind) == Some(changes[x]))
  {
    if events != [] {
      var before, e := events[..|events| - 1], events[|events| - 1];
      GoalsEventByEvent(core, self, allies, before, g);
      if e.kind == EntityDied && e.target.Some? {
        var changes := Derived(core, self, allies, before).changes;
        if g.Typed? {
          GoalChangesExactly(core.goals, e.target.value, changes, GoalKey(g.kind, g.target));
        } else {
          GoalChangesExactly(core.goals, e.target.value, changes, GoalKey(Kill, ""));
        }
      }
    }
  }

  /** Applying the delta of a batch does to relations and goals what the events would have done one at a
      time, order of the lists included. */
  lemma DigestIsEventByEvent(core: InnerSelf, self: Id, allies: set<Id>, events: seq<Event>)
    ensures
      var after := ApplyDelta(core, Derived(core, self, allies, events));
      && after.relations == HatedAll(core.relations, self, events)
      && |after.goals| == |core.goals|
      && (forall i :: 0 <= i < |core.goals| ==> after.goals[i] == SettledAll(core.goals[i], events))
  {
    RelationsEventByEvent(core, self, allies, events);
    forall i | 0 <= i < |core.goals|
      ensures ApplyToGoal(core.goals[i], Derived(core, self, allies, events).changes)
              == SettledAll(core.goals[i], events)
    {
      GoalsEventByEvent(core, self, allies, events, core.goals[i]);
    }
  }

  lemma {:induction false} HatedAllAppends(rs: seq<Relationship>, self: Id, a: seq<Event>, b: seq<Event>)
    ensures HatedAll(rs, self, a + b) == HatedAll(HatedAll(rs, self, a), self, b)
  {
    if b == [] {
      assert a + b == a;
    } else {
      assert (a + b)[..|a + b| - 1] == a + b[..|b| - 1];
      HatedAllAppends(rs, self, a, b[..|b| - 1]);
    }
  }

  lemma {:induction false} SettledAllAppends(g: Goal, a: seq<Event>, b: seq<Event>)
    ensures SettledAll(g, a + b) == SettledAll(SettledAll(g, a), b)
  {
    if b == [] {
      assert a + b == a;
    } else {
      assert (a + b)[..|a + b| - 1] == a + b[..|b| - 1];
      SettledAllAppends(g, a, b[..|b| - 1]);
    }
  }

  /** Where a batch is cut makes no difference to relations and goals, whatever the allies of each part. */
  lemma BatchingIsIrrelevant(core: InnerSelf, self: Id, allies: set<Id>, first: set<Id>, second: set<Id>, a: seq<Event>,
      b: seq<Event>)
    ensures
      var once := ApplyDelta(core, Derived(core, self, allies, a + b));
      var middle := ApplyDelta(core, Derived(core, self, first, a));
      var twice := ApplyDelta(middle, Derived(middle, self, second, b));
      once.relations == twice.relations && once.goals == twice.goals
  {
    var middle := ApplyDelta(core, Derived(core, self, first, a));
    DigestIsEventByEvent(core, self, allies, a + b);
    DigestIsEventByEvent(core, self, first, a);
    DigestIsEventByEvent(middle, self, second, b);
    HatedAllAppends(core.relations, self, a, b);
    forall i | 0 <= i < |core.goals|
      ensures SettledAll(core.goals[i], a + b) == SettledAll(SettledAll(core.goals[i], a), b)
    {
      SettledAllAppends(core.goals[i], a, b);
    }
  }

  lemma {:induction false} PutKeepsUnique(rs: seq<Relationship>, r: Relationship)
    requires UniqueKeys(rs)
    ensures UniqueKeys(Put(rs, r))
  {
    if rs != [] && rs[0].Key() != r.Key() {
      var tail := Put(rs[1..], r);
      PutKeepsUnique(rs[1..], r);
      forall j | 0 <= j < |tail| ensures tail[j].Key() != rs[0].Key() {
        assert tail[j] in tail;
      }
    }
  }

  lemma {:induction false} HatedKeepsValid(core: InnerSelf, self: Id, events: seq<Event>)
    requires Valid(core) && forall e :: e in events ==> !Raises(self, e)
    ensures Valid(core.(relations := HatedAll(core.relations, self, events)))
  {
    if events != [] {
      var before, e := events[..|events| - 1], events[|events| - 1];
      HatedKeepsValid(core, self, before);
      var rs := HatedAll(core.relations, self, before);
      assert e in events && !Raises(self, e);
      if IsAttackOn(self, e) {
        PutKeepsUnique(rs, Strengthened(Find(rs, RelationKey(e.actor.value, Hates)), e.actor.value));
      }
    }
  }

  /** A digest never violates what the constructors demand: one relationship of a type per target,
      every intensity in 1..100. */
  lemma DigestKeepsValid(core: InnerSelf, self: Id, allies: set<Id>, events: seq<Event>)
    requires Valid(core) && forall e :: e in events ==> !Raises(self, e)
    ensures Valid(ApplyDelta(core, Derived(core, self, allies, events)))
  {
    DigestIsEventByEvent(core, self, allies, events);
    HatedKeepsValid(core, self, events);
  }

  /** Grief outranks anger, in whatever order the events came. */
  lemma {:induction false} MoodIsDecidedByTheSet(core: InnerSelf, self: Id, allies: set<Id>, events: seq<Event>)
    ensures
      var d := Derived(core, self, allies, events);
      && (d.grieving <==> exists e :: e in events && e.kind == EntityDied && e.target.Some? && e.target.value in allies)
      && (d.angry <==> exists e :: e in events && IsAttackOn(self, e))
  {
    if events != [] {
      var before, e := events[..|events| - 1], events[|events| - 1];
      assert events == before + [e];
      MoodIsDecidedByTheSet(core, self, allies, before);
    }
  }

  // The bearer's own attack on an ally.
  predicate IsBetrayal(self: Id, allies: set<Id>, e: Event) {
    e.kind == EntityAttack && e.actor == Some(self) && e.target.Some? && e.target.value in allies
  }

  function Betrayals(self: Id, allies: set<Id>, events: seq<Event>): nat {
    if events == [] then 0
    else Betrayals(self, allies, events[..|events| - 1]) + if IsBetrayal(self, allies, events[|events| - 1]) then 1
        else 0
  }

  /** The only evidence a batch gives, on both axes alike, is one step for each attack on an ally. */
  lemma {:induction false} EvidenceIsBetrayals(core: InnerSelf, self: Id, allies: set<Id>, events: seq<Event>)
    ensures Derived(core, self, allies, events).shift
         == Pressure(Betrayals(self, allies, events), Betrayals(self, allies, events))
  {
    if events != [] {
      EvidenceIsBetrayals(core, self, allies, events[..|events| - 1]);
    }
  }

  // An ally's death, and an attack, among the events.
  predicate Grieves(allies: set<Id>, events: seq<Event>) {
    exists e :: e in events && e.kind == EntityDied && e.target.Some? && e.target.value in allies
  }

  predicate Angers(self: Id, events: seq<Event>) {
    exists e :: e in events && IsAttackOn(self, e)
  }

  function MoodAfter(mood: Mood, grieves: bool, angers: bool): Mood {
    if grieves then Grieving else if angers then Angry else mood
  }

  lemma MoodOfBatch(core: InnerSelf, self: Id, allies: set<Id>, events: seq<Event>)
    ensures ApplyDelta(core, Derived(core, self, allies, events)).mood
         == MoodAfter(core.mood, Grieves(allies, events), Angers(self, events))
  {
    MoodIsDecidedByTheSet(core, self, allies, events);
  }

  lemma MoodOfBoth(self: Id, allies: set<Id>, a: seq<Event>, b: seq<Event>)
    ensures Grieves(allies, a + b) <==> Grieves(allies, a) || Grieves(allies, b)
    ensures Angers(self, a + b) <==> Angers(self, a) || Angers(self, b)
  {
    assert forall e :: e in a + b <==> e in a || e in b;
  }

  /** But two batches are not one for the mood. With the same allies throughout, the moods agree except
      when grief over the first batch is overwritten by anger in the second. */
  lemma MoodsAgreeExactly(core: InnerSelf, self: Id, allies: set<Id>, a: seq<Event>, b: seq<Event>)
    ensures
      var once := ApplyDelta(core, Derived(core, self, allies, a + b));
      var middle := ApplyDelta(core, Derived(core, self, allies, a));
      var twice := ApplyDelta(middle, Derived(middle, self, allies, b));
      once.mood == twice.mood <==> !(Grieves(allies, a) && Angers(self, b) && !Grieves(allies, b))
  {
    var middle := ApplyDelta(core, Derived(core, self, allies, a));
    MoodOfBatch(core, self, allies, a + b);
    MoodOfBatch(core, self, allies, a);
    MoodOfBatch(middle, self, allies, b);
    MoodOfBoth(self, allies, a, b);
  }

  /** Such a pair of batches: grief is overwritten by later anger. */
  lemma MoodDependsOnBatching(core: InnerSelf)
    ensures
      var grief, attack := Event(EntityDied, None, Some("ally")), Event(EntityAttack, Some("foe"), Some("self"));
      var once := ApplyDelta(core, Derived(core, "self", {"ally"}, [grief] + [attack]));
      var middle := ApplyDelta(core, Derived(core, "self", {"ally"}, [grief]));
      once.mood == Grieving && ApplyDelta(middle, Derived(middle, "self", {"ally"}, [attack])).mood == Angry
  {
    var grief, attack := Event(EntityDied, None, Some("ally")), Event(EntityAttack, Some("foe"), Some("self"));
    var middle := ApplyDelta(core, Derived(core, "self", {"ally"}, [grief]));
    MoodOfBatch(core, "self", {"ally"}, [grief] + [attack]);
    MoodOfBatch(middle, "self", {"ally"}, [attack]);
    MoodOfBoth("self", {"ally"}, [grief], [attack]);
    assert grief in [grief] && attack in [attack];
  }

  // A digest as it is run: the allies are those of the core it starts from.
  function Digest(core: InnerSelf, self: Id, allied: set<Id>, events: seq<Event>): InnerSelf {
    ApplyDelta(core, Derived(core, self, AlliedIds(core, allied), events))
  }

  lemma {:induction false} OnlyHateIsAdded(rs: seq<Relationship>, self: Id, events: seq<Event>, r: Relationship)
    requires r in HatedAll(rs, self, events) && r.kind != Hates
    ensures r in rs
  {
    if events != [] {
      OnlyHateIsAdded(rs, self, events[..|events| - 1], r);
    }
  }

  lemma {:induction false} ActiveGoalsWereThere(g: Goal, events: seq<Event>)
    requires SettledAll(g, events).Typed? && SettledAll(g, events).status == Active
    ensures SettledAll(g, events) == g
  {
    if events != [] {
      ActiveGoalsWereThere(g, events[..|events| - 1]);
    }
  }

  // A digest makes no new allies; a protected one that dies is no ally any more.
  lemma AlliesOnlyShrink(core: InnerSelf, self: Id, allied: set<Id>, events: seq<Event>)
    ensures AlliedIds(Digest(core, self, allied, events), allied) <= AlliedIds(core, allied)
  {
    var after := Digest(core, self, allied, events);
    DigestIsEventByEvent(core, self, AlliedIds(core, allied), events);
    forall r | r in after.relations && (r.kind == Loves || r.kind == Trusts || r.kind == LoyalTo)
      ensures r in core.relations
    {
      OnlyHateIsAdded(core.relations, self, events, r);
    }
    forall g | g in after.goals && g.Typed? && g.kind == Protect && g.status == Active ensures g in core.goals {
      var i :| 0 <= i < |after.goals| && after.goals[i] == g;
      ActiveGoalsWereThere(core.goals[i], events);
    }
  }

  /** The digests as they are run, where the second one may know fewer allies. They disagree exactly when
      nobody it knows as an ally dies in the second batch, and then either anger there overwrites grief,
      or the only deaths to grieve over are in the second batch, of those who are no allies any more. */
  lemma DigestMoodsAgreeExactly(core: InnerSelf, self: Id, allied: set<Id>, a: seq<Event>, b: seq<Event>)
    ensures
      var once, middle := Digest(core, self, allied, a + b), Digest(core, self, allied, a);
      var twice := Digest(middle, self, allied, b);
      var before, later := AlliedIds(core, allied), AlliedIds(middle, allied);
      once.mood == twice.mood <==>
        || Grieves(later, b)
        || (if Angers(self, b) then !Grieves(before, a) && !Grieves(before, b)
            else Grieves(before, a) || !Grieves(before, b) || (!Angers(self, a) && core.mood == Grieving))
  {
    var middle := Digest(core, self, allied, a);
    MoodOfBatch(core, self, AlliedIds(core, allied), a + b);
    MoodOfBatch(core, self, AlliedIds(core, allied), a);
    MoodOfBatch(middle, self, AlliedIds(middle, allied), b);
    MoodOfBoth(self, AlliedIds(core, allied), a, b);
    AlliesOnlyShrink(core, self, allied, a);
  }
}

/** Alignment: evidence builds up pressure on two axes, and enough pressure moves the alignment. */
module Alignments {
  import opened Grid
  import opened InnerSelves

  datatype Axis = Axis(position: int, pressure: int)

  const Threshold := 3

  // Halved toward zero.
  function Halved(pressure: int): int {
    if pressure >= 0 then pressure / 2 else -(-pressure / 2)
  }

  function ShiftAxis(a: Axis): Axis {
    if a.pressure >= Threshold then
      if a.position < 2
      then Axis(a.position + 1, if Halved(a.pressure) < Threshold - 1 then Halved(a.pressure) else Threshold - 1)
      else a.(pressure := Threshold - 1)
    else if a.pressure <= -Threshold then
      if a.position > 0
      then Axis(a.position - 1, if Halved(a.pressure) > -(Threshold - 1) then Halved(a.pressure) else -(Threshold - 1))
      else a.(pressure := -(Threshold - 1))
    else a
  }

  datatype Alignment = LawfulGood | NeutralGood | ChaoticGood | LawfulNeutral | TrueNeutral | ChaoticNeutral
                     | LawfulEvil | NeutralEvil | ChaoticEvil
  {
    // 0 is lawful, 1 neutral, 2 chaotic.
    function LawChaos(): int {
      match this
      case LawfulGood => 0 case LawfulNeutral => 0 case LawfulEvil => 0
      case NeutralGood => 1 case TrueNeutral => 1 case NeutralEvil => 1
      case ChaoticGood => 2 case ChaoticNeutral => 2 case ChaoticEvil => 2
    }

    // 0 is good, 1 neutral, 2 evil.
    function GoodEvil(): int {
      match this
      case LawfulGood => 0 case NeutralGood => 0 case ChaoticGood => 0
      case LawfulNeutral => 1 case TrueNeutral => 1 case ChaoticNeutral => 1
      case LawfulEvil => 2 case NeutralEvil => 2 case ChaoticEvil => 2
    }
  }

  function FromAxes(lawChaos: int, goodEvil: int): Alignment
    requires 0 <= lawChaos <= 2 && 0 <= goodEvil <= 2
  {
    if goodEvil == 0 then (if lawChaos == 0 then LawfulGood else if lawChaos == 1 then NeutralGood else ChaoticGood)
    else if goodEvil == 1 then
      (if lawChaos == 0 then LawfulNeutral else if lawChaos == 1 then TrueNeutral else ChaoticNeutral)
    else (if lawChaos == 0 then LawfulEvil else if lawChaos == 1 then NeutralEvil else ChaoticEvil)
  }

  datatype Shifted = Shifted(alignment: Alignment, rest: Pressure)

  /** The two axes move independently. */
  function ShiftAlignment(a: Alignment, p: Pressure): (s: Shifted)
    ensures Axis(s.alignment.LawChaos(), s.rest.lawChaos) == ShiftAxis(Axis(a.LawChaos(), p.lawChaos))
    ensures Axis(s.alignment.GoodEvil(), s.rest.goodEvil) == ShiftAxis(Axis(a.GoodEvil(), p.goodEvil))
  {
    var law, good := ShiftAxis(Axis(a.LawChaos(), p.lawChaos)), ShiftAxis(Axis(a.GoodEvil(), p.goodEvil));
    Shifted(FromAxes(law.position, good.position), Pressure(law.pressure, good.pressure))
  }

  datatype Direction = Still | Up | Down

  // An axis over its whole life: the last move, how often the direction was reversed, and all evidence.
  datatype Life = Life(axis: Axis, last: Direction, reversals: nat, evidence: nat)

  function Digested(l: Life, e: int): Life {
    var a := ShiftAxis(l.axis.(pressure := l.axis.pressure + e));
    var move := if a.position > l.axis.position then Up else if a.position < l.axis.position then Down else Still;
    Life(a,
         if move == Still then l.last else move,
         l.reversals + (if move != Still && l.last != Still && move != l.last then 1 else 0),
         l.evidence + Abs(e))
  }

  function Lived(start: Axis, evidence: seq<int>): Life {
    if evidence == [] then Life(start, Still, 0, 0)
    else Digested(Lived(start, evidence[..|evidence| - 1]), evidence[|evidence| - 1])
  }

  // Evidence already paid towards the next reversal: after a move up, pressure 1 falling to -3.
  function Paid(l: Life): int {
    match l.last
    case Still => 0
    case Up => if l.axis.pressure < 1 then 1 - l.axis.pressure else 0
    case Down => if l.axis.pressure > -1 then l.axis.pressure + 1 else 0
  }

  ghost predicate LifeInv(l: Life) {
    && 0 <= l.axis.position <= 2
    && (l.last == Up ==> l.axis.position > 0) && (l.last == Down ==> l.axis.position < 2)
    && (l.last == Still ==> l.reversals == 0)
    && 4 * l.reversals + Paid(l) <= l.evidence
  }

  lemma DigestKeepsLifeInv(l: Life, e: int)
    requires LifeInv(l)
    ensures LifeInv(Digested(l, e)) && Abs(Digested(l, e).axis.pressure) <= Threshold - 1
    ensures Abs(Digested(l, e).axis.position - l.axis.position) <= 1
  {
  }

  /** Over any run of digests each axis moves at most a step at a time, keeps its pressure below the
      threshold, and needs four pieces of evidence for every reversal of direction. */
  lemma {:induction false} ReversalsCostEvidence(start: Axis, evidence: seq<int>)
    requires 0 <= start.position <= 2
    ensures
      var l := Lived(start, evidence);
      && LifeInv(l) && 4 * l.reversals <= l.evidence
      && (evidence != [] ==>
            && Abs(l.axis.pressure) <= Threshold - 1
            && Abs(l.axis.position - Lived(start, evidence[..|evidence| - 1]).axis.position) <= 1)
  {
    if evidence != [] {
      ReversalsCostEvidence(start, evidence[..|evidence| - 1]);
      DigestKeepsLifeInv(Lived(start, evidence[..|evidence| - 1]), evidence[|evidence| - 1]);
    }
  }

  // Evidence that swings just far enough to reverse the direction each time.
  function Swing(n: nat): seq<int> {
    if n == 0 then [0] else Swing(n - 1) + [if (n - 1) % 2 == 0 then -4 else 4]
  }

  /** With the rules' evidence alone, which is never negative, an axis only ever moves one way: toward
      chaos, toward evil. */
  lemma {:induction false} BetrayalNeverRedeems(start: Axis, evidence: seq<int>)
    requires 0 <= start.position <= 2 && start.pressure > -Threshold
    requires forall i :: 0 <= i < |evidence| ==> evidence[i] >= 0
    ensures
      var l := Lived(start, evidence);
      && l.axis.position >= start.position && l.reversals == 0 && l.last != Down && l.axis.pressure > -Threshold
      && (evidence != [] ==> Lived(start, evidence[..|evidence| - 1]).axis.position <= l.axis.position)
  {
    if evidence != [] {
      BetrayalNeverRedeems(start, evidence[..|evidence| - 1]);
    }
  }

  lemma LivedOn(start: Axis, evidence: seq<int>, e: int)
    ensures Lived(start, evidence + [e]) == Digested(Lived(start, evidence), e)
  {
    assert (evidence + [e])[..|evidence|] == evidence;
  }

  // The life after `n` reversals.
  ghost predicate Swung(l: Life, n: nat) {
    l == if n % 2 == 0 then Life(Axis(2, 1), Up, n, 4 * n) else Life(Axis(1, -1), Down, n, 4 * n)
  }

  lemma SwingStep(l: Life, n: nat)
    requires Swung(l, n)
    ensures Swung(Digested(l, if n % 2 == 0 then -4 else 4), n + 1)
  {
  }

  lemma SwingOn(start: Axis, evidence: seq<int>, n: nat)
    requires Swung(Lived(start, evidence), n)
    ensures Swung(Lived(start, evidence + [if n % 2 == 0 then -4 else 4]), n + 1)
  {
    LivedOn(start, evidence, if n % 2 == 0 then -4 else 4);
    SwingStep(Lived(start, evidence), n);
  }

  lemma FirstSwing()
    ensures Swung(Lived(Axis(1, 3), [0]), 0)
  {
    assert [0][..0] == [];
  }

  /** The bound is sharp: every number of reversals can be had for four pieces of evidence each. */
  lemma {:induction false} FourAreEnough(n: nat)
    ensures Swung(Lived(Axis(1, 3), Swing(n)), n)
  {
    if n == 0 {
      FirstSwing();
    } else {
      FourAreEnough(n - 1);
      SwingOn(Axis(1, 3), Swing(n - 1), n - 1);
    }
  }
}
