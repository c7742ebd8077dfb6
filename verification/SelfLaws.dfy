/** What a digest does to a creature, said of the events it perceived: whom it comes to hate and how much,
    which of its goals are settled, its mood and its alignment. */
module SelfLaws {
  import opened Grid
  import opened InnerSelves
  import opened Alignments

  // How often `who` attacks the bearer.
  function Attacks(who: Id, self: Id, events: seq<Event>): nat {
    if events == [] then 0
    else
      var e := events[|events| - 1];
      Attacks(who, self, events[..|events| - 1])
      + if e.kind == EntityAttack && e.actor == Some(who) && e.target == Some(self) then 1 else 0
  }

  // The bearer's own attacks on any of these.
  function AttacksOn(victims: set<Id>, self: Id, events: seq<Event>): nat {
    if events == [] then 0
    else
      var e := events[|events| - 1];
      AttacksOn(victims, self, events[..|events| - 1])
      + if e.kind == EntityAttack && e.actor == Some(self) && e.target.Some? && e.target.value in victims then 1 else 0
  }

  predicate Dies(who: Id, events: seq<Event>) {
    exists i :: 0 <= i < |events| && events[i].kind == EntityDied && events[i].target == Some(who)
  }

  function AtMost(n: int, limit: int): int {
    if n < limit then n else limit
  }

  // --- Hatred ---

  // Hatred after `k` attacks: ten more for each, starting at fifty, a hundred at most.
  function HateAfter(known: Option<Relationship>, who: Id, k: nat): Option<Relationship> {
    match known
    case Some(r) => if k == 0 then known else Some(Relationship(who, Hates, AtMost(r.intensity + 10 * k, 100)))
    case None => if k == 0 then None else Some(Relationship(who, Hates, AtMost(50 + 10 * (k - 1), 100)))
  }

  lemma OneMoreAttack(known: Option<Relationship>, who: Id, k: nat)
    requires known.Some? ==> known.value.intensity <= 100
    ensures Some(Strengthened(HateAfter(known, who, k), who)) == HateAfter(known, who, k + 1)
  {
  }

  lemma {:induction false} HateGrows(rs: seq<Relationship>, self: Id, events: seq<Event>, who: Id)
    requires who != self && forall r :: r in rs ==> r.intensity <= 100
    ensures Find(HatedAll(rs, self, events), RelationKey(who, Hates))
         == HateAfter(Find(rs, RelationKey(who, Hates)), who, Attacks(who, self, events))
  {
    if events != [] {
      var front, e := events[..|events| - 1], events[|events| - 1];
      HateGrows(rs, self, front, who);
      OneMoreAttack(Find(rs, RelationKey(who, Hates)), who, Attacks(who, self, front));
      AttackCounts(HatedAll(rs, self, front), self, e, who);
    }
  }

  // What one event does to the hatred of `who`.
  lemma AttackCounts(rs: seq<Relationship>, self: Id, e: Event, who: Id)
    requires who != self
    ensures var (k, known) := (RelationKey(who, Hates), Find(rs, RelationKey(who, Hates)));
            Find(Hated(rs, self, e), k)
            == if e.kind == EntityAttack && e.actor == Some(who) && e.target == Some(self)
               then Some(Strengthened(known, who)) else known
  {
    if IsAttackOn(self, e) {
      var a := e.actor.value;
      FindPut(rs, Strengthened(Find(rs, RelationKey(a, Hates)), a), RelationKey(who, Hates));
    }
  }

  lemma {:induction false} OtherFeelingsStay(rs: seq<Relationship>, self: Id, events: seq<Event>, k: RelationKey)
    requires k.kind != Hates || k.target == self
    ensures Find(HatedAll(rs, self, events), k) == Find(rs, k)
  {
    if events != [] {
      var front, e := events[..|events| - 1], events[|events| - 1];
      OtherFeelingsStay(rs, self, front, k);
      if IsAttackOn(self, e) {
        var before := HatedAll(rs, self, front);
        FindPut(before, Strengthened(Find(before, RelationKey(e.actor.value, Hates)), e.actor.value), k);
      }
    }
  }

  lemma {:induction false} FoundIfThere(rs: seq<Relationship>, r: Relationship)
    requires UniqueKeys(rs)
    ensures r in rs <==> Find(rs, r.Key()) == Some(r)
  {
    if rs != [] {
      FoundIfThere(rs[1..], r);
      assert forall i :: 0 <= i < |rs[1..]| ==> rs[1..][i].Key() != rs[0].Key();
    }
  }

  predicate Hatred(rs: seq<Relationship>, who: Id, intensity: int) {
    Relationship(who, Hates, intensity) in rs
  }

  predicate NoHatred(rs: seq<Relationship>, who: Id) {
    forall r :: r in rs ==> r.target != who || r.kind != Hates
  }

  lemma NoHatredMeans(rs: seq<Relationship>, who: Id)
    ensures NoHatred(rs, who) <==> Find(rs, RelationKey(who, Hates)).None?
  {
    if r :| r in rs && r.target == who && r.kind == Hates {
      assert r.Key() == RelationKey(who, Hates);
    }
  }

  lemma DigestedRelations(core: InnerSelf, self: Id, allied: set<Id>, events: seq<Event>)
    requires Valid(core) && forall e :: e in events ==> !Raises(self, e)
    ensures Digest(core, self, allied, events).relations == HatedAll(core.relations, self, events)
    ensures Valid(Digest(core, self, allied, events))
  {
    DigestIsEventByEvent(core, self, AlliedIds(core, allied), events);
    DigestKeepsValid(core, self, AlliedIds(core, allied), events);
  }

  // Ten more for each of `k` attacks, the first attack of one not yet hated counting fifty; a hundred at most.
  ghost predicate HatredFits(before: seq<Relationship>, after: seq<Relationship>, who: Id, v: int, k: nat) {
    && (Hatred(before, who, v) ==> Hatred(after, who, AtMost(v + 10 * k, 100)))
    && (NoHatred(before, who) && k > 0 ==> Hatred(after, who, AtMost(40 + 10 * k, 100)))
    && (NoHatred(before, who) && k == 0 ==> NoHatred(after, who))
  }

  /** Whoever attacks the bearer is hated the more for each attack; those who do not attack are hated as
      before. */
  lemma HatredCountsAttacks(core: InnerSelf, self: Id, allied: set<Id>, events: seq<Event>, who: Id, v: int)
    requires Valid(core) && who != self && forall e :: e in events ==> !Raises(self, e)
    ensures HatredFits(core.relations, Digest(core, self, allied, events).relations, who, v,
                Attacks(who, self, events))
  {
    var after := Digest(core, self, allied, events).relations;
    DigestedRelations(core, self, allied, events);
    HateGrows(core.relations, self, events, who);
    HatredMeans(core.relations, after, who, v, Attacks(who, self, events));
  }

  lemma HatredMeans(before: seq<Relationship>, after: seq<Relationship>, who: Id, v: int, k: nat)
    requires UniqueKeys(before) && UniqueKeys(after) && forall r :: r in before ==> r.intensity <= 100
    requires Find(after, RelationKey(who, Hates)) == HateAfter(Find(before, RelationKey(who, Hates)), who, k)
    ensures HatredFits(before, after, who, v, k)
  {
    NoHatredMeans(before, who);
    NoHatredMeans(after, who);
    FoundIfThere(before, Relationship(who, Hates, v));
  }

  /** Love, trust, fear and loyalty are left as they were. */
  lemma OtherFeelingsAreKept(core: InnerSelf, self: Id, allied: set<Id>, events: seq<Event>, r: Relationship)
    requires Valid(core) && r.kind != Hates && forall e :: e in events ==> !Raises(self, e)
    ensures r in Digest(core, self, allied, events).relations <==> r in core.relations
  {
    DigestedRelations(core, self, allied, events);
    OtherFeelingsStay(core.relations, self, events, r.Key());
    FoundIfThere(core.relations, r);
    FoundIfThere(Digest(core, self, allied, events).relations, r);
  }

  lemma {:induction false} PutKeepsPlaces(rs: seq<Relationship>, r: Relationship)
    ensures |Put(rs, r)| >= |rs| && forall i :: 0 <= i < |rs| ==> Put(rs, r)[i].Key() == rs[i].Key()
  {
    if rs != [] && rs[0].Key() != r.Key() {
      PutKeepsPlaces(rs[1..], r);
    }
  }

  lemma {:induction false} HatedKeepsPlaces(rs: seq<Relationship>, self: Id, events: seq<Event>)
    ensures |HatedAll(rs, self, events)| >= |rs|
    ensures forall i :: 0 <= i < |rs| ==> HatedAll(rs, self, events)[i].Key() == rs[i].Key()
  {
    if events != [] {
      var front, e := events[..|events| - 1], events[|events| - 1];
      HatedKeepsPlaces(rs, self, front);
      if IsAttackOn(self, e) {
        var before := HatedAll(rs, self, front);
        PutKeepsPlaces(before, Strengthened(Find(before, RelationKey(e.actor.value, Hates)), e.actor.value));
      }
    }
  }

  /** Known relationships keep their places; new hatreds come behind. */
  lemma RelationsKeepTheirPlaces(core: InnerSelf, self: Id, allied: set<Id>, events: seq<Event>, i: nat)
    requires i < |core.relations|
    ensures var after := Digest(core, self, allied, events).relations;
            i < |after| && after[i].target == core.relations[i].target && after[i].kind == core.relations[i].kind
  {
    DigestIsEventByEvent(core, self, AlliedIds(core, allied), events);
    HatedKeepsPlaces(core.relations, self, events);
  }

  // --- Goals ---

  // What the deaths make of a goal.
  function GoalAfter(g: Goal, events: seq<Event>): Goal {
    if g.Typed? && g.status == Active && g.kind == Kill && Dies(g.target, events) then Typed(Kill, g.target, Achieved)
    else if g.Typed? && g.status == Active && g.kind == Protect && Dies(g.target, events)
    then Typed(Protect, g.target, Failed)
    else g
  }

  lemma {:induction false} GoalsFollowDeaths(g: Goal, events: seq<Event>)
    ensures SettledAll(g, events) == GoalAfter(g, events)
  {
    if events != [] {
      var front, e := events[..|events| - 1], events[|events| - 1];
      GoalsFollowDeaths(g, front);
      if g.Typed? {
        DiesOnceMore(g.target, front, e);
        assert events == front + [e];
      }
    }
  }

  lemma DiesOnceMore(who: Id, front: seq<Event>, e: Event)
    ensures Dies(who, front + [e]) <==> Dies(who, front) || (e.kind == EntityDied && e.target == Some(who))
  {
    var all := front + [e];
    assert all[|front|] == e;
    if i :| 0 <= i < |front| && front[i].kind == EntityDied && front[i].target == Some(who) {
      assert all[i] == front[i];
    }
  }

  /** An active goal to kill is achieved, and one to protect has failed, exactly when its target died; every
      other goal stays as it was, in its place. */
  lemma GoalsAreSettledByDeaths(core: InnerSelf, self: Id, allied: set<Id>, events: seq<Event>, i: nat)
    requires i < |core.goals|
    ensures var goals := Digest(core, self, allied, events).goals;
            |goals| == |core.goals| && goals[i] == GoalAfter(core.goals[i], events)
  {
    DigestIsEventByEvent(core, self, AlliedIds(core, allied), events);
    GoalsFollowDeaths(core.goals[i], events);
  }

  // --- Mood and alignment ---

  // Allies are those of the bearer's side, those it loves, trusts or is loyal to, and those it protects.
  predicate IsAlly(core: InnerSelf, allied: set<Id>, who: Id) {
    || who in allied
    || (exists r :: r in core.relations && r.target == who && r.kind in {Loves, Trusts, LoyalTo})
    || Typed(Protect, who, Active) in core.goals
  }

  lemma AlliesAreMeant(core: InnerSelf, allied: set<Id>, who: Id)
    ensures who in AlliedIds(core, allied) <==> IsAlly(core, allied, who)
  {
  }

  predicate LosesAlly(core: InnerSelf, allied: set<Id>, events: seq<Event>) {
    exists e :: e in events && e.kind == EntityDied && e.target.Some? && IsAlly(core, allied, e.target.value)
  }

  predicate IsAttacked(self: Id, events: seq<Event>) {
    exists e :: e in events && e.kind == EntityAttack && e.target == Some(self) && e.actor.Some?
        && e.actor != Some(self)
  }

  /** The death of an ally makes the bearer grieve; failing that, an attack by somebody else makes it angry;
      failing both its mood stays. */
  lemma MoodFollowsEvents(core: InnerSelf, self: Id, allied: set<Id>, events: seq<Event>)
    ensures var mood := Digest(core, self, allied, events).mood;
            && (LosesAlly(core, allied, events) ==> mood == Grieving)
            && (!LosesAlly(core, allied, events) && IsAttacked(self, events) ==> mood == Angry)
            && (!LosesAlly(core, allied, events) && !IsAttacked(self, events) ==> mood == core.mood)
  {
    MoodIsDecidedByTheSet(core, self, AlliedIds(core, allied), events);
    forall e | e in events && e.target.Some?
      ensures e.target.value in AlliedIds(core, allied) <==> IsAlly(core, allied, e.target.value)
    {
      AlliesAreMeant(core, allied, e.target.value);
    }
  }

  lemma {:induction false} BetrayalsAreAttacks(victims: set<Id>, self: Id, events: seq<Event>)
    ensures Betrayals(self, victims, events) == AttacksOn(victims, self, events)
  {
    if events != [] {
      BetrayalsAreAttacks(victims, self, events[..|events| - 1]);
    }
  }

  /** Each of the bearer's attacks on an ally adds one to the pressure on both axes, and nothing else does. */
  lemma BetrayalsWeighOnAlignment(core: InnerSelf, self: Id, allied: set<Id>, events: seq<Event>, victims: set<Id>)
    requires forall who :: who in victims <==> IsAlly(core, allied, who)
    ensures var (after, k) := (Digest(core, self, allied, events).alignment, AttacksOn(victims, self, events));
            after.lawChaos == core.alignment.lawChaos + k && after.goodEvil == core.alignment.goodEvil + k
  {
    forall who ensures who in victims <==> who in AlliedIds(core, allied) {
      AlliesAreMeant(core, allied, who);
    }
    assert victims == AlliedIds(core, allied);
    EvidenceIsBetrayals(core, self, victims, events);
    BetrayalsAreAttacks(victims, self, events);
  }

  // --- The nine alignments ---

  predicate Lawful(a: Alignment) { a in {LawfulGood, LawfulNeutral, LawfulEvil} }

  predicate Chaotic(a: Alignment) { a in {ChaoticGood, ChaoticNeutral, ChaoticEvil} }

  predicate Good(a: Alignment) { a in {LawfulGood, NeutralGood, ChaoticGood} }

  predicate Evil(a: Alignment) { a in {LawfulEvil, NeutralEvil, ChaoticEvil} }

  // Pressure toward the far end moves from the near end to the middle, and from anywhere else to the far end.
  predicate Moved(near: bool, far: bool, near': bool, far': bool, pressure: int) {
    if pressure >= 3 then !near' && (far' <==> !near)
    else if pressure <= -3 then !far' && (near' <==> !far)
    else near' == near && far' == far
  }

  /** Three pieces of evidence move an alignment one step: toward chaos or law, and toward evil or good; fewer
      leave it. */
  lemma PressureMovesAlignment(a: Alignment, p: Pressure)
    ensures var s := ShiftAlignment(a, p).alignment;
            && Moved(Lawful(a), Chaotic(a), Lawful(s), Chaotic(s), p.lawChaos)
            && Moved(Good(a), Evil(a), Good(s), Evil(s), p.goodEvil)
  {
    var s := ShiftAlignment(a, p).alignment;
    LawIsZero(a);
    LawIsZero(s);
  }

  lemma LawIsZero(a: Alignment)
    ensures (Lawful(a) <==> a.LawChaos() == 0) && (Chaotic(a) <==> a.LawChaos() == 2)
    ensures (Good(a) <==> a.GoodEvil() == 0) && (Evil(a) <==> a.GoodEvil() == 2)
    ensures 0 <= a.LawChaos() <= 2 && 0 <= a.GoodEvil() <= 2
  {
  }

  // The pressure that is left: half of it after a step, two at most, and two at the end of the axis.
  predicate Remains(before: int, after: int, atEnd: bool) {
    if -3 < before < 3 then after == before
    else
      && (before > 0 ==> after > 0) && (before < 0 ==> after < 0)
      && Abs(after) <= 2
      && (Abs(after) == 2 || (!atEnd && Abs(before) - 1 <= 2 * Abs(after)))
      && (!atEnd ==> 2 * Abs(after) <= Abs(before))
  }

  /** A step uses up half the pressure, and whatever is left stays below another step. */
  lemma PressureIsUsedUp(a: Alignment, p: Pressure)
    ensures var s := ShiftAlignment(a, p);
            && Remains(p.lawChaos, s.rest.lawChaos, if p.lawChaos > 0 then Chaotic(a) else Lawful(a))
            && Remains(p.goodEvil, s.rest.goodEvil, if p.goodEvil > 0 then Evil(a) else Good(a))
  {
    LawIsZero(a);
    AxisRemains(Axis(a.LawChaos(), p.lawChaos));
    AxisRemains(Axis(a.GoodEvil(), p.goodEvil));
  }

  lemma AxisRemains(a: Axis)
    requires 0 <= a.position <= 2
    ensures Remains(a.pressure, ShiftAxis(a).pressure, if a.pressure > 0 then a.position == 2 else a.position == 0)
  {
  }
}
