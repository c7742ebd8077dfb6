/** Who fights beside whom: greedy side assignment from pairwise relations. */
module CombatSides {

  datatype Relation = Hostile | Neutral | Friendly

  // An empty faction means the creature has none.
  datatype Creature = Creature(id: string, faction: string, reputation: map<string, int>)

  const FRIENDLY_THRESHOLD := 75
  const HOSTILE_THRESHOLD := 25

  function ReputationToRelation(rep: int): Relation {
    if rep >= FRIENDLY_THRESHOLD then Friendly else if rep < HOSTILE_THRESHOLD then Hostile else Neutral
  }

  // How `a` relates to `b`: personal reputation with b's faction wins over the factions' relation.
  function EffectiveRelation(a: Creature, b: Creature, factions: (string, string) -> Relation): Relation {
    if a.faction == "" || b.faction == "" then Neutral
    else if b.faction in a.reputation then ReputationToRelation(a.reputation[b.faction])
    else if a.faction == b.faction then Friendly
    else factions(a.faction, b.faction)
  }

  type RelationFn = (Creature, Creature) -> Relation

  // A dict of sides with its insertion order, and the index of every entity's side.
  datatype Table = Table(keys: seq<int>, sides: map<int, set<string>>, sideOf: map<string, int>)

  predicate MutualFriends(rel: RelationFn, a: Creature, b: Creature) {
    rel(a, b) == Friendly && rel(b, a) == Friendly
  }

  ghost predicate Known(t: Table, byId: map<string, Creature>) {
    forall k, m :: k in t.sides && m in t.sides[k] ==> m in byId
  }

  ghost predicate Admits(t: Table, k: int, c: Creature, byId: map<string, Creature>, rel: RelationFn,
      opponents: set<string>)
    requires Known(t, byId)
  {
    k in t.sides && opponents !! t.sides[k] && forall m :: m in t.sides[k] ==> MutualFriends(rel, c, byId[m])
  }

  ghost function FirstAdmitting(t: Table, i: nat, c: Creature, byId: map<string, Creature>, rel: RelationFn,
      opponents: set<string>): nat
    requires Known(t, byId) && i <= |t.keys|
    decreases |t.keys| - i
  {
    if i == |t.keys| || Admits(t, t.keys[i], c, byId, rel, opponents) then i
    else FirstAdmitting(t, i + 1, c, byId, rel, opponents)
  }

  function MaxKey(keys: seq<int>): int {
    if keys == [] then -1
    else
      var m := MaxKey(keys[..|keys| - 1]);
      if keys[|keys| - 1] > m then keys[|keys| - 1] else m
  }

  ghost function SideFor(t: Table, c: Creature, byId: map<string, Creature>, rel: RelationFn,
      opponents: set<string>): int
    requires Known(t, byId)
  {
    var i := if c.faction == "" then |t.keys| else FirstAdmitting(t, 0, c, byId, rel, opponents);
    if i < |t.keys| then t.keys[i] else MaxKey(t.keys) + 1
  }

  // The table after `c` took side `k`, opening it when it is new.
  function Seat(t: Table, c: Creature, k: int): Table {
    if k in t.sides then Table(t.keys, t.sides[k := t.sides[k] + {c.id}], t.sideOf[c.id := k])
    else Table(t.keys + [k], t.sides[k := {c.id}], t.sideOf[c.id := k])
  }

  ghost function Join(t: Table, c: Creature, byId: map<string, Creature>, rel: RelationFn,
      opponents: set<string>): Table
    requires Known(t, byId)
  {
    Seat(t, c, SideFor(t, c, byId, rel, opponents))
  }

  // Side indices are 0, 1, ..., and `sideOf` is the inverse of membership, so no creature is on two
  // sides. A side may be empty: removals leave emptied sides behind.
  ghost predicate Inverse(t: Table) {
    && t.sides.Keys == (set k | k in t.keys)
    && (forall i :: 0 <= i < |t.keys| ==> t.keys[i] == i)
    && (forall k, m :: k in t.sides && m in t.sides[k] ==> m in t.sideOf && t.sideOf[m] == k)
    && (forall m :: m in t.sideOf ==> t.sideOf[m] in t.sides && m in t.sides[t.sideOf[m]])
  }

  // The sides partition the seated creatures.
  ghost predicate Partition(t: Table) {
    Inverse(t) && forall k :: k in t.sides ==> t.sides[k] != {}
  }

  ghost predicate Together(t: Table, a: string, b: string) {
    a in t.sideOf && b in t.sideOf && t.sideOf[a] == t.sideOf[b]
  }

  ghost predicate SidesAreFriends(t: Table, byId: map<string, Creature>, rel: RelationFn) {
    forall a, b :: a != b && Together(t, a, b) && a in byId && b in byId ==> MutualFriends(rel, byId[a], byId[b])
  }

  ghost predicate OpponentsApart(t: Table, opponents: string -> set<string>) {
    forall a, b :: Together(t, a, b) && a != b ==> b !in opponents(a)
  }

  lemma {:induction false} MaxKeyOfRange(keys: seq<int>)
    requires forall i :: 0 <= i < |keys| ==> keys[i] == i
    ensures MaxKey(keys) == |keys| - 1
  {
    if keys != [] {
      MaxKeyOfRange(keys[..|keys| - 1]);
    }
  }

  lemma {:induction false} FirstAdmittingIsFirst(t: Table, i: nat, c: Creature, byId: map<string, Creature>,
      rel: RelationFn, opponents: set<string>)
    requires Known(t, byId) && i <= |t.keys|
    ensures var r := FirstAdmitting(t, i, c, byId, rel, opponents);
            && i <= r <= |t.keys|
            && (r < |t.keys| ==> Admits(t, t.keys[r], c, byId, rel, opponents))
            && (forall j :: i <= j < r ==> !Admits(t, t.keys[j], c, byId, rel, opponents))
    decreases |t.keys| - i
  {
    if i < |t.keys| && !Admits(t, t.keys[i], c, byId, rel, opponents) {
      FirstAdmittingIsFirst(t, i + 1, c, byId, rel, opponents);
    }
  }

  lemma SeatKeepsInverse(t: Table, c: Creature, k: int)
    requires Inverse(t) && c.id !in t.sideOf && (k in t.sides || k == |t.keys|)
    ensures Inverse(Seat(t, c, k)) && (Partition(t) ==> Partition(Seat(t, c, k)))
    ensures Seat(t, c, k).sideOf == t.sideOf[c.id := k]
  {
    assert forall i :: 0 <= i < |t.keys| ==> t.keys[i] in t.keys;
    assert k in t.keys ==> k < |t.keys|;
    if k in t.sides {
      SeatOnOldSide(t, c, k);
    } else {
      SeatOnNewSide(t, c);
    }
  }

  lemma SeatOnOldSide(t: Table, c: Creature, k: int)
    requires Inverse(t) && c.id !in t.sideOf && k in t.sides
    ensures Inverse(Seat(t, c, k)) && Seat(t, c, k).sideOf == t.sideOf[c.id := k]
  {
  }

  lemma SeatOnNewSide(t: Table, c: Creature)
    requires Inverse(t) && c.id !in t.sideOf && |t.keys| !in t.sides
    ensures Inverse(Seat(t, c, |t.keys|)) && Seat(t, c, |t.keys|).sideOf == t.sideOf[c.id := |t.keys|]
  {
    assert Seat(t, c, |t.keys|).sides.Keys == t.sides.Keys + {|t.keys|};
  }

  // The seat taken: an existing side of mutual friends with no opponent on it, or a side alone.
  lemma SideForIsSafe(t: Table, c: Creature, byId: map<string, Creature>, rel: RelationFn, opponents: set<string>)
    requires Inverse(t) && Known(t, byId) && c.id !in t.sideOf
    ensures var k := SideFor(t, c, byId, rel, opponents);
            && (k in t.sides || k == |t.keys|)
            && (k in t.sides ==> c.faction != "" && Admits(t, k, c, byId, rel, opponents))
  {
    FirstAdmittingIsFirst(t, 0, c, byId, rel, opponents);
    MaxKeyOfRange(t.keys);
    assert |t.keys| !in t.sides;
  }

  // Nobody on the side is an opponent, and all are friends in both directions.
  predicate Welcome(members: set<string>, c: Creature, byId: map<string, Creature>, rel: RelationFn,
      opponents: set<string>)
  {
    forall m :: m in members ==>
      m !in opponents && m in byId && rel(c, byId[m]) == Friendly && rel(byId[m], c) == Friendly
  }

  /** A creature with a faction takes the first side that welcomes it, a new one exactly when none does;
      a factionless one always takes a new side. */
  lemma SideForIsFirstWelcome(t: Table, c: Creature, byId: map<string, Creature>, rel: RelationFn,
      opponents: set<string>)
    requires Inverse(t) && Known(t, byId)
    ensures var k := SideFor(t, c, byId, rel, opponents);
            && (k in t.sides ==> c.faction != "" && Welcome(t.sides[k], c, byId, rel, opponents))
            && (k !in t.sides ==> k == |t.keys|)
            && (forall j :: c.faction != "" && j in t.sides && Welcome(t.sides[j], c, byId, rel, opponents) ==>
                  k in t.sides && k <= j)
  {
    FirstAdmittingIsFirst(t, 0, c, byId, rel, opponents);
    MaxKeyOfRange(t.keys);
    forall j | j in t.sides
      ensures Welcome(t.sides[j], c, byId, rel, opponents) <==> Admits(t, j, c, byId, rel, opponents)
      ensures 0 <= j < |t.keys| && t.keys[j] == j
    {
      assert j in t.keys;
    }
  }

  ghost predicate Symmetric(opponents: string -> set<string>) {
    forall a, b :: a in opponents(b) <==> b in opponents(a)
  }

  // Everything a side table promises.
  ghost predicate Good(t: Table, byId: map<string, Creature>, rel: RelationFn, opponents: string -> set<string>) {
    Inverse(t) && Known(t, byId) && SidesAreFriends(t, byId, rel) && OpponentsApart(t, opponents)
  }

  lemma SeatKeepsPeace(t: Table, c: Creature, k: int, byId: map<string, Creature>, rel: RelationFn,
      opponents: string -> set<string>)
    requires Good(t, byId, rel, opponents) && Symmetric(opponents)
    requires c.id !in t.sideOf && c.id in byId && byId[c.id] == c
    requires k in t.sides ==> Admits(t, k, c, byId, rel, opponents(c.id))
    requires Seat(t, c, k).sideOf == t.sideOf[c.id := k]
    ensures SidesAreFriends(Seat(t, c, k), byId, rel) && OpponentsApart(Seat(t, c, k), opponents)
  {
    var s := Seat(t, c, k);
    forall a, b | a != b && Together(s, a, b)
      ensures (a in byId && b in byId ==> MutualFriends(rel, byId[a], byId[b])) && b !in opponents(a)
    {
      if a != c.id && b != c.id {
        assert Together(t, a, b);
      } else {
        var other := if a == c.id then b else a;
        assert t.sideOf[other] == k && other in t.sides[k];
      }
    }
  }

  lemma JoinIsSound(t: Table, c: Creature, byId: map<string, Creature>, rel: RelationFn,
      opponents: string -> set<string>)
    requires Good(t, byId, rel, opponents) && Symmetric(opponents)
    requires c.id !in t.sideOf && c.id in byId && byId[c.id] == c
    ensures var s := Join(t, c, byId, rel, opponents(c.id));
            && Good(s, byId, rel, opponents) && (Partition(t) ==> Partition(s))
            && s.sideOf == t.sideOf[c.id := SideFor(t, c, byId, rel, opponents(c.id))]
  {
    var k := SideFor(t, c, byId, rel, opponents(c.id));
    SideForIsSafe(t, c, byId, rel, opponents(c.id));
    SeatKeepsInverse(t, c, k);
    SeatKeepsPeace(t, c, k, byId, rel, opponents);
  }

  // A creature that leaves the combat is taken off its side; an emptied side stays.
  function Removed(t: Table, id: string): Table {
    if id in t.sideOf && t.sideOf[id] in t.sides
    then Table(t.keys, t.sides[t.sideOf[id] := t.sides[t.sideOf[id]] - {id}], t.sideOf - {id})
    else t.(sideOf := t.sideOf - {id})
  }

  /** Removals keep everything a later joiner relies on. */
  lemma RemovalKeepsGood(t: Table, id: string, byId: map<string, Creature>, rel: RelationFn,
      opponents: string -> set<string>)
    requires Good(t, byId, rel, opponents)
    ensures Good(Removed(t, id), byId, rel, opponents) && Removed(t, id).sideOf == t.sideOf - {id}
  {
    RemovalKeepsInverse(t, id);
    forall a, b | Together(Removed(t, id), a, b) ensures Together(t, a, b) {
    }
  }

  lemma RemovalKeepsInverse(t: Table, id: string)
    requires Inverse(t)
    ensures Inverse(Removed(t, id)) && Removed(t, id).sideOf == t.sideOf - {id}
    ensures forall k, m :: k in Removed(t, id).sides && m in Removed(t, id).sides[k] ==> k in t.sides && m in t.sides[k]
  {
    assert Removed(t, id).sides.Keys == t.sides.Keys;
  }

  ghost function BuildFrom(t: Table, cs: seq<Creature>, byId: map<string, Creature>, rel: RelationFn,
      opponents: string -> set<string>): Table
    requires Known(t, byId) && forall c :: c in cs ==> c.id in byId
    decreases |cs|
  {
    if cs == [] then t else
    var s := Join(t, cs[0], byId, rel, opponents(cs[0].id));
    assert cs[0] in cs;
    BuildFrom(s, cs[1..], byId, rel, opponents)
  }

  const EMPTY := Table([], map[], map[])

  predicate Distinct(cs: seq<Creature>) {
    forall i, j :: 0 <= i < j < |cs| ==> cs[i].id != cs[j].id
  }

  ghost function Ids(cs: seq<Creature>): set<string> {
    set c | c in cs :: c.id
  }

  // The creatures are known by id and not yet seated.
  ghost predicate Waiting(t: Table, cs: seq<Creature>, byId: map<string, Creature>) {
    Distinct(cs) && forall c :: c in cs ==> c.id in byId && byId[c.id] == c && c.id !in t.sideOf
  }

  lemma IdsOfRest(cs: seq<Creature>)
    requires cs != []
    ensures Ids(cs) == {cs[0].id} + Ids(cs[1..])
  {
    assert cs == [cs[0]] + cs[1..];
  }

  lemma {:induction false} BuildFromIsSound(t: Table, cs: seq<Creature>, byId: map<string, Creature>, rel: RelationFn,
      opponents: string -> set<string>)
    requires Good(t, byId, rel, opponents) && Symmetric(opponents) && Waiting(t, cs, byId)
    ensures var s := BuildFrom(t, cs, byId, rel, opponents);
            && Good(s, byId, rel, opponents) && (Partition(t) ==> Partition(s))
            && s.sideOf.Keys == t.sideOf.Keys + Ids(cs)
    decreases |cs|
  {
    if cs != [] {
      NextWaits(t, cs, byId, rel, opponents);
      IdsOfRest(cs);
      var s := Join(t, cs[0], byId, rel, opponents(cs[0].id));
      BuildFromIsSound(s, cs[1..], byId, rel, opponents);
    }
  }

  lemma NextWaits(t: Table, cs: seq<Creature>, byId: map<string, Creature>, rel: RelationFn,
      opponents: string -> set<string>)
    requires Good(t, byId, rel, opponents) && Symmetric(opponents) && Waiting(t, cs, byId) && cs != []
    ensures cs[0].id in byId
    ensures var s := Join(t, cs[0], byId, rel, opponents(cs[0].id));
            && Good(s, byId, rel, opponents) && (Partition(t) ==> Partition(s))
            && Waiting(s, cs[1..], byId) && s.sideOf.Keys == t.sideOf.Keys + {cs[0].id}
  {
    assert cs[0] in cs;
    JoinIsSound(t, cs[0], byId, rel, opponents);
    forall c | c in cs[1..] ensures c in cs && c.id != cs[0].id {
    }
  }

  /** The assignment is a partition of all creatures into sides of mutual friends that keeps every
      forced pair apart; with the effective relation a factionless creature stands alone. */
  lemma SidesPartitionTheCombatants(cs: seq<Creature>, byId: map<string, Creature>,
                                    factions: (string, string) -> Relation, opponents: string -> set<string>)
    requires Waiting(EMPTY, cs, byId) && Symmetric(opponents)
    ensures var rel := (a, b) => EffectiveRelation(a, b, factions);
            var s := BuildFrom(EMPTY, cs, byId, rel, opponents);
            && Partition(s) && s.sideOf.Keys == Ids(cs)
            && SidesAreFriends(s, byId, rel) && OpponentsApart(s, opponents)
            && (forall c, m :: c in cs && c.faction == "" && Together(s, c.id, m) ==> m == c.id)
  {
    var rel := (a, b) => EffectiveRelation(a, b, factions);
    BuildFromIsSound(EMPTY, cs, byId, rel, opponents);
    var s := BuildFrom(EMPTY, cs, byId, rel, opponents);
    forall c, m | c in cs && c.faction == "" && Together(s, c.id, m) ensures m == c.id {
      FactionlessStandsAlone(s, byId, factions, opponents, c.id, m);
    }
  }

  // Holds of every table built or joined under the effective relation, however many creatures join.
  lemma FactionlessStandsAlone(t: Table, byId: map<string, Creature>, factions: (string, string) -> Relation,
                               opponents: string -> set<string>, a: string, b: string)
    requires Good(t, byId, (a, b) => EffectiveRelation(a, b, factions), opponents)
    requires Together(t, a, b) && a in byId && byId[a].faction == ""
    ensures a == b
  {
    var rel := (a, b) => EffectiveRelation(a, b, factions);
    assert b in t.sides[t.sideOf[b]];
    assert rel(byId[a], byId[b]) == Neutral;
  }

  // Set-valued neighbours of an entity among the forced pairs, in both directions.
  function OpponentsOf(pairs: set<(string, string)>, id: string): set<string> {
    (set p | p in pairs && p.0 == id :: p.1) + (set p | p in pairs && p.1 == id :: p.0)
  }

  function OpponentFn(pairs: set<(string, string)>): string -> set<string> {
    id => OpponentsOf(pairs, id)
  }

  lemma ForcedPairsAreSymmetric(pairs: set<(string, string)>)
    ensures Symmetric(OpponentFn(pairs))
    ensures forall a, b :: b in OpponentFn(pairs)(a) <==> (a, b) in pairs || (b, a) in pairs
  {
  }

  lemma BuildFromNext(t: Table, cs: seq<Creature>, i: nat, byId: map<string, Creature>, rel: RelationFn,
      opponents: string -> set<string>)
    requires i < |cs| && Known(t, byId) && forall c :: c in cs[i..] ==> c.id in byId
    ensures cs[i..][1..] == cs[i + 1..] && cs[i..][0] == cs[i] && cs[i] in cs[i..]
    ensures BuildFrom(t, cs[i..], byId, rel, opponents)
         == BuildFrom(Join(t, cs[i], byId, rel, opponents(cs[i].id)), cs[i + 1..], byId, rel, opponents)
  {
    assert cs[i..][1..] == cs[i + 1..];
  }

  lemma SeatNext(t: Table, cs: seq<Creature>, i: nat, byId: map<string, Creature>, rel: RelationFn,
      opponents: string -> set<string>)
    requires i < |cs| && Good(t, byId, rel, opponents) && Waiting(t, cs[i..], byId) && Symmetric(opponents)
    ensures var s := Join(t, cs[i], byId, rel, opponents(cs[i].id));
            && Good(s, byId, rel, opponents) && Waiting(s, cs[i + 1..], byId)
            && BuildFrom(t, cs[i..], byId, rel, opponents) == BuildFrom(s, cs[i + 1..], byId, rel, opponents)
  {
    NextWaits(t, cs[i..], byId, rel, opponents);
    BuildFromNext(t, cs, i, byId, rel, opponents);
  }

  predicate AreAllies(sideOf: map<string, int>, a: string, b: string) {
    a in sideOf && b in sideOf && sideOf[a] == sideOf[b]
  }

  // The combat's side tables, updated in place as creatures join.
  class Sides {
    var keys: seq<int>
    var sides: map<int, set<string>>
    var sideOf: map<string, int>

    function Value(): Table
      reads this
    {
      Table(keys, sides, sideOf)
    }

    constructor ()
      ensures Value() == EMPTY
    {
      keys, sides, sideOf := [], map[], map[];
    }

    method JoinSide(c: Creature, byId: map<string, Creature>, rel: RelationFn, opponents: set<string>) returns (k: int)
      requires Inverse(Value()) && Known(Value(), byId)
      modifies this
      ensures Value() == Join(old(Value()), c, byId, rel, opponents)
              && k == SideFor(old(Value()), c, byId, rel, opponents)
      ensures sideOf == old(sideOf)[c.id := k]
    {
      var i := FirstSide(c, byId, rel, opponents);
      if i < |keys| {
        k := keys[i];
        assert k in sides;
        sides := sides[k := sides[k] + {c.id}];
      } else {
        MaxKeyOfRange(keys);
        k := MaxKey(keys) + 1;
        assert k !in sides;
        keys := keys + [k];
        sides := sides[k := {c.id}];
      }
      sideOf := sideOf[c.id := k];
    }

    // The first side that takes `c`, or the number of sides.
    method FirstSide(c: Creature, byId: map<string, Creature>, rel: RelationFn, opponents: set<string>)
      returns (i: nat)
      requires Inverse(Value()) && Known(Value(), byId)
      ensures i == if c.faction == "" then |keys| else FirstAdmitting(Value(), 0, c, byId, rel, opponents)
      ensures i <= |keys|
    {
      i := if c.faction == "" then |keys| else 0;
      while i < |keys|
        invariant 0 <= i <= |keys|
        invariant c.faction != "" ==>
                    FirstAdmitting(Value(), i, c, byId, rel, opponents)
                        == FirstAdmitting(Value(), 0, c, byId, rel, opponents)
      {
        assert keys[i] in sides;
        var members := sides[keys[i]];
        if opponents !! members && forall m :: m in members ==> MutualFriends(rel, c, byId[m]) {
          break;
        }
        i := i + 1;
      }
    }

    method BuildCombatSides(cs: seq<Creature>, rel: RelationFn, pairs: set<(string, string)>)
      requires Value() == EMPTY && Distinct(cs)
      modifies this
      ensures Waiting(EMPTY, cs, ById(cs))
      ensures Value() == BuildFrom(EMPTY, cs, ById(cs), rel, OpponentFn(pairs))
    {
      var byId := ById(cs);
      ghost var opp := OpponentFn(pairs);
      ForcedPairsAreSymmetric(pairs);
      assert cs[0..] == cs;
      for i := 0 to |cs|
        invariant Good(Value(), byId, rel, opp) && Waiting(Value(), cs[i..], byId)
        invariant BuildFrom(Value(), cs[i..], byId, rel, opp) == BuildFrom(EMPTY, cs, byId, rel, opp)
      {
        SeatNext(Value(), cs, i, byId, rel, opp);
        var k := JoinSide(cs[i], byId, rel, OpponentsOf(pairs, cs[i].id));
      }
    }
  }

  function ById(cs: seq<Creature>): (m: map<string, Creature>)
    requires Distinct(cs)
    ensures m.Keys == (set c | c in cs :: c.id) && forall c :: c in cs ==> m[c.id] == c
  {
    map i | 0 <= i < |cs| :: cs[i].id := cs[i]
  }
}
