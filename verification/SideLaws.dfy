/** What a finished assignment of sides means for those who fight, said of seats, factions and reputations. */
module SideLaws {
  import opened CombatSides

  // What keeps `m` from fighting beside `c`.
  predicate KeptApart(c: Creature, m: Creature, rel: RelationFn, opponents: set<string>) {
    m.id in opponents || rel(c, m) != Friendly || rel(m, c) != Friendly
  }

  lemma {:induction false} SeatsAreKept(t: Table, cs: seq<Creature>, byId: map<string, Creature>, rel: RelationFn,
      opponents: string -> set<string>, m: string)
    requires Good(t, byId, rel, opponents) && Symmetric(opponents) && Waiting(t, cs, byId) && m in t.sideOf
    ensures var s := BuildFrom(t, cs, byId, rel, opponents);
            m in s.sideOf && s.sideOf[m] == t.sideOf[m]
    decreases |cs|
  {
    if cs != [] {
      JoinKeepsSeats(t, cs, byId, rel, opponents);
      SeatsAreKept(Join(t, cs[0], byId, rel, opponents(cs[0].id)), cs[1..], byId, rel, opponents, m);
    }
  }

  lemma JoinKeepsSeats(t: Table, cs: seq<Creature>, byId: map<string, Creature>, rel: RelationFn,
      opponents: string -> set<string>)
    requires Good(t, byId, rel, opponents) && Symmetric(opponents) && Waiting(t, cs, byId) && cs != []
    ensures cs[0].id in byId
    ensures var s := Join(t, cs[0], byId, rel, opponents(cs[0].id));
            && Good(s, byId, rel, opponents) && Waiting(s, cs[1..], byId)
            && s.sideOf == t.sideOf[cs[0].id := SideFor(t, cs[0], byId, rel, opponents(cs[0].id))]
  {
    NextWaits(t, cs, byId, rel, opponents);
    assert cs[0] in cs;
    JoinIsSound(t, cs[0], byId, rel, opponents);
  }

  // Somebody seated on side `j`, before the table was built or among the first `n` to join, keeps apart
  // from `c`.
  ghost predicate HeldOff(t: Table, s: Table, cs: seq<Creature>, n: nat, c: Creature, j: int,
      byId: map<string, Creature>, rel: RelationFn, opponents: string -> set<string>)
    requires n <= |cs|
  {
    exists m :: m in s.sideOf && s.sideOf[m] == j && m in byId && SeatedBefore(t, cs, n, m)
                && KeptApart(c, byId[m], rel, opponents(c.id))
  }

  ghost predicate SeatedBefore(t: Table, cs: seq<Creature>, n: nat, m: string)
    requires n <= |cs|
  {
    m in t.sideOf || exists i :: 0 <= i < n && cs[i].id == m
  }

  // By-id lookups give the creature of that id.
  ghost predicate NamesAreIds(byId: map<string, Creature>) {
    forall m :: m in byId ==> byId[m].id == m
  }

  lemma {:induction false} NobodyMissesASide(t: Table, cs: seq<Creature>, byId: map<string, Creature>,
      rel: RelationFn, opponents: string -> set<string>, n: nat, j: int)
    requires Good(t, byId, rel, opponents) && Symmetric(opponents) && Waiting(t, cs, byId) && NamesAreIds(byId)
    requires n < |cs| && cs[n].faction != ""
    ensures var s := BuildFrom(t, cs, byId, rel, opponents);
            cs[n].id in s.sideOf
            && (0 <= j < s.sideOf[cs[n].id] ==> HeldOff(t, s, cs, n, cs[n], j, byId, rel, opponents))
    decreases |cs|
  {
    var t' := Join(t, cs[0], byId, rel, opponents(cs[0].id));
    JoinKeepsSeats(t, cs, byId, rel, opponents);
    var s := BuildFrom(t', cs[1..], byId, rel, opponents);
    if n == 0 {
      FirstMissesNoSide(t, cs, byId, rel, opponents, j);
    } else {
      assert cs[1..][n - 1] == cs[n];
      NobodyMissesASide(t', cs[1..], byId, rel, opponents, n - 1, j);
      if 0 <= j < s.sideOf[cs[n].id] {
        var m :| m in s.sideOf && s.sideOf[m] == j && m in byId && SeatedBefore(t', cs[1..], n - 1, m)
                 && KeptApart(cs[n], byId[m], rel, opponents(cs[n].id));
        StillBefore(t, t', cs, n, m);
      }
    }
  }

  lemma FirstMissesNoSide(t: Table, cs: seq<Creature>, byId: map<string, Creature>, rel: RelationFn,
      opponents: string -> set<string>, j: int)
    requires Good(t, byId, rel, opponents) && Symmetric(opponents) && Waiting(t, cs, byId) && NamesAreIds(byId)
    requires cs != [] && cs[0].faction != ""
    ensures var s := BuildFrom(t, cs, byId, rel, opponents);
            cs[0].id in s.sideOf
            && (0 <= j < s.sideOf[cs[0].id] ==> HeldOff(t, s, cs, 0, cs[0], j, byId, rel, opponents))
  {
    var t' := Join(t, cs[0], byId, rel, opponents(cs[0].id));
    JoinKeepsSeats(t, cs, byId, rel, opponents);
    SeatsAreKept(t', cs[1..], byId, rel, opponents, cs[0].id);
    if 0 <= j < t'.sideOf[cs[0].id] {
      var m := PassedOver(t, cs[0], byId, rel, opponents(cs[0].id), j);
      SeatsAreKept(t', cs[1..], byId, rel, opponents, m);
      assert SeatedBefore(t, cs, 0, m);
    }
  }

  lemma StillBefore(t: Table, t': Table, cs: seq<Creature>, n: nat, m: string)
    requires 0 < n <= |cs| && SeatedBefore(t', cs[1..], n - 1, m)
    requires t'.sideOf.Keys == t.sideOf.Keys + {cs[0].id}
    ensures SeatedBefore(t, cs, n, m)
  {
    if m !in t.sideOf && m != cs[0].id {
      var i :| 0 <= i < n - 1 && cs[1..][i].id == m;
      assert cs[i + 1].id == m;
    }
  }

  // A side before the one taken holds somebody who keeps apart.
  lemma PassedOver(t: Table, c: Creature, byId: map<string, Creature>, rel: RelationFn, opponents: set<string>, j: int)
    returns (m: string)
    requires Inverse(t) && Known(t, byId) && c.faction != "" && NamesAreIds(byId)
    requires 0 <= j < SideFor(t, c, byId, rel, opponents)
    ensures m in t.sideOf && t.sideOf[m] == j && m in byId && KeptApart(c, byId[m], rel, opponents)
  {
    SideForIsFirstWelcome(t, c, byId, rel, opponents);
    var k := SideFor(t, c, byId, rel, opponents);
    assert k in t.sides ==> k in t.keys;
    assert t.keys[j] == j && j in t.sides;
    m := Unwelcome(t.sides[j], c, byId, rel, opponents);
  }

  lemma Unwelcome(members: set<string>, c: Creature, byId: map<string, Creature>, rel: RelationFn,
      opponents: set<string>) returns (m: string)
    requires !Welcome(members, c, byId, rel, opponents) && NamesAreIds(byId)
    requires forall x :: x in members ==> x in byId
    ensures m in members && m in byId && KeptApart(c, byId[m], rel, opponents)
  {
    m :| m in members && (m in opponents || rel(c, byId[m]) != Friendly || rel(byId[m], c) != Friendly);
  }

  /** In the finished table nobody with a faction was kept from an earlier side without reason: each such
      side holds somebody seated before who is its forced opponent or no mutual friend. */
  lemma NobodyFightsApartWithoutReason(cs: seq<Creature>, rel: RelationFn, opponents: string -> set<string>, n: nat,
      j: int) returns (i: nat)
    requires Distinct(cs) && Symmetric(opponents) && n < |cs| && cs[n].faction != ""
    requires Waiting(EMPTY, cs, ById(cs))
    requires cs[n].id in BuildFrom(EMPTY, cs, ById(cs), rel, opponents).sideOf
    requires 0 <= j < BuildFrom(EMPTY, cs, ById(cs), rel, opponents).sideOf[cs[n].id]
    ensures i < n && cs[i].id in BuildFrom(EMPTY, cs, ById(cs), rel, opponents).sideOf
    ensures BuildFrom(EMPTY, cs, ById(cs), rel, opponents).sideOf[cs[i].id] == j
    ensures cs[i].id in opponents(cs[n].id) || rel(cs[n], cs[i]) != Friendly || rel(cs[i], cs[n]) != Friendly
  {
    var byId := ById(cs);
    assert NamesAreIds(byId);
    NobodyMissesASide(EMPTY, cs, byId, rel, opponents, n, j);
    var s := BuildFrom(EMPTY, cs, byId, rel, opponents);
    var m :| m in s.sideOf && s.sideOf[m] == j && m in byId && SeatedBefore(EMPTY, cs, n, m)
             && KeptApart(cs[n], byId[m], rel, opponents(cs[n].id));
    i :| 0 <= i < n && cs[i].id == m;
    assert cs[i] in cs;
  }

  // What makes `a` friendly towards `b`: a reputation of at least 75 with b's faction; without one, the same
  // faction, or a faction friendly to b's.
  predicate Trusts(a: Creature, b: Creature, factions: (string, string) -> Relation) {
    && a.faction != "" && b.faction != ""
    && if b.faction in a.reputation then a.reputation[b.faction] >= 75
       else a.faction == b.faction || factions(a.faction, b.faction) == Friendly
  }

  // And hostile: a reputation below 25, or without one, another faction hostile to b's.
  predicate Hates(a: Creature, b: Creature, factions: (string, string) -> Relation) {
    && a.faction != "" && b.faction != ""
    && if b.faction in a.reputation then a.reputation[b.faction] < 25
       else a.faction != b.faction && factions(a.faction, b.faction) == Hostile
  }

  lemma RelationsAreTrust(a: Creature, b: Creature, factions: (string, string) -> Relation)
    ensures EffectiveRelation(a, b, factions) == Friendly <==> Trusts(a, b, factions)
    ensures EffectiveRelation(a, b, factions) == Hostile <==> Hates(a, b, factions)
  {
  }

  /** Those who share a side trust each other, and are not forced against each other. */
  lemma SidesAreTrust(t: Table, byId: map<string, Creature>, factions: (string, string) -> Relation,
      opponents: string -> set<string>, a: string, b: string)
    requires Good(t, byId, (x, y) => EffectiveRelation(x, y, factions), opponents)
    requires a != b && a in t.sideOf && b in t.sideOf && t.sideOf[a] == t.sideOf[b]
    ensures a in byId && b in byId && Trusts(byId[a], byId[b], factions) && Trusts(byId[b], byId[a], factions)
    ensures b !in opponents(a)
  {
    assert a in t.sides[t.sideOf[a]] && b in t.sides[t.sideOf[b]];
    RelationsAreTrust(byId[a], byId[b], factions);
    RelationsAreTrust(byId[b], byId[a], factions);
    assert Together(t, a, b);
  }

  // Everybody is everybody's friend and nobody's forced opponent.
  ghost predicate AllFriends(cs: seq<Creature>, rel: RelationFn, opponents: string -> set<string>) {
    forall i, j :: 0 <= i < |cs| && 0 <= j < |cs| ==>
      cs[j].id !in opponents(cs[i].id) && rel(cs[i], cs[j]) == Friendly
  }

  lemma FriendsFightTogether(cs: seq<Creature>, rel: RelationFn, opponents: string -> set<string>, n: nat)
    requires Distinct(cs) && Symmetric(opponents) && n < |cs| && Waiting(EMPTY, cs, ById(cs))
    requires AllFriends(cs, rel, opponents) && cs[n].faction != ""
    ensures var s := BuildFrom(EMPTY, cs, ById(cs), rel, opponents);
            cs[n].id in s.sideOf && s.sideOf[cs[n].id] == 0
  {
    var k := SeatOf(cs, rel, opponents, n);
    if k > 0 {
      var i := NobodyFightsApartWithoutReason(cs, rel, opponents, n, 0);
      assert false;
    }
  }

  lemma SeatOf(cs: seq<Creature>, rel: RelationFn, opponents: string -> set<string>, n: nat) returns (k: nat)
    requires Distinct(cs) && Symmetric(opponents) && n < |cs| && Waiting(EMPTY, cs, ById(cs))
    ensures var s := BuildFrom(EMPTY, cs, ById(cs), rel, opponents);
            cs[n].id in s.sideOf && s.sideOf[cs[n].id] == k
  {
    BuildFromIsSound(EMPTY, cs, ById(cs), rel, opponents);
    assert cs[n].id in Ids(cs);
    k := SideIndex(BuildFrom(EMPTY, cs, ById(cs), rel, opponents), cs[n].id);
  }

  lemma SideIndex(t: Table, m: string) returns (k: nat)
    requires Inverse(t) && m in t.sideOf
    ensures k == t.sideOf[m]
  {
    assert t.sideOf[m] in t.keys;
    k := t.sideOf[m];
  }

  /** Where all trust each other and nobody is forced against anybody, all fight on one side. */
  lemma ComradesFightTogether(cs: seq<Creature>, factions: (string, string) -> Relation,
      opponents: string -> set<string>, n: nat)
    requires Distinct(cs) && Symmetric(opponents) && n < |cs| && Waiting(EMPTY, cs, ById(cs))
    requires forall i, j :: 0 <= i < |cs| && 0 <= j < |cs| ==>
               cs[j].id !in opponents(cs[i].id) && Trusts(cs[i], cs[j], factions)
    ensures var s := BuildFrom(EMPTY, cs, ById(cs), (x, y) => EffectiveRelation(x, y, factions), opponents);
            cs[n].id in s.sideOf && s.sideOf[cs[n].id] == 0
  {
    var rel := (x, y) => EffectiveRelation(x, y, factions);
    assert Trusts(cs[n], cs[n], factions);
    assert AllFriends(cs, rel, opponents) by {
      forall i, j | 0 <= i < |cs| && 0 <= j < |cs| ensures rel(cs[i], cs[j]) == Friendly {
        RelationsAreTrust(cs[i], cs[j], factions);
      }
    }
    FriendsFightTogether(cs, rel, opponents, n);
  }
}
