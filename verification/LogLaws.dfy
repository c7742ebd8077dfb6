/** What the processed log promises its reader, said of rows and entries. */
module LogLaws {
  import opened Grid
  import opened LogProcessing

  // The row shows moves of this actor.
  predicate ShowsMoveOf(r: Row, actor: Option<string>) {
    match r
    case EventRow(e) => e.kind == EntityMove && e.actor == actor
    case AggregatedMove(_, _, _, entries) => entries != [] && entries[0].actor == actor
    case _ => false
  }

  // The row shows an entry of this actor.
  predicate ShowsActor(r: Row, actor: string) {
    match r
    case EventRow(e) => e.actor == Some(actor)
    case AggregatedMove(_, _, _, entries) => entries != [] && entries[0].actor == Some(actor)
    case _ => false
  }

  predicate Begins(r: Row) {
    r.EventRow? && r.entry.kind == CombatStarted
  }

  predicate Ends(r: Row) {
    r.EventRow? && r.entry.kind == CombatEnded
  }

  // Feet moved: the distance, failing that the feet, and nothing when that is no number.
  function Moved(e: Entry): real {
    match e.distanceFt
    case Number(n) => n
    case NotANumber => 0.0
    case Absent =>
      match e.ft
      case Number(n) => n
      case _ => 0.0
  }

  function AllMoved(entries: seq<Entry>): real {
    if entries == [] then 0.0 else Moved(entries[0]) + AllMoved(entries[1..])
  }

  lemma {:induction false} TotalIsAllMoved(entries: seq<Entry>)
    ensures TotalDistance(entries) == AllMoved(entries)
  {
    if |entries| == 1 {
      assert entries[..0] == [];
      assert TotalDistance(entries) == TotalDistance(entries[..0]) + DistanceFt(entries[0]);
    } else if entries != [] {
      var front, tail, last := entries[..|entries| - 1], entries[1..], entries[|entries| - 1];
      TotalIsAllMoved(front);
      TotalIsAllMoved(tail);
      TotalIsAllMoved(front[1..]);
      assert tail[..|tail| - 1] == front[1..];
    }
  }

  /** A folded row holds two or more moves of one actor, under its name, with all the feet it moved. */
  lemma FoldedRowsAddUp(rows: seq<Row>, i: nat)
    requires RowsOk(rows) && i < |rows| && rows[i].AggregatedMove?
    ensures var r := rows[i];
            && |r.entries| >= 2 && r.totalDistanceFt == AllMoved(r.entries)
            && (forall k :: 0 <= k < |r.entries| ==>
                  r.entries[k].kind == EntityMove && r.entries[k].actor == r.entries[0].actor)
            && (match r.entries[0].actor
                case Some(id) => r.actorId == id
                case None => r.actorId == "?")
            && (match r.entries[0].actorName
                case Some(name) => r.actorName == name
                case None => r.actorName == r.actorId)
  {
    assert RowOk(rows[..i], rows[i]);
    TotalIsAllMoved(rows[i].entries);
  }

  lemma {:induction false} LastShownBehindHeaders(rows: seq<Row>, i: nat, j: nat)
    requires i < j <= |rows| && forall k :: i < k < j ==> rows[k].TurnHeader?
    requires rows[i].EventRow? || rows[i].AggregatedMove?
    ensures LastShown(rows[..j]) == Shows(rows[i])
  {
    assert rows[..j][..j - 1] == rows[..j - 1];
    if j > i + 1 {
      LastShownBehindHeaders(rows, i, j - 1);
    }
  }

  /** Runs are folded whole: no two rows with nothing but turn headers between them show moves of the same
      actor. */
  lemma RunsAreFoldedWhole(rows: seq<Row>, i: nat, j: nat, actor: Option<string>)
    requires RowsOk(rows) && i < j < |rows| && forall k :: i < k < j ==> rows[k].TurnHeader?
    ensures !(ShowsMoveOf(rows[i], actor) && ShowsMoveOf(rows[j], actor))
  {
    if ShowsMoveOf(rows[i], actor) && ShowsMoveOf(rows[j], actor) {
      assert RowOk(rows[..i], rows[i]) && RowOk(rows[..j], rows[j]);
      LastShownBehindHeaders(rows, i, j);
      assert SameRun(Shows(rows[i]), Shows(rows[j]).value);
      assert false;
    }
  }

  lemma {:induction false} InCombatSince(rows: seq<Row>, j: nat, i: nat)
    requires RowsOk(rows) && j < i <= |rows| && Begins(rows[j]) && forall k :: j < k < i ==> !Ends(rows[k])
    ensures InCombat(rows[..i])
  {
    assert rows[..i][..i - 1] == rows[..i - 1];
    if j < i - 1 {
      InCombatSince(rows, j, i - 1);
      assert RowOk(rows[..i - 1], rows[i - 1]);
    }
  }

  lemma {:induction false} BegunBefore(rows: seq<Row>, i: nat) returns (j: nat)
    requires RowsOk(rows) && i <= |rows| && InCombat(rows[..i])
    ensures j < i && Begins(rows[j]) && forall k :: j < k < i ==> !Ends(rows[k])
  {
    assert rows[..i][..i - 1] == rows[..i - 1];
    assert RowOk(rows[..i - 1], rows[i - 1]);
    j := i - 1;
    if !Begins(rows[i - 1]) {
      j := BegunBefore(rows, i - 1);
    }
  }

  lemma {:induction false} NamedBefore(rows: seq<Row>, i: nat, actor: string) returns (h: nat)
    requires i <= |rows| && Named(rows[..i]) == Some(actor)
    ensures h < i && rows[h].TurnHeader? && rows[h].actorId == actor
    ensures forall k :: h < k < i ==> !rows[k].TurnHeader? && !rows[k].RoundHeader?
  {
    assert rows[..i][..i - 1] == rows[..i - 1];
    h := i - 1;
    if !rows[i - 1].TurnHeader? {
      h := NamedBefore(rows, i - 1, actor);
    }
  }

  /** Between the start of a combat and its end, every row of an actor stands under that actor's header: the
      last one before it, with no round beginning in between. */
  lemma CombatRowsAreHeaded(rows: seq<Row>, j: nat, i: nat, actor: string) returns (h: nat)
    requires RowsOk(rows) && j <= i < |rows| && Begins(rows[j]) && forall k :: j < k <= i ==> !Ends(rows[k])
    requires ShowsActor(rows[i], actor)
    ensures h < i && rows[h].TurnHeader? && rows[h].actorId == actor
    ensures forall k :: h < k < i ==> !rows[k].TurnHeader? && !rows[k].RoundHeader?
  {
    assert RowOk(rows[..i], rows[i]);
    if j < i {
      InCombatSince(rows, j, i);
    }
    h := NamedBefore(rows, i, actor);
  }

  lemma {:induction false} CurrentSince(rows: seq<Row>, h: nat, i: nat, actor: string)
    requires h < i <= |rows| && rows[h].TurnHeader? && rows[h].actorId == actor
    requires forall k :: h < k < i ==>
               !rows[k].TurnHeader? && !rows[k].RoundHeader? && !Begins(rows[k]) && !Ends(rows[k])
    ensures Current(rows[..i]) == Some(actor)
  {
    assert rows[..i][..i - 1] == rows[..i - 1];
    if h < i - 1 {
      CurrentSince(rows, h, i - 1, actor);
    }
  }

  /** A turn header stands before a row of its actor, under that actor's name, and only within a combat. */
  lemma HeadersAnnounceTheirActor(rows: seq<Row>, i: nat)
    requires RowsOk(rows) && HeadersOk(rows, None) && i < |rows| && rows[i].TurnHeader?
    ensures i + 1 < |rows| && ShowsActor(rows[i + 1], rows[i].actorId)
    ensures match Shows(rows[i + 1]).value.actorName
            case Some(name) => rows[i].actorName == name
            case None => rows[i].actorName == rows[i].actorId
    ensures Begins(rows[i + 1])
            || exists j :: 0 <= j < i && Begins(rows[j]) && forall k :: j < k < i ==> !Ends(rows[k])
  {
    assert HeaderAt(rows, i, None);
    assert RowOk(rows[..i + 1], rows[i + 1]);
    if !Begins(rows[i + 1]) {
      var j := BegunBefore(rows, i);
    }
  }

  /** No header is repeated: a second one for the same actor comes only after another's, a new round, or the
      start or end of a combat, or to announce the start of one. */
  lemma HeadersAreNotRepeated(rows: seq<Row>, h: nat, i: nat)
    requires RowsOk(rows) && HeadersOk(rows, None) && h < i < |rows| && rows[h].TurnHeader? && rows[i].TurnHeader?
    requires forall k :: h < k < i ==>
               !rows[k].TurnHeader? && !rows[k].RoundHeader? && !Begins(rows[k]) && !Ends(rows[k])
    ensures rows[h].actorId != rows[i].actorId || (i + 1 < |rows| && Begins(rows[i + 1]))
  {
    if rows[h].actorId == rows[i].actorId {
      assert HeaderAt(rows, i, None);
      CurrentSince(rows, h, i, rows[i].actorId);
      assert RowOk(rows[..i + 1], rows[i + 1]);
    }
  }

  // The numbers of the rounds that begin in the log, and those the headers show.
  function RoundStarts(entries: seq<Entry>): seq<int> {
    if entries == [] then []
    else
      var e := entries[|entries| - 1];
      RoundStarts(entries[..|entries| - 1])
      + if e.kind == RoundStart then [if e.roundNumber.Some? then e.roundNumber.value else 0] else []
  }

  function RoundHeaders(rows: seq<Row>): seq<int> {
    if rows == [] then []
    else
      var r := rows[|rows| - 1];
      RoundHeaders(rows[..|rows| - 1]) + if r.RoundHeader? then [r.roundNumber] else []
  }

  function Marks(items: seq<Item>): seq<int> {
    if items == [] then []
    else
      var i := items[|items| - 1];
      Marks(items[..|items| - 1]) + if i.RoundMark? then [i.n] else []
  }

  lemma {:induction false} MarksAppend(a: seq<Item>, b: seq<Item>)
    ensures Marks(a + b) == Marks(a) + Marks(b)
  {
    if b == [] {
      assert a + b == a;
    } else {
      assert (a + b)[..|a + b| - 1] == a + b[..|b| - 1];
      MarksAppend(a, b[..|b| - 1]);
    }
  }

  lemma {:induction false} MarksOfItems(entries: seq<Entry>)
    ensures Marks(Items(entries)) == RoundStarts(entries)
  {
    if entries != [] {
      MarksOfItems(entries[..|entries| - 1]);
    }
  }

  lemma {:induction false} NoMarksInRuns(entries: seq<Entry>)
    requires forall i :: 0 <= i < |entries| ==> entries[i].kind == EntityMove
    ensures RoundStarts(entries) == []
  {
    if entries != [] {
      NoMarksInRuns(entries[..|entries| - 1]);
    }
  }

  lemma MarksOfRow(front: seq<Row>, r: Row)
    requires RowOk(front, r)
    ensures Marks(RowItems(r)) == if r.RoundHeader? then [r.roundNumber] else []
  {
    match r
    case EventRow(e) => OneMark(Logged(e));
    case TurnHeader(_, _) =>
    case RoundHeader(n) => OneMark(RoundMark(n));
    case AggregatedMove(_, _, _, entries) =>
      MarksOfItems(entries);
      NoMarksInRuns(entries);
  }

  lemma OneMark(i: Item)
    ensures Marks([i]) == if i.RoundMark? then [i.n] else []
  {
    assert [i][..0] == [];
    assert Marks([i]) == Marks([i][..0]) + if i.RoundMark? then [i.n] else [];
  }

  lemma {:induction false} MarksOfRows(rows: seq<Row>, n: nat)
    requires RowsOk(rows) && n <= |rows|
    ensures Marks(Flattened(rows[..n])) == RoundHeaders(rows[..n])
  {
    if n > 0 {
      MarksOfRows(rows, n - 1);
      assert rows[..n][..n - 1] == rows[..n - 1];
      assert RowOk(rows[..n - 1], rows[n - 1]);
      MarksOfRow(rows[..n - 1], rows[n - 1]);
      MarksAppend(Flattened(rows[..n - 1]), RowItems(rows[n - 1]));
    }
  }

  /** Every round that begins gets its header, in order, with its number. */
  lemma RoundsAreNumbered(entries: seq<Entry>, rows: seq<Row>)
    requires Flattened(rows) == Items(entries) && RowsOk(rows)
    ensures RoundHeaders(rows) == RoundStarts(entries)
  {
    assert rows[..|rows|] == rows;
    MarksOfRows(rows, |rows|);
    MarksOfItems(entries);
  }
}
