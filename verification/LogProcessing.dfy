/** The event log as the player sees it: runs of moves are folded into one row, rounds and combat turns
    get headers. */
module LogProcessing {
  import opened Grid

  datatype Kind = EntityMove | CombatStarted | CombatEnded | RoundStart | OtherKind(name: string)

  // A field of the event's data: missing or null, a number, or something else.
  datatype Datum = Absent | Number(n: real) | NotANumber

  datatype Entry = Entry(kind: Kind, actor: Option<string>, actorName: Option<string>, distanceFt: Datum, ft: Datum,
      roundNumber: Option<int>)

  datatype Row =
    | EventRow(entry: Entry)
    | TurnHeader(actorId: string, actorName: string)
    | RoundHeader(roundNumber: int)
    | AggregatedMove(actorId: string, actorName: string, totalDistanceFt: real, entries: seq<Entry>)

  function OrElse<T>(a: Option<T>, b: T): T {
    match a case Some(x) => x case None => b
  }

  function DistanceFt(e: Entry): real {
    var d := if e.distanceFt.Absent? then e.ft else e.distanceFt;
    if d.Number? then d.n else 0.0
  }

  function TotalDistance(entries: seq<Entry>): real {
    if entries == [] then 0.0 else TotalDistance(entries[..|entries| - 1]) + DistanceFt(entries[|entries| - 1])
  }

  // What the log says, without presentation: the entries, and where a round begins.
  datatype Item = Logged(entry: Entry) | RoundMark(n: int)

  function Items(entries: seq<Entry>): seq<Item> {
    if entries == [] then []
    else
      var e := entries[|entries| - 1];
      Items(entries[..|entries| - 1])
          + [if e.kind == RoundStart then RoundMark(OrElse(e.roundNumber, 0)) else Logged(e)]
  }

  function RowItems(r: Row): seq<Item> {
    match r
    case EventRow(e) => [Logged(e)]
    case TurnHeader(_, _) => []
    case RoundHeader(n) => [RoundMark(n)]
    case AggregatedMove(_, _, _, entries) => Items(entries)
  }

  function Flattened(rows: seq<Row>): seq<Item> {
    if rows == [] then [] else Flattened(rows[..|rows| - 1]) + RowItems(rows[|rows| - 1])
  }

  // The first entry a row shows; headers show none.
  function Shows(r: Row): Option<Entry> {
    match r
    case EventRow(e) => Some(e)
    case AggregatedMove(_, _, _, entries) => if entries == [] then None else Some(entries[0])
    case _ => None
  }

  function CombatWith(before: bool, e: Entry): bool {
    if e.kind == CombatStarted then true else if e.kind == CombatEnded then false else before
  }

  // Whether the rows end inside a combat.
  function InCombat(rows: seq<Row>): bool {
    if rows == [] then false
    else
      var before, r := InCombat(rows[..|rows| - 1]), rows[|rows| - 1];
      if Shows(r).Some? then CombatWith(before, Shows(r).value) else before
  }

  // The latest turn header since the last round header.
  function Named(rows: seq<Row>): Option<string> {
    if rows == [] then None
    else match rows[|rows| - 1]
      case TurnHeader(a, _) => Some(a)
      case RoundHeader(_) => None
      case _ => Named(rows[..|rows| - 1])
  }

  // The actor whose turn it is: a round, the start and the end of a combat begin afresh.
  function Current(rows: seq<Row>): Option<string> {
    if rows == [] then None
    else match rows[|rows| - 1]
      case TurnHeader(a, _) => Some(a)
      case RoundHeader(_) => None
      case EventRow(e) =>
        if e.kind == CombatStarted then e.actor else if e.kind == CombatEnded then None else Current(rows[..|rows| - 1])
      case _ => Current(rows[..|rows| - 1])
  }

  // The entry shown last, unless a round began since.
  function LastShown(rows: seq<Row>): Option<Entry> {
    if rows == [] then None
    else match rows[|rows| - 1]
      case TurnHeader(_, _) => LastShown(rows[..|rows| - 1])
      case RoundHeader(_) => None
      case r => Shows(r)
  }

  // Two moves that belong in one row.
  predicate SameRun(last: Option<Entry>, e: Entry) {
    last.Some? && last.value.kind == EntityMove && e.kind == EntityMove && last.value.actor == e.actor
  }

  ghost predicate IsRun(entries: seq<Entry>) {
    forall i :: 0 <= i < |entries| ==> entries[i].kind == EntityMove && entries[i].actor == entries[0].actor
  }

  // A row that shows `e` belongs after `front`: under its actor's header, and not to be folded into the row before.
  ghost predicate Belongs(front: seq<Row>, e: Entry) {
    && (CombatWith(InCombat(front), e) && e.actor.Some? ==> Named(front) == e.actor)
    && !SameRun(LastShown(front), e)
  }

  ghost predicate RowOk(front: seq<Row>, r: Row) {
    && (Shows(r).Some? ==> Belongs(front, Shows(r).value))
    && (r.AggregatedMove? ==>
          && |r.entries| >= 2 && IsRun(r.entries) && r.totalDistanceFt == TotalDistance(r.entries)
          && r.actorId == OrElse(r.entries[0].actor, "?")
          && r.actorName == OrElse(r.entries[0].actorName, r.actorId))
  }

  // A turn header announces a row of a new actor in combat.
  ghost predicate HeaderOk(front: seq<Row>, h: Row, next: Option<Entry>)
    requires h.TurnHeader?
  {
    && next.Some? && next.value.actor == Some(h.actorId) && h.actorName == OrElse(next.value.actorName, h.actorId)
    && CombatWith(InCombat(front), next.value)
    && (Current(front) != Some(h.actorId) || next.value.kind == CombatStarted)
  }

  ghost predicate RowsOk(rows: seq<Row>) {
    forall i :: 0 <= i < |rows| ==> RowOk(rows[..i], rows[i])
  }

  // `next` is the first entry of the row to come.
  ghost predicate HeadersOk(rows: seq<Row>, next: Option<Entry>) {
    forall i :: 0 <= i < |rows| ==> HeaderAt(rows, i, next)
  }

  ghost predicate HeaderAt(rows: seq<Row>, i: nat, next: Option<Entry>)
    requires i < |rows|
  {
    rows[i].TurnHeader? ==> HeaderOk(rows[..i], rows[i], if i + 1 < |rows| then Shows(rows[i + 1]) else next)
  }

  datatype View = View(rows: seq<Row>, inCombat: bool, lastActor: Option<string>, buffer: seq<Entry>)

  function FirstOf(buffer: seq<Entry>): Option<Entry> {
    if buffer == [] then None else Some(buffer[0])
  }

  ghost predicate Inv(done: seq<Entry>, v: View) {
    Core(done, v) && (v.buffer == [] ==> !IsMove(LastShown(v.rows)))
  }

  predicate IsMove(e: Option<Entry>) {
    e.Some? && e.value.kind == EntityMove
  }

  ghost predicate Core(done: seq<Entry>, v: View) {
    && Flattened(v.rows) + Items(v.buffer) == Items(done)
    && RowsOk(v.rows) && HeadersOk(v.rows, FirstOf(v.buffer))
    && IsRun(v.buffer) && (v.buffer != [] ==> Belongs(v.rows, v.buffer[0]))
    && v.inCombat == InCombat(v.rows) && v.lastActor == Current(v.rows)
    && (v.lastActor.Some? ==> Named(v.rows) == v.lastActor)
  }

  function FlushedRow(buffer: seq<Entry>): Row
    requires buffer != []
  {
    if |buffer| == 1 then EventRow(buffer[0])
    else AggregatedMove(OrElse(buffer[0].actor, "?"), OrElse(buffer[0].actorName, OrElse(buffer[0].actor, "?")),
        TotalDistance(buffer), buffer)
  }

  lemma PushRow(rows: seq<Row>, r: Row, next: Option<Entry>)
    requires RowsOk(rows) && RowOk(rows, r) && HeadersOk(rows, Shows(r))
    requires r.TurnHeader? ==> HeaderOk(rows, r, next)
    ensures RowsOk(rows + [r]) && HeadersOk(rows + [r], next)
  {
    var all := rows + [r];
    assert all[..|rows|] == rows;
    forall i | 0 <= i < |rows| ensures all[..i] == rows[..i] && all[i] == rows[i] {}
    forall i | 0 <= i < |rows| ensures HeaderAt(all, i, next) {
      assert HeaderAt(rows, i, Shows(r));
    }
    assert HeaderAt(all, |rows|, next);
  }

  function Flush(v: View): View {
    if v.buffer == [] then v else v.(rows := v.rows + [FlushedRow(v.buffer)], buffer := [])
  }

  // What one more row does to everything that is read off the rows.
  lemma Pushed(rows: seq<Row>, r: Row)
    ensures var all := rows + [r];
            && Flattened(all) == Flattened(rows) + RowItems(r)
            && InCombat(all) == (if Shows(r).Some? then CombatWith(InCombat(rows), Shows(r).value) else InCombat(rows))
            && Named(all) == (match r
                              case TurnHeader(a, _) => Some(a)
                              case RoundHeader(_) => None
                              case _ => Named(rows))
            && LastShown(all) == (match r
                                  case TurnHeader(_, _) => LastShown(rows)
                                  case RoundHeader(_) => None
                                  case _ => Shows(r))
            && Current(all) == (match r
                                case TurnHeader(a, _) => Some(a)
                                case RoundHeader(_) => None
                                case EventRow(e) =>
                                  if e.kind == CombatStarted then e.actor else if e.kind == CombatEnded then None
                                      else Current(rows)
                                case _ => Current(rows))
  {
    assert (rows + [r])[..|rows|] == rows;
  }

  lemma FlushedItems(buffer: seq<Entry>)
    requires buffer != [] && IsRun(buffer)
    ensures RowItems(FlushedRow(buffer)) == Items(buffer) && Shows(FlushedRow(buffer)) == Some(buffer[0])
  {
    if |buffer| == 1 {
      assert buffer[..0] == [];
      assert Items(buffer) == Items(buffer[..0]) + [Logged(buffer[0])];
    }
  }

  lemma FlushKeepsCore(done: seq<Entry>, v: View)
    requires Inv(done, v)
    ensures Core(done, Flush(v))
    ensures if v.buffer == [] then !IsMove(LastShown(Flush(v).rows)) else LastShown(Flush(v).rows) == FirstOf(v.buffer)
  {
    if v.buffer != [] {
      FlushedItems(v.buffer);
      PushRow(v.rows, FlushedRow(v.buffer), None);
      Pushed(v.rows, FlushedRow(v.buffer));
    }
  }

  lemma ItemsOn(done: seq<Entry>, e: Entry)
    ensures Items(done + [e]) == Items(done)
            + [if e.kind == RoundStart then RoundMark(OrElse(e.roundNumber, 0)) else Logged(e)]
  {
    assert (done + [e])[..|done|] == done;
  }

  lemma RoundKeepsInv(done: seq<Entry>, v: View, e: Entry)
    requires Core(done, v) && v.buffer == [] && e.kind == RoundStart
    ensures Inv(done + [e], v.(rows := v.rows + [RoundHeader(OrElse(e.roundNumber, 0))], lastActor := None))
  {
    var r := RoundHeader(OrElse(e.roundNumber, 0));
    PushRow(v.rows, r, None);
    Pushed(v.rows, r);
    RoundItems(done, v.rows, e);
  }

  lemma RoundItems(done: seq<Entry>, rows: seq<Row>, e: Entry)
    requires Flattened(rows) + Items([]) == Items(done) && e.kind == RoundStart
    ensures Flattened(rows + [RoundHeader(OrElse(e.roundNumber, 0))]) + Items([]) == Items(done + [e])
  {
    Pushed(rows, RoundHeader(OrElse(e.roundNumber, 0)));
    ItemsOn(done, e);
  }

  lemma GrowKeepsInv(done: seq<Entry>, v: View, e: Entry)
    requires Inv(done, v) && SameRun(FirstOf(v.buffer), e)
    ensures Inv(done + [e], v.(buffer := v.buffer + [e]))
  {
    ItemsOn(done, e);
    ItemsOn(v.buffer, e);
  }

  // The turn header pushed before the row of `e`, when one is due.
  function Announce(v: View, e: Entry): View {
    if v.inCombat && e.actor.Some? && e.actor != v.lastActor
    then v.(rows := v.rows + [TurnHeader(e.actor.value, OrElse(e.actorName, e.actor.value))], lastActor := e.actor)
    else v
  }

  // The combat state as `e` sets it.
  function Track(v: View, e: Entry): View {
    v.(inCombat := CombatWith(v.inCombat, e),
       lastActor := if e.kind == CombatStarted || e.kind == CombatEnded then None else v.lastActor)
  }

  lemma AnnounceMakesBelong(done: seq<Entry>, v: View, e: Entry)
    requires Core(done, v) && v.buffer == [] && e.kind != RoundStart && !SameRun(LastShown(v.rows), e)
    ensures
      var w := Announce(Track(v, e), e);
      && RowsOk(w.rows) && HeadersOk(w.rows, Some(e)) && Belongs(w.rows, e)
      && Flattened(w.rows) == Flattened(v.rows) && InCombat(w.rows) == v.inCombat
      && (w.rows == v.rows ==> w.lastActor == Track(v, e).lastActor)
      && (w.rows != v.rows ==> w.lastActor == e.actor && Named(w.rows) == e.actor && Current(w.rows) == e.actor)
  {
    var w := Announce(Track(v, e), e);
    if w.rows != v.rows {
      PushRow(v.rows, w.rows[|v.rows|], Some(e));
      Pushed(v.rows, w.rows[|v.rows|]);
    } else {
      HeadersMayWait(v.rows, Some(e));
    }
  }

  // Rows whose headers are all followed by a row do not care what comes next.
  lemma HeadersMayWait(rows: seq<Row>, next: Option<Entry>)
    requires HeadersOk(rows, None)
    ensures HeadersOk(rows, next)
  {
    forall i | 0 <= i < |rows| ensures HeaderAt(rows, i, next) {
      assert HeaderAt(rows, i, None);
    }
  }

  lemma MoveKeepsInv(done: seq<Entry>, v: View, e: Entry)
    requires Core(done, v) && v.buffer == [] && e.kind == EntityMove && !SameRun(LastShown(v.rows), e)
    ensures Inv(done + [e], Announce(v, e).(buffer := [e]))
  {
    AnnounceMakesBelong(done, v, e);
    MoveItems(done, Announce(v, e).rows, e);
  }

  lemma MoveItems(done: seq<Entry>, rows: seq<Row>, e: Entry)
    requires Flattened(rows) + Items([]) == Items(done) && e.kind != RoundStart
    ensures Flattened(rows) + Items([e]) == Items(done + [e])
  {
    ItemsOn(done, e);
    ItemsOn([], e);
    assert [] + [e] == [e];
  }

  lemma EventKeepsInv(done: seq<Entry>, v: View, e: Entry)
    requires Core(done, v) && v.buffer == [] && e.kind != EntityMove && e.kind != RoundStart
    ensures
      var w := Announce(Track(v, e), e);
      Inv(done + [e], w.(rows := w.rows + [EventRow(e)]))
  {
    EventRowOk(done, v, e);
    TrackedState(v, e);
  }

  lemma EventRowOk(done: seq<Entry>, v: View, e: Entry)
    requires Core(done, v) && v.buffer == [] && e.kind != EntityMove && e.kind != RoundStart
    ensures
      var all := Announce(Track(v, e), e).rows + [EventRow(e)];
      && Flattened(all) == Items(done + [e]) && RowsOk(all) && HeadersOk(all, None) && LastShown(all) == Some(e)
  {
    var w := Announce(Track(v, e), e);
    AnnounceMakesBelong(done, v, e);
    PushRow(w.rows, EventRow(e), None);
    ItemsOn(done, e);
    Pushed(w.rows, EventRow(e));
  }

  // The bookkeeping of combat and actor after the row of `e` is pushed.
  lemma TrackedState(v: View, e: Entry)
    requires v.inCombat == InCombat(v.rows) && v.lastActor == Current(v.rows)
    requires v.lastActor.Some? ==> Named(v.rows) == v.lastActor
    ensures
      var w := Announce(Track(v, e), e);
      var all := w.rows + [EventRow(e)];
      && w.inCombat == InCombat(all) && w.lastActor == Current(all)
      && (w.lastActor.Some? ==> Named(all) == w.lastActor)
  {
    var w := Announce(Track(v, e), e);
    Pushed(w.rows, EventRow(e));
    if w.rows != v.rows {
      Pushed(v.rows, w.rows[|v.rows|]);
    }
  }

  /** Nothing is lost, duplicated or reordered, every run is folded whole with its distances summed, and
      in combat every row stands under the header of its actor. */
  method ProcessLogEntries(entries: seq<Entry>) returns (rows: seq<Row>)
    ensures Flattened(rows) == Items(entries)
    ensures RowsOk(rows) && HeadersOk(rows, None)
  {
    rows := [];
    var inCombat := false;
    var lastActor: Option<string> := None;
    var buffer: seq<Entry> := [];
    for n := 0 to |entries|
      invariant Inv(entries[..n], View(rows, inCombat, lastActor, buffer))
    {
      assert entries[..n + 1] == entries[..n] + [entries[n]];
      NextKeepsInv(entries[..n], View(rows, inCombat, lastActor, buffer), entries[n]);
      rows, inCombat, lastActor, buffer := ProcessEntry(rows, inCombat, lastActor, buffer, entries[n]);
    }
    assert entries[..|entries|] == entries;
    FlushKeepsCore(entries, View(rows, inCombat, lastActor, buffer));
    rows, buffer := FlushInto(rows, buffer);
  }

  function Next(v: View, e: Entry): View {
    if e.kind == RoundStart then
      Flush(v).(rows := Flush(v).rows + [RoundHeader(OrElse(e.roundNumber, 0))], lastActor := None)
    else if SameRun(FirstOf(v.buffer), e) then v.(buffer := v.buffer + [e])
    else if e.kind == EntityMove then Announce(Flush(v), e).(buffer := [e])
    else
      var w := Announce(Track(Flush(v), e), e);
      w.(rows := w.rows + [EventRow(e)])
  }

  lemma NextKeepsInv(done: seq<Entry>, v: View, e: Entry)
    requires Inv(done, v)
    ensures Inv(done + [e], Next(v, e))
  {
    FlushKeepsCore(done, v);
    if e.kind == RoundStart {
      RoundKeepsInv(done, Flush(v), e);
    } else if SameRun(FirstOf(v.buffer), e) {
      GrowKeepsInv(done, v, e);
    } else if e.kind == EntityMove {
      MoveKeepsInv(done, Flush(v), e);
    } else {
      EventKeepsInv(done, Flush(v), e);
    }
  }

  // One pass of the loop.
  method ProcessEntry(rows0: seq<Row>, inCombat0: bool, lastActor0: Option<string>, buffer0: seq<Entry>, e: Entry)
    returns (rows: seq<Row>, inCombat: bool, lastActor: Option<string>, buffer: seq<Entry>)
    requires IsRun(buffer0)
    ensures View(rows, inCombat, lastActor, buffer) == Next(View(rows0, inCombat0, lastActor0, buffer0), e)
  {
    rows, inCombat, lastActor, buffer := rows0, inCombat0, lastActor0, buffer0;
    if e.kind == CombatStarted {
      inCombat, lastActor := true, None;
    } else if e.kind == CombatEnded {
      inCombat, lastActor := false, None;
    }
    if e.kind == RoundStart {
      rows, buffer := FlushInto(rows, buffer);
      rows := rows + [RoundHeader(OrElse(e.roundNumber, 0))];
      lastActor := None;
      return;
    }
    if e.kind == EntityMove {
      if buffer != [] && buffer[0].actor == e.actor {
        buffer := buffer + [e];
        return;
      }
      rows, buffer := FlushInto(rows, buffer);
      buffer := [e];
      if inCombat && e.actor.Some? && e.actor != lastActor {
        lastActor := e.actor;
        rows := rows + [TurnHeader(e.actor.value, OrElse(e.actorName, e.actor.value))];
      }
      return;
    }
    rows, buffer := FlushInto(rows, buffer);
    if inCombat && e.actor.Some? && e.actor != lastActor {
      lastActor := e.actor;
      rows := rows + [TurnHeader(e.actor.value, OrElse(e.actorName, e.actor.value))];
    }
    rows := rows + [EventRow(e)];
  }

  method FlushInto(rows: seq<Row>, buffer: seq<Entry>) returns (rows': seq<Row>, buffer': seq<Entry>)
    ensures rows' == (if buffer == [] then rows else rows + [FlushedRow(buffer)]) && buffer' == []
  {
    rows', buffer' := rows, buffer;
    if buffer != [] {
      rows', buffer' := rows + [FlushedRow(buffer)], [];
    }
  }

  // The entries apart from the round starts, and the entries the rows show.
  function WithoutRoundStarts(entries: seq<Entry>): seq<Entry> {
    if entries == [] then []
    else
      var before, e := WithoutRoundStarts(entries[..|entries| - 1]), entries[|entries| - 1];
      if e.kind == RoundStart then before else before + [e]
  }

  function ShownEntries(rows: seq<Row>): seq<Entry> {
    if rows == [] then [] else ShownEntries(rows[..|rows| - 1]) + EntriesOf(rows[|rows| - 1])
  }

  function EntriesOf(r: Row): seq<Entry> {
    if r.EventRow? then [r.entry] else if r.AggregatedMove? then r.entries else []
  }

  function OnlyLogged(items: seq<Item>): seq<Entry> {
    if items == [] then []
    else
      var i := items[|items| - 1];
      OnlyLogged(items[..|items| - 1]) + if i.Logged? then [i.entry] else []
  }

  lemma {:induction false} OnlyLoggedAppends(a: seq<Item>, b: seq<Item>)
    ensures OnlyLogged(a + b) == OnlyLogged(a) + OnlyLogged(b)
  {
    if b == [] {
      assert a + b == a;
    } else {
      assert (a + b)[..|a + b| - 1] == a + b[..|b| - 1];
      OnlyLoggedAppends(a, b[..|b| - 1]);
    }
  }

  lemma {:induction false} LoggedOfItems(entries: seq<Entry>)
    ensures OnlyLogged(Items(entries)) == WithoutRoundStarts(entries)
  {
    if entries != [] {
      LoggedOfItems(entries[..|entries| - 1]);
    }
  }

  lemma LoggedOfRow(r: Row)
    requires r.AggregatedMove? ==> IsRun(r.entries)
    ensures OnlyLogged(RowItems(r)) == EntriesOf(r)
  {
    if r.EventRow? {
      OnlyOne(Logged(r.entry));
    } else if r.RoundHeader? {
      OnlyOne(RoundMark(r.roundNumber));
    } else if r.AggregatedMove? {
      LoggedOfRun(r.entries);
    }
  }

  lemma LoggedOfRun(entries: seq<Entry>)
    requires IsRun(entries)
    ensures OnlyLogged(Items(entries)) == entries
  {
    LoggedOfItems(entries);
    NoRoundStarts(entries);
  }

  lemma OnlyOne(i: Item)
    ensures OnlyLogged([i]) == if i.Logged? then [i.entry] else []
  {
    assert [i][..0] == [];
    assert OnlyLogged([i]) == OnlyLogged([i][..0]) + if i.Logged? then [i.entry] else [];
  }

  lemma {:induction false} LoggedOfRows(rows: seq<Row>)
    requires forall r :: r in rows && r.AggregatedMove? ==> IsRun(r.entries)
    ensures OnlyLogged(Flattened(rows)) == ShownEntries(rows)
  {
    if rows != [] {
      var front, r := rows[..|rows| - 1], rows[|rows| - 1];
      LoggedOfRows(front);
      LoggedOfRow(r);
      OnlyLoggedAppends(Flattened(front), RowItems(r));
    }
  }

  lemma {:induction false} NoRoundStarts(entries: seq<Entry>)
    requires forall i :: 0 <= i < |entries| ==> entries[i].kind != RoundStart
    ensures WithoutRoundStarts(entries) == entries
  {
    if entries != [] {
      NoRoundStarts(entries[..|entries| - 1]);
    }
  }

  /** Read off the rows, the shown entries are the input without its round starts. */
  lemma RowsShowTheLog(entries: seq<Entry>, rows: seq<Row>)
    requires Flattened(rows) == Items(entries) && RowsOk(rows)
    ensures ShownEntries(rows) == WithoutRoundStarts(entries)
  {
    forall r | r in rows && r.AggregatedMove? ensures IsRun(r.entries) {
      var i :| 0 <= i < |rows| && rows[i] == r;
      assert RowOk(rows[..i], rows[i]);
    }
    LoggedOfRows(rows);
    LoggedOfItems(entries);
  }
}
