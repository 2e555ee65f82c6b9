/** The command journal: events, the replayed rows, and the meaning of a log. */
module JournalModel {
  import opened Options
  import opened Texts

  type Byte = b: int | 0 <= b < 256
  type Time = int

  const NEWLINE: Byte := 10
  const MAX_EVENT_BYTES: nat := 72 * 1024

  datatype Key = Key(client: string, command: string)

  datatype Event =
    | Received(key: Key, ts: Time, request: string, owner: string)
    | Completed(key: Key, ts: Time, result: string)
    | Uncertain(key: Key, ts: Time)
    | Acknowledged(key: Key, ts: Time)

  datatype State = IsReceived | IsUncertain | IsCompleted | IsAcknowledged

  datatype Row = Row(
    key: Key, request: string, owner: string, receivedTs: Time, state: State, result: Option<string>,
    completedTs: Option<Time>, uncertainTs: Option<Time>, acknowledgedTs: Option<Time>)

  /** A Python dictionary in insertion order: rows with distinct keys. */
  type Rows = seq<Row>

  datatype Replayed = Legal(rows: Rows) | Corrupt

  // ----- lookup ------------------------------------------------------------

  function IndexOf(rows: Rows, k: Key): (i: nat)
    ensures i <= |rows|
    ensures i < |rows| ==> rows[i].key == k
    ensures forall n | 0 <= n < i :: rows[n].key != k
  {
    if rows == [] then 0 else if rows[0].key == k then 0 else 1 + IndexOf(rows[1..], k)
  }

  function Find(rows: Rows, k: Key): Option<Row> {
    var i := IndexOf(rows, k);
    if i < |rows| then Some(rows[i]) else None
  }

  ghost predicate Distinct(rows: Rows) {
    forall i, j | 0 <= i < j < |rows| :: rows[i].key != rows[j].key
  }

  lemma FindAt(rows: Rows, i: nat)
    requires Distinct(rows) && i < |rows|
    ensures IndexOf(rows, rows[i].key) == i
  {
  }

  // ----- replay ------------------------------------------------------------

  predicate Open(s: State) {
    s.IsReceived? || s.IsUncertain?
  }

  /** `_apply`: one event folded into the rows, or a corrupt journal. */
  function Apply(rows: Rows, e: Event): Replayed {
    var i := IndexOf(rows, e.key);
    match e
    case Received(k, ts, request, owner) =>
      if i < |rows| then Corrupt
      else Legal(rows + [Row(k, request, owner, ts, IsReceived, None, None, None, None)])
    case Completed(_, ts, result) =>
      if i < |rows| && Open(rows[i].state)
      then Legal(rows[i := rows[i].(state := IsCompleted, result := Some(result), completedTs := Some(ts))])
      else Corrupt
    case Uncertain(_, ts) =>
      if i < |rows| && Open(rows[i].state)
      then Legal(rows[i := rows[i].(state := IsUncertain, uncertainTs := Some(ts))])
      else Corrupt
    case Acknowledged(_, ts) =>
      if i < |rows| && rows[i].state.IsCompleted?
      then Legal(rows[i := rows[i].(state := IsAcknowledged, acknowledgedTs := Some(ts))])
      else Corrupt
  }

  function ReplayFrom(rows: Rows, log: seq<Event>): Replayed
    decreases |log|
  {
    if log == [] then Legal(rows)
    else match Apply(rows, log[0])
      case Legal(next) => ReplayFrom(next, log[1..])
      case Corrupt => Corrupt
  }

  function Replay(log: seq<Event>): Replayed {
    ReplayFrom([], log)
  }

  lemma ReplayAppend(rows: Rows, a: seq<Event>, b: seq<Event>)
    ensures ReplayFrom(rows, a + b)
            == (match ReplayFrom(rows, a) case Legal(mid) => ReplayFrom(mid, b) case Corrupt => Corrupt)
    decreases |a|
  {
    if a == [] {
      assert a + b == b;
    } else {
      assert (a + b)[0] == a[0] && (a + b)[1..] == a[1..] + b;
      match Apply(rows, a[0])
      case Legal(next) => ReplayAppend(next, a[1..], b);
      case Corrupt =>
    }
  }

  /** What a row of a legal log looks like in each state. */
  predicate RowOk(r: Row) {
    match r.state
    case IsReceived => r.result.None? && r.completedTs.None? && r.uncertainTs.None? && r.acknowledgedTs.None?
    case IsUncertain => r.result.None? && r.completedTs.None? && r.uncertainTs.Some? && r.acknowledgedTs.None?
    case IsCompleted => r.result.Some? && r.completedTs.Some? && r.acknowledgedTs.None?
    case IsAcknowledged => r.result.Some? && r.completedTs.Some? && r.acknowledgedTs.Some?
  }

  ghost predicate RowsOk(rows: Rows) {
    Distinct(rows) && forall i | 0 <= i < |rows| :: RowOk(rows[i])
  }

  lemma ApplyOk(rows: Rows, e: Event)
    requires RowsOk(rows) && Apply(rows, e).Legal?
    ensures RowsOk(Apply(rows, e).rows)
  {
  }

  lemma ReplayOk(rows: Rows, log: seq<Event>)
    requires RowsOk(rows) && ReplayFrom(rows, log).Legal?
    ensures RowsOk(ReplayFrom(rows, log).rows)
    decreases |log|
  {
    if log != [] {
      ApplyOk(rows, log[0]);
      ReplayOk(Apply(rows, log[0]).rows, log[1..]);
    }
  }

  // ----- counting ----------------------------------------------------------

  function Unacknowledged(rows: Rows): Rows {
    if rows == [] then []
    else (if rows[0].state.IsAcknowledged? then [] else [rows[0]]) + Unacknowledged(rows[1..])
  }

  function Tombstones(rows: Rows): Rows {
    if rows == [] then []
    else (if rows[0].state.IsAcknowledged? then [rows[0]] else []) + Tombstones(rows[1..])
  }

  // ----- a stable sort -----------------------------------------------------

  /** Insert before the first element that is strictly after it. */
  function Insert(r: Row, rows: Rows, before: (Row, Row) -> bool): Rows {
    if rows == [] then [r]
    else if before(r, rows[0]) then [r] + rows
    else [rows[0]] + Insert(r, rows[1..], before)
  }

  /** Python's `sorted`: stable, earlier elements first among equals. */
  function Sort(rows: Rows, before: (Row, Row) -> bool): Rows {
    if rows == [] then [] else Insert(rows[0], Sort(rows[1..], before), before)
  }

  ghost predicate Ordering(before: (Row, Row) -> bool) {
    && (forall a, b :: before(a, b) || before(b, a))
    && (forall a, b, c :: before(a, b) && before(b, c) ==> before(a, c))
  }

  ghost predicate Sorted(rows: Rows, before: (Row, Row) -> bool) {
    forall i, j | 0 <= i < j < |rows| :: before(rows[i], rows[j])
  }

  lemma InsertKeeps(r: Row, rows: Rows, before: (Row, Row) -> bool)
    ensures multiset(Insert(r, rows, before)) == multiset(rows) + multiset{r}
  {
    if rows == [] {
    } else if before(r, rows[0]) {
      assert [r] + rows == [r] + rows;
    } else {
      InsertKeeps(r, rows[1..], before);
      assert rows == [rows[0]] + rows[1..];
    }
  }

  lemma SortKeeps(rows: Rows, before: (Row, Row) -> bool)
    ensures multiset(Sort(rows, before)) == multiset(rows)
  {
    if rows != [] {
      SortKeeps(rows[1..], before);
      InsertKeeps(rows[0], Sort(rows[1..], before), before);
      assert rows == [rows[0]] + rows[1..];
    }
  }

  lemma InsertSorted(r: Row, rows: Rows, before: (Row, Row) -> bool)
    requires Ordering(before) && Sorted(rows, before)
    ensures Sorted(Insert(r, rows, before), before)
  {
    if rows != [] && !before(r, rows[0]) {
      InsertSorted(r, rows[1..], before);
      InsertKeeps(r, rows[1..], before);
      var rest := Insert(r, rows[1..], before);
      forall i | 0 <= i < |rest| ensures before(rows[0], rest[i]) {
        assert rest[i] in multiset(rest);
        assert rest[i] == r || rest[i] in rows[1..];
      }
    }
  }

  lemma SortSorted(rows: Rows, before: (Row, Row) -> bool)
    requires Ordering(before)
    ensures Sorted(Sort(rows, before), before)
  {
    if rows != [] {
      SortSorted(rows[1..], before);
      InsertSorted(rows[0], Sort(rows[1..], before), before);
    }
  }

  // ----- compaction --------------------------------------------------------

  function StampOr0(t: Option<Time>): Time {
    if t.Some? then t.value else 0
  }

  /** Newest acknowledgement first. */
  predicate Newer(a: Row, b: Row) {
    StampOr0(a.acknowledgedTs) >= StampOr0(b.acknowledgedTs)
  }

  /** Order of receipt, then client, then command. */
  predicate Earlier(a: Row, b: Row) {
    || a.receivedTs < b.receivedTs
    || (a.receivedTs == b.receivedTs
        && (if a.key.client != b.key.client then TextBefore(a.key.client, b.key.client)
            else TextBefore(a.key.command, b.key.command)))
  }

  function KeptTombstones(rows: Rows, max: nat): Rows {
    var newest := Sort(Tombstones(rows), Newer);
    if |newest| <= max then newest else newest[..max]
  }

  function Kept(rows: Rows, max: nat): Rows {
    Sort(Unacknowledged(rows) + KeptTombstones(rows, max), Earlier)
  }

  /** The records `_compact_locked` writes for one row. */
  function RowEvents(r: Row): seq<Event> {
    var first := Received(r.key, r.receivedTs, r.request, r.owner);
    var result := if r.result.Some? then r.result.value else "";
    match r.state
    case IsReceived => [first]
    case IsUncertain => [first, Uncertain(r.key, StampOr0(r.uncertainTs))]
    case IsCompleted => [first, Completed(r.key, StampOr0(r.completedTs), result)]
    case IsAcknowledged =>
      [first, Completed(r.key, StampOr0(r.completedTs), result), Acknowledged(r.key, StampOr0(r.acknowledgedTs))]
  }

  function LogOf(rows: Rows): seq<Event> {
    if rows == [] then [] else RowEvents(rows[0]) + LogOf(rows[1..])
  }

  function Compacted(rows: Rows, max: nat): seq<Event> {
    LogOf(Kept(rows, max))
  }

  /** A row after a round trip through compaction: a completed row no longer says
      when it had been uncertain. */
  function Settled(r: Row): Row {
    if Open(r.state) then r else r.(uncertainTs := None)
  }

  function SettledAll(rows: Rows): (s: Rows)
    ensures |s| == |rows| && forall i | 0 <= i < |rows| :: s[i] == Settled(rows[i])
  {
    if rows == [] then [] else [Settled(rows[0])] + SettledAll(rows[1..])
  }
}
