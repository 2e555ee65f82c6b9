/** Every run of the journal: any interleaving of instances, restarts, torn appends
    and compactions keeps the log legal and dispatches a command at most once. */
module JournalRuns {
  import opened Options
  import opened JournalModel
  import opened JournalBytes
  import opened JournalCompaction
  import opened CommandJournal

  /** A journal file seen as the records it holds and a torn tail. */
  datatype Disk = Disk(log: seq<Event>, tail: seq<Byte>)

  function BytesOf(c: Codec, d: Disk): seq<Byte> {
    Encode(c, d.log) + d.tail
  }

  ghost predicate DiskOk(c: Codec, d: Disk) {
    Replay(d.log).Legal? && AllFit(c, d.log) && Torn(d.tail)
  }

  function RowsOf(d: Disk): Rows {
    match Replay(d.log) case Legal(rows) => rows case Corrupt => []
  }

  // ----- calls on records rather than bytes ---------------------------------

  function CommitRecord(c: Codec, log: seq<Event>, rows: Rows, call: Call, e: Event, reply: Reply, force: bool):
    (Disk, Reply)
  {
    if !Fits(c, e) then (Disk(log, []), Failed(TooLarge))
    else if !Durable(call.weather, |Record(c, e)|) then
      (if Delivered(call.weather) < |Record(c, e)| then Disk(log, Record(c, e)[..Delivered(call.weather)])
       else Disk(log + [e], []), Lost)
    else if Apply(rows, e).Legal? && Compacts(call, |Encode(c, log + [e])|, force) then
      (Disk(Compacted(Apply(rows, e).rows, call.cfg.max), []), ReplyUnder(call.weather, reply))
    else (Disk(log + [e], []), ReplyUnder(call.weather, reply))
  }

  function Step(c: Codec, d: Disk, call: Call): (Disk, Reply) {
    match Decide(call.cfg, RowsOf(d), call.command, call.weather.now)
    case Answer(reply) => (Disk(d.log, []), ReplyUnder(call.weather, reply))
    case Append(e, reply, force) => CommitRecord(c, d.log, RowsOf(d), call, e, reply, force)
  }

  // ----- every compacted record is an old record ------------------------------

  ghost predicate Covered(rows: Rows, log: seq<Event>) {
    forall r <- rows, e | e in RowEvents(r) :: e in log
  }

  lemma ApplyCovers(rows: Rows, log: seq<Event>, e: Event)
    requires RowsOk(rows) && Covered(rows, log) && Apply(rows, e).Legal?
    ensures Covered(Apply(rows, e).rows, log + [e])
  {
    var next := Apply(rows, e).rows;
    var i := IndexOf(rows, e.key);
    forall r <- next, x | x in RowEvents(r) ensures x in log + [e] {
      var j :| 0 <= j < |next| && next[j] == r;
      if j == i {
        if i < |rows| {
          assert forall y <- RowEvents(rows[i]) :: y in log;
          assert RowEvents(rows[i])[0] in RowEvents(rows[i]);
          if e.Acknowledged? {
            assert RowEvents(rows[i])[1] in RowEvents(rows[i]);
          }
        }
      } else {
        assert r == rows[j];
      }
    }
  }

  lemma {:induction false} ReplayCovers(rows: Rows, done: seq<Event>, log: seq<Event>)
    requires RowsOk(rows) && Covered(rows, done) && ReplayFrom(rows, log).Legal?
    ensures Covered(ReplayFrom(rows, log).rows, done + log)
    decreases |log|
  {
    if log == [] {
      assert done + log == done;
    } else {
      ApplyCovers(rows, done, log[0]);
      ApplyOk(rows, log[0]);
      ReplayCovers(Apply(rows, log[0]).rows, done + [log[0]], log[1..]);
      assert done + [log[0]] + log[1..] == done + log;
    }
  }

  lemma LogOfCovered(rows: Rows, log: seq<Event>)
    requires Covered(rows, log)
    ensures forall e <- LogOf(rows) :: e in log
  {
    if rows != [] {
      assert forall r <- rows[1..] :: r in rows;
      LogOfCovered(rows[1..], log);
      assert rows[0] in rows;
    }
  }

  /** Compaction invents nothing: each record it writes is, byte for byte, a record of
      the log it replaces. */
  lemma CompactionInventsNothing(log: seq<Event>, max: nat)
    requires Replay(log).Legal?
    ensures forall e <- Compacted(Replay(log).rows, max) :: e in log
  {
    var rows := Replay(log).rows;
    ReplayCovers([], [], log);
    assert [] + log == log;
    KeptRows(rows, max);
    forall r <- Kept(rows, max) ensures r in rows {
      assert r in multiset(Kept(rows, max));
      assert r in multiset(rows);
    }
    LogOfCovered(Kept(rows, max), log);
  }

  // ----- refinement -----------------------------------------------------------

  lemma ReplaySnoc(log: seq<Event>, e: Event)
    requires Replay(log).Legal?
    ensures Replay(log + [e]) == Apply(Replay(log).rows, e)
  {
    ReplayAppend([], log, [e]);
    ReplayOne(Replay(log).rows, e);
  }

  lemma EncodeSnoc(c: Codec, log: seq<Event>, e: Event)
    ensures Encode(c, log + [e]) == Encode(c, log) + Record(c, e)
  {
    EncodeAppend(c, log, [e]);
    assert [e][1..] == [];
    assert Encode(c, [e]) == Record(c, e) + [];
  }

  lemma NoTail(c: Codec, log: seq<Event>)
    ensures BytesOf(c, Disk(log, [])) == Encode(c, log)
  {
  }

  lemma RowsOkOf(d: Disk)
    ensures RowsOk(RowsOf(d))
  {
    if Replay(d.log).Legal? {
      ReplayOk([], d.log);
    }
  }

  lemma CommitRefines(c: Codec, log: seq<Event>, rows: Rows, call: Call, e: Event, reply: Reply, force: bool)
    requires Sound(c) && Replay(log) == Legal(rows) && AllFit(c, log) && Apply(rows, e).Legal?
    ensures var (d, r) := CommitRecord(c, log, rows, call, e, reply, force);
            DiskOk(c, d) && Commit(c, Encode(c, log), rows, call, e, reply, force) == (BytesOf(c, d), r)
  {
    NoTail(c, log);
    NoTail(c, log + [e]);
    if Fits(c, e) {
      ReplaySnoc(log, e);
      EncodeSnoc(c, log, e);
      AllFitAppend(c, log, [e]);
      var next := Apply(rows, e).rows;
      if !Durable(call.weather, |Record(c, e)|) {
        var n := Delivered(call.weather);
        if n < |Record(c, e)| {
          PrefixIsTorn(c, e, n);
        } else {
          assert Prefix(Record(c, e), n) == Record(c, e);
        }
      } else if Compacts(call, |Encode(c, log + [e])|, force) {
        CompactionInventsNothing(log + [e], call.cfg.max);
        ReplayOk([], log + [e]);
        CompactedReplays(next, call.cfg.max);
        NoTail(c, Compacted(next, call.cfg.max));
      }
    }
  }

  /** A call on the bytes of a legal file, torn tail included, is the call on its
      records, and leaves a legal file behind whatever happens to it. */
  lemma CallRefines(c: Codec, d: Disk, call: Call)
    requires Sound(c) && DiskOk(c, d)
    ensures DiskOk(c, Step(c, d, call).0)
    ensures Respond(c, BytesOf(c, d), call) == (BytesOf(c, Step(c, d, call).0), Step(c, d, call).1)
  {
    TornAppendRecovers(c, d.log, d.tail);
    NoTail(c, d.log);
    var rows := RowsOf(d);
    var decision := Decide(call.cfg, rows, call.command, call.weather.now);
    if decision.Append? {
      DecisionReplays(call.cfg, rows, call.command, call.weather.now);
      CommitRefines(c, d.log, rows, call, decision.event, decision.reply, decision.force);
    }
  }

  // ----- what one call does to one command -------------------------------------

  function Rank(s: State): nat {
    match s case IsReceived => 0 case IsUncertain => 1 case IsCompleted => 2 case IsAcknowledged => 3
  }

  /** A row only moves forward: who asked for what stays, a result once written stays,
      and an acknowledgement stays. */
  ghost predicate Advances(r: Row, n: Row) {
    && n.key == r.key && n.request == r.request && n.owner == r.owner && n.receivedTs == r.receivedTs
    && Rank(r.state) <= Rank(n.state)
    && (r.result.Some? ==> n.result == r.result && n.completedTs == r.completedTs)
    && (r.state.IsAcknowledged? ==> n.acknowledgedTs == r.acknowledgedTs)
  }

  lemma ApplyAdvances(rows: Rows, e: Event, k: Key)
    requires RowsOk(rows) && Apply(rows, e).Legal? && Find(rows, k).Some?
    ensures Find(Apply(rows, e).rows, k).Some?
    ensures Advances(Find(rows, k).value, Find(Apply(rows, e).rows, k).value)
  {
    var next := Apply(rows, e).rows;
    ApplyOk(rows, e);
    var i := IndexOf(rows, k);
    assert next[i].key == k;
    FindAt(next, i);
    assert RowOk(rows[i]);
  }

  /** How a call may leave the rows: untouched, with one more event, or compacted after it. */
  datatype Effect = Untouched | Appended(event: Event) | CompactedAfter(event: Event, max: nat)

  function EffectOf(c: Codec, d: Disk, call: Call): Effect {
    match Decide(call.cfg, RowsOf(d), call.command, call.weather.now)
    case Answer(_) => Untouched
    case Append(e, _, force) =>
      if !Fits(c, e) then Untouched
      else if !Durable(call.weather, |Record(c, e)|) then
        if Delivered(call.weather) < |Record(c, e)| then Untouched else Appended(e)
      else if Compacts(call, |Encode(c, d.log + [e])|, force) then CompactedAfter(e, call.cfg.max)
      else Appended(e)
  }

  lemma AppendedRows(log: seq<Event>, e: Event, max: nat)
    requires Replay(log).Legal? && Apply(Replay(log).rows, e).Legal?
    ensures RowsOf(Disk(log + [e], [])) == Apply(Replay(log).rows, e).rows
    ensures var next := Apply(Replay(log).rows, e).rows;
            RowsOf(Disk(Compacted(next, max), [])) == SettledAll(Kept(next, max))
  {
    ReplaySnoc(log, e);
    ReplayOk([], log + [e]);
    CompactedReplays(Apply(Replay(log).rows, e).rows, max);
  }

  lemma EffectRows(c: Codec, d: Disk, call: Call)
    requires Replay(d.log).Legal?
    ensures match EffectOf(c, d, call)
            case Untouched => RowsOf(Step(c, d, call).0) == RowsOf(d)
            case Appended(e) =>
              Apply(RowsOf(d), e).Legal? && RowsOf(Step(c, d, call).0) == Apply(RowsOf(d), e).rows
            case CompactedAfter(e, max) =>
              Apply(RowsOf(d), e).Legal?
              && RowsOf(Step(c, d, call).0) == SettledAll(Kept(Apply(RowsOf(d), e).rows, max))
  {
    var rows := RowsOf(d);
    var decision := Decide(call.cfg, rows, call.command, call.weather.now);
    if decision.Append? {
      var e := decision.event;
      DecisionReplays(call.cfg, rows, call.command, call.weather.now);
      AppendedRows(d.log, e, call.cfg.max);
      var after := CommitRecord(c, d.log, rows, call, e, decision.reply, decision.force).0;
      assert Step(c, d, call).0 == after;
      match EffectOf(c, d, call)
      case Untouched => assert after.log == d.log;
      case Appended(_) => assert after == Disk(d.log + [e], []);
      case CompactedAfter(_, max) => assert after == Disk(Compacted(Apply(rows, e).rows, max), []);
    }
  }

  /** A call answers what it decided or an error or nothing, and what it decided to append
      is in the rows by then. */
  lemma ReplyIsDecided(c: Codec, d: Disk, call: Call)
    ensures var decision := Decide(call.cfg, RowsOf(d), call.command, call.weather.now);
            var reply := Step(c, d, call).1;
            || reply.Lost? || reply.Failed?
            || (reply == decision.reply && (decision.Append? ==> !EffectOf(c, d, call).Untouched?))
  {
  }

  /** Looking up a key after the event and the compaction of one call. */
  lemma FindCompacted(rows: Rows, max: nat, k: Key)
    requires RowsOk(rows)
    ensures var found := Find(SettledAll(Kept(rows, max)), k);
            if Find(rows, k).None? || Dropped(rows, max, k) then found.None?
            else found == Some(Settled(Find(rows, k).value))
  {
    KeptFind(rows, max, k);
    KeptOk(rows, max);
    SettledFind(Kept(rows, max), k);
  }

  /** The call throws a command's tombstone away. */
  predicate Forgets(c: Codec, d: Disk, call: Call, k: Key) {
    Find(RowsOf(d), k).Some? && Find(RowsOf(Step(c, d, call).0), k).None?
  }

  /** The call compacts, and after its own event as many tombstones as fit come before
      the command's. */
  predicate Outnumbered(c: Codec, d: Disk, call: Call, k: Key) {
    match EffectOf(c, d, call)
    case CompactedAfter(e, max) =>
      Apply(RowsOf(d), e).Legal? && Dropped(Apply(RowsOf(d), e).rows, max, k)
    case _ => false
  }

  /** A known command advances, or it is forgotten: exactly when the call compacts and
      its tombstone is outnumbered. */
  lemma CallAdvances(c: Codec, d: Disk, call: Call, k: Key)
    requires Replay(d.log).Legal? && Find(RowsOf(d), k).Some?
    ensures Forgets(c, d, call, k) <==> Outnumbered(c, d, call, k)
    ensures Forgets(c, d, call, k)
            || Advances(Find(RowsOf(d), k).value, Find(RowsOf(Step(c, d, call).0), k).value)
  {
    var rows := RowsOf(d);
    EffectRows(c, d, call);
    RowsOkOf(d);
    match EffectOf(c, d, call)
    case Untouched =>
    case Appended(e) => ApplyAdvances(rows, e, k);
    case CompactedAfter(e, max) =>
      ApplyAdvances(rows, e, k);
      ApplyOk(rows, e);
      FindCompacted(Apply(rows, e).rows, max, k);
  }

  /** An acknowledgement at the call's own time is forgotten by that very call exactly
      when it is written whole, the compaction succeeds, and among the rows before the
      call at least `max` tombstones are newer, or as new and received before it. */
  lemma AcknowledgementForgottenIff(c: Codec, d: Disk, call: Call, i: nat)
    requires Replay(d.log).Legal? && i < |RowsOf(d)| && RowsOf(d)[i].state.IsCompleted?
    requires call.command == Acknowledge(RowsOf(d)[i].key)
    ensures Forgets(c, d, call, RowsOf(d)[i].key)
            <==> var e := Acknowledged(RowsOf(d)[i].key, call.weather.now);
                 && Fits(c, e) && Durable(call.weather, |Record(c, e)|) && call.weather.compacts
                 && call.cfg.max <= Place(RowsOf(d), i, call.weather.now)
  {
    var rows, now := RowsOf(d), call.weather.now;
    var k := rows[i].key;
    RowsOkOf(d);
    FindAt(rows, i);
    CallAdvances(c, d, call, k);
    var next := Apply(rows, Acknowledged(k, now)).rows;
    ApplyOk(rows, Acknowledged(k, now));
    FindAt(next, i);
    assert next[..i] == rows[..i] && next[i + 1..] == rows[i + 1..];
  }

  /** Two acknowledgements of one instant and room for one tombstone: the second one is
      answered and forgotten. The clock need not go backwards. */
  lemma TieForgetsTheSecond(c: Codec, instance: string, compactAfter: nat)
    ensures var a, b := Key("client", "1"), Key("client", "2");
            var d := Disk(LogOf([Row(a, "r", "i", 1, IsAcknowledged, Some("x"), Some(2), None, Some(5)),
                                 Row(b, "r", "i", 3, IsCompleted, Some("y"), Some(4), None, None)]), []);
            var weather := Weather(5, [|Record(c, Acknowledged(b, 5))|], true, true, true);
            var call := Call(Config(instance, 1, compactAfter), Acknowledge(b), weather);
            Fits(c, Acknowledged(b, 5)) ==> Forgets(c, d, call, b) && Step(c, d, call).1 == Acked(b)
  {
    var a, b := Key("client", "1"), Key("client", "2");
    var rows := [Row(a, "r", "i", 1, IsAcknowledged, Some("x"), Some(2), None, Some(5)),
                 Row(b, "r", "i", 3, IsCompleted, Some("y"), Some(4), None, None)];
    assert a != b;
    RowsReplay(rows);
    assert SettledAll(rows) == rows;
    var weather := Weather(5, [|Record(c, Acknowledged(b, 5))|], true, true, true);
    assert Progress(weather.writes) == weather.writes;
    AcknowledgementForgottenIff(
      c, Disk(LogOf(rows), []), Call(Config(instance, 1, compactAfter), Acknowledge(b), weather), 1);
  }

  predicate Dispatches(r: Reply, k: Key) {
    r.Public? && r.dispatch && r.key == k
  }

  /** The go-ahead to dispatch is given only for a command the journal did not know,
      and only once its receipt is on disk and will survive. */
  lemma DispatchRecords(c: Codec, d: Disk, call: Call, k: Key)
    requires Replay(d.log).Legal? && Dispatches(Step(c, d, call).1, k)
    ensures Find(RowsOf(d), k).None?
    ensures match Find(RowsOf(Step(c, d, call).0), k)
            case Some(r) => r.state.IsReceived? && r.owner == call.cfg.instance
            case None => false
  {
    var rows := RowsOf(d);
    EffectRows(c, d, call);
    RowsOkOf(d);
    var decision := Decide(call.cfg, rows, call.command, call.weather.now);
    ReplyIsDecided(c, d, call);
    assert decision.Append? && decision.event.Received?;
    ReceivedRow(rows, decision.event, call.cfg.max);
  }

  lemma ReceivedRow(rows: Rows, e: Event, max: nat)
    requires RowsOk(rows) && e.Received? && Apply(rows, e).Legal?
    ensures var next := Apply(rows, e).rows;
            match (Find(next, e.key), Find(SettledAll(Kept(next, max)), e.key))
            case (Some(r), Some(s)) => r == s && r.state.IsReceived? && r.owner == e.owner
            case _ => false
  {
    var next := Apply(rows, e).rows;
    ApplyOk(rows, e);
    assert next[|rows|].key == e.key;
    FindAt(next, |rows|);
    FindCompacted(next, max, e.key);
  }

  // ----- runs --------------------------------------------------------------------

  function After(c: Codec, calls: seq<Call>): Disk {
    if calls == [] then Disk([], [])
    else Step(c, After(c, calls[..|calls| - 1]), calls[|calls| - 1]).0
  }

  function BytesAfter(c: Codec, calls: seq<Call>): seq<Byte> {
    if calls == [] then []
    else Respond(c, BytesAfter(c, calls[..|calls| - 1]), calls[|calls| - 1]).0
  }

  function ReplyOf(c: Codec, calls: seq<Call>, i: nat): Reply
    requires i < |calls|
  {
    Respond(c, BytesAfter(c, calls[..i]), calls[i]).1
  }

  /** Every file any run leaves behind, wherever it was interrupted, is a legal log
      with at most a torn tail: no run ever reads a corrupt journal. */
  lemma {:induction false} RunsStayLegal(c: Codec, calls: seq<Call>)
    requires Sound(c)
    ensures DiskOk(c, After(c, calls)) && BytesAfter(c, calls) == BytesOf(c, After(c, calls))
    ensures Read(c, BytesAfter(c, calls)) == Parsed(RowsOf(After(c, calls)), |Encode(c, After(c, calls).log)|)
  {
    if calls != [] {
      RunsStayLegal(c, calls[..|calls| - 1]);
      CallRefines(c, After(c, calls[..|calls| - 1]), calls[|calls| - 1]);
    }
    TornAppendRecovers(c, After(c, calls).log, After(c, calls).tail);
  }

  lemma ReplyIs(c: Codec, calls: seq<Call>, i: nat)
    requires Sound(c) && i < |calls|
    ensures ReplyOf(c, calls, i) == Step(c, After(c, calls[..i]), calls[i]).1
    ensures After(c, calls[..i + 1]) == Step(c, After(c, calls[..i]), calls[i]).0
  {
    RunsStayLegal(c, calls[..i]);
    CallRefines(c, After(c, calls[..i]), calls[i]);
    assert calls[..i + 1][..i] == calls[..i];
  }

  predicate ForgetsAt(c: Codec, calls: seq<Call>, k: Key, i: nat) {
    i < |calls| && Forgets(c, After(c, calls[..i]), calls[i], k)
  }

  ghost predicate ForgottenBetween(c: Codec, calls: seq<Call>, k: Key, from: nat, upto: nat) {
    exists m: nat | from <= m < upto :: ForgetsAt(c, calls, k, m)
  }

  function RowAt(c: Codec, calls: seq<Call>, i: nat, k: Key): Option<Row>
    requires i <= |calls|
  {
    Find(RowsOf(After(c, calls[..i])), k)
  }

  lemma KnownStep(c: Codec, calls: seq<Call>, i: nat, k: Key)
    requires Sound(c) && i < |calls| && RowAt(c, calls, i, k).Some?
    requires !ForgetsAt(c, calls, k, i)
    ensures RowAt(c, calls, i + 1, k).Some?
    ensures Advances(RowAt(c, calls, i, k).value, RowAt(c, calls, i + 1, k).value)
  {
    ReplyIs(c, calls, i);
    RunsStayLegal(c, calls[..i]);
    CallAdvances(c, After(c, calls[..i]), calls[i], k);
  }

  lemma AdvancesFurther(a: Row, b: Row, c: Row)
    requires Advances(a, b) && Advances(b, c)
    ensures Advances(a, c)
  {
  }

  /** Between two points of a run a command stays known and advances, unless its
      tombstone was compacted away in between. */
  lemma {:induction false} StaysKnown(c: Codec, calls: seq<Call>, k: Key, from: nat, upto: nat)
    requires Sound(c) && from <= upto <= |calls| && !ForgottenBetween(c, calls, k, from, upto)
    requires RowAt(c, calls, from, k).Some?
    ensures RowAt(c, calls, upto, k).Some?
    ensures Advances(RowAt(c, calls, from, k).value, RowAt(c, calls, upto, k).value)
    decreases upto
  {
    if from < upto {
      assert !ForgetsAt(c, calls, k, upto - 1);
      StaysKnown(c, calls, k, from, upto - 1);
      KnownStep(c, calls, upto - 1, k);
      AdvancesFurther(
        RowAt(c, calls, from, k).value, RowAt(c, calls, upto - 1, k).value, RowAt(c, calls, upto, k).value);
    }
  }

  /** At-most-once dispatch, over every run: two go-aheads for one command have the
      disposal of its acknowledged tombstone between them. */
  lemma AtMostOnce(c: Codec, calls: seq<Call>, k: Key, i: nat, j: nat)
    requires Sound(c) && i < j < |calls|
    requires Dispatches(ReplyOf(c, calls, i), k) && Dispatches(ReplyOf(c, calls, j), k)
    ensures exists m: nat | i < m < j ::
              && ForgetsAt(c, calls, k, m)
              && Outnumbered(c, After(c, calls[..m]), calls[m], k)
  {
    ReplyIs(c, calls, i);
    ReplyIs(c, calls, j);
    RunsStayLegal(c, calls[..i]);
    RunsStayLegal(c, calls[..j]);
    DispatchRecords(c, After(c, calls[..i]), calls[i], k);
    DispatchRecords(c, After(c, calls[..j]), calls[j], k);
    if !ForgottenBetween(c, calls, k, i + 1, j) {
      StaysKnown(c, calls, k, i + 1, j);
      assert false;
    }
    var m: nat :| i + 1 <= m < j && ForgetsAt(c, calls, k, m);
    RunsStayLegal(c, calls[..m]);
    CallAdvances(c, After(c, calls[..m]), calls[m], k);
  }

  // ----- results -------------------------------------------------------------------

  predicate Answers(r: Reply, k: Key) {
    r.Public? && r.key == k && r.result.Some?
  }

  lemma CompletedRow(rows: Rows, e: Event, max: nat)
    requires RowsOk(rows) && e.Completed? && Apply(rows, e).Legal?
    ensures var next := Apply(rows, e).rows;
            match (Find(next, e.key), Find(SettledAll(Kept(next, max)), e.key))
            case (Some(r), Some(s)) => r.result == s.result == Some(e.result)
            case _ => false
  {
    var i := IndexOf(rows, e.key);
    var next := Apply(rows, e).rows;
    ApplyOk(rows, e);
    assert next[i].key == e.key;
    FindAt(next, i);
    FindCompacted(next, max, e.key);
  }

  /** A result is handed out only if the journal holds it. */
  lemma AnswerIsRecorded(c: Codec, d: Disk, call: Call, k: Key)
    requires Replay(d.log).Legal? && Answers(Step(c, d, call).1, k)
    ensures match Find(RowsOf(Step(c, d, call).0), k)
            case Some(r) => r.result == Step(c, d, call).1.result
            case None => false
  {
    var rows := RowsOf(d);
    EffectRows(c, d, call);
    RowsOkOf(d);
    var decision := Decide(call.cfg, rows, call.command, call.weather.now);
    ReplyIsDecided(c, d, call);
    if decision.Append? {
      DecisionReplays(call.cfg, rows, call.command, call.weather.now);
      assert decision.event.Completed? && decision.event.key == k;
      CompletedRow(rows, decision.event, call.cfg.max);
    }
  }

  /** Over every run, all the answers given for one command carry the same result,
      until its tombstone is compacted away. */
  lemma ResultsAgree(c: Codec, calls: seq<Call>, k: Key, i: nat, j: nat)
    requires Sound(c) && i < j < |calls|
    requires Answers(ReplyOf(c, calls, i), k) && Answers(ReplyOf(c, calls, j), k)
    ensures || ReplyOf(c, calls, i).result == ReplyOf(c, calls, j).result
            || ForgottenBetween(c, calls, k, i + 1, j)
  {
    ReplyIs(c, calls, i);
    ReplyIs(c, calls, j);
    RunsStayLegal(c, calls[..i]);
    RunsStayLegal(c, calls[..j]);
    AnswerIsRecorded(c, After(c, calls[..i]), calls[i], k);
    AnswerIsRecorded(c, After(c, calls[..j]), calls[j], k);
    if !ForgottenBetween(c, calls, k, i + 1, j) {
      StaysKnown(c, calls, k, i + 1, j);
      CallAdvances(c, After(c, calls[..j]), calls[j], k);
    }
  }

  // ----- bounds ----------------------------------------------------------------------

  lemma UnacknowledgedSnoc(rows: Rows, r: Row)
    ensures |Unacknowledged(rows + [r])| == |Unacknowledged(rows)| + if r.state.IsAcknowledged? then 0 else 1
  {
    if rows == [] {
      assert rows + [r] == [r];
    } else {
      assert (rows + [r])[0] == rows[0] && (rows + [r])[1..] == rows[1..] + [r];
      UnacknowledgedSnoc(rows[1..], r);
    }
  }

  lemma UnacknowledgedUpdate(rows: Rows, i: nat, r: Row)
    requires i < |rows| && (r.state.IsAcknowledged? || !rows[i].state.IsAcknowledged?)
    ensures |Unacknowledged(rows[i := r])| <= |Unacknowledged(rows)|
  {
    if i == 0 {
      assert rows[0 := r][1..] == rows[1..];
    } else {
      assert rows[i := r][0] == rows[0] && rows[i := r][1..] == rows[1..][i - 1 := r];
      UnacknowledgedUpdate(rows[1..], i - 1, r);
    }
  }

  lemma UnacknowledgedSettled(rows: Rows)
    ensures |Unacknowledged(SettledAll(rows))| == |Unacknowledged(rows)|
  {
    if rows != [] {
      UnacknowledgedSettled(rows[1..]);
      assert SettledAll(rows)[1..] == SettledAll(rows[1..]);
    }
  }

  lemma DecisionBounded(cfg: Config, rows: Rows, command: Command, now: Time)
    requires Decide(cfg, rows, command, now).Append? && |Unacknowledged(rows)| <= cfg.max
    ensures var e := Decide(cfg, rows, command, now).event;
            Apply(rows, e).Legal? && |Unacknowledged(Apply(rows, e).rows)| <= cfg.max
  {
    var e := Decide(cfg, rows, command, now).event;
    var i := IndexOf(rows, e.key);
    if e.Received? {
      UnacknowledgedSnoc(rows, Row(e.key, e.request, e.owner, e.ts, IsReceived, None, None, None, None));
    } else {
      UnacknowledgedUpdate(rows, i, Apply(rows, e).rows[i]);
    }
  }

  lemma CallBounded(c: Codec, d: Disk, call: Call)
    requires Replay(d.log).Legal? && |Unacknowledged(RowsOf(d))| <= call.cfg.max
    ensures |Unacknowledged(RowsOf(Step(c, d, call).0))| <= call.cfg.max
    ensures EffectOf(c, d, call).CompactedAfter? ==> |Step(c, d, call).0.log| <= 5 * call.cfg.max
  {
    var rows := RowsOf(d);
    EffectRows(c, d, call);
    var decision := Decide(call.cfg, rows, call.command, call.weather.now);
    if decision.Append? {
      DecisionBounded(call.cfg, rows, call.command, call.weather.now);
      if EffectOf(c, d, call).CompactedAfter? {
        var next := Apply(rows, decision.event).rows;
        CompactionBound(next, call.cfg.max);
        UnacknowledgedSettled(Kept(next, call.cfg.max));
      }
    }
  }

  /** When all instances share one limit, no run holds more open commands than that,
      and every compaction leaves at most five records for each. */
  lemma {:induction false} RunsStayBounded(c: Codec, calls: seq<Call>, max: nat)
    requires Sound(c) && forall i | 0 <= i < |calls| :: calls[i].cfg.max == max
    ensures |Unacknowledged(RowsOf(After(c, calls)))| <= max
    ensures calls != [] && EffectOf(c, After(c, calls[..|calls| - 1]), calls[|calls| - 1]).CompactedAfter?
            ==> |After(c, calls).log| <= 5 * max
  {
    if calls != [] {
      RunsStayBounded(c, calls[..|calls| - 1], max);
      RunsStayLegal(c, calls[..|calls| - 1]);
      CallBounded(c, After(c, calls[..|calls| - 1]), calls[|calls| - 1]);
    }
  }
}
