/** The journal's operations: what each call answers, what it appends, and the object
    that carries it out on the shared file. */
module CommandJournal {
  import opened Options
  import opened JournalModel
  import opened JournalBytes

  datatype Command =
    | Receive(key: Key, request: string)
    | Complete(key: Key, result: string)
    | MarkUncertain(key: Key)
    | Acknowledge(key: Key)
    | Inspect(key: Key)

  datatype Status = Pending | InDoubt | Finished | Confirmed

  datatype Error = Conflict | Full | NoReceipt | WrongState | TooLarge | JournalCorrupt

  datatype Reply =
    | Public(key: Key, status: Status, dispatch: bool, result: Option<string>)
    | Acked(key: Key)
    | Unknown
    | Failed(error: Error)
    | Lost                     // the process died or the write failed: no answer

  /** One process's view of the shared journal. */
  datatype Config = Config(instance: string, max: nat, compactAfter: nat)

  /** What happens to a call besides its own logic: the clock, how many bytes each write
      of an append takes, whether they reach the disk, a compaction that succeeds or not,
      a reply that arrives or not. */
  datatype Weather = Weather(now: Time, writes: seq<int>, synced: bool, compacts: bool, answers: bool)

  datatype Call = Call(cfg: Config, command: Command, weather: Weather)

  // ----- decisions ---------------------------------------------------------

  function PublicOf(r: Row, instance: string): Reply {
    var status := match r.state
      case IsReceived => if r.owner == instance then Pending else InDoubt
      case IsUncertain => InDoubt
      case IsCompleted => Finished
      case IsAcknowledged => Confirmed;
    Public(r.key, status, false, if status == Finished then r.result else None)
  }

  datatype Decision = Answer(reply: Reply) | Append(event: Event, reply: Reply, force: bool)

  /** What a call does with the rows it has read. */
  function Decide(cfg: Config, rows: Rows, command: Command, now: Time): Decision {
    var found := Find(rows, command.key);
    match command
    case Receive(k, request) =>
      if found.Some? then
        Answer(if found.value.request != request then Failed(Conflict) else PublicOf(found.value, cfg.instance))
      else if |Unacknowledged(rows)| >= cfg.max then Answer(Failed(Full))
      else Append(Received(k, now, request, cfg.instance), Public(k, Pending, true, None), false)
    case Complete(k, result) =>
      if found.None? then Answer(Failed(NoReceipt))
      else if found.value.state.IsCompleted? then
        Answer(if found.value.result != Some(result) then Failed(Conflict) else PublicOf(found.value, cfg.instance))
      else if !Open(found.value.state) then Answer(Failed(WrongState))
      else Append(Completed(k, now, result), Public(k, Finished, false, Some(result)), false)
    case MarkUncertain(k) =>
      if found.None? then Answer(Failed(NoReceipt))
      else if found.value.state.IsUncertain? then Answer(PublicOf(found.value, cfg.instance))
      else if !found.value.state.IsReceived? then Answer(Failed(WrongState))
      else Append(Uncertain(k, now), Public(k, InDoubt, false, None), false)
    case Acknowledge(k) =>
      if found.None? then Answer(Failed(NoReceipt))
      else if found.value.state.IsAcknowledged? then Answer(Acked(k))
      else if !found.value.state.IsCompleted? then Answer(Failed(WrongState))
      else Append(Acknowledged(k, now), Acked(k), true)
    case Inspect(_) => Answer(if found.Some? then PublicOf(found.value, cfg.instance) else Unknown)
  }

  /** A decision to append is always legal: the new record replays. */
  lemma DecisionReplays(cfg: Config, rows: Rows, command: Command, now: Time)
    requires Decide(cfg, rows, command, now).Append?
    ensures Apply(rows, Decide(cfg, rows, command, now).event).Legal?
  {
  }

  function Prefix(bytes: seq<Byte>, n: nat): seq<Byte> {
    if n < |bytes| then bytes[..n] else bytes
  }

  /** The writes before the first one that makes no progress, fails or never happens. */
  function Progress(writes: seq<int>): seq<nat> {
    if writes == [] || writes[0] <= 0 then [] else [writes[0]] + Progress(writes[1..])
  }

  function Total(counts: seq<nat>): nat {
    if counts == [] then 0 else counts[0] + Total(counts[1..])
  }

  /** How many bytes the writes of a call could take before the append stops. */
  function Delivered(w: Weather): nat {
    Total(Progress(w.writes))
  }

  /** An append of so many bytes is whole and on disk. */
  predicate Durable(w: Weather, size: nat) {
    w.synced && size <= Delivered(w)
  }

  function ReplyUnder(w: Weather, reply: Reply): Reply {
    if w.answers then reply else Lost
  }

  /** A whole call on the bytes of the file: the file it leaves and the reply. */
  function Respond(c: Codec, bytes: seq<Byte>, call: Call): (seq<Byte>, Reply) {
    match Read(c, bytes)
    case Unreadable => (bytes, Failed(JournalCorrupt))
    case Parsed(rows, end) =>
      match Decide(call.cfg, rows, call.command, call.weather.now)
      case Answer(reply) => (bytes[..end], ReplyUnder(call.weather, reply))
      case Append(e, reply, force) => Commit(c, bytes[..end], rows, call, e, reply, force)
  }

  predicate Compacts(call: Call, size: nat, force: bool) {
    call.weather.compacts && (force || size >= call.cfg.compactAfter)
  }

  /** Append, fold, maybe compact, answer. */
  function Commit(c: Codec, bytes: seq<Byte>, rows: Rows, call: Call, e: Event, reply: Reply, force: bool):
    (seq<Byte>, Reply)
  {
    if !Fits(c, e) then (bytes, Failed(TooLarge))
    else if !Durable(call.weather, |Record(c, e)|) then
      (bytes + Prefix(Record(c, e), Delivered(call.weather)), Lost)
    else
      var appended := bytes + Record(c, e);
      match Apply(rows, e)
      case Corrupt => (appended, Failed(JournalCorrupt))
      case Legal(next) =>
        if !Compacts(call, |appended|, force) then (appended, ReplyUnder(call.weather, reply))
        else if !AllFit(c, Compacted(next, call.cfg.max)) then (appended, Failed(TooLarge))
        else (Encode(c, Compacted(next, call.cfg.max)), ReplyUnder(call.weather, reply))
  }

  // ----- the object ----------------------------------------------------------

  lemma LogOfStep(rows: Rows, i: nat)
    requires i < |rows|
    ensures LogOf(rows[..i + 1]) == LogOf(rows[..i]) + RowEvents(rows[i])
  {
    if i == 0 {
      assert rows[..1] == [rows[0]] && rows[..0] == [];
      assert LogOf([rows[0]]) == RowEvents(rows[0]) + LogOf([]);
    } else {
      LogOfStep(rows[1..], i - 1);
      assert rows[1..][..i] == rows[..i + 1][1..] && rows[1..][..i - 1] == rows[..i][1..];
    }
  }

  lemma AllFitAppend(c: Codec, a: seq<Event>, b: seq<Event>)
    ensures AllFit(c, a + b) <==> AllFit(c, a) && AllFit(c, b)
  {
    if AllFit(c, a + b) {
      assert forall e <- a :: e in a + b;
      assert forall e <- b :: e in a + b;
    }
  }

  /** One more row written by a compaction. */
  lemma RowWritten(c: Codec, rows: Rows, i: nat)
    requires i < |rows|
    ensures AllFit(c, LogOf(rows[..i + 1])) <==> AllFit(c, LogOf(rows[..i])) && AllFit(c, RowEvents(rows[i]))
    ensures Encode(c, LogOf(rows[..i + 1])) == Encode(c, LogOf(rows[..i])) + Encode(c, RowEvents(rows[i]))
  {
    LogOfStep(rows, i);
    AllFitAppend(c, LogOf(rows[..i]), RowEvents(rows[i]));
    EncodeAppend(c, LogOf(rows[..i]), RowEvents(rows[i]));
  }

  lemma EventOfRow(rows: Rows, i: nat, e: Event)
    requires i < |rows| && e in RowEvents(rows[i])
    ensures e in LogOf(rows)
  {
    if i > 0 {
      EventOfRow(rows[1..], i - 1, e);
    }
  }

  /** One row that does not fit spoils the whole log. */
  lemma RowTooLarge(c: Codec, rows: Rows, i: nat)
    requires i < |rows| && !AllFit(c, RowEvents(rows[i]))
    ensures !AllFit(c, LogOf(rows))
  {
    var e :| e in RowEvents(rows[i]) && !Fits(c, e);
    EventOfRow(rows, i, e);
  }

  /** The file every process opens; a missing file reads as an empty one. */
  class JournalFile {
    var bytes: seq<Byte>

    constructor ()
      ensures bytes == []
    {
      bytes := [];
    }
  }

  class Journal {
    const file: JournalFile
    const codec: Codec
    const cfg: Config

    constructor (f: JournalFile, c: Codec, instance: string, maxCommands: int, compactAfterBytes: int)
      ensures file == f && codec == c && cfg.instance == instance
      ensures 1 <= cfg.max <= 4096 && (1 <= maxCommands <= 4096 ==> cfg.max == maxCommands)
      ensures MAX_EVENT_BYTES <= cfg.compactAfter <= 64 * 1024 * 1024
    {
      file, codec := f, c;
      var max := if maxCommands > 4096 then 4096 else maxCommands;
      var size := if compactAfterBytes > 64 * 1024 * 1024 then 64 * 1024 * 1024 else compactAfterBytes;
      cfg := Config(instance, if max < 1 then 1 else max, if size < MAX_EVENT_BYTES then MAX_EVENT_BYTES else size);
    }

    /** Folds every whole record and cuts a torn tail off the file. */
    method ReadLocked() returns (r: Option<Rows>)
      modifies file
      ensures match Read(codec, old(file.bytes))
              case Parsed(rows, end) => r == Some(rows) && file.bytes == old(file.bytes)[..end]
              case Unreadable => r == None && file.bytes == old(file.bytes)
    {
      var rows: Rows := [];
      var validEnd := 0;
      while validEnd < |file.bytes|
        invariant validEnd <= |file.bytes| && file.bytes == old(file.bytes)
        invariant Read(codec, file.bytes) == ReadFrom(codec, file.bytes, validEnd, rows)
        decreases |file.bytes| - validEnd
      {
        var end := ReadLine(file.bytes, validEnd);
        if end - validEnd > MAX_EVENT_BYTES + 1 {
          return None;
        }
        if file.bytes[end - 1] != NEWLINE {
          break;
        }
        var event := codec.decode(file.bytes[validEnd..end - 1]);
        if event.None? {
          return None;
        }
        var next := Apply(rows, event.value);
        if next.Corrupt? {
          return None;
        }
        rows, validEnd := next.rows, end;
      }
      if validEnd != |file.bytes| {
        file.bytes := file.bytes[..validEnd];
      }
      return Some(rows);
    }

    /** Builds the canonical log in a temporary file and swaps it in; nothing changes
        when a record would be too large. */
    method CompactLocked(rows: Rows) returns (ok: bool)
      modifies file
      ensures ok == AllFit(codec, Compacted(rows, cfg.max))
      ensures file.bytes == if ok then Encode(codec, Compacted(rows, cfg.max)) else old(file.bytes)
    {
      var kept := Kept(rows, cfg.max);
      var temporary: seq<Byte> := [];
      for i := 0 to |kept|
        invariant file.bytes == old(file.bytes)
        invariant AllFit(codec, LogOf(kept[..i]))
        invariant temporary == Encode(codec, LogOf(kept[..i]))
      {
        var events := RowEvents(kept[i]);
        RowWritten(codec, kept, i);
        if !AllFit(codec, events) {
          RowTooLarge(codec, kept, i);
          return false;
        }
        temporary := temporary + Encode(codec, events);
      }
      assert kept[..|kept|] == kept;
      file.bytes := temporary;
      return true;
    }

    /** Appends one record in as many writes as it takes. The file grows by what the writes
        took, never more than the record, and the append succeeds exactly when that is the
        whole record and the sync succeeds. */
    method AppendLocked(encoded: seq<Byte>, w: Weather) returns (ok: bool)
      modifies file
      ensures file.bytes == old(file.bytes) + Prefix(encoded, Delivered(w))
      ensures ok == Durable(w, |encoded|)
    {
      var view, i := encoded, 0;
      ghost var done := 0;
      while view != []
        invariant 0 <= i <= |w.writes| && done <= |encoded| && view == encoded[done..]
        invariant file.bytes == old(file.bytes) + encoded[..done]
        invariant if view == [] then |encoded| <= Delivered(w)
                  else Delivered(w) == done + Total(Progress(w.writes[i..]))
        decreases |view|
      {
        if i == |w.writes| || w.writes[i] <= 0 {
          return false;
        }
        var written := if w.writes[i] > |view| then |view| else w.writes[i];
        file.bytes := file.bytes + view[..written];
        view, i, done := view[written..], i + 1, done + written;
      }
      return w.synced;
    }

    method CommitLocked(rows: Rows, e: Event, reply: Reply, force: bool, call: Call) returns (r: Reply)
      requires call.cfg == cfg
      modifies file
      ensures (file.bytes, r) == Commit(codec, old(file.bytes), rows, call, e, reply, force)
    {
      if !Fits(codec, e) {
        return Failed(TooLarge);
      }
      var ok := AppendLocked(Record(codec, e), call.weather);
      if !ok {
        return Lost;
      }
      var next := Apply(rows, e);
      if next.Corrupt? {
        return Failed(JournalCorrupt);
      }
      if Compacts(call, |file.bytes|, force) {
        var compacted := CompactLocked(next.rows);
        if !compacted {
          return Failed(TooLarge);
        }
      }
      return ReplyUnder(call.weather, reply);
    }

    method ReceiveCommand(k: Key, request: string, w: Weather) returns (r: Reply)
      modifies file
      ensures (file.bytes, r) == Respond(codec, old(file.bytes), Call(cfg, Receive(k, request), w))
    {
      var read := ReadLocked();
      if read.None? {
        return Failed(JournalCorrupt);
      }
      var rows := read.value;
      var existing := Find(rows, k);
      if existing.Some? {
        if existing.value.request != request {
          return ReplyUnder(w, Failed(Conflict));
        }
        return ReplyUnder(w, PublicOf(existing.value, cfg.instance));
      }
      if |Unacknowledged(rows)| >= cfg.max {
        return ReplyUnder(w, Failed(Full));
      }
      r := CommitLocked(rows, Received(k, w.now, request, cfg.instance), Public(k, Pending, true, None), false,
                        Call(cfg, Receive(k, request), w));
    }

    method CompleteCommand(k: Key, result: string, w: Weather) returns (r: Reply)
      modifies file
      ensures (file.bytes, r) == Respond(codec, old(file.bytes), Call(cfg, Complete(k, result), w))
    {
      var read := ReadLocked();
      if read.None? {
        return Failed(JournalCorrupt);
      }
      var rows := read.value;
      var existing := Find(rows, k);
      if existing.None? {
        return ReplyUnder(w, Failed(NoReceipt));
      }
      if existing.value.state.IsCompleted? {
        if existing.value.result != Some(result) {
          return ReplyUnder(w, Failed(Conflict));
        }
        return ReplyUnder(w, PublicOf(existing.value, cfg.instance));
      }
      if !Open(existing.value.state) {
        return ReplyUnder(w, Failed(WrongState));
      }
      r := CommitLocked(rows, Completed(k, w.now, result), Public(k, Finished, false, Some(result)), false,
                        Call(cfg, Complete(k, result), w));
    }

    method MarkCommandUncertain(k: Key, w: Weather) returns (r: Reply)
      modifies file
      ensures (file.bytes, r) == Respond(codec, old(file.bytes), Call(cfg, MarkUncertain(k), w))
    {
      var read := ReadLocked();
      if read.None? {
        return Failed(JournalCorrupt);
      }
      var rows := read.value;
      var existing := Find(rows, k);
      if existing.None? {
        return ReplyUnder(w, Failed(NoReceipt));
      }
      if existing.value.state.IsUncertain? {
        return ReplyUnder(w, PublicOf(existing.value, cfg.instance));
      }
      if !existing.value.state.IsReceived? {
        return ReplyUnder(w, Failed(WrongState));
      }
      r := CommitLocked(rows, Uncertain(k, w.now), Public(k, InDoubt, false, None), false,
                        Call(cfg, MarkUncertain(k), w));
    }

    method AcknowledgeCommand(k: Key, w: Weather) returns (r: Reply)
      modifies file
      ensures (file.bytes, r) == Respond(codec, old(file.bytes), Call(cfg, Acknowledge(k), w))
    {
      var read := ReadLocked();
      if read.None? {
        return Failed(JournalCorrupt);
      }
      var rows := read.value;
      var existing := Find(rows, k);
      if existing.None? {
        return ReplyUnder(w, Failed(NoReceipt));
      }
      if existing.value.state.IsAcknowledged? {
        return ReplyUnder(w, Acked(k));
      }
      if !existing.value.state.IsCompleted? {
        return ReplyUnder(w, Failed(WrongState));
      }
      r := CommitLocked(rows, Acknowledged(k, w.now), Acked(k), true, Call(cfg, Acknowledge(k), w));
    }

    method InspectCommand(k: Key, w: Weather) returns (r: Reply)
      modifies file
      ensures (file.bytes, r) == Respond(codec, old(file.bytes), Call(cfg, Inspect(k), w))
    {
      var read := ReadLocked();
      if read.None? {
        return Failed(JournalCorrupt);
      }
      var row := Find(read.value, k);
      return ReplyUnder(w, if row.Some? then PublicOf(row.value, cfg.instance) else Unknown);
    }
  }
}
