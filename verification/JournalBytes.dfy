/** The journal on disk: newline-terminated records, torn tails and reading back. */
module JournalBytes {
  import opened Options
  import opened JournalModel

  /** How one checksummed JSON line is written and validated. */
  datatype Codec = Codec(encode: Event -> seq<Byte>, decode: seq<Byte> -> Option<Event>)

  ghost predicate NoNewline(b: seq<Byte>) {
    forall i | 0 <= i < |b| :: b[i] != NEWLINE
  }

  /** What the JSON encoding promises: a record reads back as its event and contains
      no newline of its own. */
  ghost predicate Sound(c: Codec) {
    forall e :: c.decode(c.encode(e)) == Some(e) && NoNewline(c.encode(e))
  }

  /** The size limit under which `_event` agrees to build a record. */
  predicate Fits(c: Codec, e: Event) {
    |c.encode(e)| <= MAX_EVENT_BYTES
  }

  predicate AllFit(c: Codec, log: seq<Event>) {
    forall e <- log :: Fits(c, e)
  }

  function Record(c: Codec, e: Event): seq<Byte> {
    c.encode(e) + [NEWLINE]
  }

  function Encode(c: Codec, log: seq<Event>): seq<Byte> {
    if log == [] then [] else Record(c, log[0]) + Encode(c, log[1..])
  }

  lemma EncodeAppend(c: Codec, a: seq<Event>, b: seq<Event>)
    ensures Encode(c, a + b) == Encode(c, a) + Encode(c, b)
  {
    if a == [] {
      assert a + b == b;
    } else {
      assert (a + b)[0] == a[0] && (a + b)[1..] == a[1..] + b;
      EncodeAppend(c, a[1..], b);
      assert Record(c, a[0]) + (Encode(c, a[1..]) + Encode(c, b)) == Encode(c, a) + Encode(c, b);
    }
  }

  // ----- reading -----------------------------------------------------------

  /** The end of the line that starts at `at`, its newline included. */
  function LineEnd(bytes: seq<Byte>, at: nat): (end: nat)
    requires at <= |bytes|
    ensures at <= end <= |bytes|
    ensures at < |bytes| ==> end > at
    decreases |bytes| - at
  {
    if at == |bytes| then at
    else if bytes[at] == NEWLINE then at + 1
    else LineEnd(bytes, at + 1)
  }

  /** How far `readline(MAX_EVENT_BYTES + 2)` gets. */
  function ReadLine(bytes: seq<Byte>, at: nat): (end: nat)
    requires at <= |bytes|
    ensures at <= end <= |bytes|
    ensures at < |bytes| ==> end > at
  {
    if LineEnd(bytes, at) - at <= MAX_EVENT_BYTES + 2 then LineEnd(bytes, at) else at + MAX_EVENT_BYTES + 2
  }

  datatype Parsed = Parsed(rows: Rows, validEnd: nat) | Unreadable

  /** `_read_locked` from a record boundary on. */
  function ReadFrom(c: Codec, bytes: seq<Byte>, at: nat, rows: Rows): (p: Parsed)
    requires at <= |bytes|
    ensures p.Parsed? ==> at <= p.validEnd <= |bytes|
    decreases |bytes| - at
  {
    var end := ReadLine(bytes, at);
    if end == at then Parsed(rows, at)
    else if end - at > MAX_EVENT_BYTES + 1 then Unreadable
    else if bytes[end - 1] != NEWLINE then Parsed(rows, at)
    else match c.decode(bytes[at..end - 1])
      case None => Unreadable
      case Some(e) =>
        match Apply(rows, e)
        case Corrupt => Unreadable
        case Legal(next) => ReadFrom(c, bytes, end, next)
  }

  function Read(c: Codec, bytes: seq<Byte>): Parsed {
    ReadFrom(c, bytes, 0, [])
  }

  lemma LineEndFinds(bytes: seq<Byte>, at: nat, n: nat)
    requires at + n < |bytes| && bytes[at + n] == NEWLINE
    requires forall i | at <= i < at + n :: bytes[i] != NEWLINE
    ensures LineEnd(bytes, at) == at + n + 1
    decreases n
  {
    if n > 0 {
      LineEndFinds(bytes, at + 1, n - 1);
    }
  }

  lemma LineEndMisses(bytes: seq<Byte>, at: nat)
    requires at <= |bytes|
    requires forall i | at <= i < |bytes| :: bytes[i] != NEWLINE
    ensures LineEnd(bytes, at) == |bytes|
    decreases |bytes| - at
  {
  }

  // ----- a legal log with a torn tail ---------------------------------------

  /** What an interrupted append may leave behind. */
  ghost predicate Torn(tail: seq<Byte>) {
    |tail| <= MAX_EVENT_BYTES && NoNewline(tail)
  }

  lemma PrefixIsTorn(c: Codec, e: Event, n: nat)
    requires Sound(c) && Fits(c, e) && n <= |c.encode(e)|
    ensures Torn(Record(c, e)[..n])
  {
    assert Record(c, e)[..n] == c.encode(e)[..n];
  }

  ghost predicate Readable(c: Codec, e: Event) {
    c.decode(c.encode(e)) == Some(e) && NoNewline(c.encode(e)) && Fits(c, e)
  }

  ghost predicate AllReadable(c: Codec, log: seq<Event>) {
    forall i | 0 <= i < |log| :: Readable(c, log[i])
  }

  /** The next record of the file is found where it starts and ends. */
  lemma RecordAt(c: Codec, bytes: seq<Byte>, at: nat, e: Event)
    requires Readable(c, e)
    requires at + |Record(c, e)| <= |bytes| && bytes[at..at + |Record(c, e)|] == Record(c, e)
    ensures var end := LineEnd(bytes, at);
            && end == at + |Record(c, e)| && bytes[end - 1] == NEWLINE
            && c.decode(bytes[at..end - 1]) == Some(e)
  {
    var line := c.encode(e);
    var n := |line|;
    var rec := bytes[at..at + n + 1];
    assert rec == Record(c, e) && rec[n] == NEWLINE;
    assert forall i | 0 <= i < n :: rec[i] == line[i] != NEWLINE;
    assert forall i | at <= i < at + n :: bytes[i] == rec[i - at];
    LineEndFinds(bytes, at, n);
    assert bytes[at..at + n] == rec[..n] == line;
  }

  lemma ReadRecord(c: Codec, bytes: seq<Byte>, at: nat, e: Event, rows: Rows)
    requires Readable(c, e)
    requires at + |Record(c, e)| <= |bytes| && bytes[at..at + |Record(c, e)|] == Record(c, e)
    ensures ReadFrom(c, bytes, at, rows)
            == match Apply(rows, e)
               case Legal(next) => ReadFrom(c, bytes, at + |Record(c, e)|, next)
               case Corrupt => Unreadable
  {
    RecordAt(c, bytes, at, e);
  }

  lemma ReadTail(c: Codec, bytes: seq<Byte>, at: nat, rows: Rows)
    requires at <= |bytes| && Torn(bytes[at..])
    ensures ReadFrom(c, bytes, at, rows) == Parsed(rows, at)
  {
    assert forall i | at <= i < |bytes| :: bytes[i] == bytes[at..][i - at];
    LineEndMisses(bytes, at);
  }

  lemma NextRecord(c: Codec, bytes: seq<Byte>, at: nat, log: seq<Event>, tail: seq<Byte>)
    requires at <= |bytes| && bytes[at..] == Encode(c, log) + tail && log != []
    ensures var n := |Record(c, log[0])|;
            at + n <= |bytes| && bytes[at..at + n] == Record(c, log[0])
            && bytes[at + n..] == Encode(c, log[1..]) + tail
  {
    var rec, rest := Record(c, log[0]), Encode(c, log[1..]) + tail;
    assert bytes[at..] == rec + rest;
    assert |bytes| - at == |rec| + |rest|;
    assert bytes[at..at + |rec|] == bytes[at..][..|rec|] == rec;
    assert bytes[at + |rec|..] == bytes[at..][|rec|..] == rest;
  }

  lemma {:induction false} ReadNext(
    c: Codec, bytes: seq<Byte>, at: nat, log: seq<Event>, tail: seq<Byte>, rows: Rows)
    requires AllReadable(c, log) && log != []
    requires at <= |bytes| && bytes[at..] == Encode(c, log) + tail
    ensures var next := at + |Record(c, log[0])|;
            && next <= |bytes| && bytes[next..] == Encode(c, log[1..]) + tail && AllReadable(c, log[1..])
            && ReadFrom(c, bytes, at, rows)
               == if Apply(rows, log[0]).Legal? then ReadFrom(c, bytes, next, Apply(rows, log[0]).rows) else Unreadable
  {
    NextRecord(c, bytes, at, log, tail);
    ReadRecord(c, bytes, at, log[0], rows);
  }

  lemma {:induction false} ReadNothing(c: Codec, bytes: seq<Byte>, at: nat, tail: seq<Byte>, rows: Rows)
    requires Torn(tail) && at <= |bytes| && bytes[at..] == Encode(c, []) + tail
    ensures at + |tail| == |bytes| && ReadFrom(c, bytes, at, rows) == Parsed(rows, at)
  {
    assert bytes[at..] == tail;
    ReadTail(c, bytes, at, rows);
  }

  /** What reading a log with a torn tail must give. */
  function Verdict(r: Replayed, end: nat): Parsed {
    match r case Legal(rows) => Parsed(rows, end) case Corrupt => Unreadable
  }

  lemma {:induction false} ReadLegal(
    c: Codec, bytes: seq<Byte>, at: nat, log: seq<Event>, tail: seq<Byte>, rows: Rows, end: nat)
    requires AllReadable(c, log) && Torn(tail) && ReplayFrom(rows, log).Legal?
    requires at <= |bytes| && bytes[at..] == Encode(c, log) + tail && end + |tail| == |bytes|
    ensures var p := ReadFrom(c, bytes, at, rows);
            p.Parsed? && p.validEnd == end && p.rows == ReplayFrom(rows, log).rows
    decreases |log|
  {
    if log == [] {
      ReadNothing(c, bytes, at, tail, rows);
    } else {
      ReadNext(c, bytes, at, log, tail, rows);
      var next, after := at + |Record(c, log[0])|, Apply(rows, log[0]).rows;
      ReadLegal(c, bytes, next, log[1..], tail, after, end);
    }
  }

  lemma {:induction false} ReadCorrupt(
    c: Codec, bytes: seq<Byte>, at: nat, log: seq<Event>, tail: seq<Byte>, rows: Rows)
    requires AllReadable(c, log) && ReplayFrom(rows, log).Corrupt?
    requires at <= |bytes| && bytes[at..] == Encode(c, log) + tail
    ensures ReadFrom(c, bytes, at, rows).Unreadable?
    decreases |log|
  {
    ReadNext(c, bytes, at, log, tail, rows);
    if Apply(rows, log[0]).Legal? {
      ReadCorrupt(c, bytes, at + |Record(c, log[0])|, log[1..], tail, Apply(rows, log[0]).rows);
    }
  }

  /** Reading a log that ends in a torn append folds exactly the whole records and
      marks the end of the last of them; a log that does not replay is refused. */
  lemma TornAppendRecovers(c: Codec, log: seq<Event>, tail: seq<Byte>)
    requires Sound(c) && AllFit(c, log) && Torn(tail)
    ensures Read(c, Encode(c, log) + tail)
            == Verdict(Replay(log), |Encode(c, log)|)
    ensures (Encode(c, log) + tail)[..|Encode(c, log)|] == Encode(c, log)
  {
    var bytes := Encode(c, log) + tail;
    assert bytes[0..] == bytes;
    assert forall i | 0 <= i < |log| :: log[i] in log;
    if Replay(log).Legal? {
      ReadLegal(c, bytes, 0, log, tail, [], |Encode(c, log)|);
    } else {
      ReadCorrupt(c, bytes, 0, log, tail, []);
    }
  }

  // ----- truncation of arbitrary bytes ---------------------------------------

  lemma LineEndShorter(bytes: seq<Byte>, at: nat, cut: nat)
    requires at <= cut <= |bytes| && LineEnd(bytes, at) <= cut
    ensures LineEnd(bytes[..cut], at) == LineEnd(bytes, at)
    decreases |bytes| - at
  {
  }

  lemma {:induction false} ReadAtEnd(c: Codec, bytes: seq<Byte>, rows: Rows)
    ensures ReadFrom(c, bytes, |bytes|, rows) == Parsed(rows, |bytes|)
  {
  }

  /** The reader goes on past the line at `at`, to `end`, with `next`. */
  predicate Passes(c: Codec, bytes: seq<Byte>, at: nat, rows: Rows, end: nat, next: Rows)
    requires at <= |bytes|
  {
    && end == LineEnd(bytes, at) && at < end <= at + MAX_EVENT_BYTES + 1 && bytes[end - 1] == NEWLINE
    && c.decode(bytes[at..end - 1]).Some?
    && Apply(rows, c.decode(bytes[at..end - 1]).value) == Legal(next)
  }

  lemma {:induction false} PassesOn(c: Codec, bytes: seq<Byte>, at: nat, rows: Rows, end: nat, next: Rows)
    requires at <= |bytes| && Passes(c, bytes, at, rows, end, next)
    ensures ReadFrom(c, bytes, at, rows) == ReadFrom(c, bytes, end, next)
  {
  }

  lemma {:induction false} PassesShorter(
    c: Codec, bytes: seq<Byte>, at: nat, rows: Rows, end: nat, next: Rows, cut: nat)
    requires at <= |bytes| && Passes(c, bytes, at, rows, end, next) && end <= cut <= |bytes|
    ensures Passes(c, bytes[..cut], at, rows, end, next)
  {
    LineEndShorter(bytes, at, cut);
    assert bytes[..cut][at..end - 1] == bytes[at..end - 1];
  }

  /** The reader stops where it is, or passes one record. */
  lemma {:induction false} StopsOrPasses(c: Codec, bytes: seq<Byte>, at: nat, rows: Rows)
    requires at <= |bytes| && ReadFrom(c, bytes, at, rows).Parsed?
    ensures || ReadFrom(c, bytes, at, rows) == Parsed(rows, at)
            || exists end: nat, next :: Passes(c, bytes, at, rows, end, next)
  {
    var end := ReadLine(bytes, at);
    if end > at && bytes[end - 1] == NEWLINE {
      var e := c.decode(bytes[at..end - 1]).value;
      assert Passes(c, bytes, at, rows, end, Apply(rows, e).rows);
    }
  }

  /** Truncating any readable file, however it came about, at the point the reader
      chose changes nothing: a second read sees the same rows and cuts nothing more. */
  lemma {:induction false} TruncationIsStable(c: Codec, bytes: seq<Byte>, at: nat, rows: Rows)
    requires at <= |bytes| && ReadFrom(c, bytes, at, rows).Parsed?
    ensures var p := ReadFrom(c, bytes, at, rows);
            ReadFrom(c, bytes[..p.validEnd], at, rows) == p
    decreases |bytes| - at
  {
    var p := ReadFrom(c, bytes, at, rows);
    StopsOrPasses(c, bytes, at, rows);
    if p == Parsed(rows, at) {
      ReadAtEnd(c, bytes[..at], rows);
    } else {
      var end: nat, next :| Passes(c, bytes, at, rows, end, next);
      PassesOn(c, bytes, at, rows, end, next);
      TruncationIsStable(c, bytes, end, next);
      PassesShorter(c, bytes, at, rows, end, next, p.validEnd);
      PassesOn(c, bytes[..p.validEnd], at, rows, end, next);
    }
  }
}
