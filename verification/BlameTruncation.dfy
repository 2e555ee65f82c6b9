/** What the blame parser makes of output that was cut off at any byte. */
module BlameTruncation {
  import opened BlameText
  import opened BlameUtf8
  import opened Blame
  import opened BlameProofs
  import opened BlameRoundTrip

  // ----- a cut inside one record -----------------------------------------------------

  /** How reading truncated output ends: the records, and whether the last was incomplete. */
  predicate EndsWith(after: State, records: seq<Record>, incomplete: bool) {
    && !after.progress.Raised? && after.records == records
    && (after.progress.Broken? || after.header.Some?) == incomplete
  }

  /** Reading some bytes of truncated output adds these records. */
  ghost predicate Leaves(records: seq<Record>, bytes: string, rs: seq<Record>, incomplete: bool) {
    EndsWith(Lines(Fresh(records), SplitLines(bytes), true), records + rs, incomplete)
  }

  /** The bytes of a record before its source line, and all of them. */
  function HeadBytes(s: Source): nat {
    |Join(HeadLines(s))|
  }

  function AllBytes(s: Source): nat {
    |Join(SourceLines(s))|
  }

  /** A record of which only the first bytes of the text are left. */
  function WithText(s: Source, m: nat): Record {
    s.record.(text := Kept(WithoutReturn(s.record.text), m))
  }

  /** What the first `n` bytes of one record, not all of them, amount to: nothing at all,
      an incomplete record that is not reported, or the record with its text cut. */
  function CutTo(s: Source, n: nat): (seq<Record>, bool) {
    if n == 0 then ([], false)
    else if n <= HeadBytes(s) then ([], true)
    else ([WithText(s, n - HeadBytes(s) - 1)], false)
  }

  /** A line that is all there is leaves no record behind. */
  lemma CutHeader(records: seq<Record>, cut: string)
    requires cut != ""
    ensures EndsWith(Lines(Fresh(records), [cut], true), records, true)
  {
    assert [cut][1..] == [];
  }

  /** Neither does a header with fields. */
  lemma CutFields(records: seq<Record>, s: Source, lines: seq<string>)
    requires IsCommit(s.record.commit) && Untabbed(lines)
    ensures EndsWith(Lines(Fresh(records), [HeaderLine(s)] + lines, true), records, true)
  {
    ReadStart(records, s, lines, [], true);
    assert [HeaderLine(s)] + lines + [] == [HeaderLine(s)] + lines;
  }

  lemma HeadSplits(s: Source)
    ensures HeadLines(s)[0] == HeaderLine(s)
    ensures Join(HeadLines(s)) == HeaderLine(s) + "\n" + Join(HeadLines(s)[1..])
  {
  }

  /** The lines after the header are the body. */
  lemma FieldBytes(s: Source)
    requires IsCommit(s.record.commit) && Tidy(Shown(s.record))
    ensures SplitLines(Join(HeadLines(s)[1..])) == Body(s)
  {
    var tail := Join(HeadLines(s)[1..]);
    HeadSplits(s);
    HeaderIsOneLine(s);
    SplitNewline(HeaderLine(s), tail);
    SplitHead(s, "");
    assert Join(HeadLines(s)) + "" == Join(HeadLines(s)) && [HeaderLine(s)] + Body(s) + [] == [HeaderLine(s)] + Body(s);
    SameRest(HeaderLine(s), SplitLines(tail), Body(s));
  }

  lemma SameRest(line: string, a: seq<string>, b: seq<string>)
    requires [line] + a == [line] + b
    ensures a == b
  {
    assert a == ([line] + a)[1..] && b == ([line] + b)[1..];
  }

  lemma CutAt(line: string, tail: string, n: nat)
    requires n <= |line| + 1 + |tail|
    ensures (line + "\n" + tail)[..n]
            == if n <= |line| then line[..n] else line + "\n" + tail[..n - |line| - 1]
  {
  }

  /** A cut before the source line. */
  lemma CutHead(records: seq<Record>, s: Source, n: nat, bytes: string)
    requires Readable(s) && 0 < n <= HeadBytes(s) && bytes == Join(HeadLines(s))[..n]
    ensures Leaves(records, bytes, [], true)
  {
    var line, tail := HeaderLine(s), Join(HeadLines(s)[1..]);
    assert records + [] == records;
    HeadSplits(s);
    HeaderIsOneLine(s);
    CutAt(line, tail, n);
    if n <= |line| {
      SplitLast(line[..n]);
      CutHeader(records, line[..n]);
    } else {
      var m := n - |line| - 1;
      FieldBytes(s);
      BodyIsUntabbed(s);
      CutUntabbed(tail, m);
      SplitNewline(line, tail[..m]);
      CutFields(records, s, SplitLines(tail[..m]));
    }
  }

  lemma TabCut(text: string, end: string, m: nat)
    requires OneLine(text) && (end == "" || end == "\r") && m <= |text| + |end|
    ensures SplitLines(("\t" + text + end)[..m + 1]) == ["\t" + text[..if m <= |text| then m else |text|]]
  {
    var k := if m <= |text| then m else |text|;
    var line := "\t" + text[..k];
    assert OneLine(line);
    if m <= |text| {
      assert ("\t" + text + end)[..m + 1] == line;
      SplitLast(line);
    } else {
      assert ("\t" + text + end)[..m + 1] == line + "\r" + "";
      SplitOne(line, "\r", "");
    }
  }

  /** What is read of a source line of which `m` bytes are left. */
  lemma CutTextLine(s: Source, m: nat)
    requires Tidy(Shown(s.record)) && m < |TextLine(s)|
    ensures exists bytes :: SplitLines(TextLine(s)[..m + 1]) == ["\t" + bytes]
                            && Decode(bytes) == Kept(WithoutReturn(s.record.text), m)
  {
    var text := WithoutReturn(s.record.text);
    var k := if m <= |Encode(text)| then m else |Encode(text)|;
    TextLineIs(s);
    EncodeIsOneLine(text);
    TabCut(Encode(text), EndOf(s.record.text), m);
    DecodeCut(text, k);
    KeptAll(text, m, k);
    assert SplitLines(TextLine(s)[..m + 1]) == ["\t" + Encode(text)[..k]];
  }

  lemma KeptAll(text: string, m: nat, k: nat)
    requires k == if m <= |Encode(text)| then m else |Encode(text)|
    ensures Kept(text, m) == Kept(text, k)
  {
    if m > k {
      var i := KeptIsBeginning(text, m);
      var j := KeptIsBeginning(text, k);
    }
  }

  lemma CutJoin(s: Source, m: nat)
    requires m < |TextLine(s)|
    ensures HeadBytes(s) + m + 1 < AllBytes(s)
    ensures Join(SourceLines(s))[..HeadBytes(s) + m + 1] == Join(HeadLines(s)) + TextLine(s)[..m + 1]
  {
    JoinSource(s, "");
    assert Join(SourceLines(s)) + "" == Join(SourceLines(s));
    assert TextLine(s) + "\n" + "" == TextLine(s) + "\n";
  }

  /** A cut inside the source line. */
  lemma CutText(records: seq<Record>, s: Source, m: nat, bytes: string)
    requires Readable(s) && m < |TextLine(s)| && bytes == Join(HeadLines(s)) + TextLine(s)[..m + 1]
    ensures Leaves(records, bytes, [WithText(s, m)], false)
  {
    CutTextLine(s, m);
    var text :| SplitLines(TextLine(s)[..m + 1]) == ["\t" + text]
                && Decode(text) == Kept(WithoutReturn(s.record.text), m);
    SplitHead(s, TextLine(s)[..m + 1]);
    assert ["\t" + text] + [] == ["\t" + text];
    ReadWhole(records, s, text, [], true);
    RecordComesBackIff(s, Decode(text));
  }

  lemma SourceBytes(s: Source)
    ensures AllBytes(s) == HeadBytes(s) + |TextLine(s)| + 1
  {
    JoinSource(s, "");
    assert Join(SourceLines(s)) + "" == Join(SourceLines(s));
  }

  lemma CutInHead(s: Source, n: nat)
    requires n <= HeadBytes(s)
    ensures n <= AllBytes(s) && Join(SourceLines(s))[..n] == Join(HeadLines(s))[..n]
  {
    JoinSource(s, "");
    assert Join(SourceLines(s)) + "" == Join(SourceLines(s));
  }

  lemma CutEverything(records: seq<Record>, bytes: string)
    requires bytes == ""
    ensures Leaves(records, bytes, [], false)
  {
    assert records + [] == records;
  }

  /** Where the cut falls decides what is left of the record. */
  lemma CutRecord(records: seq<Record>, s: Source, n: nat, bytes: string)
    requires Readable(s) && n < AllBytes(s) && bytes == Join(SourceLines(s))[..n]
    ensures Leaves(records, bytes, CutTo(s, n).0, CutTo(s, n).1)
  {
    SourceBytes(s);
    if n == 0 {
      CutEverything(records, bytes);
    } else if n <= HeadBytes(s) {
      CutInHead(s, n);
      CutHead(records, s, n, bytes);
    } else {
      CutJoin(s, n - HeadBytes(s) - 1);
      CutText(records, s, n - HeadBytes(s) - 1, bytes);
    }
  }

  // ----- a cut anywhere -------------------------------------------------------------------

  /** What the first `n` bytes of the output amount to. */
  function Surviving(sources: seq<Source>, n: nat): (seq<Record>, bool) {
    if sources == [] then ([], false)
    else if n < AllBytes(sources[0]) then CutTo(sources[0], n)
    else
      var (rs, incomplete) := Surviving(sources[1..], n - AllBytes(sources[0]));
      ([Shown(sources[0].record)] + rs, incomplete)
  }

  lemma {:induction false} PrintCut(sources: seq<Source>, n: nat)
    requires sources != [] && n <= |Print(sources)|
    ensures var first, rest := Join(SourceLines(sources[0])), Print(sources[1..]);
            && |Print(sources)| == |first| + |rest|
            && Print(sources)[..n] == if n < |first| then first[..n] else first + rest[..n - |first|]
  {
  }

  lemma LeavesMore(records: seq<Record>, r: Record, first: string, more: string, rs: seq<Record>, incomplete: bool)
    requires Leaves(records + [r], more, rs, incomplete)
    requires Lines(Fresh(records), SplitLines(first + more), true)
             == Lines(Fresh(records + [r]), SplitLines(more), true)
    ensures Leaves(records, first + more, [r] + rs, incomplete)
  {
    Assoc(records, [r], rs);
  }

  lemma {:induction false} CutFrom(records: seq<Record>, sources: seq<Source>, n: nat, bytes: string)
    requires AllReadable(sources) && n <= |Print(sources)| && bytes == Print(sources)[..n]
    ensures Leaves(records, bytes, Surviving(sources, n).0, Surviving(sources, n).1)
    decreases |sources|
  {
    if sources == [] {
      CutEverything(records, bytes);
    } else {
      var s, rest := sources[0], sources[1..];
      ReadableParts(sources);
      PrintCut(sources, n);
      if n < AllBytes(s) {
        CutRecord(records, s, n, bytes);
      } else {
        var m := n - AllBytes(s);
        var more := Print(rest)[..m];
        ReadFirst(records, s, more, true);
        CutFrom(records + [Shown(s.record)], rest, m, more);
        LeavesMore(records, Shown(s.record), Join(SourceLines(s)), more, Surviving(rest, m).0, Surviving(rest, m).1);
      }
    }
  }

  /** However many bytes of the output survive, parsing them as truncated output never
      fails and returns exactly the records that were complete, the one whose text had
      begun, and whether another one had begun before its text. Source lines may end in
      a carriage return, which is not returned. */
  lemma TruncationIsSafe(sources: seq<Source>, n: nat)
    requires AllReadable(sources) && n <= |Print(sources)|
    ensures Parse(Print(sources)[..n], true) == Parsed(Surviving(sources, n).0, Surviving(sources, n).1)
  {
    CutFrom([], sources, n, Print(sources)[..n]);
    EndsParsed(Print(sources)[..n], Surviving(sources, n).0, Surviving(sources, n).1);
  }

  lemma EndsParsed(payload: string, records: seq<Record>, incomplete: bool)
    requires Leaves([], payload, records, incomplete)
    ensures Parse(payload, true) == Parsed(records, incomplete)
  {
    assert [] + records == records;
  }

  predicate IsCut(r: Record, s: Source, m: nat) {
    r == WithText(s, m)
  }

  ghost predicate CutSomewhere(r: Record, s: Source) {
    exists m: nat :: IsCut(r, s, m)
  }

  /** All but perhaps the last are whole; that one lacks at most the end of its text. */
  ghost predicate FirstOf(rs: seq<Record>, sources: seq<Source>) {
    && |rs| <= |sources|
    && (forall i | 0 <= i < |rs| - 1 :: rs[i] == Shown(sources[i].record))
    && (rs != [] ==> CutSomewhere(rs[|rs| - 1], sources[|rs| - 1]))
  }

  lemma WholeText(s: Source)
    ensures Shown(s.record) == WithText(s, |Encode(WithoutReturn(s.record.text))|)
  {
    var text := WithoutReturn(s.record.text);
    var k := KeptIsBeginning(text, |Encode(text)|);
  }

  lemma FirstOfMore(s: Source, rs: seq<Record>, sources: seq<Source>)
    requires sources != [] && s == sources[0] && FirstOf(rs, sources[1..])
    ensures FirstOf([Shown(s.record)] + rs, sources)
  {
    var all := [Shown(s.record)] + rs;
    if rs == [] {
      WholeText(s);
      assert IsCut(all[|all| - 1], sources[0], |Encode(WithoutReturn(s.record.text))|);
    } else {
      assert all[|all| - 1] == rs[|rs| - 1] && sources[|all| - 1] == sources[1..][|rs| - 1];
    }
    forall i | 0 <= i < |all| - 1 ensures all[i] == Shown(sources[i].record) {
      assert i > 0 ==> all[i] == rs[i - 1] && sources[i] == sources[1..][i - 1];
    }
  }

  lemma CutToIsFirst(sources: seq<Source>, n: nat)
    requires sources != []
    ensures FirstOf(CutTo(sources[0], n).0, sources) && (CutTo(sources[0], n).1 ==> CutTo(sources[0], n).0 == [])
  {
    var s := sources[0];
    if n > HeadBytes(s) {
      assert IsCut(CutTo(s, n).0[0], s, n - HeadBytes(s) - 1);
    }
  }

  /** How what survives of a record and of the rest go together. */
  ghost predicate Survive(rs: seq<Record>, incomplete: bool, sources: seq<Source>) {
    FirstOf(rs, sources) && (incomplete ==> |rs| < |sources|)
  }

  lemma SurviveMore(s: Source, rs: seq<Record>, incomplete: bool, sources: seq<Source>)
    requires sources != [] && s == sources[0] && Survive(rs, incomplete, sources[1..])
    ensures Survive([Shown(s.record)] + rs, incomplete, sources)
  {
    FirstOfMore(s, rs, sources);
  }

  /** The survivors are the first records, all whole but perhaps the last; that one lacks
      only the end of its text, where a character cut in half shows as a replacement; and
      a record reported as incomplete is not among them. */
  lemma {:induction false} SurvivorsAreFirst(sources: seq<Source>, n: nat)
    ensures Survive(Surviving(sources, n).0, Surviving(sources, n).1, sources)
  {
    if sources != [] {
      if n < AllBytes(sources[0]) {
        CutToIsFirst(sources, n);
      } else {
        var (rs, incomplete) := Surviving(sources[1..], n - AllBytes(sources[0]));
        SurvivorsAreFirst(sources[1..], n - AllBytes(sources[0]));
        SurviveMore(sources[0], rs, incomplete, sources);
      }
    }
  }
}
