/** Exactly when the blame parser gives back what git printed. */
module BlameExact {
  import opened Options
  import opened BlameText
  import opened BlameUtf8
  import opened Blame
  import opened BlameProofs
  import opened BlameRoundTrip

  // ----- what is parsed holds no line break ---------------------------------------------

  predicate TidyState(st: State) {
    && (forall k <- st.metadata :: OneLine(st.metadata[k]))
    && (forall i | 0 <= i < |st.records| :: Tidy(st.records[i]))
  }

  lemma PartitionIsTidy(line: string)
    requires OneLine(line)
    ensures var (word, rest) := Partition(line); OneLine(word) && (rest.Some? ==> OneLine(rest.value))
  {
  }

  lemma CompleteIsTidy(h: Header, m: Metadata, text: string)
    requires (forall k <- m :: OneLine(m[k])) && OneLine(text)
    ensures Complete(h, m, text).Some? ==> Tidy(Complete(h, m, text).value)
  {
    assert OneLine("");
    PartitionIsTidy(Get(m, "previous", ""));
  }

  lemma StepIsTidy(st: State, line: string, truncated: bool)
    requires TidyState(st) && OneLine(line)
    ensures TidyState(Step(st, line, truncated))
  {
    if st.header.Some? && Tabbed(line) {
      DecodeIsOneLine(line[1..]);
      CompleteIsTidy(st.header.value, st.metadata, Decode(line[1..]));
    } else if st.header.Some? {
      PartitionIsTidy(line);
      var value := Partition(line).1;
      if value.Some? {
        DecodeIsOneLine(value.value);
      }
    }
  }

  lemma {:induction false} LinesAreTidy(st: State, lines: seq<string>, truncated: bool)
    requires TidyState(st) && forall i | 0 <= i < |lines| :: OneLine(lines[i])
    ensures TidyState(Lines(st, lines, truncated))
    decreases |lines|
  {
    if lines != [] && st.progress.Going? {
      StepIsTidy(st, lines[0], truncated);
      LinesAreTidy(Step(st, lines[0], truncated), lines[1..], truncated);
    }
  }

  /** No text of a parsed record holds a line break, whatever the payload. */
  lemma ParsedIsTidy(payload: string, truncated: bool)
    requires Parse(payload, truncated).Parsed?
    ensures forall i | 0 <= i < |Parse(payload, truncated).records| :: Tidy(Parse(payload, truncated).records[i])
  {
    LinesAreTidy(Fresh([]), SplitLines(payload), truncated);
  }

  // ----- every line that starts with a tab becomes a record -------------------------------

  function Tabs(lines: seq<string>): nat {
    if lines == [] then 0 else (if Tabbed(lines[0]) then 1 else 0) + Tabs(lines[1..])
  }

  lemma {:induction false} TabsAppend(a: seq<string>, b: seq<string>)
    ensures Tabs(a + b) == Tabs(a) + Tabs(b)
  {
    if a == [] {
      assert a + b == b;
    } else {
      assert (a + b)[0] == a[0] && (a + b)[1..] == a[1..] + b;
      TabsAppend(a[1..], b);
    }
  }

  lemma {:induction false} NoTabs(lines: seq<string>)
    ensures Tabs(lines) == 0 <==> Untabbed(lines)
  {
    if lines != [] {
      NoTabs(lines[1..]);
      UntabbedFirst(lines[0], lines[1..]);
      assert lines == [lines[0]] + lines[1..];
    }
  }

  lemma TabIsNoHeader(line: string)
    requires Tabbed(line)
    ensures ParseHeader(line).None?
  {
    var word := Partition(line).0;
    assert word != "" && word[0] == '\t' && !IsHex(word[0]);
    assert Words(line)[0] == word;
  }

  lemma {:induction false} TabsAreRecords(st: State, lines: seq<string>, truncated: bool)
    requires st.progress.Going? && Lines(st, lines, truncated).progress.Going?
    ensures |Lines(st, lines, truncated).records| == |st.records| + Tabs(lines)
    decreases |lines|
  {
    if lines != [] {
      var next := Step(st, lines[0], truncated);
      if st.header.None? && Tabbed(lines[0]) {
        TabIsNoHeader(lines[0]);
      }
      assert next.progress.Going?;
      TabsAreRecords(next, lines[1..], truncated);
    }
  }

  lemma {:induction false} LinesExtend(st: State, lines: seq<string>, truncated: bool)
    ensures st.records <= Lines(st, lines, truncated).records
    decreases |lines|
  {
    if lines != [] && st.progress.Going? {
      LinesExtend(Step(st, lines[0], truncated), lines[1..], truncated);
    }
  }

  // ----- counting the source lines ----------------------------------------------------------

  ghost predicate AllTidy(sources: seq<Source>) {
    forall i | 0 <= i < |sources| :: FromGit(sources[i]) && Tidy(sources[i].record)
  }

  ghost predicate AllUntabbed(sources: seq<Source>) {
    forall i | 0 <= i < |sources| :: Untabbed(Extra(sources[i]))
  }

  function ExtraTabs(sources: seq<Source>): nat {
    if sources == [] then 0 else Tabs(Extra(sources[0])) + ExtraTabs(sources[1..])
  }

  lemma TidyIsShown(r: Record)
    requires Tidy(r)
    ensures Shown(r) == r
  {
    assert r.text != "" ==> !Breaks(r.text[|r.text| - 1]);
  }

  lemma HeaderIsUntabbed(s: Source)
    requires IsCommit(s.record.commit)
    ensures !Tabbed(HeaderLine(s))
  {
    assert HeaderLine(s)[0] == s.record.commit[0] && IsHex(s.record.commit[0]);
  }

  lemma BodyTabs(s: Source)
    ensures Tabs(Body(s)) == Tabs(Extra(s))
  {
    var a, o := FieldLines(AuthorFields(s.record)), FieldLines(OtherFields(s.record));
    FieldsAreUntabbed(AuthorFields(s.record));
    FieldsAreUntabbed(OtherFields(s.record));
    NoTabs(a);
    NoTabs(o);
    TabsAppend(a, Extra(s));
    TabsAppend(a + Extra(s), o);
  }

  lemma {:induction false} TabsOne(line: string)
    ensures Tabs([line]) == if Tabbed(line) then 1 else 0
  {
    assert [line][1..] == [];
  }

  lemma SourceTabs(s: Source, more: string)
    requires FromGit(s) && Tidy(s.record)
    ensures Tabs(SplitLines(Join(SourceLines(s)) + more)) == Tabs(Extra(s)) + 1 + Tabs(SplitLines(more))
  {
    var h, t := [HeaderLine(s)], [ShownLine(s.record)];
    TidyIsShown(s.record);
    SplitSource(s, more);
    HeaderIsUntabbed(s);
    BodyTabs(s);
    TabsOne(HeaderLine(s));
    TabsOne(ShownLine(s.record));
    TabsAppend(t, SplitLines(more));
    TabsAppend(h, Body(s));
    TabsAppend(h + Body(s), t + SplitLines(more));
  }

  lemma {:induction false} PrintTabs(sources: seq<Source>)
    requires AllTidy(sources)
    ensures Tabs(SplitLines(Print(sources))) == |sources| + ExtraTabs(sources)
  {
    if sources != [] {
      PrintTabs(sources[1..]);
      SourceTabs(sources[0], Print(sources[1..]));
    }
  }

  lemma {:induction false} NoExtraTabs(sources: seq<Source>)
    requires ExtraTabs(sources) == 0
    ensures AllUntabbed(sources)
  {
    if sources != [] {
      NoExtraTabs(sources[1..]);
      NoTabs(Extra(sources[0]));
      forall i | 0 <= i < |sources| ensures Untabbed(Extra(sources[i])) {
        assert i > 0 ==> sources[i] == sources[1..][i - 1];
      }
    }
  }

  // ----- exactly when -----------------------------------------------------------------------

  /** If the first record comes back, the committer said nothing different about it. */
  lemma FirstComesBack(records: seq<Record>, s: Source, more: string, truncated: bool)
    requires FromGit(s) && Tidy(s.record) && Untabbed(Extra(s))
    requires var e := Lines(Fresh(records), SplitLines(Join(SourceLines(s)) + more), truncated);
             !e.progress.Raised? && records + [s.record] <= e.records
    ensures SaysTheSame(s)
    ensures Lines(Fresh(records), SplitLines(Join(SourceLines(s)) + more), truncated)
            == Lines(Fresh(records + [s.record]), SplitLines(more), truncated)
  {
    var text := s.record.text;
    TidyIsShown(s.record);
    SplitSource(s, more);
    DecodeEncode(text);
    ReadWhole(records, s, Encode(text), SplitLines(more), truncated);
    var done := Complete(HeaderOf(s), AllOf(s), text);
    LinesExtend(Fresh(records + [done.value]), SplitLines(more), truncated);
    SameNext(records, done.value, s.record, Lines(Fresh(records + [done.value]), SplitLines(more), truncated).records);
    RecordComesBackIff(s, text);
  }

  lemma SameNext(records: seq<Record>, a: Record, b: Record, all: seq<Record>)
    requires records + [a] <= all && records + [b] <= all
    ensures a == b
  {
    assert all[|records|] == (records + [a])[|records|] == (records + [b])[|records|];
  }

  lemma {:induction false} AllComeBack(records: seq<Record>, sources: seq<Source>, truncated: bool)
    requires AllTidy(sources) && AllUntabbed(sources)
    requires var e := Lines(Fresh(records), SplitLines(Print(sources)), truncated);
             !e.progress.Raised? && e.records == records + Records(sources)
    ensures forall i | 0 <= i < |sources| :: SaysTheSame(sources[i])
    decreases |sources|
  {
    if sources != [] {
      var s, rest := sources[0], sources[1..];
      Assoc(records, [s.record], Records(rest));
      FirstComesBack(records, s, Print(rest), truncated);
      AllComeBack(records + [s.record], rest, truncated);
      forall i | 0 <= i < |sources| ensures SaysTheSame(sources[i]) {
        assert i > 0 ==> sources[i] == rest[i - 1];
      }
    }
  }

  lemma TidyComesBack(sources: seq<Source>, truncated: bool)
    requires AllTidy(sources) && forall i | 0 <= i < |sources| :: Harmless(sources[i])
    ensures Parse(Print(sources), truncated) == Parsed(Records(sources), false)
  {
    forall i | 0 <= i < |sources| ensures Readable(sources[i]) && Shown(sources[i].record) == sources[i].record {
      TidyIsShown(sources[i].record);
    }
    RoundTrip(sources, truncated);
    assert ShownAll(sources) == Records(sources);
  }

  /** The lines of a payload end in exactly these records. */
  ghost predicate EndsIn(payload: string, records: seq<Record>, truncated: bool) {
    var e := Lines(Fresh([]), SplitLines(payload), truncated);
    e.progress.Going? && e.records == records
  }

  lemma ParsedEndsIn(payload: string, records: seq<Record>, truncated: bool)
    requires Parse(payload, truncated) == Parsed(records, false)
    ensures EndsIn(payload, records, truncated) && forall i | 0 <= i < |records| :: Tidy(records[i])
  {
    ParsedIsTidy(payload, truncated);
  }

  lemma EndsUntabbed(sources: seq<Source>, truncated: bool)
    requires AllTidy(sources) && EndsIn(Print(sources), Records(sources), truncated)
    ensures AllUntabbed(sources)
  {
    PrintTabs(sources);
    TabsAreRecords(Fresh([]), SplitLines(Print(sources)), truncated);
    NoExtraTabs(sources);
  }

  lemma EndsTheSame(sources: seq<Source>, truncated: bool)
    requires AllTidy(sources) && AllUntabbed(sources) && EndsIn(Print(sources), Records(sources), truncated)
    ensures forall i | 0 <= i < |sources| :: SaysTheSame(sources[i])
  {
    assert [] + Records(sources) == Records(sources);
    AllComeBack([], sources, truncated);
  }

  lemma TidyRecords(sources: seq<Source>)
    requires forall i | 0 <= i < |sources| :: FromGit(sources[i])
    requires forall i | 0 <= i < |Records(sources)| :: Tidy(Records(sources)[i])
    ensures AllTidy(sources)
  {
    forall i | 0 <= i < |sources| ensures Tidy(sources[i].record) {
      assert Records(sources)[i] == sources[i].record;
    }
  }

  /** If what git printed comes back, it was tidy and its committers were harmless. */
  lemma ComesBackOnlyIf(sources: seq<Source>, truncated: bool)
    requires forall i | 0 <= i < |sources| :: FromGit(sources[i])
    requires Parse(Print(sources), truncated) == Parsed(Records(sources), false)
    ensures AllTidy(sources) && AllUntabbed(sources) && forall i | 0 <= i < |sources| :: SaysTheSame(sources[i])
  {
    ParsedEndsIn(Print(sources), Records(sources), truncated);
    TidyRecords(sources);
    EndsUntabbed(sources, truncated);
    EndsTheSame(sources, truncated);
  }

  /** What git prints comes back as it was if and only if no text of a record holds a line
      break, and no line of a committer's fields starts with a tab or says anything else
      about the record. */
  lemma RoundTripIff(sources: seq<Source>, truncated: bool)
    requires forall i | 0 <= i < |sources| :: FromGit(sources[i])
    ensures Parse(Print(sources), truncated) == Parsed(Records(sources), false)
            <==> forall i | 0 <= i < |sources| :: Tidy(sources[i].record) && Harmless(sources[i])
  {
    if Parse(Print(sources), truncated) == Parsed(Records(sources), false) {
      ComesBackOnlyIf(sources, truncated);
    } else if forall i | 0 <= i < |sources| :: Tidy(sources[i].record) && Harmless(sources[i]) {
      TidyComesBack(sources, truncated);
    }
  }

  // ----- carriage returns --------------------------------------------------------------------

  /** The same source, its line ending in a carriage return. */
  function WithReturn(s: Source): Source {
    s.(record := s.record.(text := s.record.text + "\r"))
  }

  function WithReturns(sources: seq<Source>): (r: seq<Source>)
    ensures |r| == |sources| && forall i | 0 <= i < |sources| :: r[i] == WithReturn(sources[i])
  {
    if sources == [] then [] else [WithReturn(sources[0])] + WithReturns(sources[1..])
  }

  lemma ReturnShows(r: Record)
    ensures Shown(r.(text := r.text + "\r")) == r
  {
    var t := r.text;
    assert (t + "\r")[|t|] == '\r' && (t + "\r")[..|t|] == t;
  }

  lemma ReturnAgrees(s: Source)
    requires Harmless(s)
    ensures Harmless(WithReturn(s))
  {
    assert Extra(WithReturn(s)) == Extra(s);
    forall name: Name ensures Agreed(WithReturn(s), name) {
      assert Agreed(s, name);
    }
  }

  lemma ReturnIsReadable(s: Source)
    requires FromGit(s) && Tidy(s.record) && Harmless(s)
    ensures Readable(WithReturn(s)) && Shown(WithReturn(s).record) == s.record
  {
    ReturnShows(s.record);
    ReturnAgrees(s);
  }

  /** A file with CR LF endings: every source line ends in a carriage return, and comes
      back without it. */
  lemma TrailingReturnsAreLost(sources: seq<Source>, truncated: bool)
    requires AllTidy(sources) && forall i | 0 <= i < |sources| :: Harmless(sources[i])
    ensures Parse(Print(WithReturns(sources)), truncated) == Parsed(Records(sources), false)
  {
    var all := WithReturns(sources);
    forall i | 0 <= i < |all| ensures Readable(all[i]) && Shown(all[i].record) == sources[i].record {
      ReturnIsReadable(sources[i]);
    }
    RoundTrip(all, truncated);
    assert ShownAll(all) == Records(sources);
  }

  const ZEROS: string := "0000000000000000000000000000000000000000"

  /** One record of a file with CR LF endings: "a" and a carriage return come back as "a". */
  lemma ReturnExample()
    ensures var r := Record(ZEROS, 1, 1, "n", "e", 0, "+0000", "s", "f", None, false, "a");
            var s := Source(r.(text := "a\r"), None, "c", "m", 0, "+0000");
            Parse(Print([s]), false) == Parsed([r], false) && r != s.record
  {
    var r := Record(ZEROS, 1, 1, "n", "e", 0, "+0000", "s", "f", None, false, "a");
    var s := Source(r, None, "c", "m", 0, "+0000");
    assert |ZEROS| == 40;
    assert "a" + "\r" == "a\r";
    assert r.text[0] == 'a' && r.(text := "a\r").text[1] == '\r';
    OneReturnIsLost(s);
  }

  lemma OneReturnIsLost(s: Source)
    requires FromGit(s) && Tidy(s.record)
    requires OneLine(s.committer) && OneLine(s.committerMail) && OneLine(s.committerTz)
    ensures Parse(Print([WithReturn(s)]), false) == Parsed([s.record], false)
  {
    PlainCommitterIsHarmless(s);
    assert WithReturns([s]) == [WithReturn(s)] && Records([s]) == [s.record];
    TrailingReturnsAreLost([s], false);
  }

  // ----- a committer that speaks for the author ---------------------------------------------------

  lemma {:induction false} EncodeAppend(a: string, b: string)
    ensures Encode(a + b) == Encode(a) + Encode(b)
  {
    if a == "" {
      assert a + b == b;
    } else {
      assert (a + b)[0] == a[0] && (a + b)[1..] == a[1..] + b;
      EncodeAppend(a[1..], b);
      Assoc(Encode1(a[0]), Encode(a[1..]), Encode(b));
    }
  }

  const FORGERY: string := "\rauthor "

  lemma Regrouped(k: string, e: string, a: string, f: string)
    ensures k + (e + ("\r" + a) + f) == (k + e) + "\r" + (a + f)
  {
  }

  /** The committer's name breaks into a name and a line about the author. */
  lemma ForgedLine(c: string, m: string)
    ensures FieldLine(Field(Committer, Some(c + FORGERY + m)))
            == FieldLine(Field(Committer, Some(c))) + "\r" + FieldLine(Field(Author, Some(m)))
  {
    EncodeAppend(c + FORGERY, m);
    EncodeAppend(c, FORGERY);
    AsciiEncodes(FORGERY);
    assert FORGERY == "\r" + "author ";
    ForgedBytes(Encode(c), Encode(m));
  }

  lemma ForgedBytes(e: string, f: string)
    ensures Key(Committer) + (" " + (e + ("\r" + "author ") + f))
            == Key(Committer) + (" " + e) + "\r" + (Key(Author) + (" " + f))
  {
    assert Key(Author) + (" " + f) == "author " + f by {
      assert "author" + " " == "author ";
      Assoc("author", " ", f);
    }
    Assoc(Key(Committer), " ", e + ("\r" + "author ") + f);
    Assoc(Key(Committer), " ", e);
    Regrouped(Key(Committer) + " ", e, "author ", f);
  }

  function Forged(s: Source, c: string, m: string): seq<Field> {
    [Field(Committer, Some(c)), Field(Author, Some(m))] + CommitterFields(s)[1..]
  }

  lemma ForgedPrinted(s: Source, c: string, m: string)
    requires s.committer == c + FORGERY + m
    ensures var lines, printed := FieldLines(Forged(s, c, m)), FieldLines(CommitterFields(s));
            && |lines| == 5 && |printed| == 4 && printed[0] == lines[0] + "\r" + lines[1]
            && printed[1..] == lines[2..] && lines[1] != "" && lines[1][0] != '\n'
  {
    ForgedLine(c, m);
    KeyIsGood(Author);
    assert FieldLines(Forged(s, c, m))[1][0] == Key(Author)[0];
  }

  lemma ForgedIsOneLine(s: Source, c: string, m: string)
    requires OneLine(c) && OneLine(m) && OneLine(s.committerMail) && OneLine(s.committerTz)
    ensures OneLineEach(FieldLines(Forged(s, c, m)))
  {
    ShowIntIsOneLine(s.committerTime);
    FieldsAreOneLine(Forged(s, c, m));
  }

  lemma ForgedExtra(s: Source, c: string, m: string)
    requires s.committer == c + FORGERY + m
    requires OneLine(c) && OneLine(m) && OneLine(s.committerMail) && OneLine(s.committerTz)
    ensures Extra(s) == FieldLines(Forged(s, c, m))
  {
    ForgedPrinted(s, c, m);
    ForgedIsOneLine(s, c, m);
    ForgedSplit(FieldLines(Forged(s, c, m)), FieldLines(CommitterFields(s)));
  }

  lemma {:induction false} JoinForged(lines: seq<string>, printed: seq<string>)
    requires |lines| >= 2 && |printed| >= 1
    requires printed[0] == lines[0] + "\r" + lines[1] && printed[1..] == lines[2..]
    ensures Join(printed) == lines[0] + "\r" + Join(lines[1..])
    ensures lines[1] != "" ==> Join(lines[1..]) != "" && Join(lines[1..])[0] == lines[1][0]
  {
    var rest, more := lines[1..], "\n" + Join(lines[2..]);
    assert rest[0] == lines[1] && rest[1..] == lines[2..];
    Assoc(lines[1], "\n", Join(lines[2..]));
    Assoc(printed[0], "\n", Join(lines[2..]));
    Assoc(lines[0] + "\r", lines[1], more);
  }

  lemma {:induction false} ForgedSplit(lines: seq<string>, printed: seq<string>)
    requires |lines| >= 2 && |printed| >= 1 && OneLineEach(lines) && lines[1] != "" && lines[1][0] != '\n'
    requires printed[0] == lines[0] + "\r" + lines[1] && printed[1..] == lines[2..]
    ensures SplitLines(Join(printed)) == lines
  {
    var rest := lines[1..];
    JoinForged(lines, printed);
    SplitOne(lines[0], "\r", Join(rest));
    assert OneLineEach(rest);
    SplitJoin(rest, "");
    assert Join(rest) + "" == Join(rest) && rest + [] == rest;
    assert lines == [lines[0]] + rest;
  }

  /** Of what the record holds, some lines say only that the author is `m`. */
  ghost predicate OnlyNames(lines: seq<string>, m: string) {
    forall name | !OnlyCommitter(name) :: Said(lines, Key(name)) == if name == Author then Some(m) else None
  }

  lemma ForgedOnlyNames(s: Source, c: string, m: string)
    ensures OnlyNames(FieldLines(Forged(s, c, m)), m)
  {
    var fields := Forged(s, c, m);
    assert fields[1] == Field(Author, Some(m));
    assert forall i | 0 <= i < |fields| && i != 1 :: OnlyCommitter(fields[i].name);
    FieldSaid(fields, 1);
    forall name | !OnlyCommitter(name) && name != Author ensures Said(FieldLines(fields), Key(name)) == None {
      FieldUnsaid(fields, name);
    }
  }

  lemma NamedAgrees(s: Source, m: string, name: Name)
    requires OnlyNames(Extra(s), m) && name != Author
    ensures Agreed(s, name)
  {
  }

  lemma ForgedCompletes(s: Source, m: string, text: string)
    requires FromGit(s) && OnlyNames(Extra(s), m)
    ensures Complete(HeaderOf(s), AllOf(s), text) == Some(s.record.(name := m, text := text))
  {
    AuthorSaid(s, 0, Author, Key(Author), s.record.name, "");
    forall name: Name | name != Author ensures Agreed(s, name) {
      NamedAgrees(s, m, name);
    }
    MailComesBackIff(s);
    TimeComesBackIff(s);
    ZoneComesBackIff(s);
    BoundaryComesBackIff(s);
    PreviousComesBackIff(s);
    SummaryComesBack(s);
    FilenameComesBack(s);
    CompletesIff(s.record.(name := m), AllOf(s), text);
  }

  lemma PrintOne(s: Source)
    ensures Print([s]) == Join(SourceLines(s))
  {
    assert [s][1..] == [] && Join(SourceLines(s)) + "" == Join(SourceLines(s));
  }

  lemma ReadOne(s: Source, r: Record, truncated: bool)
    requires FromGit(s) && Tidy(s.record) && Untabbed(Extra(s))
    requires Complete(HeaderOf(s), AllOf(s), s.record.text) == Some(r)
    ensures Parse(Print([s]), truncated) == Parsed([r], false)
  {
    TidyIsShown(s.record);
    SplitSource(s, "");
    DecodeEncode(s.record.text);
    ReadWhole([], s, Encode(s.record.text), SplitLines(""), truncated);
    ReadAll(Join(SourceLines(s)), [r], truncated);
    PrintOne(s);
  }

  /** A carriage return in the committer's name is enough to replace the author. */
  lemma ForgedAuthorComesBack(s: Source, c: string, m: string, truncated: bool)
    requires FromGit(s) && Tidy(s.record) && s.committer == c + FORGERY + m
    requires OneLine(c) && OneLine(m) && OneLine(s.committerMail) && OneLine(s.committerTz)
    ensures Parse(Print([s]), truncated) == Parsed([s.record.(name := m)], false)
  {
    ForgedExtra(s, c, m);
    FieldsAreUntabbed(Forged(s, c, m));
    ForgedOnlyNames(s, c, m);
    ForgedCompletes(s, m, s.record.text);
    ReadOne(s, s.record.(name := m), truncated);
  }

  /** Committed by "x" with a carriage return and "author m" after it, the line of "n" is
      reported as one of "m". */
  lemma ForgedAuthorExample()
    ensures var r := Record(ZEROS, 1, 1, "n", "e", 0, "+0000", "s", "f", None, false, "a");
            var s := Source(r, None, "x\rauthor m", "m", 0, "+0000");
            Parse(Print([s]), false) == Parsed([r.(name := "m")], false)
  {
    var r := Record(ZEROS, 1, 1, "n", "e", 0, "+0000", "s", "f", None, false, "a");
    var s := Source(r, None, "x\rauthor m", "m", 0, "+0000");
    assert |ZEROS| == 40;
    assert "x\rauthor m" == "x" + FORGERY + "m";
    ForgedAuthorComesBack(s, "x", "m", false);
  }
}
