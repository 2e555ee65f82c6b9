/** The blame parser undoes the printer: exactly when no text of a record holds a line
    break and the committer's fields, broken into lines or not, do no harm. */
module BlameRoundTrip {
  import opened BlameText
  import opened BlameUtf8
  import opened Blame
  import opened BlameProofs

  ghost predicate AllReadable(sources: seq<Source>) {
    forall i | 0 <= i < |sources| :: Readable(sources[i])
  }

  // ----- lines of a record ------------------------------------------------------

  lemma OneLineAppend(a: string, b: string)
    requires OneLine(a) && OneLine(b)
    ensures OneLine(a + b)
  {
  }

  lemma HeaderIsOneLine(s: Source)
    requires IsCommit(s.record.commit)
    ensures OneLine(HeaderLine(s))
  {
    var o := Show(s.record.original);
    CommitIsWord(s.record.commit);
    ShowIntIsOneLine(s.record.original);
    ShowIntIsOneLine(s.record.final);
    if s.group.Some? {
      ShowIntIsOneLine(s.group.value);
    }
    assert OneLine(" ");
    OneLineAppend(" ", FinalAndGroup(s));
    OneLineAppend(o, " " + FinalAndGroup(s));
    OneLineAppend(" ", o + (" " + FinalAndGroup(s)));
  }

  ghost predicate OneLineEach(lines: seq<string>) {
    forall i | 0 <= i < |lines| :: OneLine(lines[i])
  }

  ghost predicate OneLineFields(fields: seq<Field>) {
    forall i | 0 <= i < |fields| :: fields[i].value.Some? ==> OneLine(fields[i].value.value)
  }

  lemma FieldsAreOneLine(fields: seq<Field>)
    requires OneLineFields(fields)
    ensures OneLineEach(FieldLines(fields))
  {
    forall i | 0 <= i < |fields| ensures OneLine(FieldLines(fields)[i]) {
      var f := fields[i];
      KeyIsGood(f.name);
      if f.value.Some? {
        EncodeIsOneLine(f.value.value);
        assert OneLine(" ");
        OneLineAppend(" ", Encode(f.value.value));
      }
    }
  }

  lemma AuthorIsOneLine(r: Record)
    requires Tidy(Shown(r))
    ensures OneLineFields(AuthorFields(r))
  {
    ShowIntIsOneLine(r.time);
  }

  lemma OthersAreOneLine(r: Record)
    requires Tidy(Shown(r))
    ensures OneLineFields(OtherFields(r))
  {
  }

  lemma PlainLines(s: Source)
    requires OneLine(s.committer) && OneLine(s.committerMail) && OneLine(s.committerTz)
    ensures Extra(s) == FieldLines(CommitterFields(s))
  {
    var lines := FieldLines(CommitterFields(s));
    ShowIntIsOneLine(s.committerTime);
    FieldsAreOneLine(CommitterFields(s));
    SplitJoin(lines, "");
    assert Join(lines) + "" == Join(lines) && lines + [] == lines;
  }

  /** Some lines say nothing about what the record holds. */
  ghost predicate Silent(lines: seq<string>) {
    forall name | !OnlyCommitter(name) :: Said(lines, Key(name)).None?
  }

  lemma CommitterIsSilent(s: Source)
    ensures Silent(FieldLines(CommitterFields(s)))
  {
    assert forall i | 0 <= i < 4 :: OnlyCommitter(CommitterFields(s)[i].name);
    forall name | !OnlyCommitter(name) ensures Said(FieldLines(CommitterFields(s)), Key(name)).None? {
      FieldUnsaid(CommitterFields(s), name);
    }
  }

  lemma SilenceAgrees(s: Source, name: Name)
    requires Silent(Extra(s))
    ensures Agreed(s, name)
  {
  }

  /** A committer without line breaks contributes four lines, and they do no harm. */
  lemma PlainCommitterIsHarmless(s: Source)
    requires OneLine(s.committer) && OneLine(s.committerMail) && OneLine(s.committerTz)
    ensures Harmless(s)
  {
    PlainLines(s);
    FieldsAreUntabbed(CommitterFields(s));
    CommitterIsSilent(s);
    forall name: Name ensures Agreed(s, name) {
      SilenceAgrees(s, name);
    }
  }

  // ----- the lines the parser finds ---------------------------------------------------

  lemma {:induction false} EncodeReturn(t: string)
    ensures Encode(t + "\r") == Encode(t) + "\r"
  {
    if t == "" {
      assert t + "\r" == "\r" && "\r"[1..] == "";
    } else {
      assert (t + "\r")[0] == t[0] && (t + "\r")[1..] == t[1..] + "\r";
      EncodeReturn(t[1..]);
    }
  }

  /** The source line without its carriage return, and what ends it. */
  function ShownLine(r: Record): string {
    "\t" + Encode(WithoutReturn(r.text))
  }

  function EndOf(t: string): string {
    if t != "" && t[|t| - 1] == '\r' then "\r" else ""
  }

  lemma TextLineIs(s: Source)
    requires Tidy(Shown(s.record))
    ensures TextLine(s) == ShownLine(s.record) + EndOf(s.record.text) && OneLine(ShownLine(s.record))
  {
    var t := s.record.text;
    EncodeIsOneLine(WithoutReturn(t));
    assert OneLine("\t");
    OneLineAppend("\t", Encode(WithoutReturn(t)));
    if EndOf(t) != "" {
      assert t == WithoutReturn(t) + "\r";
      EncodeReturn(WithoutReturn(t));
    }
  }

  lemma SplitTextLine(s: Source, more: string)
    requires Tidy(Shown(s.record))
    ensures SplitLines(TextLine(s) + "\n" + more) == [ShownLine(s.record)] + SplitLines(more)
  {
    var line, end := ShownLine(s.record), EndOf(s.record.text);
    TextLineIs(s);
    assert TextLine(s) + "\n" + more == line + (end + "\n") + more;
    assert end == "" ==> end + "\n" == "\n";
    assert end == "\r" ==> end + "\n" == "\r\n";
    SplitOne(line, end + "\n", more);
  }

  lemma JoinEnds(lines: seq<string>)
    requires lines != []
    ensures Join(lines) != "" && Join(lines)[|Join(lines)| - 1] == '\n'
  {
    if |lines| > 1 {
      JoinEnds(lines[1..]);
    } else {
      assert Join(lines[1..]) == "";
    }
  }

  lemma Assoc<T>(a: seq<T>, b: seq<T>, c: seq<T>)
    ensures a + b + c == a + (b + c)
  {
  }

  lemma Nested<T>(a: seq<T>, b: seq<T>, c: seq<T>, d: seq<T>)
    ensures a + b + c + d == a + (b + (c + d))
  {
  }

  lemma {:induction false} JoinThree(a: seq<string>, b: seq<string>, c: seq<string>, more: string)
    ensures Join(a + b + c) + more == Join(a) + (Join(b) + (Join(c) + more))
  {
    JoinAppend(a + b, c);
    JoinAppend(a, b);
    Nested(Join(a), Join(b), Join(c), more);
  }

  lemma FirstLinesAreOneLine(s: Source)
    requires IsCommit(s.record.commit) && Tidy(Shown(s.record))
    ensures var lines := [HeaderLine(s)] + FieldLines(AuthorFields(s.record));
            OneLineEach(lines)
  {
    HeaderIsOneLine(s);
    AuthorIsOneLine(s.record);
    FieldsAreOneLine(AuthorFields(s.record));
  }

  lemma BodyIs(s: Source)
    ensures [HeaderLine(s)] + FieldLines(AuthorFields(s.record)) + Extra(s) + FieldLines(OtherFields(s.record))
            == [HeaderLine(s)] + Body(s)
  {
  }

  /** Only the lines in the middle need to be found; those around them are as printed. */
  lemma {:induction false} SplitAround(first: seq<string>, middle: string, last: seq<string>, more: string)
    requires OneLineEach(first) && OneLineEach(last) && middle != "" && middle[|middle| - 1] == '\n'
    ensures SplitLines(Join(first) + (middle + (Join(last) + more)))
            == first + (SplitLines(middle) + (last + SplitLines(more)))
  {
    SplitJoin(last, more);
    SplitAtNewline(middle, Join(last) + more);
    SplitJoin(first, middle + (Join(last) + more));
  }

  /** The parser finds the header, the body and then whatever follows the fields. */
  lemma SplitHead(s: Source, more: string)
    requires IsCommit(s.record.commit) && Tidy(Shown(s.record))
    ensures SplitLines(Join(HeadLines(s)) + more) == [HeaderLine(s)] + Body(s) + SplitLines(more)
  {
    var first := [HeaderLine(s)] + FieldLines(AuthorFields(s.record));
    var middle, last := FieldLines(CommitterFields(s)), FieldLines(OtherFields(s.record));
    FirstLinesAreOneLine(s);
    OthersAreOneLine(s.record);
    FieldsAreOneLine(OtherFields(s.record));
    JoinEnds(middle);
    JoinThree(first, middle, last, more);
    SplitAround(first, Join(middle), last, more);
    Nested(first, Extra(s), last, SplitLines(more));
    BodyIs(s);
  }

  lemma JoinSource(s: Source, more: string)
    ensures Join(SourceLines(s)) + more == Join(HeadLines(s)) + (TextLine(s) + "\n" + more)
  {
    JoinAppend(HeadLines(s), [TextLine(s)]);
    assert [TextLine(s)][1..] == [];
    assert Join([TextLine(s)]) == TextLine(s) + "\n";
  }

  lemma SplitSource(s: Source, more: string)
    requires IsCommit(s.record.commit) && Tidy(Shown(s.record))
    ensures SplitLines(Join(SourceLines(s)) + more)
            == [HeaderLine(s)] + Body(s) + ([ShownLine(s.record)] + SplitLines(more))
  {
    JoinSource(s, more);
    SplitHead(s, TextLine(s) + "\n" + more);
    SplitTextLine(s, more);
  }

  // ----- the round trip -----------------------------------------------------------

  /** Reading the bytes of one record adds exactly that record, without a final return. */
  lemma ReadFirst(records: seq<Record>, s: Source, more: string, truncated: bool)
    requires Readable(s)
    ensures Lines(Fresh(records), SplitLines(Join(SourceLines(s)) + more), truncated)
            == Lines(Fresh(records + [Shown(s.record)]), SplitLines(more), truncated)
  {
    SplitSource(s, more);
    ReadWhole(records, s, Encode(WithoutReturn(s.record.text)), SplitLines(more), truncated);
    DecodeEncode(WithoutReturn(s.record.text));
    RecordComesBackIff(s, WithoutReturn(s.record.text));
  }

  lemma {:induction false} PrintSplit(sources: seq<Source>, tail: string)
    requires sources != []
    ensures Print(sources) + tail == Join(SourceLines(sources[0])) + (Print(sources[1..]) + tail)
  {
    var first, rest := Join(SourceLines(sources[0])), Print(sources[1..]);
    assert Print(sources) == first + rest;
    Assoc(first, rest, tail);
  }

  lemma {:induction false} ReadableParts(sources: seq<Source>)
    requires sources != [] && AllReadable(sources)
    ensures Readable(sources[0]) && AllReadable(sources[1..])
  {
  }

  lemma {:induction false} ShownSplit(records: seq<Record>, sources: seq<Source>)
    requires sources != []
    ensures records + [Shown(sources[0].record)] + ShownAll(sources[1..]) == records + ShownAll(sources)
  {
    assert ShownAll(sources) == [Shown(sources[0].record)] + ShownAll(sources[1..]);
  }

  lemma {:induction false} ReadSources(records: seq<Record>, sources: seq<Source>, tail: string, truncated: bool)
    requires AllReadable(sources)
    ensures Lines(Fresh(records), SplitLines(Print(sources) + tail), truncated)
            == Lines(Fresh(records + ShownAll(sources)), SplitLines(tail), truncated)
    decreases |sources|
  {
    if sources == [] {
      assert Print(sources) + tail == tail && records + [] == records;
    } else {
      ReadableParts(sources);
      PrintSplit(sources, tail);
      ReadFirst(records, sources[0], Print(sources[1..]) + tail, truncated);
      ReadSources(records + [Shown(sources[0].record)], sources[1..], tail, truncated);
      ShownSplit(records, sources);
    }
  }

  /** Parsing what was printed returns exactly the records, none of them incomplete, up to
      a carriage return at the end of a source line: every line of a file with CR LF
      endings has one, and comes back without it. */
  lemma RoundTrip(sources: seq<Source>, truncated: bool)
    requires AllReadable(sources)
    ensures Parse(Print(sources), truncated) == Parsed(ShownAll(sources), false)
  {
    ReadSources([], sources, "", truncated);
    ReadAll(Print(sources), ShownAll(sources), truncated);
  }

  lemma ReadAll(payload: string, records: seq<Record>, truncated: bool)
    requires Lines(Fresh([]), SplitLines(payload + ""), truncated)
             == Lines(Fresh([] + records), SplitLines(""), truncated)
    ensures Parse(payload, truncated) == Parsed(records, false)
  {
    assert payload + "" == payload && [] + records == records;
  }
}
