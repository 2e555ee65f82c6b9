/** What the blame parser makes of the lines of one record. */
module BlameProofs {
  import opened Options
  import opened BlameText
  import opened BlameUtf8
  import opened Blame

  // ----- the header ------------------------------------------------------------

  lemma CommitIsWord(c: string)
    requires IsCommit(c)
    ensures NoSpace(c) && OneLine(c)
  {
    assert forall i | 0 <= i < |c| :: IsHex(c[i]);
  }

  lemma FinalWords(s: Source)
    ensures Words(FinalAndGroup(s))
            == [Show(s.record.final)] + if s.group.Some? then [Show(s.group.value)] else []
  {
    ShowIntIsOneLine(s.record.final);
    if s.group.Some? {
      var g := Show(s.group.value);
      ShowIntIsOneLine(s.group.value);
      WordsIs(g, None);
      assert g + "" == g;
      WordsIs(Show(s.record.final), Some(g));
    } else {
      WordsIs(Show(s.record.final), None);
    }
  }

  lemma HeaderWords(s: Source)
    requires IsCommit(s.record.commit)
    ensures Words(HeaderLine(s)) == [s.record.commit, Show(s.record.original)] + Words(FinalAndGroup(s))
  {
    CommitIsWord(s.record.commit);
    ShowIntIsOneLine(s.record.original);
    WordsIs(Show(s.record.original), Some(FinalAndGroup(s)));
    WordsIs(s.record.commit, Some(Show(s.record.original) + (" " + FinalAndGroup(s))));
  }

  lemma HeaderParses(s: Source)
    requires IsCommit(s.record.commit)
    ensures ParseHeader(HeaderLine(s)) == Some(HeaderOf(s))
  {
    HeaderWords(s);
    FinalWords(s);
    ValueShow(s.record.original);
    ValueShow(s.record.final);
  }

  function HeaderOf(s: Source): Header {
    Header(s.record.commit, s.record.original, s.record.final)
  }

  // ----- keys --------------------------------------------------------------------

  /** A field line is neither a source line nor split in the wrong place. */
  ghost predicate GoodKey(key: string) {
    key != "" && key[0] != '\t' && NoSpace(key)
  }

  predicate Letters(key: string) {
    key != "" && forall i | 0 <= i < |key| :: 'a' <= key[i] <= 'z' || key[i] == '-'
  }

  lemma KeyIsLetters(n: Name)
    ensures Letters(Key(n))
  {
    match n
    case Author =>
    case AuthorMail =>
    case AuthorTime =>
    case AuthorTz =>
    case Committer =>
    case CommitterMail =>
    case CommitterTime =>
    case CommitterTz =>
    case Summary =>
    case Boundary =>
    case PreviousOne =>
    case Filename =>
  }

  lemma LettersAreGood(key: string)
    requires Letters(key)
    ensures GoodKey(key) && OneLine(key) && forall i | 0 <= i < |key| :: Code(key[i]) < 0x80
  {
  }

  lemma KeyIsGood(n: Name)
    ensures GoodKey(Key(n)) && OneLine(Key(n)) && forall i | 0 <= i < |Key(n)| :: Code(Key(n)[i]) < 0x80
  {
    KeyIsLetters(n);
    LettersAreGood(Key(n));
  }

  /** The length and the last letter but one tell the keys apart. */
  function Fingerprint(key: string): int {
    if |key| < 2 then 0 else 256 * |key| + key[|key| - 2] as int
  }

  lemma KeysDiffer(a: Name, b: Name)
    requires a != b
    ensures Key(a) != Key(b)
  {
    KeyFingerprint(a);
    KeyFingerprint(b);
  }

  function FingerprintOf(n: Name): int {
    match n
    case Author => 256 * 6 + 'o' as int
    case AuthorMail => 256 * 11 + 'i' as int
    case AuthorTime => 256 * 11 + 'm' as int
    case AuthorTz => 256 * 9 + 't' as int
    case Committer => 256 * 9 + 'e' as int
    case CommitterMail => 256 * 14 + 'i' as int
    case CommitterTime => 256 * 14 + 'm' as int
    case CommitterTz => 256 * 12 + 't' as int
    case Summary => 256 * 7 + 'r' as int
    case Boundary => 256 * 8 + 'r' as int
    case PreviousOne => 256 * 8 + 'u' as int
    case Filename => 256 * 8 + 'm' as int
  }

  lemma KeyFingerprint(n: Name)
    ensures Fingerprint(Key(n)) == FingerprintOf(n)
  {
    match n
    case Author =>
    case AuthorMail =>
    case AuthorTime =>
    case AuthorTz =>
    case Committer =>
    case CommitterMail =>
    case CommitterTime =>
    case CommitterTz =>
    case Summary =>
    case Boundary =>
    case PreviousOne =>
    case Filename =>
  }

  // ----- lines that set fields ----------------------------------------------------------

  function Absorb(m: Metadata, lines: seq<string>): Metadata
    decreases |lines|
  {
    if lines == [] then m else Absorb(m[KeyIn(lines[0]) := ValueIn(lines[0])], lines[1..])
  }

  lemma {:induction false} ReadFields(
    h: Header, m: Metadata, records: seq<Record>, lines: seq<string>, rest: seq<string>, truncated: bool)
    requires Untabbed(lines)
    ensures Lines(State(Some(h), m, records, Going), lines + rest, truncated)
            == Lines(State(Some(h), Absorb(m, lines), records, Going), rest, truncated)
    decreases |lines|
  {
    if lines == [] {
      assert lines + rest == rest;
    } else {
      var all := lines + rest;
      assert all[0] == lines[0] && all[1..] == lines[1..] + rest;
      assert Untabbed(lines[1..]);
      ReadFields(h, m[KeyIn(lines[0]) := ValueIn(lines[0])], records, lines[1..], rest, truncated);
    }
  }

  /** After reading some lines a key holds what they said last, or what it held before. */
  lemma {:induction false} AbsorbSaid(m: Metadata, lines: seq<string>, key: string)
    ensures var a, said := Absorb(m, lines), Said(lines, key);
            if said.Some? then key in a && a[key] == said.value
            else (key in a <==> key in m) && (key in m ==> a[key] == m[key])
    decreases |lines|
  {
    if lines != [] {
      AbsorbSaid(m[KeyIn(lines[0]) := ValueIn(lines[0])], lines[1..], key);
    }
  }

  lemma {:induction false} SaidAppend(a: seq<string>, b: seq<string>, key: string)
    ensures Said(a + b, key) == if Said(b, key).Some? then Said(b, key) else Said(a, key)
  {
    if a == [] {
      assert a + b == b;
    } else {
      assert (a + b)[0] == a[0] && (a + b)[1..] == a[1..] + b;
      SaidAppend(a[1..], b, key);
    }
  }

  function ValueOf(f: Field): string {
    if f.value.Some? then f.value.value else ""
  }

  lemma FieldLineSets(f: Field)
    ensures !Tabbed(FieldLine(f)) && KeyIn(FieldLine(f)) == Key(f.name) && ValueIn(FieldLine(f)) == ValueOf(f)
  {
    var value: Option<string> := if f.value.Some? then Some(Encode(f.value.value)) else None;
    KeyIsGood(f.name);
    AsciiIsItself(Key(f.name));
    PartitionIs(Key(f.name), value);
    assert FieldLine(f)[0] == Key(f.name)[0];
    if f.value.Some? {
      DecodeEncode(f.value.value);
    }
  }

  lemma FieldsAreUntabbed(fields: seq<Field>)
    ensures Untabbed(FieldLines(fields))
  {
    forall i | 0 <= i < |fields| ensures !Tabbed(FieldLines(fields)[i]) {
      FieldLineSets(fields[i]);
    }
  }

  ghost predicate Lacks(fields: seq<Field>, name: Name) {
    forall i | 0 <= i < |fields| :: fields[i].name != name
  }

  lemma {:induction false} FieldUnsaid(fields: seq<Field>, name: Name)
    requires Lacks(fields, name)
    ensures Said(FieldLines(fields), Key(name)) == None
  {
    if fields != [] {
      FieldUnsaid(fields[1..], name);
      FieldLineSets(fields[0]);
      KeysDiffer(fields[0].name, name);
      assert FieldLines(fields)[1..] == FieldLines(fields[1..]);
    }
  }

  lemma {:induction false} FieldSaid(fields: seq<Field>, i: nat)
    requires i < |fields| && Lacks(fields[i + 1..], fields[i].name)
    ensures Said(FieldLines(fields), Key(fields[i].name)) == Some(ValueOf(fields[i]))
  {
    assert FieldLines(fields)[1..] == FieldLines(fields[1..]);
    if i == 0 {
      FieldUnsaid(fields[1..], fields[0].name);
      FieldLineSets(fields[0]);
    } else {
      assert fields[1..][i..] == fields[i + 1..];
      FieldSaid(fields[1..], i - 1);
    }
  }

  predicate OnlyCommitter(name: Name) {
    name.Committer? || name.CommitterMail? || name.CommitterTime? || name.CommitterTz?
  }

  // ----- the fields of a record ------------------------------------------------------------

  /** The lines between header and source line, as the parser finds them. */
  function Body(s: Source): seq<string> {
    FieldLines(AuthorFields(s.record)) + Extra(s) + FieldLines(OtherFields(s.record))
  }

  function AllOf(s: Source): Metadata {
    Absorb(map[], Body(s))
  }

  lemma BodySaid(s: Source, key: string)
    ensures var a, o := FieldLines(AuthorFields(s.record)), FieldLines(OtherFields(s.record));
            Said(Body(s), key) == if Said(o, key).Some? then Said(o, key)
                                  else if Said(Extra(s), key).Some? then Said(Extra(s), key)
                                  else Said(a, key)
    ensures if Said(Body(s), key).Some? then key in AllOf(s) && AllOf(s)[key] == Said(Body(s), key).value
            else key !in AllOf(s)
  {
    var a, o := FieldLines(AuthorFields(s.record)), FieldLines(OtherFields(s.record));
    SaidAppend(a, Extra(s), key);
    SaidAppend(a + Extra(s), o, key);
    AbsorbSaid(map[], Body(s), key);
  }

  lemma AuthorsDiffer(r: Record, i: nat)
    requires i < 4
    ensures Lacks(AuthorFields(r)[i + 1..], AuthorFields(r)[i].name)
    ensures Lacks(OtherFields(r), AuthorFields(r)[i].name)
  {
  }

  /** An author field is what the committer's fields say, if they say it, or the author's. */
  lemma AuthorSaid(s: Source, i: nat, name: Name, key: string, value: string, default: string)
    requires i < 4 && AuthorFields(s.record)[i] == Field(name, Some(value)) && key == Key(name)
    ensures var said := Said(Extra(s), key);
            Get(AllOf(s), key, default) == if said.Some? then said.value else value
  {
    AuthorsDiffer(s.record, i);
    FieldSaid(AuthorFields(s.record), i);
    FieldUnsaid(OtherFields(s.record), name);
    BodySaid(s, key);
  }

  /** Where the later fields are. */
  lemma OthersAre(r: Record)
    ensures var o, n := OtherFields(r), |OtherFields(r)|;
            && n >= 2 && o[0] == Field(Summary, Some(r.summary)) && o[n - 1] == Field(Filename, Some(r.filename))
            && (r.boundary ==> o[1] == Field(Boundary, None))
            && (r.previous.Some? ==>
                  o[n - 2] == Field(PreviousOne, Some(r.previous.value.commit + " " + r.previous.value.filename)))
  {
  }

  lemma OthersLack(r: Record)
    ensures !r.boundary ==> Lacks(OtherFields(r), Boundary) && Lacks(AuthorFields(r), Boundary)
    ensures r.previous.None? ==> Lacks(OtherFields(r), PreviousOne) && Lacks(AuthorFields(r), PreviousOne)
  {
  }

  lemma OthersDiffer(r: Record, i: nat)
    requires i < |OtherFields(r)|
    ensures Lacks(OtherFields(r)[i + 1..], OtherFields(r)[i].name)
  {
  }

  /** One of the later fields is what it is, whatever was said before. */
  lemma OtherSaid(s: Source, i: nat, name: Name, key: string, value: Option<string>, default: string)
    requires i < |OtherFields(s.record)| && OtherFields(s.record)[i] == Field(name, value) && key == Key(name)
    ensures key in AllOf(s) && Get(AllOf(s), key, default) == if value.Some? then value.value else ""
  {
    OthersDiffer(s.record, i);
    FieldSaid(OtherFields(s.record), i);
    BodySaid(s, key);
  }

  /** A later field the record does not have is what the committer's fields say it is. */
  lemma MissingSaid(s: Source, name: Name, key: string)
    requires Lacks(OtherFields(s.record), name) && Lacks(AuthorFields(s.record), name) && key == Key(name)
    ensures var said := Said(Extra(s), key);
            if said.Some? then key in AllOf(s) && AllOf(s)[key] == said.value else key !in AllOf(s)
  {
    FieldUnsaid(OtherFields(s.record), name);
    FieldUnsaid(AuthorFields(s.record), name);
    BodySaid(s, key);
  }

  lemma MailComesBack(email: string)
    ensures Unbracketed("<" + email + ">") == email
  {
    var mail := "<" + email + ">";
    assert mail[0] == '<' && mail[|mail| - 1] == '>' && mail[1..|mail| - 1] == email;
  }

  lemma PreviousComesBack(p: Previous)
    requires NoSpace(p.commit)
    ensures PreviousOf(p.commit + " " + p.filename) == Some(p)
  {
    PartitionIs(p.commit, Some(p.filename));
    assert p.commit + " " + p.filename == p.commit + (" " + p.filename);
  }

  lemma AuthorComesBackIff(s: Source)
    ensures Get(AllOf(s), "author", "") == s.record.name <==> Agreed(s, Author)
  {
    AuthorSaid(s, 0, Author, "author", s.record.name, "");
  }

  lemma MailComesBackIff(s: Source)
    ensures Unbracketed(Get(AllOf(s), "author-mail", "")) == s.record.email <==> Agreed(s, AuthorMail)
  {
    AuthorSaid(s, 1, AuthorMail, "author-mail", "<" + s.record.email + ">", "");
    MailComesBack(s.record.email);
  }

  lemma TimeComesBackIff(s: Source)
    ensures ParseInt(Get(AllOf(s), "author-time", "0")) == Some(s.record.time) <==> Agreed(s, AuthorTime)
  {
    AuthorSaid(s, 2, AuthorTime, "author-time", ShowInt(s.record.time), "0");
    ParseShow(s.record.time);
  }

  lemma ZoneComesBackIff(s: Source)
    ensures Get(AllOf(s), "author-tz", "") == s.record.tz <==> Agreed(s, AuthorTz)
  {
    AuthorSaid(s, 3, AuthorTz, "author-tz", s.record.tz, "");
  }

  lemma BoundaryComesBackIff(s: Source)
    ensures ("boundary" in AllOf(s) <==> s.record.boundary) <==> Agreed(s, Boundary)
  {
    OthersAre(s.record);
    OthersLack(s.record);
    if s.record.boundary {
      OtherSaid(s, 1, Boundary, "boundary", None, "");
    } else {
      MissingSaid(s, Boundary, "boundary");
    }
  }

  lemma PreviousComesBackIff(s: Source)
    requires FromGit(s)
    ensures PreviousOf(Get(AllOf(s), "previous", "")) == s.record.previous <==> Agreed(s, PreviousOne)
  {
    OthersAre(s.record);
    OthersLack(s.record);
    if s.record.previous.Some? {
      var p := s.record.previous.value;
      OtherSaid(s, |OtherFields(s.record)| - 2, PreviousOne, "previous", Some(p.commit + " " + p.filename), "");
      PreviousComesBack(p);
    } else {
      MissingSaid(s, PreviousOne, "previous");
    }
  }

  lemma SummaryComesBack(s: Source)
    ensures Get(AllOf(s), "summary", "") == s.record.summary
  {
    OthersAre(s.record);
    OtherSaid(s, 0, Summary, "summary", Some(s.record.summary), "");
  }

  lemma FilenameComesBack(s: Source)
    ensures Get(AllOf(s), "filename", "") == s.record.filename
  {
    OthersAre(s.record);
    OtherSaid(s, |OtherFields(s.record)| - 1, Filename, "filename", Some(s.record.filename), "");
  }

  /** Some metadata completes to a given record exactly when each field does. */
  lemma CompletesIff(r: Record, m: Metadata, text: string)
    ensures Complete(Header(r.commit, r.original, r.final), m, text) == Some(r.(text := text))
            <==> (&& Get(m, "author", "") == r.name && Unbracketed(Get(m, "author-mail", "")) == r.email
                  && ParseInt(Get(m, "author-time", "0")) == Some(r.time) && Get(m, "author-tz", "") == r.tz
                  && Get(m, "summary", "") == r.summary && Get(m, "filename", "") == r.filename
                  && PreviousOf(Get(m, "previous", "")) == r.previous && ("boundary" in m <==> r.boundary))
  {
  }

  lemma AgreedIff(s: Source)
    ensures SaysTheSame(s)
            <==> (&& Agreed(s, Author) && Agreed(s, AuthorMail) && Agreed(s, AuthorTime) && Agreed(s, AuthorTz)
                  && Agreed(s, Boundary) && Agreed(s, PreviousOne))
  {
    forall name: Name | name.Summary? || name.Filename? || OnlyCommitter(name) ensures Agreed(s, name) {
    }
  }

  /** The fields of a record give back exactly that record if and only if the committer's
      fields say nothing different. */
  lemma RecordComesBackIff(s: Source, text: string)
    requires FromGit(s)
    ensures Complete(HeaderOf(s), AllOf(s), text) == Some(s.record.(text := text)) <==> SaysTheSame(s)
  {
    AuthorComesBackIff(s);
    MailComesBackIff(s);
    TimeComesBackIff(s);
    ZoneComesBackIff(s);
    BoundaryComesBackIff(s);
    PreviousComesBackIff(s);
    SummaryComesBack(s);
    FilenameComesBack(s);
    CompletesIff(s.record, AllOf(s), text);
    AgreedIff(s);
  }

  // ----- one record ----------------------------------------------------------------------

  lemma BodyIsUntabbed(s: Source)
    requires Untabbed(Extra(s))
    ensures Untabbed(Body(s))
  {
    FieldsAreUntabbed(AuthorFields(s.record));
    FieldsAreUntabbed(OtherFields(s.record));
  }

  /** Reading header and fields of a record changes no record. */
  lemma ReadStart(records: seq<Record>, s: Source, lines: seq<string>, rest: seq<string>, truncated: bool)
    requires IsCommit(s.record.commit) && Untabbed(lines)
    ensures Lines(Fresh(records), [HeaderLine(s)] + lines + rest, truncated)
            == Lines(State(Some(HeaderOf(s)), Absorb(map[], lines), records, Going), rest, truncated)
  {
    var all := [HeaderLine(s)] + lines + rest;
    HeaderParses(s);
    assert all[0] == HeaderLine(s) && all[1..] == lines + rest;
    ReadFields(HeaderOf(s), map[], records, lines, rest, truncated);
  }

  /** Reading all lines of a record, its source line being `text`, adds what they complete. */
  lemma ReadWhole(records: seq<Record>, s: Source, text: string, rest: seq<string>, truncated: bool)
    requires IsCommit(s.record.commit) && Untabbed(Extra(s))
    ensures var done := Complete(HeaderOf(s), AllOf(s), Decode(text));
            var after := Lines(Fresh(records), [HeaderLine(s)] + Body(s) + (["\t" + text] + rest), truncated);
            if done.Some? then after == Lines(Fresh(records + [done.value]), rest, truncated)
            else after.progress.Raised?
  {
    var line := "\t" + text;
    var all := [line] + rest;
    BodyIsUntabbed(s);
    ReadStart(records, s, Body(s), all, truncated);
    assert all[0] == line && all[1..] == rest && Tabbed(line) && line[1..] == text;
    var st := State(Some(HeaderOf(s)), AllOf(s), records, Going);
    assert Lines(st, all, truncated) == Lines(Step(st, line, truncated), rest, truncated);
    if Complete(HeaderOf(s), AllOf(s), Decode(text)).None? {
      assert Lines(Step(st, line, truncated), rest, truncated) == Step(st, line, truncated);
    }
  }
}
