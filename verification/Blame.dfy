/** The blame parser and the printer it must undo. The output of git is a string of
    bytes; records hold text. */
module Blame {
  import opened Options
  import opened BlameText
  import opened BlameUtf8

  datatype Previous = Previous(commit: string, filename: string)

  datatype Record = Record(
    commit: string, original: nat, final: nat, name: string, email: string, time: int, tz: string,
    summary: string, filename: string, previous: Option<Previous>, boundary: bool, text: string)

  datatype Header = Header(commit: string, original: nat, final: nat)

  // ----- the parser ------------------------------------------------------------

  predicate IsHex(c: char) {
    '0' <= c <= '9' || 'a' <= c <= 'f'
  }

  predicate IsCommit(s: string) {
    (|s| == 40 || |s| == 64) && forall i | 0 <= i < |s| :: IsHex(s[i])
  }

  /** A commit, two numbers and perhaps a third, separated by single spaces. */
  function ParseHeader(line: string): Option<Header> {
    var w := Words(line);
    if (|w| == 3 || |w| == 4) && IsCommit(w[0]) && AllDigits(w[1]) && AllDigits(w[2]) && (|w| == 4 ==> AllDigits(w[3]))
    then Some(Header(w[0], Value(w[1]), Value(w[2])))
    else None
  }

  type Metadata = map<string, string>

  function Get(m: Metadata, key: string, default: string): string {
    if key in m then m[key] else default
  }

  function PreviousOf(value: string): Option<Previous> {
    if value == "" then None
    else
      var (commit, path) := Partition(value);
      Some(Previous(commit, if path.Some? then path.value else ""))
  }

  function Unbracketed(mail: string): string {
    if |mail| >= 2 && mail[0] == '<' && mail[|mail| - 1] == '>' then mail[1..|mail| - 1] else mail
  }

  /** The record a source line completes; `None` when the time is not a number. */
  function Complete(h: Header, m: Metadata, text: string): Option<Record> {
    var time := ParseInt(Get(m, "author-time", "0"));
    if time.None? then None
    else Some(Record(
      h.commit, h.original, h.final, Get(m, "author", ""), Unbracketed(Get(m, "author-mail", "")), time.value,
      Get(m, "author-tz", ""), Get(m, "summary", ""), Get(m, "filename", ""),
      PreviousOf(Get(m, "previous", "")), "boundary" in m, text))
  }

  /** What a line between header and source line sets: its first word, to the rest. */
  function KeyIn(line: string): string {
    DecodeAscii(Partition(line).0)
  }

  function ValueIn(line: string): string {
    var value := Partition(line).1;
    if value.Some? then Decode(value.value) else ""
  }

  datatype Progress = Going | Broken | Raised

  datatype State = State(header: Option<Header>, metadata: Metadata, records: seq<Record>, progress: Progress)

  function Step(st: State, line: string, truncated: bool): State {
    if st.header.None? then
      match ParseHeader(line)
      case Some(h) => st.(header := Some(h), metadata := map[])
      case None => st.(progress := if truncated then Broken else Raised)
    else if Tabbed(line) then
      match Complete(st.header.value, st.metadata, Decode(line[1..]))
      case Some(r) => State(None, map[], st.records + [r], Going)
      case None => st.(progress := Raised)
    else st.(metadata := st.metadata[KeyIn(line) := ValueIn(line)])
  }

  function Lines(st: State, lines: seq<string>, truncated: bool): State
    decreases |lines|
  {
    if lines == [] || !st.progress.Going? then st
    else Lines(Step(st, lines[0], truncated), lines[1..], truncated)
  }

  datatype Outcome = Error | Parsed(records: seq<Record>, incomplete: bool)

  function Finish(st: State, truncated: bool): Outcome {
    if st.progress.Raised? || (st.header.Some? && !truncated) then Error
    else Parsed(st.records, st.progress.Broken? || st.header.Some?)
  }

  function Fresh(records: seq<Record>): State {
    State(None, map[], records, Going)
  }

  function Parse(payload: string, truncated: bool): Outcome {
    Finish(Lines(Fresh([]), SplitLines(payload), truncated), truncated)
  }

  /** `_parse_blame_porcelain`. */
  method ParseBlamePorcelain(payload: string, truncated: bool) returns (r: Outcome)
    ensures r == Parse(payload, truncated)
  {
    var lines := SplitLines(payload);
    var records: seq<Record>, metadata: Metadata := [], map[];
    var header: Option<Header> := None;
    var incomplete := false;
    var i := 0;
    assert lines[0..] == lines;
    while i < |lines|
      invariant i <= |lines| && !incomplete
      invariant Lines(Fresh([]), lines, truncated)
                == Lines(State(header, metadata, records, Going), lines[i..], truncated)
    {
      var line := lines[i];
      assert lines[i..][1..] == lines[i + 1..];
      i := i + 1;
      if header.None? {
        header := ParseHeader(line);
        if header.None? {
          if truncated {
            incomplete := true;
            break;
          }
          return Error;
        }
        metadata := map[];
        continue;
      }
      if line != "" && line[0] == '\t' {
        var record := Complete(header.value, metadata, Decode(line[1..]));
        if record.None? {
          return Error;
        }
        records := records + [record.value];
        header, metadata := None, map[];
        continue;
      }
      var (key, value) := Partition(line);
      metadata := metadata[DecodeAscii(key) := if value.Some? then Decode(value.value) else ""];
    }
    if header.Some? {
      if !truncated {
        return Error;
      }
      incomplete := true;
    }
    return Parsed(records, incomplete);
  }

  // ----- the printer -----------------------------------------------------------------

  /** One blamed line as git has it: the record, the size of its group where it starts
      one, and the committer, whom the parser does not report. */
  datatype Source = Source(
    record: Record, group: Option<nat>, committer: string, committerMail: string, committerTime: int,
    committerTz: string)

  function HeaderLine(s: Source): string {
    s.record.commit + (" " + (Show(s.record.original) + (" " + FinalAndGroup(s))))
  }

  function FinalAndGroup(s: Source): string {
    Show(s.record.final) + if s.group.Some? then " " + Show(s.group.value) else ""
  }

  datatype Name =
    | Author | AuthorMail | AuthorTime | AuthorTz | Committer | CommitterMail | CommitterTime | CommitterTz
    | Summary | Boundary | PreviousOne | Filename

  function Key(n: Name): string {
    match n
    case Author => "author"
    case AuthorMail => "author-mail"
    case AuthorTime => "author-time"
    case AuthorTz => "author-tz"
    case Committer => "committer"
    case CommitterMail => "committer-mail"
    case CommitterTime => "committer-time"
    case CommitterTz => "committer-tz"
    case Summary => "summary"
    case Boundary => "boundary"
    case PreviousOne => "previous"
    case Filename => "filename"
  }

  datatype Field = Field(name: Name, value: Option<string>)

  function FieldLine(f: Field): string {
    Key(f.name) + if f.value.Some? then " " + Encode(f.value.value) else ""
  }

  function AuthorFields(r: Record): seq<Field> {
    [Field(Author, Some(r.name)), Field(AuthorMail, Some("<" + r.email + ">")),
     Field(AuthorTime, Some(ShowInt(r.time))), Field(AuthorTz, Some(r.tz))]
  }

  function CommitterFields(s: Source): seq<Field> {
    [Field(Committer, Some(s.committer)), Field(CommitterMail, Some("<" + s.committerMail + ">")),
     Field(CommitterTime, Some(ShowInt(s.committerTime))), Field(CommitterTz, Some(s.committerTz))]
  }

  function OtherFields(r: Record): seq<Field> {
    [Field(Summary, Some(r.summary))]
    + (if r.boundary then [Field(Boundary, None)] else [])
    + (if r.previous.Some?
       then [Field(PreviousOne, Some(r.previous.value.commit + " " + r.previous.value.filename))] else [])
    + [Field(Filename, Some(r.filename))]
  }

  function FieldLines(fields: seq<Field>): (lines: seq<string>)
    ensures |lines| == |fields| && forall i | 0 <= i < |fields| :: lines[i] == FieldLine(fields[i])
  {
    if fields == [] then [] else [FieldLine(fields[0])] + FieldLines(fields[1..])
  }

  function SourceLines(s: Source): seq<string> {
    HeadLines(s) + [TextLine(s)]
  }

  /** The lines before the source line. */
  function HeadLines(s: Source): seq<string> {
    [HeaderLine(s)] + FieldLines(AuthorFields(s.record)) + FieldLines(CommitterFields(s))
    + FieldLines(OtherFields(s.record))
  }

  function TextLine(s: Source): string {
    "\t" + Encode(s.record.text)
  }

  function Print(sources: seq<Source>): string {
    if sources == [] then "" else Join(SourceLines(sources[0])) + Print(sources[1..])
  }

  function Records(sources: seq<Source>): (r: seq<Record>)
    ensures |r| == |sources| && forall i | 0 <= i < |sources| :: r[i] == sources[i].record
  {
    if sources == [] then [] else [sources[0].record] + Records(sources[1..])
  }

  /** No line break inside any text of the record. */
  predicate Tidy(r: Record) {
    && OneLine(r.name) && OneLine(r.email) && OneLine(r.tz) && OneLine(r.summary) && OneLine(r.filename)
    && OneLine(r.text)
    && (r.previous.Some? ==> OneLine(r.previous.value.commit) && OneLine(r.previous.value.filename))
  }

  /** Commit names are hexadecimal numbers, or at least single words. */
  predicate FromGit(s: Source) {
    IsCommit(s.record.commit) && (s.record.previous.Some? ==> NoSpace(s.record.previous.value.commit))
  }

  // ----- the committer -----------------------------------------------------------------

  /** The lines the parser finds in the committer's fields: four, unless one of the texts
      holds a line break. */
  function Extra(s: Source): seq<string> {
    SplitLines(Join(FieldLines(CommitterFields(s))))
  }

  /** What some lines say last about a key. */
  function Said(lines: seq<string>, key: string): Option<string> {
    if lines == [] then None
    else if Said(lines[1..], key).Some? then Said(lines[1..], key)
    else if KeyIn(lines[0]) == key then Some(ValueIn(lines[0]))
    else None
  }

  /** Saying this about a field leaves the record as it is. A summary and a file name may
      be said, since the real ones come later; so may a previous version if there is one. */
  predicate Agrees(r: Record, name: Name, value: string) {
    match name
    case Author => value == r.name
    case AuthorMail => Unbracketed(value) == r.email
    case AuthorTime => ParseInt(value) == Some(r.time)
    case AuthorTz => value == r.tz
    case Boundary => r.boundary
    case PreviousOne => r.previous.Some? || value == ""
    case _ => true
  }

  /** The committer's fields say nothing about this field, or nothing that matters. */
  predicate Agreed(s: Source, name: Name) {
    var said := Said(Extra(s), Key(name));
    said.Some? ==> Agrees(s.record, name, said.value)
  }

  predicate SaysTheSame(s: Source) {
    forall name: Name :: Agreed(s, name)
  }

  /** The committer's fields can be broken into lines without any effect on the record. */
  predicate Harmless(s: Source) {
    Untabbed(Extra(s)) && SaysTheSame(s)
  }

  // ----- carriage returns -----------------------------------------------------------------

  /** The text as a reader of lines sees it: a final carriage return is part of the break. */
  function WithoutReturn(t: string): string {
    if t != "" && t[|t| - 1] == '\r' then t[..|t| - 1] else t
  }

  function Shown(r: Record): Record {
    r.(text := WithoutReturn(r.text))
  }

  function ShownAll(sources: seq<Source>): (r: seq<Record>)
    ensures |r| == |sources| && forall i | 0 <= i < |sources| :: r[i] == Shown(sources[i].record)
  {
    if sources == [] then [] else [Shown(sources[0].record)] + ShownAll(sources[1..])
  }

  /** Nothing but the end of the source line is lost in reading. */
  predicate Readable(s: Source) {
    FromGit(s) && Tidy(Shown(s.record)) && Harmless(s)
  }
}
