/** Lines, words and numbers of the blame format. A `char` stands for one byte. */
module BlameText {
  import opened Options

  // ----- lines ---------------------------------------------------------------

  predicate Breaks(c: char) {
    c == '\n' || c == '\r'
  }

  predicate OneLine(s: string) {
    forall i | 0 <= i < |s| :: !Breaks(s[i])
  }

  function LineLength(s: string): (n: nat)
    ensures n <= |s| && OneLine(s[..n]) && (n < |s| ==> Breaks(s[n]))
  {
    if s == "" || Breaks(s[0]) then 0
    else
      var n := 1 + LineLength(s[1..]);
      assert s[..n] == [s[0]] + s[1..][..n - 1];
      n
  }

  /** `bytes.splitlines`: newline, carriage return, or both together end a line. */
  function SplitLines(s: string): (lines: seq<string>)
    ensures forall i | 0 <= i < |lines| :: OneLine(lines[i])
  {
    if s == "" then []
    else
      var n := LineLength(s);
      if n == |s| then [s]
      else
        var skip := if s[n] == '\r' && n + 1 < |s| && s[n + 1] == '\n' then 2 else 1;
        [s[..n]] + SplitLines(s[n + skip..])
  }

  function Join(lines: seq<string>): string {
    if lines == [] then "" else lines[0] + "\n" + Join(lines[1..])
  }

  lemma LineLengthIs(line: string, rest: string)
    requires OneLine(line) && (rest == "" || Breaks(rest[0]))
    ensures LineLength(line + rest) == |line|
  {
    var s := line + rest;
    assert forall i | 0 <= i < |line| :: s[i] == line[i];
    assert rest != "" ==> s[|line|] == rest[0];
  }

  /** What ends a line, given what follows. */
  predicate IsBreak(brk: string, rest: string) {
    brk == "\n" || brk == "\r\n" || (brk == "\r" && (rest == "" || rest[0] != '\n'))
  }

  lemma {:induction false} SplitOne(line: string, brk: string, rest: string)
    requires OneLine(line) && IsBreak(brk, rest)
    ensures SplitLines(line + brk + rest) == [line] + SplitLines(rest)
  {
    var s := line + (brk + rest);
    assert line + brk + rest == s;
    LineLengthIs(line, brk + rest);
    assert s[..|line|] == line && s[|line| + |brk|..] == rest;
    assert s[|line|] == brk[0] && (|brk| == 2 ==> s[|line| + 1] == brk[1]);
    assert |brk| == 1 && rest != "" ==> s[|line| + 1] == rest[0];
  }

  lemma {:induction false} SplitLast(tail: string)
    requires OneLine(tail)
    ensures SplitLines(tail) == if tail == "" then [] else [tail]
  {
    LineLengthIs(tail, "");
    assert tail + "" == tail;
  }

  /** A text with a break in it, taken apart at the first one. */
  lemma {:induction false} FirstLine(s: string) returns (line: string, brk: string, rest: string)
    requires !OneLine(s)
    ensures s == line + brk + rest && OneLine(line) && IsBreak(brk, rest)
  {
    var n := LineLength(s);
    assert s[..|s|] == s;
    var skip := if s[n] == '\r' && n + 1 < |s| && s[n + 1] == '\n' then 2 else 1;
    line, brk, rest := s[..n], if skip == 2 then ['\r', '\n'] else [s[n]], s[n + skip..];
    assert |brk| == skip && brk[0] == s[n] && (skip == 2 ==> brk[1] == s[n + 1]);
    assert s == line + brk + rest;
    assert rest != "" ==> rest[0] == s[n + skip];
  }

  lemma {:induction false} BreakEnds(line: string, brk: string, more: string, rest: string)
    requires IsBreak(brk, more)
    ensures var s := line + brk + more;
            && s + rest == line + brk + (more + rest)
            && s[|s| - 1] == if more == "" then brk[|brk| - 1] else more[|more| - 1]
  {
  }

  lemma {:induction false} Regroup(line: string, a: seq<string>, b: seq<string>)
    ensures [line] + (a + b) == ([line] + a) + b
  {
  }

  lemma {:induction false} SplitBoth(line: string, brk: string, more: string, rest: string)
    requires OneLine(line) && IsBreak(brk, more) && IsBreak(brk, more + rest)
    requires SplitLines(more + rest) == SplitLines(more) + SplitLines(rest)
    ensures SplitLines(line + brk + (more + rest)) == SplitLines(line + brk + more) + SplitLines(rest)
  {
    SplitOne(line, brk, more);
    SplitOne(line, brk, more + rest);
    Regroup(line, SplitLines(more), SplitLines(rest));
  }

  /** A newline always separates lines, whatever comes before it. */
  lemma {:induction false} SplitAtNewline(s: string, rest: string)
    requires s != "" && s[|s| - 1] == '\n'
    ensures SplitLines(s + rest) == SplitLines(s) + SplitLines(rest)
    decreases |s|
  {
    assert Breaks(s[|s| - 1]);
    var line, brk, more := FirstLine(s);
    BreakEnds(line, brk, more, rest);
    if more == "" {
      assert more + rest == rest && SplitLines("") == [];
    } else {
      SplitAtNewline(more, rest);
    }
    SplitBoth(line, brk, more, rest);
  }

  predicate Tabbed(line: string) {
    line != "" && line[0] == '\t'
  }

  predicate Untabbed(lines: seq<string>) {
    forall i | 0 <= i < |lines| :: !Tabbed(lines[i])
  }

  lemma {:induction false} UntabbedFirst(line: string, lines: seq<string>)
    ensures Untabbed([line] + lines) <==> !Tabbed(line) && Untabbed(lines)
  {
    var all := [line] + lines;
    assert all[0] == line && forall i | 0 <= i < |lines| :: all[i + 1] == lines[i];
  }

  lemma {:induction false} SplitUntabbed(line: string, brk: string, rest: string)
    requires OneLine(line) && IsBreak(brk, rest)
    ensures Untabbed(SplitLines(line + brk + rest)) <==> !Tabbed(line) && Untabbed(SplitLines(rest))
  {
    SplitOne(line, brk, rest);
    UntabbedFirst(line, SplitLines(rest));
  }

  lemma {:induction false} CutOneLine(s: string, m: nat)
    requires OneLine(s) && !Tabbed(s) && m <= |s|
    ensures Untabbed(SplitLines(s[..m]))
  {
    SplitLast(s[..m]);
  }

  /** Only the two bytes of a double break can be cut apart. */
  lemma {:induction false} CutEarly(s: string, line: string, brk: string, rest: string, m: nat)
    requires s == line + brk + rest && OneLine(line) && !Tabbed(line) && IsBreak(brk, rest) && m < |line| + |brk|
    ensures Untabbed(SplitLines(s[..m]))
  {
    if m <= |line| {
      assert s[..m] == line[..m];
      CutOneLine(line, m);
    } else {
      assert s[..m] == line + "\r" + "";
      SplitUntabbed(line, "\r", "");
    }
  }

  lemma {:induction false} CutInRest(s: string, line: string, brk: string, rest: string, k: nat, m: nat)
    requires s == line + brk + rest && OneLine(line) && !Tabbed(line) && IsBreak(brk, rest)
    requires m <= |s| && |line| + |brk| + k == m && Untabbed(SplitLines(rest[..k]))
    ensures Untabbed(SplitLines(s[..m]))
  {
    assert s[..m] == line + brk + rest[..k];
    SplitUntabbed(line, brk, rest[..k]);
  }

  /** A broken text whose lines do not start with a tab, taken apart. */
  lemma {:induction false} UntabbedParts(s: string) returns (line: string, brk: string, rest: string)
    requires !OneLine(s) && Untabbed(SplitLines(s))
    ensures s == line + brk + rest && OneLine(line) && !Tabbed(line) && IsBreak(brk, rest)
    ensures Untabbed(SplitLines(rest)) && |s| == |line| + |brk| + |rest| && brk != ""
  {
    line, brk, rest := FirstLine(s);
    SplitUntabbed(line, brk, rest);
  }

  /** Cutting lines that do not start with a tab leaves such lines. */
  lemma {:induction false} CutUntabbed(s: string, m: nat)
    requires m <= |s| && Untabbed(SplitLines(s))
    ensures Untabbed(SplitLines(s[..m]))
    decreases |s|
  {
    if OneLine(s) {
      assert !Tabbed(s) by {
        SplitLast(s);
        assert s != "" ==> SplitLines(s)[0] == s;
      }
      CutOneLine(s, m);
    } else {
      var line, brk, rest := UntabbedParts(s);
      if m < |line| + |brk| {
        CutEarly(s, line, brk, rest, m);
      } else {
        var k := m - |line| - |brk|;
        CutUntabbed(rest, k);
        CutInRest(s, line, brk, rest, k, m);
      }
    }
  }

  lemma {:induction false} SplitNewline(line: string, rest: string)
    requires OneLine(line)
    ensures SplitLines(line + "\n" + rest) == [line] + SplitLines(rest)
  {
    SplitOne(line, "\n", rest);
  }

  lemma {:induction false} SplitJoin(lines: seq<string>, rest: string)
    requires forall i | 0 <= i < |lines| :: OneLine(lines[i])
    ensures SplitLines(Join(lines) + rest) == lines + SplitLines(rest)
  {
    if lines == [] {
      assert Join(lines) + rest == rest;
    } else {
      var more := Join(lines[1..]) + rest;
      assert Join(lines) + rest == lines[0] + "\n" + more;
      SplitNewline(lines[0], more);
      SplitJoin(lines[1..], rest);
      Regroup(lines[0], lines[1..], SplitLines(rest));
      assert lines == [lines[0]] + lines[1..];
    }
  }

  lemma JoinAppend(a: seq<string>, b: seq<string>)
    ensures Join(a + b) == Join(a) + Join(b)
  {
    if a == [] {
      assert a + b == b;
    } else {
      assert (a + b)[0] == a[0] && (a + b)[1..] == a[1..] + b;
      JoinAppend(a[1..], b);
    }
  }

  // ----- words ------------------------------------------------------------------

  predicate NoSpace(s: string) {
    forall i | 0 <= i < |s| :: s[i] != ' '
  }

  function WordLength(s: string): (n: nat)
    ensures n <= |s| && NoSpace(s[..n]) && (n < |s| ==> s[n] == ' ')
  {
    if s == "" || s[0] == ' ' then 0
    else
      var n := 1 + WordLength(s[1..]);
      assert s[..n] == [s[0]] + s[1..][..n - 1];
      n
  }

  /** `partition(b" ")`: the first word, and what follows the space if there is one. */
  function Partition(s: string): (string, Option<string>) {
    var n := WordLength(s);
    (s[..n], if n < |s| then Some(s[n + 1..]) else None)
  }

  lemma PartitionIs(word: string, value: Option<string>)
    requires NoSpace(word)
    ensures Partition(word + if value.Some? then " " + value.value else "") == (word, value)
  {
    var rest := if value.Some? then " " + value.value else "";
    var s := word + rest;
    assert forall i | 0 <= i < |word| :: s[i] == word[i];
    assert rest != "" ==> s[|word|] == rest[0];
    assert WordLength(s) == |word|;
    assert s[..|word|] == word;
    if value.Some? {
      assert s[|word| + 1..] == value.value;
    }
  }

  function Words(s: string): seq<string> {
    var (word, rest) := Partition(s);
    if rest.Some? then [word] + Words(rest.value) else [word]
  }

  lemma WordsIs(word: string, value: Option<string>)
    requires NoSpace(word)
    ensures Words(word + if value.Some? then " " + value.value else "")
            == [word] + if value.Some? then Words(value.value) else []
  {
    PartitionIs(word, value);
  }

  // ----- numbers ------------------------------------------------------------------

  predicate IsDigit(c: char) {
    '0' <= c <= '9'
  }

  predicate AllDigits(s: string) {
    s != "" && forall i | 0 <= i < |s| :: IsDigit(s[i])
  }

  function DigitChar(d: nat): (c: char)
    requires d < 10
    ensures IsDigit(c) && c as int - '0' as int == d
  {
    (d + '0' as int) as char
  }

  function Show(n: nat): (s: string)
    ensures AllDigits(s)
  {
    if n < 10 then [DigitChar(n)] else Show(n / 10) + [DigitChar(n % 10)]
  }

  function Value(s: string): nat
    requires forall i | 0 <= i < |s| :: IsDigit(s[i])
  {
    if s == "" then 0
    else
      assert IsDigit(s[|s| - 1]);
      10 * Value(s[..|s| - 1]) + (s[|s| - 1] as int - '0' as int)
  }

  lemma ValueShow(n: nat)
    ensures Value(Show(n)) == n
  {
    if n >= 10 {
      ValueShow(n / 10);
      var s := Show(n);
      assert s[..|s| - 1] == Show(n / 10);
    } else {
      assert [DigitChar(n)][..0] == "";
      assert Value("") == 0;
    }
  }

  function ShowInt(n: int): string {
    if n < 0 then "-" + Show(-n) else Show(n)
  }

  /** `int(...)` on a plain, possibly signed number; anything else raises. */
  function ParseInt(s: string): Option<int> {
    if AllDigits(s) then Some(Value(s))
    else if s != "" && AllDigits(s[1..]) && (s[0] == '-' || s[0] == '+')
    then Some(if s[0] == '-' then 0 - Value(s[1..]) else Value(s[1..]))
    else None
  }

  lemma ParseShow(n: int)
    ensures ParseInt(ShowInt(n)) == Some(n)
  {
    if n < 0 {
      ValueShow(-n);
      var s := ShowInt(n);
      assert s[1..] == Show(-n);
      assert s[0] == '-' && !IsDigit(s[0]);
    } else {
      ValueShow(n);
    }
  }

  lemma ShowIntIsOneLine(n: int)
    ensures OneLine(ShowInt(n)) && NoSpace(ShowInt(n))
  {
    var digits := Show(if n < 0 then -n else n);
    assert forall i | 0 <= i < |digits| :: IsDigit(digits[i]);
  }
}
