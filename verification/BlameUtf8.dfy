/** UTF-8 as the parser meets it: text is written as bytes, and bytes are read back with
    every malformed piece replaced. A `char` below 256 stands for a byte. */
module BlameUtf8 {
  import opened BlameText

  const REPLACEMENT: char := '\U{FFFD}'

  function Code(c: char): int {
    c as int
  }

  function Byte(n: int): char
    requires 0 <= n < 256
  {
    n as char
  }

  // ----- writing -----------------------------------------------------------------

  /** How many bytes a character takes. */
  function Width(c: char): nat {
    if Code(c) < 0x80 then 1 else if Code(c) < 0x800 then 2 else if Code(c) < 0x10000 then 3 else 4
  }

  function Encode1(c: char): (b: string)
    ensures |b| == Width(c)
  {
    var n := Code(c);
    if n < 0x80 then [c]
    else if n < 0x800 then [Byte(0xC0 + n / 64), Byte(0x80 + n % 64)]
    else if n < 0x10000 then [Byte(0xE0 + n / 4096), Byte(0x80 + n / 64 % 64), Byte(0x80 + n % 64)]
    else [Byte(0xF0 + n / 262144), Byte(0x80 + n / 4096 % 64), Byte(0x80 + n / 64 % 64), Byte(0x80 + n % 64)]
  }

  function Encode(text: string): string {
    if text == "" then "" else Encode1(text[0]) + Encode(text[1..])
  }

  // ----- reading ------------------------------------------------------------------

  /** The length a leading byte announces; 0 for a byte that cannot lead. */
  function Announced(b: char): nat {
    if Code(b) < 0x80 then 1
    else if 0xC2 <= Code(b) <= 0xDF then 2
    else if 0xE0 <= Code(b) <= 0xEF then 3
    else if 0xF0 <= Code(b) <= 0xF4 then 4
    else 0
  }

  predicate Continues(b: char) {
    0x80 <= Code(b) <= 0xBF
  }

  /** The second byte is restricted further: no overlong forms, no surrogates, nothing
      beyond the last plane. */
  predicate Seconds(lead: char, b: char) {
    && Continues(b)
    && (Code(lead) == 0xE0 ==> Code(b) >= 0xA0) && (Code(lead) == 0xED ==> Code(b) <= 0x9F)
    && (Code(lead) == 0xF0 ==> Code(b) >= 0x90) && (Code(lead) == 0xF4 ==> Code(b) <= 0x8F)
  }

  /** How many bytes from the start belong together: a whole character, or the part of
      one that a replacement stands for. */
  function Taken(b: string): (n: nat)
    requires b != ""
    ensures 1 <= n <= |b| && n <= 4
  {
    var want := Announced(b[0]);
    if want <= 1 || |b| < 2 || !Seconds(b[0], b[1]) then 1
    else if want == 2 || |b| < 3 || !Continues(b[2]) then 2
    else if want == 3 || |b| < 4 || !Continues(b[3]) then 3
    else 4
  }

  predicate Whole(b: string)
    requires b != ""
  {
    Announced(b[0]) > 0 && Taken(b) == Announced(b[0])
  }

  /** The character a whole piece stands for. */
  function Decode1(b: string): char
    requires b != ""
  {
    if !Whole(b) then REPLACEMENT
    else if Taken(b) == 1 then b[0]
    else if Taken(b) == 2 then Scalar((Code(b[0]) - 0xC0) * 64 + (Code(b[1]) - 0x80))
    else if Taken(b) == 3 then
      Scalar((Code(b[0]) - 0xE0) * 4096 + (Code(b[1]) - 0x80) * 64 + (Code(b[2]) - 0x80))
    else
      Scalar((Code(b[0]) - 0xF0) * 262144 + (Code(b[1]) - 0x80) * 4096 + (Code(b[2]) - 0x80) * 64
             + (Code(b[3]) - 0x80))
  }

  function Scalar(n: int): char {
    if 0 <= n < 0xD800 || 0xE000 <= n <= 0x10FFFF then n as char else REPLACEMENT
  }

  /** `bytes.decode("utf-8", errors="replace")`. */
  function Decode(b: string): string {
    if b == "" then "" else [Decode1(b)] + Decode(b[Taken(b)..])
  }

  /** `bytes.decode("ascii", errors="replace")`. */
  function DecodeAscii(b: string): (t: string)
    ensures |t| == |b|
  {
    if b == "" then "" else [if Code(b[0]) < 0x80 then b[0] else REPLACEMENT] + DecodeAscii(b[1..])
  }

  // ----- one character ---------------------------------------------------------------

  /** The pieces of a number written in base 64. */
  lemma Base64(n: nat)
    ensures n == n / 4096 * 4096 + n / 64 % 64 * 64 + n % 64
    ensures n / 4096 == n / 262144 * 64 + n / 4096 % 64
  {
    assert n / 64 == n / 4096 * 64 + n / 64 % 64;
    assert n / 262144 == n / 4096 / 64;
  }

  lemma Reads2(c: char, b: string)
    requires 0x80 <= Code(c) < 0x800 && |b| >= 2 && b[0] == Encode1(c)[0] && b[1] == Encode1(c)[1]
    ensures Announced(b[0]) == Taken(b) == 2 && Decode1(b) == c
  {
    assert 2 <= Code(c) / 64 < 32;
  }

  lemma Leads3(c: char)
    requires 0x800 <= Code(c) < 0x10000
    ensures var e := Encode1(c); Announced(e[0]) == 3 && Seconds(e[0], e[1]) && Continues(e[2])
  {
    Base64(Code(c));
  }

  lemma Reads3(c: char, b: string)
    requires 0x800 <= Code(c) < 0x10000 && |b| >= 3
    requires b[0] == Encode1(c)[0] && b[1] == Encode1(c)[1] && b[2] == Encode1(c)[2]
    ensures Taken(b) == 3 && Decode1(b) == c
  {
    Leads3(c);
    Base64(Code(c));
  }

  lemma Leads4(c: char)
    requires 0x10000 <= Code(c)
    ensures var e := Encode1(c);
            Announced(e[0]) == 4 && Seconds(e[0], e[1]) && Continues(e[2]) && Continues(e[3])
  {
    Base64(Code(c));
  }

  lemma Reads4(c: char, b: string)
    requires 0x10000 <= Code(c) && |b| >= 4 && b[0] == Encode1(c)[0] && b[1] == Encode1(c)[1]
    requires b[2] == Encode1(c)[2] && b[3] == Encode1(c)[3]
    ensures Taken(b) == 4 && Decode1(b) == c
  {
    Leads4(c);
    Base64(Code(c));
  }

  /** A written character is read back whole, whatever follows it. */
  lemma Reads1(c: char, rest: string)
    ensures var b := Encode1(c) + rest;
            Taken(b) == Width(c) && Decode1(b) == c && b[Taken(b)..] == rest
  {
    var b := Encode1(c) + rest;
    assert forall i | 0 <= i < Width(c) :: b[i] == Encode1(c)[i];
    if Width(c) == 1 {
      assert b[0] == c;
    } else if Width(c) == 2 {
      Reads2(c, b);
    } else if Width(c) == 3 {
      Reads3(c, b);
    } else {
      Reads4(c, b);
    }
  }

  /** The beginning of a written character is read as one replacement. */
  lemma ReadsPart(c: char, m: nat)
    requires 0 < m < Width(c)
    ensures Decode(Encode1(c)[..m]) == [REPLACEMENT]
  {
    var b := Encode1(c)[..m];
    assert forall i | 0 <= i < m :: b[i] == Encode1(c)[i];
    assert Taken(b) == m && Announced(b[0]) == Width(c) by {
      if Width(c) == 4 {
        Leads4(c);
      } else if Width(c) == 3 {
        Leads3(c);
      } else {
        assert 2 <= Code(c) / 64 < 32;
      }
    }
    assert b[m..] == "" && Decode("") == "";
  }

  // ----- texts -----------------------------------------------------------------------

  /** Written text is read back as it was. */
  lemma {:induction false} DecodeEncode(text: string)
    ensures Decode(Encode(text)) == text
  {
    if text != "" {
      Reads1(text[0], Encode(text[1..]));
      DecodeEncode(text[1..]);
    }
  }

  /** What is read of a text of which only the first `m` bytes are left: its first
      characters, and a replacement for one that was cut in half. */
  function Kept(text: string, m: nat): string {
    if text == "" || m == 0 then ""
    else if m < Width(text[0]) then [REPLACEMENT]
    else [text[0]] + Kept(text[1..], m - Width(text[0]))
  }

  lemma {:induction false} DecodeCut(text: string, m: nat)
    requires m <= |Encode(text)|
    ensures Decode(Encode(text)[..m]) == Kept(text, m)
  {
    if text != "" && m > 0 {
      var first, rest := Encode1(text[0]), Encode(text[1..]);
      if m < Width(text[0]) {
        assert Encode(text)[..m] == first[..m];
        ReadsPart(text[0], m);
      } else {
        assert Encode(text)[..m] == first + rest[..m - |first|];
        Reads1(text[0], rest[..m - |first|]);
        DecodeCut(text[1..], m - |first|);
      }
    }
  }

  /** At most the last character read is not one of the text. */
  lemma {:induction false} KeptIsBeginning(text: string, m: nat) returns (k: nat)
    ensures k <= |text| && (Kept(text, m) == text[..k] || Kept(text, m) == text[..k] + [REPLACEMENT])
    ensures m >= |Encode(text)| ==> Kept(text, m) == text
  {
    if text == "" || m == 0 || m < Width(text[0]) {
      k := 0;
    } else {
      var j := KeptIsBeginning(text[1..], m - Width(text[0]));
      k := j + 1;
      assert text[..k] == [text[0]] + text[1..][..j];
    }
  }

  // ----- line breaks -------------------------------------------------------------------

  lemma Encode1Breaks(c: char)
    ensures OneLine(Encode1(c)) <==> !Breaks(c)
  {
    if Code(c) < 0x80 {
      assert Encode1(c) == [c] && Encode1(c)[0] == c;
    } else {
      assert forall i | 0 <= i < Width(c) :: Code(Encode1(c)[i]) >= 0x80;
    }
  }

  /** Writing neither makes nor hides a line break. */
  lemma {:induction false} EncodeIsOneLine(text: string)
    ensures OneLine(Encode(text)) <==> OneLine(text)
  {
    if text != "" {
      var first, rest := Encode1(text[0]), Encode(text[1..]);
      Encode1Breaks(text[0]);
      EncodeIsOneLine(text[1..]);
      OneLineParts(first, rest);
      OneLineParts([text[0]], text[1..]);
      assert text == [text[0]] + text[1..];
    }
  }

  lemma OneLineParts(a: string, b: string)
    ensures OneLine(a + b) <==> OneLine(a) && OneLine(b)
  {
    if OneLine(a + b) {
      assert forall i | 0 <= i < |a| :: a[i] == (a + b)[i];
      assert forall i | 0 <= i < |b| :: b[i] == (a + b)[|a| + i];
    }
  }

  lemma Decode1Breaks(b: string)
    requires b != "" && Breaks(Decode1(b))
    ensures Breaks(b[0])
  {
  }

  /** Reading a line yields no line break. */
  lemma {:induction false} DecodeIsOneLine(b: string)
    requires OneLine(b)
    ensures OneLine(Decode(b))
  {
    if b != "" {
      var rest := b[Taken(b)..];
      OneLineParts(b[..Taken(b)], rest);
      assert b == b[..Taken(b)] + rest;
      DecodeIsOneLine(rest);
      if Breaks(Decode1(b)) {
        Decode1Breaks(b);
      }
      OneLineParts([Decode1(b)], Decode(rest));
    }
  }

  /** Keys are plain ASCII, which both readings leave alone. */
  lemma {:induction false} AsciiIsItself(key: string)
    requires forall i | 0 <= i < |key| :: Code(key[i]) < 0x80
    ensures DecodeAscii(key) == key
  {
    if key != "" {
      AsciiIsItself(key[1..]);
    }
  }

  /** Plain ASCII is its own encoding. */
  lemma {:induction false} AsciiEncodes(key: string)
    requires forall i | 0 <= i < |key| :: Code(key[i]) < 0x80
    ensures Encode(key) == key
  {
    if key != "" {
      AsciiEncodes(key[1..]);
    }
  }
}
