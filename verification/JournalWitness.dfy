/** A codec that keeps the promises the journal relies on: numbers in decimal digits with
    an end mark, texts as their length and their characters. */
module JournalWitness {
  import opened Options
  import opened JournalModel
  import opened JournalBytes

  const END: Byte := 11

  // ----- numbers -------------------------------------------------------------------

  function Number(n: nat): seq<Byte> {
    if n == 0 then [END] else [n % 10] + Number(n / 10)
  }

  datatype Got<T> = Got(value: T, rest: seq<Byte>)

  function ReadNumber(b: seq<Byte>): Option<Got<nat>> {
    if b == [] then None
    else if b[0] == END then Some(Got(0, b[1..]))
    else if b[0] >= 10 then None
    else match ReadNumber(b[1..])
      case None => None
      case Some(g) => Some(Got(10 * g.value + b[0], g.rest))
  }

  lemma {:induction false} NumberReads(n: nat, rest: seq<Byte>)
    ensures ReadNumber(Number(n) + rest) == Some(Got(n, rest))
  {
    var b := Number(n) + rest;
    if n == 0 {
      assert b[0] == END && b[1..] == rest;
    } else {
      assert b[0] == n % 10 && b[1..] == Number(n / 10) + rest;
      NumberReads(n / 10, rest);
    }
  }

  lemma {:induction false} NumberIsOneLine(n: nat)
    ensures NoNewline(Number(n))
  {
    if n > 0 {
      NumberIsOneLine(n / 10);
    }
  }

  // ----- texts and times --------------------------------------------------------------

  function Chars(s: string): seq<Byte> {
    if s == "" then [] else Number(s[0] as int) + Chars(s[1..])
  }

  function ReadChars(k: nat, b: seq<Byte>): Option<Got<string>> {
    if k == 0 then Some(Got("", b))
    else match ReadNumber(b)
      case None => None
      case Some(g) =>
        if 0xD800 <= g.value < 0xE000 || g.value >= 0x11_0000 then None
        else match ReadChars(k - 1, g.rest)
          case None => None
          case Some(more) => Some(Got([g.value as char] + more.value, more.rest))
  }

  lemma {:induction false} CharsRead(s: string, rest: seq<Byte>)
    ensures ReadChars(|s|, Chars(s) + rest) == Some(Got(s, rest))
  {
    if s == "" {
      assert Chars(s) + rest == rest;
    } else {
      var more := Chars(s[1..]) + rest;
      assert Chars(s) + rest == Number(s[0] as int) + more;
      NumberReads(s[0] as int, more);
      CharsRead(s[1..], rest);
      assert s == [s[0]] + s[1..];
    }
  }

  lemma {:induction false} CharsAreOneLine(s: string)
    ensures NoNewline(Chars(s))
  {
    if s != "" {
      NumberIsOneLine(s[0] as int);
      CharsAreOneLine(s[1..]);
    }
  }

  function Text(s: string): seq<Byte> {
    Number(|s|) + Chars(s)
  }

  function ReadText(b: seq<Byte>): Option<Got<string>> {
    match ReadNumber(b)
    case None => None
    case Some(g) => ReadChars(g.value, g.rest)
  }

  lemma TextReads(s: string, rest: seq<Byte>)
    ensures ReadText(Text(s) + rest) == Some(Got(s, rest)) && NoNewline(Text(s))
  {
    assert Text(s) + rest == Number(|s|) + (Chars(s) + rest);
    NumberReads(|s|, Chars(s) + rest);
    CharsRead(s, rest);
    NumberIsOneLine(|s|);
    CharsAreOneLine(s);
  }

  /** Times before and after the epoch, alternating. */
  function TimeCode(t: Time): nat {
    if t < 0 then -2 * t - 1 else 2 * t
  }

  function TimeOf(n: nat): Time {
    if n % 2 == 1 then -((n + 1) / 2) else n / 2
  }

  // ----- events ---------------------------------------------------------------------------

  /** Every event as its kind, its time and its texts. */
  function KindOf(e: Event): nat {
    match e case Received(_, _, _, _) => 0 case Completed(_, _, _) => 1 case Uncertain(_, _) => 2
            case Acknowledged(_, _) => 3
  }

  function TextsOf(e: Event): seq<string> {
    [e.key.client, e.key.command]
    + match e
      case Received(_, _, request, owner) => [request, owner]
      case Completed(_, _, result) => [result]
      case _ => []
  }

  function EventOf(kind: nat, ts: Time, texts: seq<string>): Option<Event> {
    if |texts| < 2 then None
    else
      var key := Key(texts[0], texts[1]);
      if kind == 0 && |texts| == 4 then Some(Received(key, ts, texts[2], texts[3]))
      else if kind == 1 && |texts| == 3 then Some(Completed(key, ts, texts[2]))
      else if kind == 2 && |texts| == 2 then Some(Uncertain(key, ts))
      else if kind == 3 && |texts| == 2 then Some(Acknowledged(key, ts))
      else None
  }

  lemma EventIsItsParts(e: Event)
    ensures EventOf(KindOf(e), e.ts, TextsOf(e)) == Some(e)
  {
  }

  function TextList(ts: seq<string>): seq<Byte> {
    if ts == [] then [] else Text(ts[0]) + TextList(ts[1..])
  }

  function ReadTexts(k: nat, b: seq<Byte>): Option<Got<seq<string>>> {
    if k == 0 then Some(Got([], b))
    else match ReadText(b)
      case None => None
      case Some(g) =>
        match ReadTexts(k - 1, g.rest)
        case None => None
        case Some(more) => Some(Got([g.value] + more.value, more.rest))
  }

  lemma {:induction false} TextsRead(ts: seq<string>, rest: seq<Byte>)
    ensures ReadTexts(|ts|, TextList(ts) + rest) == Some(Got(ts, rest)) && NoNewline(TextList(ts))
  {
    if ts == [] {
      assert TextList(ts) + rest == rest;
    } else {
      var more := TextList(ts[1..]) + rest;
      assert TextList(ts) + rest == Text(ts[0]) + more;
      TextReads(ts[0], more);
      TextsRead(ts[1..], rest);
      assert ts == [ts[0]] + ts[1..];
    }
  }

  function EncodeEvent(e: Event): seq<Byte> {
    Number(KindOf(e)) + (Number(TimeCode(e.ts)) + (Number(|TextsOf(e)|) + TextList(TextsOf(e))))
  }

  function DecodeEvent(b: seq<Byte>): Option<Event> {
    match ReadNumber(b)
    case None => None
    case Some(kind) =>
      match ReadNumber(kind.rest)
      case None => None
      case Some(time) =>
        match ReadNumber(time.rest)
        case None => None
        case Some(count) =>
          match ReadTexts(count.value, count.rest)
          case None => None
          case Some(texts) =>
            if texts.rest != [] then None else EventOf(kind.value, TimeOf(time.value), texts.value)
  }

  function Plain(): Codec {
    Codec(EncodeEvent, DecodeEvent)
  }

  lemma TimeComesBack(t: Time)
    ensures TimeOf(TimeCode(t)) == t
  {
  }

  lemma EventReads(e: Event)
    ensures DecodeEvent(EncodeEvent(e)) == Some(e)
  {
    var texts := TextList(TextsOf(e));
    var count := Number(|TextsOf(e)|) + texts;
    NumberReads(KindOf(e), Number(TimeCode(e.ts)) + count);
    NumberReads(TimeCode(e.ts), count);
    NumberReads(|TextsOf(e)|, texts);
    TextsRead(TextsOf(e), []);
    assert texts + [] == texts;
    TimeComesBack(e.ts);
    EventIsItsParts(e);
  }

  lemma JoinedIsOneLine(a: seq<Byte>, b: seq<Byte>)
    requires NoNewline(a) && NoNewline(b)
    ensures NoNewline(a + b)
  {
  }

  lemma EventIsOneLine(e: Event)
    ensures NoNewline(EncodeEvent(e))
  {
    var texts, count, time := TextList(TextsOf(e)), Number(|TextsOf(e)|), Number(TimeCode(e.ts));
    TextsRead(TextsOf(e), []);
    NumberIsOneLine(|TextsOf(e)|);
    NumberIsOneLine(TimeCode(e.ts));
    NumberIsOneLine(KindOf(e));
    JoinedIsOneLine(count, texts);
    JoinedIsOneLine(time, count + texts);
    JoinedIsOneLine(Number(KindOf(e)), time + (count + texts));
  }

  /** The promises can be kept, for every event. */
  lemma PlainIsSound()
    ensures Sound(Plain())
  {
    forall e: Event ensures Plain().decode(Plain().encode(e)) == Some(e) && NoNewline(Plain().encode(e)) {
      EventReads(e);
      EventIsOneLine(e);
    }
  }
}
