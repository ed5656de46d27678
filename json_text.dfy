/**
 * The JSON text of a list of chat messages, as Python's `json.dumps` writes it
 * with its default settings (`ensure_ascii=True`, separators `", "` and
 * `": "`), and the reading of that text back by `json.loads`.
 *
 * Inside a string, `"` and `\` are escaped, the five control characters that
 * have a short escape use it, every other character outside the printable
 * ASCII range `' '..'~'` becomes `\uXXXX` in lower-case hexadecimal, and a
 * character beyond U+FFFF becomes the two `\uXXXX` escapes of its UTF-16
 * surrogate pair.
 */
module JsonText {
  import opened Wrappers

  /** One `{"role": ..., "content": ...}` entry of an OpenAI message list. */
  datatype ChatMessage = ChatMessage(role: string, content: string)

  // Hexadecimal

  function HexDigit(d: nat): (c: char)
    requires d < 16
  {
    if d < 10 then ('0' as int + d) as char else ('a' as int + d - 10) as char
  }

  /** The value of a hexadecimal digit of either case. */
  function HexValue(c: char): Option<nat>
  {
    if '0' <= c <= '9' then Some(c as int - '0' as int)
    else if 'a' <= c <= 'f' then Some(c as int - 'a' as int + 10)
    else if 'A' <= c <= 'F' then Some(c as int - 'A' as int + 10)
    else None
  }

  function Pow16(k: nat): nat
  {
    if k == 0 then 1 else 16 * Pow16(k - 1)
  }

  /** `n` as exactly `width` lower-case hexadecimal digits, most significant first. */
  function Hex(n: nat, width: nat): (r: string)
    requires n < Pow16(width)
    ensures |r| == width
  {
    if width == 0 then "" else Hex(n / 16, width - 1) + [HexDigit(n % 16)]
  }

  /** `'{0:04x}'.format(n)`. */
  function Hex4(n: nat): (r: string)
    requires n < 0x10000
    ensures |r| == 4
  {
    assert Pow16(4) == 0x10000;
    Hex(n, 4)
  }

  /** `int(h, 16)` for hexadecimal digits of either case. */
  function HexNumber(h: string): Option<nat>
  {
    if h == [] then Some(0)
    else
      match (HexNumber(h[..|h| - 1]), HexValue(h[|h| - 1]))
      case (Some(high), Some(d)) => Some(high * 16 + d)
      case _ => None
  }

  lemma HexDigitValue(d: nat)
    requires d < 16
    ensures HexValue(HexDigit(d)) == Some(d)
  {
  }

  /** Reading back the digits `Hex` writes gives the number. */
  lemma {:induction false} HexRoundTrip(n: nat, width: nat)
    requires n < Pow16(width)
    ensures HexNumber(Hex(n, width)) == Some(n)
  {
    if width > 0 {
      var h := Hex(n, width);
      assert n / 16 < Pow16(width - 1);
      HexRoundTrip(n / 16, width - 1);
      HexDigitValue(n % 16);
      assert h[..|h| - 1] == Hex(n / 16, width - 1) && h[|h| - 1] == HexDigit(n % 16);
      assert HexNumber(h) == Some(n / 16 * 16 + n % 16);
    }
  }

  lemma Hex4RoundTrip(n: nat)
    requires n < 0x10000
    ensures HexNumber(Hex4(n)) == Some(n)
  {
    assert Pow16(4) == 0x10000;
    HexRoundTrip(n, 4);
  }

  // Strings

  predicate Printable(c: char)
  {
    ' ' <= c <= '~'
  }

  /** The escaped form of one character inside a JSON string. */
  function EncodeChar(c: char): (r: string)
    ensures r != [] && r[0] != '"'
  {
    if c == '"' then "\\\""
    else if c == '\\' then "\\\\"
    else if c == '\n' then "\\n"
    else if c == '\r' then "\\r"
    else if c == '\t' then "\\t"
    else if c == '\U{8}' then "\\b"
    else if c == '\U{C}' then "\\f"
    else if Printable(c) then [c]
    else if c as int < 0x10000 then "\\u" + Hex4(c as int)
    else
      var n := c as int - 0x10000;
      "\\u" + Hex4(0xD800 + n / 0x400) + "\\u" + Hex4(0xDC00 + n % 0x400)
  }

  /** The characters of `s` between the quotes of its JSON string. */
  function EncodeChars(s: string): string
  {
    if s == [] then "" else EncodeChar(s[0]) + EncodeChars(s[1..])
  }

  /** A code point that is a character rather than half of a surrogate pair. */
  function ScalarChar(n: nat): Option<char>
  {
    if n < 0xD800 || 0xE000 <= n < 0x110000 then Some(n as char) else None
  }

  /**
   * Reads one possibly escaped character from the start of `t` (which is
   * inside a string and does not start with the closing quote): the character
   * and the text after it, or `None` for text `json.loads` rejects.
   */
  function DecodeChar(t: string): (r: Option<(char, string)>)
    requires t != []
    ensures r.Some? ==> |r.value.1| < |t|
  {
    if t[0] != '\\' then
      if t[0] < ' ' then None else Some((t[0], t[1..]))
    else if |t| < 2 then None
    else if t[1] == '"' then Some(('"', t[2..]))
    else if t[1] == '\\' then Some(('\\', t[2..]))
    else if t[1] == '/' then Some(('/', t[2..]))
    else if t[1] == 'b' then Some(('\U{8}', t[2..]))
    else if t[1] == 'f' then Some(('\U{C}', t[2..]))
    else if t[1] == 'n' then Some(('\n', t[2..]))
    else if t[1] == 'r' then Some(('\r', t[2..]))
    else if t[1] == 't' then Some(('\t', t[2..]))
    else if t[1] == 'u' && |t| >= 6 then
      match HexNumber(t[2..6])
      case None => None
      case Some(hi) =>
        if 0xD800 <= hi < 0xDC00 && |t| >= 12 && t[6..8] == "\\u" then
          match HexNumber(t[8..12])
          case Some(lo) =>
            if 0xDC00 <= lo < 0xE000 then
              match ScalarChar(0x10000 + (hi - 0xD800) * 0x400 + (lo - 0xDC00))
              case Some(c) => Some((c, t[12..]))
              case None => None
            else None
          case None => None
        else
          match ScalarChar(hi)
          case Some(c) => Some((c, t[6..]))
          case None => None
    else None
  }

  /**
   * Reads the rest of a string whose opening quote has been consumed: the
   * decoded text and what follows the closing quote.
   */
  function DecodeChars(t: string): (r: Option<(string, string)>)
    ensures r.Some? ==> |r.value.1| < |t|
    decreases |t|
  {
    if t == [] then None
    else if t[0] == '"' then Some(("", t[1..]))
    else
      match DecodeChar(t)
      case None => None
      case Some((c, rest)) =>
        match DecodeChars(rest)
        case None => None
        case Some((s, after)) => Some(([c] + s, after))
  }

  /** A printable character other than `"` and `\\` stands for itself. */
  lemma DecodePlainChar(c: char, more: string)
    requires Printable(c) && c != '"' && c != '\\'
    ensures DecodeChar(EncodeChar(c) + more) == Some((c, more))
  {
    var t := EncodeChar(c) + more;
    assert EncodeChar(c) == [c];
    assert t[0] == c && t[1..] == more;
  }

  /** The seven characters with a two-character escape. */
  predicate ShortEscaped(c: char)
  {
    c == '"' || c == '\\' || c == '\n' || c == '\r' || c == '\t' || c == '\U{8}' || c == '\U{C}'
  }

  lemma DecodeShortEscape(c: char, more: string)
    requires ShortEscaped(c)
    ensures DecodeChar(EncodeChar(c) + more) == Some((c, more))
  {
    var t := EncodeChar(c) + more;
    assert |EncodeChar(c)| == 2 && t[0] == '\\';
    assert t[2..] == more;
  }

  /** A character of the Basic Multilingual Plane outside printable ASCII is one `\\uXXXX` escape. */
  lemma DecodeUnicodeEscape(c: char, more: string)
    requires !Printable(c) && !ShortEscaped(c) && c as int < 0x10000
    ensures DecodeChar(EncodeChar(c) + more) == Some((c, more))
  {
    var hex := Hex4(c as int);
    var t := EncodeChar(c) + more;
    assert EncodeChar(c) == "\\u" + hex;
    Hex4RoundTrip(c as int);
    assert t[0] == '\\' && t[1] == 'u';
    assert t[2..6] == hex && t[6..] == more;
    assert ScalarChar(c as int) == Some(c);
  }

  /** A character beyond U+FFFF is the two escapes of its surrogate pair. */
  lemma DecodeSurrogatePair(c: char, more: string)
    requires 0x10000 <= c as int
    ensures DecodeChar(EncodeChar(c) + more) == Some((c, more))
  {
    var n := c as int - 0x10000;
    var hi := 0xD800 + n / 0x400;
    var lo := 0xDC00 + n % 0x400;
    var t := EncodeChar(c) + more;
    assert EncodeChar(c) == "\\u" + Hex4(hi) + "\\u" + Hex4(lo);
    Hex4RoundTrip(hi);
    Hex4RoundTrip(lo);
    assert t[0] == '\\' && t[1] == 'u';
    assert t[2..6] == Hex4(hi) && t[6..8] == "\\u" && t[8..12] == Hex4(lo) && t[12..] == more;
    assert 0x10000 + (hi - 0xD800) * 0x400 + (lo - 0xDC00) == c as int;
  }

  /** Decoding one escaped character gives it back and stops where its escape ends. */
  lemma DecodeEncodedChar(c: char, more: string)
    ensures DecodeChar(EncodeChar(c) + more) == Some((c, more))
  {
    if ShortEscaped(c) {
      DecodeShortEscape(c, more);
    } else if Printable(c) {
      DecodePlainChar(c, more);
    } else if c as int < 0x10000 {
      DecodeUnicodeEscape(c, more);
    } else {
      DecodeSurrogatePair(c, more);
    }
  }

  /** Decoding the escaped characters of `s` followed by a closing quote gives `s` back. */
  lemma {:induction false} DecodeEncodedChars(s: string, after: string)
    ensures DecodeChars(EncodeChars(s) + "\"" + after) == Some((s, after))
    decreases |s|
  {
    var t := EncodeChars(s) + "\"" + after;
    if s == [] {
      assert t == "\"" + after;
    } else {
      var head, tail, quote := EncodeChar(s[0]), EncodeChars(s[1..]), "\"";
      var rest := tail + quote + after;
      assert EncodeChars(s) == head + tail;
      Regroup(head + tail, quote, after);
      Regroup(head, tail, quote + after);
      Regroup(tail, quote, after);
      DecodeEncodedChar(s[0], rest);
      DecodeEncodedChars(s[1..], after);
      assert [s[0]] + s[1..] == s;
    }
  }

  // Documents

  /** What surrounds the two string values of a message object. */
  const RoleOpening: string := "{\"role\": \""
  const ContentOpening: string := ", \"content\": \""
  const ObjectClosing: string := "}"

  /** `json.dumps({"role": m.role, "content": m.content})`. */
  function DumpMessage(m: ChatMessage): string
  {
    RoleOpening + EncodeChars(m.role) + "\"" + ContentOpening + EncodeChars(m.content) + "\"" + ObjectClosing
  }

  /** The entries of a list, each preceded by `", "` except the first. */
  function DumpEntries(ms: seq<ChatMessage>): string
  {
    if ms == [] then ""
    else if |ms| == 1 then DumpMessage(ms[0])
    else DumpMessage(ms[0]) + ", " + DumpEntries(ms[1..])
  }

  /** `json.dumps(ms)` for a list of role/content dicts. */
  function Dumps(ms: seq<ChatMessage>): string
  {
    "[" + DumpEntries(ms) + "]"
  }

  /** Reads one role/content object from the start of `t`: the message and what follows it. */
  function LoadMessage(t: string): (r: Option<(ChatMessage, string)>)
    ensures r.Some? ==> |r.value.1| < |t|
  {
    if |t| < |RoleOpening| || t[..|RoleOpening|] != RoleOpening then None
    else
      match DecodeChars(t[|RoleOpening|..])
      case None => None
      case Some((role, t1)) =>
        if |t1| < |ContentOpening| || t1[..|ContentOpening|] != ContentOpening then None
        else
          match DecodeChars(t1[|ContentOpening|..])
          case None => None
          case Some((content, t2)) =>
            if |t2| < |ObjectClosing| || t2[..|ObjectClosing|] != ObjectClosing then None
            else Some((ChatMessage(role, content), t2[|ObjectClosing|..]))
  }

  /** Reads the entries of a list after its `[` up to and including its `]`: the entries and what follows. */
  function LoadEntries(t: string): (r: Option<(seq<ChatMessage>, string)>)
    decreases |t|
  {
    match LoadMessage(t)
    case None => None
    case Some((m, rest)) =>
      if |rest| >= 1 && rest[0] == ']' then Some(([m], rest[1..]))
      else if |rest| >= 2 && rest[..2] == ", " then
        match LoadEntries(rest[2..])
        case None => None
        case Some((ms, after)) => Some(([m] + ms, after))
      else None
  }

  /** `json.loads(t)` for a list of role/content dicts; `None` where it would raise. */
  function Loads(t: string): Option<seq<ChatMessage>>
  {
    if |t| < 2 || t[0] != '[' then None
    else if t == "[]" then Some([])
    else
      match LoadEntries(t[1..])
      case Some((ms, after)) => if after == [] then Some(ms) else None
      case None => None
  }

  /** `LoadMessage` accepts `t` when its three pieces of framing and two strings are where they should be. */
  lemma LoadMessageAccepts(t: string, role: string, t1: string, content: string, t2: string)
    requires |t| >= |RoleOpening| && t[..|RoleOpening|] == RoleOpening
    requires DecodeChars(t[|RoleOpening|..]) == Some((role, t1))
    requires |t1| >= |ContentOpening| && t1[..|ContentOpening|] == ContentOpening
    requires DecodeChars(t1[|ContentOpening|..]) == Some((content, t2))
    requires |t2| >= |ObjectClosing| && t2[..|ObjectClosing|] == ObjectClosing
    ensures LoadMessage(t) == Some((ChatMessage(role, content), t2[|ObjectClosing|..]))
  {
  }

  /** A dumped message followed by `more`, grouped the way `LoadMessage` reads it. */
  lemma DumpMessageThen(m: ChatMessage, more: string)
    ensures DumpMessage(m) + more
         == RoleOpening + (EncodeChars(m.role) + "\"" + (ContentOpening + (EncodeChars(m.content) + "\"" + (ObjectClosing + more))))
  {
    var role, content, quote := EncodeChars(m.role), EncodeChars(m.content), "\"";
    var t2 := ObjectClosing + more;
    var t1 := ContentOpening + (content + quote + t2);
    var p5 := RoleOpening + role + quote + ContentOpening + content;
    Regroup(p5 + quote, ObjectClosing, more);
    Regroup(p5, quote, t2);
    Regroup(RoleOpening + role + quote + ContentOpening, content, quote + t2);
    Regroup(content, quote, t2);
    Regroup(RoleOpening + role + quote, ContentOpening, content + quote + t2);
    Regroup(RoleOpening + role, quote, t1);
    Regroup(RoleOpening, role, quote + t1);
    Regroup(role, quote, t1);
  }

  lemma LoadDumpedMessage(m: ChatMessage, more: string)
    ensures LoadMessage(DumpMessage(m) + more) == Some((m, more))
  {
    var quote := "\"";
    var t2 := ObjectClosing + more;
    var t1 := ContentOpening + (EncodeChars(m.content) + quote + t2);
    var t := RoleOpening + (EncodeChars(m.role) + quote + t1);
    DumpMessageThen(m, more);
    Framed(RoleOpening, EncodeChars(m.role) + quote + t1);
    DecodeEncodedChars(m.role, t1);
    Framed(ContentOpening, EncodeChars(m.content) + quote + t2);
    DecodeEncodedChars(m.content, t2);
    Framed(ObjectClosing, more);
    LoadMessageAccepts(t, m.role, t1, m.content, t2);
  }

  /** A message followed by `]` ends the list. */
  lemma LoadEntriesLast(t: string, m: ChatMessage, after: string)
    requires LoadMessage(t) == Some((m, "]" + after))
    ensures LoadEntries(t) == Some(([m], after))
  {
    assert ("]" + after)[0] == ']' && ("]" + after)[1..] == after;
  }

  /** A message followed by `, ` continues the list with the entries after it. */
  lemma LoadEntriesMore(t: string, m: ChatMessage, tail: string, ms: seq<ChatMessage>, after: string)
    requires LoadMessage(t) == Some((m, ", " + tail)) && LoadEntries(tail) == Some((ms, after))
    ensures LoadEntries(t) == Some(([m] + ms, after))
  {
    assert (", " + tail)[0] != ']' && (", " + tail)[..2] == ", " && (", " + tail)[2..] == tail;
  }

  /** Entries after the first one, followed by `]` and `more`, grouped the way `LoadEntries` reads them. */
  lemma DumpEntriesThen(ms: seq<ChatMessage>, more: string)
    requires |ms| > 1
    ensures DumpEntries(ms) + "]" + more == DumpMessage(ms[0]) + (", " + (DumpEntries(ms[1..]) + "]" + more))
  {
    var first, rest, close := DumpMessage(ms[0]), DumpEntries(ms[1..]), "]";
    assert DumpEntries(ms) == first + ", " + rest;
    Regroup(first + ", " + rest, close, more);
    Regroup(first + ", ", rest, close + more);
    Regroup(first, ", ", rest + (close + more));
    Regroup(rest, close, more);
  }

  lemma {:induction false} LoadDumpedEntries(ms: seq<ChatMessage>, more: string)
    requires ms != []
    ensures LoadEntries(DumpEntries(ms) + "]" + more) == Some((ms, more))
    decreases |ms|
  {
    if |ms| == 1 {
      assert DumpEntries(ms) == DumpMessage(ms[0]);
      Regroup(DumpMessage(ms[0]), "]", more);
      LoadDumpedMessage(ms[0], "]" + more);
      LoadEntriesLast(DumpMessage(ms[0]) + ("]" + more), ms[0], more);
      assert [ms[0]] == ms;
    } else {
      var tail := DumpEntries(ms[1..]) + "]" + more;
      DumpEntriesThen(ms, more);
      LoadDumpedMessage(ms[0], ", " + tail);
      LoadDumpedEntries(ms[1..], more);
      LoadEntriesMore(DumpMessage(ms[0]) + (", " + tail), ms[0], tail, ms[1..], more);
      assert [ms[0]] + ms[1..] == ms;
    }
  }

  /** Every dumped non-empty list of entries starts with the `{` of its first object. */
  lemma DumpEntriesStart(ms: seq<ChatMessage>)
    requires ms != []
    ensures |DumpEntries(ms)| > 0 && DumpEntries(ms)[0] == '{'
  {
    var first := DumpMessage(ms[0]);
    var body := EncodeChars(ms[0].role) + "\"" + (ContentOpening + (EncodeChars(ms[0].content) + "\"" + (ObjectClosing + "")));
    DumpMessageThen(ms[0], "");
    assert first + "" == first;
    assert first == RoleOpening + body;
    assert first[0] == RoleOpening[0] == '{';
    if |ms| > 1 {
      var rest := ", " + DumpEntries(ms[1..]);
      Regroup(first, ", ", DumpEntries(ms[1..]));
      assert DumpEntries(ms) == first + rest;
    }
  }

  /** `Loads` accepts a list whose entries run exactly to the end of the text. */
  lemma LoadsAccepts(t: string, ms: seq<ChatMessage>)
    requires |t| >= 2 && t[0] == '[' && t[1] != ']' && LoadEntries(t[1..]) == Some((ms, ""))
    ensures Loads(t) == Some(ms)
  {
    assert t != "[]";
  }

  /** `json.loads(json.dumps(ms)) == ms`: the round trip changes nothing. */
  lemma LoadsDumps(ms: seq<ChatMessage>)
    ensures Loads(Dumps(ms)) == Some(ms)
  {
    if ms == [] {
      assert Dumps(ms) == "[]";
    } else {
      var entries, close := DumpEntries(ms), "]";
      var t := Dumps(ms);
      LoadDumpedEntries(ms, "");
      assert entries + close + "" == entries + close;
      Regroup("[", entries, close);
      Framed("[", entries + close);
      DumpEntriesStart(ms);
      assert t[1] == entries[0];
      LoadsAccepts(t, ms);
    }
  }
}
