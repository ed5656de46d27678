/**
 * The Python string operations the core relies on: `str.isspace`, `str.strip`,
 * decimal rendering of integers (`f'{n}'`), the integer parser `int(...)`,
 * `' '.join`, and the two newline replacements the core performs.
 */
module Text {
  import opened Wrappers

  /** The characters Python's `str.isspace()` accepts, which `str.strip()` removes. */
  predicate IsSpace(c: char)
  {
    || c == ' '
    || ('\t' <= c <= '\r')
    || ('\U{1C}' <= c <= '\U{1F}')
    || c == '\U{85}' || c == '\U{A0}' || c == '\U{1680}'
    || ('\U{2000}' <= c <= '\U{200A}')
    || c == '\U{2028}' || c == '\U{2029}' || c == '\U{202F}' || c == '\U{205F}' || c == '\U{3000}'
  }

  predicate AllSpace(s: string)
  {
    forall i :: 0 <= i < |s| ==> IsSpace(s[i])
  }

  /** `s.lstrip()`: `s` without its leading whitespace. */
  function TrimStart(s: string): string
    decreases |s|
  {
    if s != [] && IsSpace(s[0]) then TrimStart(s[1..]) else s
  }

  /** `s.rstrip()`: `s` without its trailing whitespace. */
  function TrimEnd(s: string): string
    decreases |s|
  {
    if s != [] && IsSpace(s[|s| - 1]) then TrimEnd(s[..|s| - 1]) else s
  }

  /** `s.strip()`: `s` without its leading and trailing whitespace. */
  function Strip(s: string): string
  {
    TrimEnd(TrimStart(s))
  }

  /** `lstrip` drops an all-whitespace prefix and stops at the first other character. */
  lemma {:induction false} TrimStartShape(s: string)
    ensures var r := TrimStart(s);
      && |r| <= |s| && r == s[|s| - |r|..]
      && AllSpace(s[..|s| - |r|])
      && (r == [] || !IsSpace(r[0]))
    decreases |s|
  {
    if s != [] && IsSpace(s[0]) {
      TrimStartShape(s[1..]);
      var r := TrimStart(s[1..]);
      assert s[..|s| - |r|] == [s[0]] + s[1..][..|s[1..]| - |r|];
    }
  }

  /** `rstrip` drops an all-whitespace suffix and stops at the last other character. */
  lemma {:induction false} TrimEndShape(s: string)
    ensures var r := TrimEnd(s);
      && |r| <= |s| && r == s[..|r|]
      && AllSpace(s[|r|..])
      && (r == [] || !IsSpace(r[|r| - 1]))
    decreases |s|
  {
    if s != [] && IsSpace(s[|s| - 1]) {
      TrimEndShape(s[..|s| - 1]);
      var r := TrimEnd(s[..|s| - 1]);
      assert s[|r|..] == s[..|s| - 1][|r|..] + [s[|s| - 1]];
    }
  }

  /** `strip` leaves neither leading nor trailing whitespace, and never lengthens. */
  lemma StripShape(s: string)
    ensures |Strip(s)| <= |s|
    ensures Strip(s) == [] || (!IsSpace(Strip(s)[0]) && !IsSpace(Strip(s)[|Strip(s)| - 1]))
  {
    var t := TrimStart(s);
    TrimStartShape(s);
    TrimEndShape(t);
    var r := TrimEnd(t);
    assert r != [] ==> r[0] == t[0];
  }

  /** `strip` removes whitespace at the two ends and nothing else. */
  lemma StripRemovesOnlyEdges(s: string)
    ensures exists i :: 0 <= i <= |s| - |Strip(s)| && s[i..][..|Strip(s)|] == Strip(s)
                        && AllSpace(s[..i]) && AllSpace(s[i + |Strip(s)|..])
  {
    var t := TrimStart(s);
    var r := TrimEnd(t);
    TrimStartShape(s);
    TrimEndShape(t);
    var i := |s| - |t|;
    assert s[i..] == t;
    assert s[i + |r|..] == t[|r|..];
    assert s[i..][..|r|] == r;
    assert 0 <= i <= |s| - |Strip(s)| && s[i..][..|Strip(s)|] == Strip(s)
           && AllSpace(s[..i]) && AllSpace(s[i + |Strip(s)|..]);
  }

  /** No printable ASCII character is whitespace. */
  lemma PrintableNotSpace(c: char)
    requires '!' <= c <= '~'
    ensures !IsSpace(c)
  {
  }

  /** Text that does not end with whitespace is left alone by `rstrip`. */
  lemma TrimEndUnpadded(s: string)
    requires s == [] || !IsSpace(s[|s| - 1])
    ensures TrimEnd(s) == s
  {
  }

  /** Text that neither starts nor ends with whitespace is left alone by `strip`. */
  lemma StripUnpadded(s: string)
    requires s == [] || (!IsSpace(s[0]) && !IsSpace(s[|s| - 1]))
    ensures Strip(s) == s
  {
  }

  /** `rstrip` removes exactly an all-whitespace tail after a non-whitespace character. */
  lemma {:induction false} TrimEndPadding(s: string, pad: string)
    requires s != [] && !IsSpace(s[|s| - 1]) && AllSpace(pad)
    ensures TrimEnd(s + pad) == s
    decreases |pad|
  {
    if pad != [] {
      var p := pad[..|pad| - 1];
      assert (s + pad)[..|s + pad| - 1] == s + p;
      TrimEndPadding(s, p);
    } else {
      assert s + pad == s;
    }
  }

  /** `rstrip` ignores whitespace appended to its argument. */
  lemma {:induction false} TrimEndSpaces(s: string, pad: string)
    requires AllSpace(pad)
    ensures TrimEnd(s + pad) == TrimEnd(s)
    decreases |pad|
  {
    if pad != [] {
      var p := pad[..|pad| - 1];
      assert (s + pad)[..|s + pad| - 1] == s + p;
      TrimEndSpaces(s, p);
    } else {
      assert s + pad == s;
    }
  }

  /** `(s + pad).strip() == s` when `s` has no whitespace at either end and `pad` is whitespace. */
  lemma StripPadded(s: string, pad: string)
    requires s != [] && !IsSpace(s[0]) && !IsSpace(s[|s| - 1]) && AllSpace(pad)
    ensures Strip(s + pad) == s
  {
    assert TrimStart(s + pad) == s + pad;
    TrimEndPadding(s, pad);
  }

  predicate IsDigit(c: char)
  {
    '0' <= c <= '9'
  }

  predicate AllDigits(s: string)
  {
    forall i :: 0 <= i < |s| ==> IsDigit(s[i])
  }

  function DigitChar(d: nat): (c: char)
    requires d < 10
    ensures IsDigit(c) && c as int - '0' as int == d
  {
    ('0' as int + d) as char
  }

  /** The value of a string of decimal digits, most significant digit first. */
  function DigitsValue(s: string): nat
    requires AllDigits(s)
  {
    if s == [] then 0 else DigitsValue(s[..|s| - 1]) * 10 + (s[|s| - 1] as int - '0' as int)
  }

  /** `f'{n}'` for a non-negative integer: its decimal digits, without leading zeros. */
  function NatToString(n: nat): (r: string)
    ensures r != [] && AllDigits(r)
    ensures r[0] == '0' ==> n == 0
    decreases n
  {
    if n < 10 then [DigitChar(n)] else NatToString(n / 10) + [DigitChar(n % 10)]
  }

  /** Reading back the digits `f'{n}'` writes gives `n`. */
  lemma {:induction false} NatToStringValue(n: nat)
    ensures DigitsValue(NatToString(n)) == n
    decreases n
  {
    if n >= 10 {
      NatToStringValue(n / 10);
      var s := NatToString(n);
      assert s[..|s| - 1] == NatToString(n / 10);
    }
  }

  /** `f'{i}'` (equivalently `str(i)`) for any integer. */
  function IntToString(i: int): (r: string)
    ensures r != [] && (i >= 0 <==> IsDigit(r[0]))
  {
    if i < 0 then "-" + NatToString(-i) else NatToString(i)
  }

  /**
   * Python's `int(s)` on a `str`: surrounding whitespace is ignored, then an
   * optional `+` or `-` and ASCII digits with single underscores between
   * digits. Anything else is a `ValueError` (None).
   */
  function ParseInt(s: string): Option<int>
  {
    var t := Strip(s);
    if t != [] && (t[0] == '+' || t[0] == '-') then
      match ParseUnsigned(t[1..])
      case None => None
      case Some(n) => Some(if t[0] == '-' then 0 - n as int else n)
    else
      match ParseUnsigned(t)
      case None => None
      case Some(n) => Some(n)
  }

  /**
   * The digits of an integer literal after its sign: ASCII digits, with
   * single underscores allowed between two digits.
   */
  function ParseUnsigned(body: string): Option<nat>
    decreases |body|
  {
    if body == [] || !IsDigit(body[|body| - 1]) then None
    else
      var d := body[|body| - 1] as int - '0' as int;
      var init := body[..|body| - 1];
      if init == [] then Some(d)
      else
        var more := if init[|init| - 1] == '_' then init[..|init| - 1] else init;
        match ParseUnsigned(more)
        case None => None
        case Some(n) => Some(n * 10 + d)
  }

  /** `int(str(i)) == i`: rendering an integer and parsing it back is the identity. */
  lemma IntToStringRoundTrip(i: int)
    ensures ParseInt(IntToString(i)) == Some(i)
  {
    if i < 0 {
      NegativeRoundTrip(-i, IntToString(i));
    } else {
      NatToStringValue(i);
      ParseDigits(NatToString(i));
    }
  }

  lemma NegativeRoundTrip(n: nat, s: string)
    requires s == "-" + NatToString(n)
    ensures ParseInt(s) == Some(0 - n)
  {
    assert s[0] == '-' && s[1..] == NatToString(n);
    NatToStringValue(n);
    ParseSignedDigits(s);
  }

  lemma ParseDigits(body: string)
    requires body != [] && AllDigits(body)
    ensures ParseInt(body) == Some(DigitsValue(body))
  {
    StripUnpadded(body);
    ParseUnsignedDigits(body);
  }

  lemma ParseSignedDigits(s: string)
    requires |s| >= 2 && (s[0] == '+' || s[0] == '-') && AllDigits(s[1..])
    ensures ParseInt(s) == Some(if s[0] == '-' then 0 - DigitsValue(s[1..]) as int else DigitsValue(s[1..]))
  {
    var body := s[1..];
    ParseUnsignedDigits(body);
    assert s[|s| - 1] == body[|body| - 1];
    StripUnpadded(s);
  }

  /** A literal made only of digits reads as their decimal value. */
  lemma {:induction false} ParseUnsignedDigits(body: string)
    requires body != [] && AllDigits(body)
    ensures ParseUnsigned(body) == Some(DigitsValue(body))
    decreases |body|
  {
    var init := body[..|body| - 1];
    if init != [] {
      ParseUnsignedDigits(init);
    }
  }

  /** `f'{i}'` is made of digits and at most a leading minus sign. */
  lemma IntToStringChars(i: int)
    ensures forall k :: 0 <= k < |IntToString(i)| ==> IsDigit(IntToString(i)[k]) || (k == 0 && IntToString(i)[k] == '-')
  {
  }

  /** Distinct integers render as distinct strings. */
  lemma IntToStringInjective(i: int, j: int)
    requires IntToString(i) == IntToString(j)
    ensures i == j
  {
    IntToStringRoundTrip(i);
    IntToStringRoundTrip(j);
  }

  /** `s.split(sep)` for a one-character separator: the pieces between separators, empty ones included. */
  function Split(s: string, sep: char): (r: seq<string>)
    ensures |r| >= 1
  {
    if s == [] then [""]
    else
      var rest := Split(s[1..], sep);
      if s[0] == sep then [""] + rest else [[s[0]] + rest[0]] + rest[1..]
  }

  /** The first piece has no separator, and there is one piece exactly when `s` has no separator. */
  lemma {:induction false} SplitParts(s: string, sep: char)
    ensures var r := Split(s, sep); sep !in r[0] && (|r| == 1 <==> sep !in s)
    decreases |s|
  {
    if s != [] {
      SplitParts(s[1..], sep);
      assert s == [s[0]] + s[1..];
    }
  }

  /** `sep.join(parts)`. */
  function Join(sep: string, parts: seq<string>): string
  {
    if |parts| == 0 then ""
    else if |parts| == 1 then parts[0]
    else parts[0] + sep + Join(sep, parts[1..])
  }

  /** Joining one more part adds the separator and the part at the end. */
  lemma {:induction false} JoinAppend(sep: string, parts: seq<string>, last: string)
    requires parts != []
    ensures Join(sep, parts + [last]) == Join(sep, parts) + sep + last
    decreases |parts|
  {
    if |parts| == 1 {
      assert parts + [last] == [parts[0], last];
    } else {
      assert (parts + [last])[1..] == parts[1..] + [last];
      JoinAppend(sep, parts[1..], last);
    }
  }

  /** `''.join(parts)`. */
  function Concat(parts: seq<string>): string
  {
    if parts == [] then "" else parts[0] + Concat(parts[1..])
  }

  lemma {:induction false} ConcatAppend(a: seq<string>, b: seq<string>)
    ensures Concat(a + b) == Concat(a) + Concat(b)
    decreases |a|
  {
    if a != [] {
      assert (a + b)[1..] == a[1..] + b;
      ConcatAppend(a[1..], b);
    } else {
      assert a + b == b;
    }
  }

  /** `s.replace('\n', '')`. */
  function RemoveNewlines(s: string): (r: string)
    ensures '\n' !in r && |r| <= |s|
  {
    if s == [] then "" else (if s[0] == '\n' then "" else [s[0]]) + RemoveNewlines(s[1..])
  }

  lemma {:induction false} RemoveNewlinesAppend(a: string, b: string)
    ensures RemoveNewlines(a + b) == RemoveNewlines(a) + RemoveNewlines(b)
    decreases |a|
  {
    if a != [] {
      assert (a + b)[1..] == a[1..] + b;
      RemoveNewlinesAppend(a[1..], b);
    } else {
      assert a + b == b;
    }
  }

  /** `s.replace('\n', '\\n')`: every newline becomes a backslash followed by `n`. */
  function EscapeNewlines(s: string): (r: string)
    ensures '\n' !in r && |r| >= |s|
  {
    if s == [] then "" else (if s[0] == '\n' then "\\n" else [s[0]]) + EscapeNewlines(s[1..])
  }

  lemma {:induction false} EscapeNewlinesAppend(a: string, b: string)
    ensures EscapeNewlines(a + b) == EscapeNewlines(a) + EscapeNewlines(b)
    decreases |a|
  {
    if a != [] {
      assert (a + b)[1..] == a[1..] + b;
      EscapeNewlinesAppend(a[1..], b);
    } else {
      assert a + b == b;
    }
  }
}
