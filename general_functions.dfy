/**
 * SMS chunking with page numbers, and the `number,domain` line parser
 * (general_functions.py).
 */
module GeneralFunctions {
  import opened Wrappers
  import opened Text

  /** Width of one raw SMS slice: the split loop takes `text[:130]` each round. */
  const SliceWidth: nat := 130

  function Min(a: int, b: int): int
  {
    if a < b then a else b
  }

  /** The raw slices the split loop collects: `s[:130]`, then the same on `s[130:]`, until `s` is empty. */
  function Slices(s: string): seq<string>
    decreases |s|
  {
    if s == [] then [] else [s[..Min(SliceWidth, |s|)]] + Slices(s[Min(SliceWidth, |s|)..])
  }

  /** Gluing the raw slices back together gives the input exactly. */
  lemma {:induction false} SlicesConcat(s: string)
    ensures Concat(Slices(s)) == s
    decreases |s|
  {
    if s != [] {
      var n := Min(SliceWidth, |s|);
      SlicesConcat(s[n..]);
      assert s == s[..n] + s[n..];
    }
  }

  /** There are ceil(|s| / 130) slices; all but the last hold exactly 130 characters, the last 1 to 130. */
  lemma {:induction false} SlicesShape(s: string)
    ensures |Slices(s)| == (|s| + SliceWidth - 1) / SliceWidth
    ensures forall i :: 0 <= i < |Slices(s)| - 1 ==> |Slices(s)[i]| == SliceWidth
    ensures Slices(s) != [] ==> 1 <= |Slices(s)[|Slices(s)| - 1]| <= SliceWidth
    decreases |s|
  {
    if s != [] {
      var n := Min(SliceWidth, |s|);
      SlicesShape(s[n..]);
      if |s| > SliceWidth {
        assert Slices(s[n..]) != [];
      } else {
        assert Slices(s[n..]) == [];
      }
    }
  }

  /** The page marker appended to page `page` of `total`: `" (page/total)"`. */
  function PageSuffix(page: nat, total: nat): (r: string)
    ensures |r| >= 6 && r[..2] == " (" && r[|r| - 1] == ')'
  {
    " (" + NatToString(page) + "/" + NatToString(total) + ")"
  }

  /** `pages` is `chunks` with newlines removed and page markers `(1/N)` ... `(N/N)` appended, in order. */
  ghost predicate PageNumbered(chunks: seq<string>, pages: seq<string>)
  {
    && |pages| == |chunks|
    && forall i :: 0 <= i < |chunks| ==> pages[i] == RemoveNewlines(chunks[i]) + PageSuffix(i + 1, |chunks|)
  }

  /** `add_page_numbers`: one page per chunk, in order, each newline-free and tagged `(i/N)`. */
  method AddPageNumbers(chunks: seq<string>) returns (modified: seq<string>)
    ensures PageNumbered(chunks, modified)
  {
    var pageCounter := 1;
    modified := [];
    for k := 0 to |chunks|
      invariant pageCounter == k + 1
      invariant |modified| == k
      invariant forall i :: 0 <= i < k ==> modified[i] == RemoveNewlines(chunks[i]) + PageSuffix(i + 1, |chunks|)
    {
      var chunk := RemoveNewlines(chunks[k]);
      modified := modified + [chunk + PageSuffix(pageCounter, |chunks|)];
      pageCounter := pageCounter + 1;
    }
  }

  /** `split_text_message`: cut the text into 130-character slices, then number them. */
  method SplitTextMessage(fullText: string) returns (pages: seq<string>)
    ensures PageNumbered(Slices(fullText), pages)
    ensures |pages| == (|fullText| + SliceWidth - 1) / SliceWidth
    ensures 0 < |fullText| <= SliceWidth ==> pages == [RemoveNewlines(fullText) + " (1/1)"]
  {
    var chunks: seq<string> := [];
    var rest := fullText;
    while rest != []
      invariant chunks + Slices(rest) == Slices(fullText)
      decreases |rest|
    {
      var n := Min(SliceWidth, |rest|);
      chunks := chunks + [rest[..n]];
      rest := rest[n..];
    }
    pages := AddPageNumbers(chunks);
    SlicesShape(fullText);
    if 0 < |fullText| <= SliceWidth {
      assert fullText[..|fullText|] == fullText && fullText[|fullText|..] == [];
      assert Slices(fullText) == [fullText];
      assert NatToString(1) == "1";
      assert PageSuffix(1, 1) == " (1/1)";
      assert pages[0] == RemoveNewlines(fullText) + PageSuffix(1, 1);
    }
  }

  /** The text of a page without its `" (i/N)"` marker. */
  function PageText(page: string, number: nat, total: nat): string
    requires |page| >= |PageSuffix(number, total)|
  {
    page[..|page| - |PageSuffix(number, total)|]
  }

  /**
   * Removing the page markers and gluing the pages together gives back the
   * original text without its newlines; each page's text is newline-free and
   * at most 130 characters long.
   */
  lemma PagesReconstructText(text: string, pages: seq<string>)
    requires PageNumbered(Slices(text), pages)
    ensures forall i :: 0 <= i < |pages| ==> |pages[i]| >= |PageSuffix(i + 1, |pages|)|
    ensures forall i :: 0 <= i < |pages| ==>
      var t := PageText(pages[i], i + 1, |pages|); '\n' !in t && |t| <= SliceWidth
    ensures Concat(seq(|pages|, i requires 0 <= i < |pages| => PageText(pages[i], i + 1, |pages|))) == RemoveNewlines(text)
  {
    var chunks := Slices(text);
    SlicesShape(text);
    var texts := seq(|pages|, i requires 0 <= i < |pages| => PageText(pages[i], i + 1, |pages|));
    forall i | 0 <= i < |pages|
      ensures |pages[i]| >= |PageSuffix(i + 1, |pages|)|
      ensures texts[i] == RemoveNewlines(chunks[i]) && |texts[i]| <= SliceWidth
    {
      var suffix := PageSuffix(i + 1, |pages|);
      var body := RemoveNewlines(chunks[i]);
      assert pages[i] == body + suffix;
      Framed(body, suffix);
      assert |chunks[i]| <= SliceWidth;
    }
    ConcatRemoveNewlines(chunks, texts);
    SlicesConcat(text);
  }

  lemma {:induction false} ConcatRemoveNewlines(chunks: seq<string>, texts: seq<string>)
    requires |texts| == |chunks|
    requires forall i :: 0 <= i < |chunks| ==> texts[i] == RemoveNewlines(chunks[i])
    ensures Concat(texts) == RemoveNewlines(Concat(chunks))
    decreases |chunks|
  {
    if chunks != [] {
      ConcatRemoveNewlines(chunks[1..], texts[1..]);
      RemoveNewlinesAppend(chunks[0], Concat(chunks[1..]));
    }
  }

  function CommaCount(s: string): nat
  {
    if s == [] then 0 else (if s[0] == ',' then 1 else 0) + CommaCount(s[1..])
  }

  /** Position of the first comma, if any. */
  function CommaIndex(s: string): (k: nat)
    requires CommaCount(s) > 0
    ensures k < |s| && s[k] == ',' && CommaCount(s[..k]) == 0
    ensures CommaCount(s) == 1 + CommaCount(s[k + 1..])
  {
    if s[0] == ',' then (assert s[..0] == []; 0)
    else
      var k := CommaIndex(s[1..]);
      assert s[..k + 1] == [s[0]] + s[1..][..k];
      assert s[k + 2..] == s[1..][k + 1..];
      k + 1
  }

  lemma {:induction false} NoCommaCount(s: string)
    ensures CommaCount(s) == 0 <==> ',' !in s
    decreases |s|
  {
    if s != [] {
      NoCommaCount(s[1..]);
      assert s == [s[0]] + s[1..];
    }
  }

  /**
   * One stripped, non-blank line: `number, domain = line.split(',')` succeeds
   * exactly when the line holds one comma, and gives `"number domain"` with
   * both parts stripped; otherwise the unpacking raises `ValueError` (None).
   */
  function PhoneEntry(line: string): (r: Option<string>)
    ensures r.Some? <==> CommaCount(line) == 1
  {
    if CommaCount(line) != 1 then None
    else
      var k := CommaIndex(line);
      Some(Strip(line[..k]) + " " + Strip(line[k + 1..]))
  }

  /** An accepted line is `number,domain` with no other comma, and its entry is `strip(number) + " " + strip(domain)`. */
  lemma PhoneEntryParts(line: string)
    requires PhoneEntry(line).Some?
    ensures exists k :: 0 <= k < |line| && line[k] == ',' && ',' !in line[..k] && ',' !in line[k + 1..]
                        && PhoneEntry(line).value == Strip(line[..k]) + " " + Strip(line[k + 1..])
  {
    var k := CommaIndex(line);
    NoCommaCount(line[..k]);
    NoCommaCount(line[k + 1..]);
  }

  /** A line the parser accepts: blank after stripping, or holding exactly one comma. */
  predicate WellFormedLine(line: string)
  {
    Strip(line) == [] || CommaCount(Strip(line)) == 1
  }

  /** What the parse loop collects from `lines`: entries of non-blank lines, stopping at the first malformed one. */
  function PhoneEntries(lines: seq<string>): seq<string>
  {
    if lines == [] then []
    else
      var line := Strip(lines[0]);
      if line == [] then PhoneEntries(lines[1..])
      else match PhoneEntry(line)
        case None => []
        case Some(entry) => [entry] + PhoneEntries(lines[1..])
  }

  /** One line read: a blank line is skipped, a malformed one ends the parse, a good one puts its entry first. */
  lemma PhoneEntriesFirst(lines: seq<string>, line: string)
    requires lines != [] && line == Strip(lines[0])
    ensures line == [] ==> PhoneEntries(lines) == PhoneEntries(lines[1..])
    ensures line != [] && PhoneEntry(line).None? ==> PhoneEntries(lines) == []
    ensures line != [] && PhoneEntry(line).Some? ==> PhoneEntries(lines) == [PhoneEntry(line).value] + PhoneEntries(lines[1..])
  {
  }

  /** `get_user_phone_numbers` with the file given as its lines; None stands for `FileNotFoundError`. */
  method GetUserPhoneNumbers(file: Option<seq<string>>) returns (phoneNumbers: seq<string>)
    ensures file.None? ==> phoneNumbers == []
    ensures file.Some? ==> phoneNumbers == PhoneEntries(file.value)
  {
    phoneNumbers := [];
    if file.None? {
      return;
    }
    var lines := file.value;
    var k := 0;
    while k < |lines|
      invariant 0 <= k <= |lines|
      invariant PhoneEntries(lines) == phoneNumbers + PhoneEntries(lines[k..])
    {
      assert lines[k..][1..] == lines[k + 1..];
      var line := Strip(lines[k]);
      PhoneEntriesFirst(lines[k..], line);
      if line != [] {
        match PhoneEntry(line)
        case None =>
          return;
        case Some(entry) =>
          phoneNumbers := phoneNumbers + [entry];
      }
      k := k + 1;
    }
  }

  /** Lines are parsed in order: well-formed leading lines contribute their entries ahead of the rest. */
  lemma {:induction false} PhoneEntriesAppend(a: seq<string>, b: seq<string>)
    requires forall i :: 0 <= i < |a| ==> WellFormedLine(a[i])
    ensures PhoneEntries(a + b) == PhoneEntries(a) + PhoneEntries(b)
    decreases |a|
  {
    if a != [] {
      assert (a + b)[1..] == a[1..] + b;
      PhoneEntriesAppend(a[1..], b);
    } else {
      assert a + b == b;
    }
  }

  /** The first malformed non-blank line ends parsing: nothing after it is read, and no error is returned. */
  lemma {:induction false} PhoneEntriesStop(a: seq<string>, bad: string, rest: seq<string>)
    requires !WellFormedLine(bad)
    ensures PhoneEntries(a + [bad] + rest) == PhoneEntries(a)
    decreases |a|
  {
    if a != [] {
      assert (a + [bad] + rest)[1..] == a[1..] + [bad] + rest;
      PhoneEntriesStop(a[1..], bad, rest);
    } else {
      assert a + [bad] + rest == [bad] + rest;
    }
  }

  /** The stripped non-blank lines, in order. */
  function NonBlank(lines: seq<string>): (r: seq<string>)
    ensures forall i :: 0 <= i < |r| ==> r[i] != []
  {
    if lines == [] then []
    else if Strip(lines[0]) == [] then NonBlank(lines[1..])
    else [Strip(lines[0])] + NonBlank(lines[1..])
  }

  /** Without malformed lines, every non-blank line yields its own entry, in line order. */
  lemma {:induction false} PhoneEntriesWellFormed(lines: seq<string>)
    requires forall i :: 0 <= i < |lines| ==> WellFormedLine(lines[i])
    ensures |PhoneEntries(lines)| == |NonBlank(lines)|
    ensures forall i :: 0 <= i < |NonBlank(lines)| ==>
      PhoneEntry(NonBlank(lines)[i]) == Some(PhoneEntries(lines)[i])
    decreases |lines|
  {
    if lines != [] {
      PhoneEntriesWellFormed(lines[1..]);
      assert WellFormedLine(lines[0]);
      var line := Strip(lines[0]);
      var rest := lines[1..];
      if line != [] {
        var e := PhoneEntry(line).value;
        assert PhoneEntries(lines) == [e] + PhoneEntries(rest);
        assert NonBlank(lines) == [line] + NonBlank(rest);
        EntriesCons(line, e, NonBlank(rest), PhoneEntries(rest));
      } else {
        assert PhoneEntries(lines) == PhoneEntries(rest);
        assert NonBlank(lines) == NonBlank(rest);
      }
    }
  }

  /** One more accepted line in front keeps lines and entries paired index by index. */
  lemma EntriesCons(line: string, e: string, lines: seq<string>, entries: seq<string>)
    requires PhoneEntry(line) == Some(e)
    requires |entries| == |lines| && forall i :: 0 <= i < |lines| ==> PhoneEntry(lines[i]) == Some(entries[i])
    ensures var ls := [line] + lines; var es := [e] + entries;
      |es| == |ls| && forall i :: 0 <= i < |ls| ==> PhoneEntry(ls[i]) == Some(es[i])
  {
    var ls := [line] + lines;
    var es := [e] + entries;
    forall i | 0 <= i < |ls|
      ensures PhoneEntry(ls[i]) == Some(es[i])
    {
      if i > 0 {
        assert ls[i] == lines[i - 1] && es[i] == entries[i - 1];
      }
    }
  }
}
