/**
 * The text-extraction service for planning PDFs: the cleaning pipeline
 * applied to every extracted text, the digital-versus-OCR decision, and the
 * section and officer-quote extraction over a cleaned text.
 *
 * PyMuPDF, Textract and Tesseract are not modelled: what each of them
 * returns (page texts and image counts, text blocks, OCR page texts, or a
 * failure) is a parameter. The seven fixed regular expressions of the
 * cleaning pipeline are written out as matchers; the section and quote
 * searches are given as oracles.
 */
module TextExtractor {
  import opened Common
  import opened PyStr

  // ---------------------------------------------------------------------
  // Matching primitives
  // ---------------------------------------------------------------------

  predicate IsNewline(c: char) { c == '\n' }

  predicate NotNewline(c: char) { c != '\n' }

  predicate IsAsciiLetter(c: char) { IsAsciiUpper(c) || IsAsciiLower(c) }

  /** The length of the longest prefix of `s` whose characters all satisfy `p` (a greedy `p*`). */
  function Run(s: string, p: char -> bool): (n: nat)
    ensures n <= |s|
  {
    if s != [] && p(s[0]) then 1 + Run(s[1..], p) else 0
  }

  /** Every character of the run satisfies `p`, and the one after it does not. */
  lemma {:induction false} RunSpec(s: string, p: char -> bool)
    ensures var n := Run(s, p);
      (forall i :: 0 <= i < n ==> p(s[i])) && (n < |s| ==> !p(s[n]))
    decreases |s|
  {
    if s != [] && p(s[0]) {
      RunSpec(s[1..], p);
    }
  }

  /** A greedy run stops exactly where its characters stop satisfying `p`. */
  lemma {:induction false} RunOf(x: string, y: string, p: char -> bool)
    requires forall i :: 0 <= i < |x| ==> p(x[i])
    requires y == [] || !p(y[0])
    ensures Run(x + y, p) == |x|
    decreases |x|
  {
    if x != [] {
      assert (x + y)[0] == x[0];
      assert (x + y)[1..] == x[1..] + y;
      RunOf(x[1..], y, p);
    }
  }

  /** The run starting at position `|x|` of `x + y + z` covers exactly `y`. */
  lemma RunAfter(x: string, y: string, z: string, p: char -> bool)
    requires forall i :: 0 <= i < |y| ==> p(y[i])
    requires z == [] || !p(z[0])
    ensures Run((x + y + z)[|x|..], p) == |y|
  {
    assert (x + y + z)[|x|..] == y + z;
    RunOf(y, z, p);
  }

  /** The text starts with `lit` when ASCII case is ignored; `lit` is written in lower case. */
  predicate StartsWithFold(s: string, lit: string)
  {
    |lit| <= |s| && Lower(s[..|lit|]) == lit
  }

  /** A match at the start of a text: its length (0 when there is none) and its replacement. */
  datatype Hit = Hit(length: nat, replacement: string)

  const NoHit := Hit(0, "")

  // ---------------------------------------------------------------------
  // The patterns of the cleaning pipeline
  // ---------------------------------------------------------------------

  /**
   * The regular expressions `_clean_text` substitutes: six header and footer
   * patterns removed case-insensitively, the `\n{3,}` run, and the two
   * preserved reference shapes.
   */
  datatype Pattern =
    | PageNumber            // Page \d+ of \d+
    | CouncilBanner         // Camden Council Planning
    | CouncilWebsite        // www\.camden\.gov\.uk
    | DocumentReferenceLine // Document Reference:.*\n
    | PrintedOnLine         // Printed on:.*\n
    | OfficialMarking       // OFFICIAL
    | BlankLines            // \n{3,}
    | CaseReference         // (\d{4})\s*/\s*(\d{4,5})\s*/\s*([A-Z]+)
    | PolicyReference       // Policy\s+([A-Z])\s*(\d+), ignoring case

  const PageWord := "page "
  const OfWord := " of "
  const BannerText := "camden council planning"
  const WebsiteText := "www.camden.gov.uk"
  const ReferenceLabel := "document reference:"
  const PrintedLabel := "printed on:"
  const OfficialText := "official"
  const PolicyWord := "policy"

  /** A literal removed wherever it occurs, ignoring case. */
  function LiteralAt(s: string, lit: string): (h: Hit)
    ensures h.length <= |s| && h.replacement == ""
  {
    if StartsWithFold(s, lit) then Hit(|lit|, "") else NoHit
  }

  /** `Page \d+ of \d+`, ignoring case, removed. */
  function PageNumberAt(s: string): (h: Hit)
    ensures h.length <= |s| && h.replacement == ""
  {
    if !StartsWithFold(s, PageWord) then NoHit
    else
      var a := Run(s[5..], IsDigit);
      if a == 0 || !StartsWithFold(s[5 + a..], OfWord) then NoHit
      else
        var b := Run(s[9 + a..], IsDigit);
        if b == 0 then NoHit else Hit(9 + a + b, "")
  }

  /** `tag.*\n`, ignoring case: the tag and the rest of its line, newline included, removed. */
  function LineAt(s: string, tag: string): (h: Hit)
    ensures h.length <= |s| && h.replacement == ""
  {
    if !StartsWithFold(s, tag) then NoHit
    else
      var n := Run(s[|tag|..], NotNewline);
      if |tag| + n < |s| then Hit(|tag| + n + 1, "") else NoHit
  }

  /** `\n{3,}` replaced by a blank line. */
  function BlankLinesAt(s: string): (h: Hit)
    ensures h.length <= |s|
  {
    var n := Run(s, IsNewline);
    if n >= 3 then Hit(n, "\n\n") else NoHit
  }

  /** Optional whitespace, a slash and optional whitespace at the start of `t`: what follows them, if they are there. */
  function SkipSlash(t: string): (r: Option<string>)
    ensures r.Some? ==> |r.value| < |t|
  {
    var a := Run(t, IsSpace);
    if a == |t| || t[a] != '/' then None
    else
      var u := t[a + 1..];
      Some(u[Run(u, IsSpace)..])
  }

  /**
   * A case reference with spaces around its slashes, rewritten without them:
   * four digits, a slash, four or five digits, a slash, capital letters.
   */
  function CaseReferenceAt(s: string): (h: Hit)
    ensures h.length <= |s|
  {
    if Run(s, IsDigit) != 4 then NoHit
    else match SkipSlash(s[4..])
      case None => NoHit
      case Some(t) =>
        var d := Run(t, IsDigit);
        if d < 4 || d > 5 then NoHit
        else match SkipSlash(t[d..])
          case None => NoHit
          case Some(v) =>
            var u := Run(v, IsAsciiUpper);
            if u == 0 then NoHit else Hit(|s| - |v| + u, s[..4] + "/" + t[..d] + "/" + v[..u])
  }

  /** `Policy\s+([A-Z])\s*(\d+)`, ignoring case, rewritten as `Policy ` followed by the letter and the digits. */
  function PolicyReferenceAt(s: string): (h: Hit)
    ensures h.length <= |s|
  {
    if !StartsWithFold(s, PolicyWord) then NoHit
    else
      var t := s[6..];
      var w := Run(t, IsSpace);
      if w == 0 || w == |t| || !IsAsciiLetter(t[w]) then NoHit
      else
        var v := t[w + 1..];
        var n := v[Run(v, IsSpace)..];
        var d := Run(n, IsDigit);
        if d == 0 then NoHit else Hit(|s| - |n| + d, "Policy " + [t[w]] + n[..d])
  }

  /** The match of pattern `p` at the start of `s`. */
  function MatchAt(p: Pattern, s: string): (h: Hit)
    ensures h.length <= |s|
  {
    match p
    case PageNumber => PageNumberAt(s)
    case CouncilBanner => LiteralAt(s, BannerText)
    case CouncilWebsite => LiteralAt(s, WebsiteText)
    case DocumentReferenceLine => LineAt(s, ReferenceLabel)
    case PrintedOnLine => LineAt(s, PrintedLabel)
    case OfficialMarking => LiteralAt(s, OfficialText)
    case BlankLines => BlankLinesAt(s)
    case CaseReference => CaseReferenceAt(s)
    case PolicyReference => PolicyReferenceAt(s)
  }

  /** `re.sub(p, replacement, s)`: matches found left to right, each resuming after the previous one. */
  function SubAll(s: string, p: Pattern): string
    decreases |s|
  {
    if s == [] then []
    else
      var h := MatchAt(p, s);
      if h.length > 0 then h.replacement + SubAll(s[h.length..], p)
      else [s[0]] + SubAll(s[1..], p)
  }

  // ---------------------------------------------------------------------
  // _fix_ocr_errors and _remove_headers_footers
  // ---------------------------------------------------------------------

  datatype Correction = Correction(wrong: string, right: string)

  /** The OCR misreadings and their corrections, in the order the table lists them. */
  const OcrCorrections := [
    Correction("poiicy", "policy"), Correction("Poiicy", "Policy"),
    Correction("pian", "plan"), Correction("Pian", "Plan"),
    Correction("councii", "council"), Correction("Councii", "Council"),
    Correction("buiiding", "building"), Correction("Buiiding", "Building"),
    Correction("approvai", "approval"), Correction("Approvai", "Approval"),
    Correction("refusai", "refusal"), Correction("Refusai", "Refusal"),
    Correction("materiai", "material"), Correction("Materiai", "Material"),
    Correction("residentiai", "residential"), Correction("Residentiai", "Residential"),
    Correction("0ffice", "Office"), Correction("1isted", "listed"), Correction("1ocation", "location")
  ]

  predicate WellFormed(cs: seq<Correction>)
  {
    forall k :: 0 <= k < |cs| ==> cs[k].wrong != []
  }

  /** Each correction applied with `str.replace` to the whole text, one after the other. */
  function ApplyCorrections(s: string, cs: seq<Correction>): string
    requires WellFormed(cs)
  {
    if cs == [] then s
    else
      var last := cs[|cs| - 1];
      Replace(ApplyCorrections(s, cs[..|cs| - 1]), last.wrong, last.right)
  }

  function FixOcrErrors(s: string): string
  {
    ApplyCorrections(s, OcrCorrections)
  }

  /** The replacement loop over a table of corrections. */
  method ApplyCorrectionsIn(s: string, cs: seq<Correction>) returns (text: string)
    requires WellFormed(cs)
    ensures text == ApplyCorrections(s, cs)
  {
    text := s;
    for i := 0 to |cs|
      invariant text == ApplyCorrections(s, cs[..i])
    {
      assert cs[..i + 1][..i] == cs[..i];
      text := Replace(text, cs[i].wrong, cs[i].right);
    }
    assert cs[..|cs|] == cs;
  }

  /** `_fix_ocr_errors`: the table applied entry by entry. */
  method FixOcrErrorsIn(s: string) returns (text: string)
    ensures text == FixOcrErrors(s)
  {
    text := ApplyCorrectionsIn(s, OcrCorrections);
  }

  /** A text that holds none of the misreadings comes through the corrections unchanged. */
  lemma {:induction false} CorrectionsKeepCleanText(s: string, cs: seq<Correction>)
    requires WellFormed(cs)
    requires forall k :: 0 <= k < |cs| ==> !Contains(s, cs[k].wrong)
    ensures ApplyCorrections(s, cs) == s
    decreases |cs|
  {
    if cs != [] {
      var init := cs[..|cs| - 1];
      CorrectionsKeepCleanText(s, init);
      ReplaceAbsent(s, cs[|cs| - 1].wrong, cs[|cs| - 1].right);
    }
  }

  lemma FixOcrErrorsKeepsCleanText(s: string)
    requires forall k :: 0 <= k < |OcrCorrections| ==> !Contains(s, OcrCorrections[k].wrong)
    ensures FixOcrErrors(s) == s
  {
    CorrectionsKeepCleanText(s, OcrCorrections);
  }

  /** The header and footer patterns, in the order they are removed. */
  const HeaderFooterPatterns := [PageNumber, CouncilBanner, CouncilWebsite, DocumentReferenceLine, PrintedOnLine, OfficialMarking]

  /** Each pattern substituted over the whole text, one after the other. */
  function ApplyPatterns(s: string, ps: seq<Pattern>): string
  {
    if ps == [] then s else SubAll(ApplyPatterns(s, ps[..|ps| - 1]), ps[|ps| - 1])
  }

  function RemoveHeadersFooters(s: string): string
  {
    ApplyPatterns(s, HeaderFooterPatterns)
  }

  /** `_remove_headers_footers`: the patterns removed one by one. */
  method RemoveHeadersFootersIn(s: string) returns (text: string)
    ensures text == RemoveHeadersFooters(s)
  {
    text := s;
    for i := 0 to |HeaderFooterPatterns|
      invariant text == ApplyPatterns(s, HeaderFooterPatterns[..i])
    {
      assert HeaderFooterPatterns[..i + 1][..i] == HeaderFooterPatterns[..i];
      text := SubAll(text, HeaderFooterPatterns[i]);
    }
    assert HeaderFooterPatterns[..|HeaderFooterPatterns|] == HeaderFooterPatterns;
  }

  /** `_preserve_patterns`: case references first, then policy references. */
  function PreservePatterns(s: string): string
  {
    SubAll(SubAll(s, CaseReference), PolicyReference)
  }

  /** `_clean_text`, in the order the service applies its steps. */
  function CleanText(text: string): string
  {
    if text == "" then ""
    else Strip(PreservePatterns(SubAll(RemoveHeadersFooters(FixOcrErrors(CollapseSpace(text))), BlankLines)))
  }

  /** Empty text stays empty, and every cleaned text is stripped. */
  lemma CleanTextShape(text: string)
    ensures text == "" ==> CleanText(text) == ""
    ensures var r := CleanText(text); r == [] || (!IsSpace(r[0]) && !IsSpace(r[|r| - 1]))
    ensures Strip(CleanText(text)) == CleanText(text)
  {
    if text != "" {
      var t := PreservePatterns(SubAll(RemoveHeadersFooters(FixOcrErrors(CollapseSpace(text))), BlankLines));
      StripShape(t);
      StripIdempotent(t);
    }
  }

  // ---------------------------------------------------------------------
  // Properties of the matchers
  // ---------------------------------------------------------------------

  /** Spaces, a slash and spaces are skipped as a whole. */
  lemma SkipSlashSpaced(w1: string, w2: string, y: string)
    requires AllSpace(w1) && AllSpace(w2)
    requires y == [] || !IsSpace(y[0])
    ensures SkipSlash(w1 + ("/" + (w2 + y))) == Some(y)
  {
    var t := w1 + ("/" + (w2 + y));
    RunOf(w1, "/" + (w2 + y), IsSpace);
    assert t[|w1|] == '/';
    assert t[|w1| + 1..] == w2 + y;
    RunOf(w2, y, IsSpace);
  }

  predicate AllDigits(s: string) { forall i :: 0 <= i < |s| ==> IsDigit(s[i]) }

  /** The case-reference matcher read off its three stages. */
  lemma CaseReferenceStages(s: string, t: string, d: nat, v: string, u: nat)
    requires 4 <= |s| && Run(s, IsDigit) == 4 && SkipSlash(s[4..]) == Some(t)
    requires d <= |t| && Run(t, IsDigit) == d && 4 <= d <= 5 && SkipSlash(t[d..]) == Some(v)
    requires Run(v, IsAsciiUpper) == u && u > 0
    ensures CaseReferenceAt(s) == Hit(|s| - |v| + u, s[..4] + "/" + t[..d] + "/" + v[..u])
  {
  }

  /** Four digits and a spaced slash lead to what follows the slash. */
  lemma CaseReferenceYear(year: string, w1: string, w2: string, t: string)
    requires |year| == 4 && AllDigits(year)
    requires AllSpace(w1) && AllSpace(w2)
    requires t == [] || !IsSpace(t[0])
    ensures var s := year + (w1 + ("/" + (w2 + t)));
      Run(s, IsDigit) == 4 && SkipSlash(s[4..]) == Some(t)
  {
    var y := w1 + ("/" + (w2 + t));
    assert y[0] == '/' || IsSpace(y[0]);
    RunOf(year, y, IsDigit);
    assert (year + y)[4..] == y;
    SkipSlashSpaced(w1, w2, t);
  }

  /** A serial number and a spaced slash lead to what follows the slash. */
  lemma CaseReferenceSerial(serial: string, w3: string, w4: string, v: string)
    requires AllDigits(serial)
    requires AllSpace(w3) && AllSpace(w4)
    requires v == [] || !IsSpace(v[0])
    ensures var t := serial + (w3 + ("/" + (w4 + v)));
      Run(t, IsDigit) == |serial| && SkipSlash(t[|serial|..]) == Some(v)
  {
    var x := w3 + ("/" + (w4 + v));
    assert x[0] == '/' || IsSpace(x[0]);
    RunOf(serial, x, IsDigit);
    assert (serial + x)[|serial|..] == x;
    SkipSlashSpaced(w3, w4, v);
  }

  /** A correctly shaped case reference is matched whole and rewritten without its spaces. */
  lemma CaseReferenceRewritten(year: string, w1: string, w2: string, serial: string,
                               w3: string, w4: string, suffix: string, rest: string)
    requires |year| == 4 && AllDigits(year)
    requires (|serial| == 4 || |serial| == 5) && AllDigits(serial)
    requires suffix != [] && forall i :: 0 <= i < |suffix| ==> IsAsciiUpper(suffix[i])
    requires AllSpace(w1) && AllSpace(w2) && AllSpace(w3) && AllSpace(w4)
    requires rest == [] || !IsAsciiUpper(rest[0])
    ensures var s := year + (w1 + ("/" + (w2 + (serial + (w3 + ("/" + (w4 + (suffix + rest))))))));
      CaseReferenceAt(s) == Hit(|s| - |rest|, year + "/" + serial + "/" + suffix)
  {
    var v := suffix + rest;
    var t := serial + (w3 + ("/" + (w4 + v)));
    var s := year + (w1 + ("/" + (w2 + t)));
    assert Run(s, IsDigit) == 4 && SkipSlash(s[4..]) == Some(t) by {
      CaseReferenceYear(year, w1, w2, t);
    }
    assert Run(t, IsDigit) == |serial| && SkipSlash(t[|serial|..]) == Some(v) by {
      CaseReferenceSerial(serial, w3, w4, v);
    }
    assert Run(v, IsAsciiUpper) == |suffix| by {
      RunOf(suffix, rest, IsAsciiUpper);
    }
    CaseReferenceStages(s, t, |serial|, v, |suffix|);
    assert s[..4] == year && t[..|serial|] == serial && v[..|suffix|] == suffix;
  }

  /** A policy reference with any spacing is rewritten as `Policy ` followed by its letter and number. */
  /** The policy-reference matcher read off its stages. */
  lemma PolicyReferenceStages(s: string, t: string, w: nat, v: string, n: string, d: nat)
    requires StartsWithFold(s, PolicyWord) && t == s[6..]
    requires Run(t, IsSpace) == w && 0 < w < |t| && IsAsciiLetter(t[w]) && v == t[w + 1..]
    requires n == v[Run(v, IsSpace)..] && Run(n, IsDigit) == d && d > 0
    ensures PolicyReferenceAt(s) == Hit(|s| - |n| + d, "Policy " + [t[w]] + n[..d])
  {
  }

  lemma PolicyReferenceRewritten(word: string, w1: string, letter: char, w2: string,
                                 number: string, rest: string)
    requires |word| == 6 && Lower(word) == PolicyWord
    requires w1 != [] && AllSpace(w1) && AllSpace(w2)
    requires IsAsciiLetter(letter)
    requires number != [] && AllDigits(number)
    requires rest == [] || !IsDigit(rest[0])
    ensures var s := word + (w1 + ([letter] + (w2 + (number + rest))));
      PolicyReferenceAt(s) == Hit(|s| - |rest|, "Policy " + [letter] + number)
  {
    var n := number + rest;
    var v := w2 + n;
    var t := w1 + ([letter] + v);
    var s := word + t;
    assert s[..6] == word && s[6..] == t;
    assert Run(t, IsSpace) == |w1| && t[|w1|] == letter && t[|w1| + 1..] == v by {
      RunOf(w1, [letter] + v, IsSpace);
    }
    assert v[Run(v, IsSpace)..] == n by {
      RunOf(w2, n, IsSpace);
    }
    assert Run(n, IsDigit) == |number| && n[..|number|] == number by {
      RunOf(number, rest, IsDigit);
    }
    PolicyReferenceStages(s, t, |w1|, v, n, |number|);
  }

  /** A page footer is matched from its first letter to its last digit. */
  lemma PageNumberRemoved(word: string, page: string, of: string, total: string, rest: string)
    requires |word| == 5 && Lower(word) == PageWord
    requires |of| == 4 && Lower(of) == OfWord
    requires page != [] && AllDigits(page)
    requires total != [] && AllDigits(total)
    requires rest == [] || !IsDigit(rest[0])
    ensures MatchAt(PageNumber, word + page + of + total + rest) == Hit(|word + page + of + total|, "")
  {
    var s := word + page + of + total + rest;
    assert s[..5] == word;
    assert !IsDigit(of[0]) by { assert LowerChar(of[0]) == ' '; }
    assert s == word + page + (of + total + rest);
    RunAfter(word, page, of + total + rest, IsDigit);
    var a := |page|;
    assert s[5 + a..][..4] == of;
    assert s == word + page + of + (total + rest);
    RunAfter(word + page + of, total, rest, IsDigit);
  }

  // ---------------------------------------------------------------------
  // What reaches the line patterns
  // ---------------------------------------------------------------------

  predicate NoNewline(s: string) { '\n' !in s }

  lemma {:induction false} ReplaceKeepsNoNewline(s: string, pat: string, rep: string)
    requires pat != [] && NoNewline(s) && NoNewline(rep)
    ensures NoNewline(Replace(s, pat, rep))
    decreases |s|
  {
    if |s| >= |pat| {
      if s[..|pat|] == pat {
        ReplaceKeepsNoNewline(s[|pat|..], pat, rep);
      } else {
        ReplaceKeepsNoNewline(s[1..], pat, rep);
      }
    }
  }

  predicate CorrectionsNoNewline(cs: seq<Correction>)
  {
    forall k :: 0 <= k < |cs| ==> NoNewline(cs[k].right)
  }

  lemma {:induction false} CorrectionsKeepNoNewline(s: string, cs: seq<Correction>)
    requires WellFormed(cs) && NoNewline(s) && CorrectionsNoNewline(cs)
    ensures NoNewline(ApplyCorrections(s, cs))
    decreases |cs|
  {
    if cs != [] {
      CorrectionsKeepNoNewline(s, cs[..|cs| - 1]);
      ReplaceKeepsNoNewline(ApplyCorrections(s, cs[..|cs| - 1]), cs[|cs| - 1].wrong, cs[|cs| - 1].right);
    }
  }

  /** A line pattern never matches in a text without line breaks. */
  lemma LineNeverMatches(s: string, tag: string)
    requires NoNewline(s)
    ensures LineAt(s, tag) == NoHit
  {
    if StartsWithFold(s, tag) {
      var t := s[|tag|..];
      forall i | 0 <= i < |t| ensures NotNewline(t[i]) {
        assert t[i] == s[|tag| + i];
      }
      assert t + [] == t;
      RunOf(t, [], NotNewline);
    }
  }

  lemma CaseReferenceKeepsNoNewline(s: string)
    requires NoNewline(s)
    ensures NoNewline(CaseReferenceAt(s).replacement)
  {
  }

  lemma PolicyReferenceKeepsNoNewline(s: string)
    requires NoNewline(s)
    ensures NoNewline(PolicyReferenceAt(s).replacement)
  {
  }

  /** No pattern's replacement brings a line break into a text that has none. */
  lemma MatchKeepsNoNewline(p: Pattern, s: string)
    requires NoNewline(s)
    ensures NoNewline(MatchAt(p, s).replacement)
    ensures p == DocumentReferenceLine || p == PrintedOnLine || p == BlankLines ==> MatchAt(p, s) == NoHit
  {
    match p
    case DocumentReferenceLine => LineNeverMatches(s, ReferenceLabel);
    case PrintedOnLine => LineNeverMatches(s, PrintedLabel);
    case BlankLines =>
      if s != [] {
        assert s[0] in s;
      }
    case CaseReference => CaseReferenceKeepsNoNewline(s);
    case PolicyReference => PolicyReferenceKeepsNoNewline(s);
    case _ =>
  }

  lemma {:induction false} SubAllKeepsNoNewline(s: string, p: Pattern)
    requires NoNewline(s)
    ensures NoNewline(SubAll(s, p))
    ensures p == DocumentReferenceLine || p == PrintedOnLine || p == BlankLines ==> SubAll(s, p) == s
    decreases |s|
  {
    if s != [] {
      MatchKeepsNoNewline(p, s);
      var h := MatchAt(p, s);
      if h.length > 0 {
        SubAllKeepsNoNewline(s[h.length..], p);
      } else {
        SubAllKeepsNoNewline(s[1..], p);
        assert s == [s[0]] + s[1..];
      }
    }
  }

  lemma CollapsedHasNoNewline(s: string)
    ensures NoNewline(CollapseSpace(s))
  {
    CollapseSpaceShape(s);
  }

  lemma OcrCorrectionsNoNewline()
    ensures CorrectionsNoNewline(OcrCorrections)
  {
    forall k | 0 <= k < |OcrCorrections| ensures NoNewline(OcrCorrections[k].right) {
      LettersNoNewline(OcrCorrections[k].right);
    }
  }

  lemma LettersNoNewline(r: string)
    requires forall i :: 0 <= i < |r| ==> IsAsciiLetter(r[i])
    ensures NoNewline(r)
  {
  }

  lemma FixOcrErrorsKeepsNoNewline(s: string)
    requires NoNewline(s)
    ensures NoNewline(FixOcrErrors(s))
  {
    OcrCorrectionsNoNewline();
    CorrectionsKeepNoNewline(s, OcrCorrections);
  }

  lemma {:induction false} PatternsKeepNoNewline(s: string, ps: seq<Pattern>)
    requires NoNewline(s)
    ensures NoNewline(ApplyPatterns(s, ps))
    decreases |ps|
  {
    if ps != [] {
      PatternsKeepNoNewline(s, ps[..|ps| - 1]);
      SubAllKeepsNoNewline(ApplyPatterns(s, ps[..|ps| - 1]), ps[|ps| - 1]);
    }
  }

  /** The header and footer patterns other than the two line patterns. */
  const InlineHeaderFooterPatterns := [PageNumber, CouncilBanner, CouncilWebsite, OfficialMarking]

  /**
   * As written, `_clean_text` collapses every whitespace run, line breaks
   * included, before it removes headers: the `Document Reference:` and
   * `Printed on:` line patterns, which need a line break, then never remove
   * anything, and the `\n{3,}` normalisation never fires.
   */
  lemma CleanTextLinePatternsInert(text: string)
    ensures var t := FixOcrErrors(CollapseSpace(text));
      && RemoveHeadersFooters(t) == ApplyPatterns(t, InlineHeaderFooterPatterns)
      && SubAll(RemoveHeadersFooters(t), BlankLines) == RemoveHeadersFooters(t)
      && NoNewline(CleanText(text))
  {
    var t := FixOcrErrors(CollapseSpace(text));
    CollapsedHasNoNewline(text);
    FixOcrErrorsKeepsNoNewline(CollapseSpace(text));
    var hf := HeaderFooterPatterns;
    assert hf[..1] == [PageNumber] && hf[..2] == [PageNumber, CouncilBanner] && hf[..3] == InlineHeaderFooterPatterns[..3];
    assert hf[..4] == hf[..3] + [DocumentReferenceLine] && hf[..5] == hf[..4] + [PrintedOnLine];
    assert InlineHeaderFooterPatterns[..3] == InlineHeaderFooterPatterns[..3][..3];
    var t3 := ApplyPatterns(t, hf[..3]);
    PatternsKeepNoNewline(t, hf[..3]);
    SubAllKeepsNoNewline(t3, DocumentReferenceLine);
    assert ApplyPatterns(t, hf[..4]) == t3;
    SubAllKeepsNoNewline(t3, PrintedOnLine);
    assert ApplyPatterns(t, hf[..5]) == t3;
    assert ApplyPatterns(t, InlineHeaderFooterPatterns[..3]) == t3;
    var r := RemoveHeadersFooters(t);
    PatternsKeepNoNewline(t, hf);
    SubAllKeepsNoNewline(r, BlankLines);
    SubAllKeepsNoNewline(r, CaseReference);
    SubAllKeepsNoNewline(SubAll(r, CaseReference), PolicyReference);
    if text != "" {
      var u := PreservePatterns(r);
      forall c | c in Strip(u) ensures c != '\n' {
        StripKeeps(u, NotNewline);
      }
    }
  }

  /** The two header-line patterns, applied to the raw text. */
  function RemoveHeaderLines(s: string): string
  {
    SubAll(SubAll(s, DocumentReferenceLine), PrintedOnLine)
  }

  /** `_clean_text` with the header-line patterns applied while the text still has its line breaks. */
  function CleanTextLinesFirst(text: string): string
  {
    CleanText(RemoveHeaderLines(text))
  }

  /** A `tag.*\n` line at the head of a text is dropped with its line break. */
  lemma LineDropped(p: Pattern, tag: string, head: string, line: string, rest: string)
    requires (p == DocumentReferenceLine && tag == ReferenceLabel) || (p == PrintedOnLine && tag == PrintedLabel)
    requires |head| == |tag| && Lower(head) == tag
    requires NoNewline(line)
    ensures SubAll(head + line + "\n" + rest, p) == SubAll(rest, p)
  {
    var s := head + line + "\n" + rest;
    assert s[..|tag|] == head;
    forall i | 0 <= i < |line| ensures NotNewline(line[i]) {
      assert line[i] in line;
    }
    assert s == head + line + ("\n" + rest);
    RunAfter(head, line, "\n" + rest, NotNewline);
    assert s[|tag| + |line| + 1..] == rest;
  }

  /** With the line patterns first, a leading `Document Reference:` line is gone from the cleaned text. */
  lemma CleanTextLinesFirstDropsReference(line: string, rest: string)
    requires NoNewline(line)
    ensures CleanTextLinesFirst("Document Reference:" + line + "\n" + rest) == CleanTextLinesFirst(rest)
  {
    LineDropped(DocumentReferenceLine, ReferenceLabel, "Document Reference:", line, rest);
  }

  // ---------------------------------------------------------------------
  // Extracted documents
  // ---------------------------------------------------------------------

  datatype ExtractionMethod = Digital | Textract | Tesseract
  {
    function Value(): string
    {
      match this
      case Digital => "digital"
      case Textract => "textract"
      case Tesseract => "tesseract"
    }
  }

  /** The `metadata` dictionary each extraction route fills in. */
  datatype Metadata =
    | PageStats(textPages: nat, imagePages: nat)
    | BlockCount(blocks: nat)
    | PagesProcessed(pages: nat)

  datatype ExtractedDocument = ExtractedDocument(
    text: string,
    pageCount: nat,
    extraction: ExtractionMethod,
    confidence: real,
    hasImages: bool,
    metadata: Metadata)

  // ---------------------------------------------------------------------
  // _extract_digital
  // ---------------------------------------------------------------------

  /** What PyMuPDF reports for one page: its text and how many images it holds. */
  datatype RawPage = RawPage(text: string, imageCount: nat)

  datatype PageContent = PageContent(pageNumber: nat, text: string, hasText: bool, hasImages: bool, imageCount: nat)

  /** A page counts as text when its stripped text is longer than this. */
  const MinTextDensity := 100

  function PageContentOf(k: nat, p: RawPage): PageContent
  {
    PageContent(k + 1, p.text, |Strip(p.text)| > MinTextDensity, p.imageCount > 0, p.imageCount)
  }

  function PagesOf(raw: seq<RawPage>): (r: seq<PageContent>)
    ensures |r| == |raw|
    ensures forall k :: 0 <= k < |raw| ==> r[k] == PageContentOf(k, raw[k])
  {
    seq(|raw|, k requires 0 <= k < |raw| => PageContentOf(k, raw[k]))
  }

  function TextsOf(raw: seq<RawPage>): (r: seq<string>)
    ensures |r| == |raw|
    ensures forall k :: 0 <= k < |raw| ==> r[k] == raw[k].text
  {
    seq(|raw|, k requires 0 <= k < |raw| => raw[k].text)
  }

  predicate IsTextPage(p: PageContent) { p.hasText }

  predicate IsImagePage(p: PageContent) { p.hasImages }

  /** The share of pages that are text pages, or 0 for a document without pages. */
  function TextDensity(pages: seq<PageContent>): real
  {
    if |pages| == 0 then 0.0 else CountWhere(pages, IsTextPage) as real / |pages| as real
  }

  /** Some page holds an image. */
  predicate HasSignificantImages(pages: seq<PageContent>)
  {
    exists k :: 0 <= k < |pages| && pages[k].imageCount > 0
  }

  /** Sparse text and images: the document is taken to be a scan. */
  predicate LikelyScanned(pages: seq<PageContent>)
  {
    TextDensity(pages) < 0.5 && HasSignificantImages(pages)
  }

  /** The digital extraction of a PDF PyMuPDF could open: `None` for a likely scan. */
  function DigitalDocument(raw: seq<RawPage>): Option<ExtractedDocument>
  {
    var pages := PagesOf(raw);
    if LikelyScanned(pages) then None
    else Some(ExtractedDocument(
      CleanText(Join(TextsOf(raw), "\n\n")), |pages|, Digital, TextDensity(pages),
      HasSignificantImages(pages),
      PageStats(CountWhere(pages, IsTextPage), CountWhere(pages, IsImagePage))))
  }

  /**
   * `_extract_digital`: the pages read one by one, then the density and
   * scan decision. `pdf` is PyMuPDF's view of the file, or the error it
   * raised, which yields `None`.
   */
  method ExtractDigital(pdf: Result<seq<RawPage>>) returns (r: Option<ExtractedDocument>)
    ensures pdf.Err? ==> r.None?
    ensures pdf.Ok? ==> r == DigitalDocument(pdf.value)
  {
    if pdf.Err? {
      return None;
    }
    var raw := pdf.value;
    var pages: seq<PageContent> := [];
    var texts: seq<string> := [];
    for i := 0 to |raw|
      invariant |pages| == i && |texts| == i
      invariant forall k :: 0 <= k < i ==> pages[k] == PageContentOf(k, raw[k])
      invariant forall k :: 0 <= k < i ==> texts[k] == raw[k].text
    {
      pages := pages + [PageContentOf(i, raw[i])];
      texts := texts + [raw[i].text];
    }
    assert pages == PagesOf(raw);
    assert texts == TextsOf(raw);
    var confidence := TextDensity(pages);
    var hasImages := HasSignificantImages(pages);
    if confidence < 0.5 && hasImages {
      return None;
    }
    r := Some(ExtractedDocument(
      CleanText(Join(texts, "\n\n")), |pages|, Digital, confidence, hasImages,
      PageStats(CountWhere(pages, IsTextPage), CountWhere(pages, IsImagePage))));
  }

  lemma {:induction false} CountWhereAll<T>(s: seq<T>, p: T -> bool)
    requires forall k :: 0 <= k < |s| ==> p(s[k])
    ensures CountWhere(s, p) == |s|
    decreases |s|
  {
    if s != [] {
      CountWhereAll(s[..|s| - 1], p);
    }
  }

  lemma FractionRange(c: nat, n: nat)
    requires 0 < n && c <= n
    ensures 0.0 <= c as real / n as real <= 1.0
    ensures c == n ==> c as real / n as real == 1.0
  {
    var f := c as real / n as real;
    assert f * n as real == c as real;
  }

  /** The density is a fraction, and it is 1 when every page is a text page. */
  lemma TextDensityRange(pages: seq<PageContent>)
    ensures 0.0 <= TextDensity(pages) <= 1.0
    ensures pages != [] && (forall k :: 0 <= k < |pages| ==> pages[k].hasText) ==> TextDensity(pages) == 1.0
  {
    if pages != [] {
      var c, n := CountWhere(pages, IsTextPage), |pages|;
      FractionRange(c, n);
      if forall k :: 0 <= k < |pages| ==> pages[k].hasText {
        CountWhereAll(pages, IsTextPage);
        assert c == n;
      }
    }
  }

  /** A page holds images exactly when PyMuPDF reported some for it. */
  lemma PagesImages(raw: seq<RawPage>)
    ensures HasSignificantImages(PagesOf(raw)) <==> exists k :: 0 <= k < |raw| && raw[k].imageCount > 0
  {
    var pages := PagesOf(raw);
    if exists k :: 0 <= k < |raw| && raw[k].imageCount > 0 {
      var k :| 0 <= k < |raw| && raw[k].imageCount > 0;
      assert pages[k].imageCount > 0;
    }
    if HasSignificantImages(pages) {
      var k :| 0 <= k < |pages| && pages[k].imageCount > 0;
      assert raw[k].imageCount > 0;
    }
  }

  /**
   * The digital result: `None` exactly for a likely scan; otherwise one page
   * per PDF page, the text density as confidence, and page tallies that do
   * not exceed the page count.
   */
  lemma DigitalDocumentSpec(raw: seq<RawPage>)
    ensures var pages := PagesOf(raw);
      && (DigitalDocument(raw).None? <==> (TextDensity(pages) < 0.5 && exists k :: 0 <= k < |raw| && raw[k].imageCount > 0))
      && (DigitalDocument(raw).Some? ==>
           var d := DigitalDocument(raw).value;
           && d.pageCount == |raw| && d.extraction == Digital
           && d.confidence == TextDensity(pages) && 0.0 <= d.confidence <= 1.0
           && d.metadata.textPages <= |raw| && d.metadata.imagePages <= |raw|
           && (d.hasImages <==> exists k :: 0 <= k < |raw| && raw[k].imageCount > 0)
           && (d.hasImages ==> d.confidence >= 0.5))
  {
    TextDensityRange(PagesOf(raw));
    PagesImages(raw);
  }

  /** A document whose every page carries text is never treated as a scan. */
  lemma TextDocumentIsDigital(raw: seq<RawPage>)
    requires raw != []
    requires forall k :: 0 <= k < |raw| ==> |Strip(raw[k].text)| > MinTextDensity
    ensures DigitalDocument(raw).Some? && DigitalDocument(raw).value.confidence == 1.0
  {
    TextDensityRange(PagesOf(raw));
  }

  // ---------------------------------------------------------------------
  // _extract_with_textract and _extract_with_tesseract
  // ---------------------------------------------------------------------

  /** A Textract block: its type, its text, and its confidence when Textract gives one. */
  datatype Block = Block(blockType: string, text: string, confidence: Option<real>)

  predicate IsLine(b: Block) { b.blockType == "LINE" }

  /** Documents of this many bytes or more go to the asynchronous route. */
  const SyncByteLimit := 5 * 1024 * 1024

  /** The texts of the LINE blocks, in order. */
  function LineTexts(bs: seq<Block>): seq<string>
  {
    if bs == [] then []
    else LineTexts(bs[..|bs| - 1]) + (if IsLine(bs[|bs| - 1]) then [bs[|bs| - 1].text] else [])
  }

  /** The loop collecting the LINE texts. */
  method CollectLineTexts(bs: seq<Block>) returns (texts: seq<string>)
    ensures texts == LineTexts(bs)
  {
    texts := [];
    for i := 0 to |bs|
      invariant texts == LineTexts(bs[..i])
    {
      assert bs[..i + 1][..i] == bs[..i];
      if IsLine(bs[i]) {
        texts := texts + [bs[i].text];
      }
    }
    assert bs[..|bs|] == bs;
  }

  /** The LINE texts are the texts of exactly the LINE blocks. */
  lemma {:induction false} LineTextsSpec(bs: seq<Block>)
    ensures var ls := Filter(bs, IsLine);
      |LineTexts(bs)| == |ls| && forall k :: 0 <= k < |ls| ==> LineTexts(bs)[k] == ls[k].text
    decreases |bs|
  {
    if bs != [] {
      var init, last := bs[..|bs| - 1], bs[|bs| - 1];
      LineTextsSpec(init);
      var before, texts := Filter(init, IsLine), LineTexts(init);
      if IsLine(last) {
        assert Filter(bs, IsLine) == before + [last];
        assert LineTexts(bs) == texts + [last.text];
      } else {
        assert Filter(bs, IsLine) == before;
        assert LineTexts(bs) == texts;
      }
    }
  }

  /** A LINE block's confidence as a fraction: Textract's percentage over 100, or 0 when absent. */
  function LineConfidence(b: Block): real
  {
    OrElse(b.confidence, 0.0) / 100.0
  }

  function SumReal(xs: seq<real>): real
  {
    if xs == [] then 0.0 else SumReal(xs[..|xs| - 1]) + xs[|xs| - 1]
  }

  function LineConfidences(bs: seq<Block>): (r: seq<real>)
    ensures |r| == |Filter(bs, IsLine)|
  {
    var ls := Filter(bs, IsLine);
    seq(|ls|, k requires 0 <= k < |ls| => LineConfidence(ls[k]))
  }

  /** The average LINE confidence, or 0 without LINE blocks. */
  function MeanConfidence(bs: seq<Block>): real
  {
    var cs := LineConfidences(bs);
    if |cs| == 0 then 0.0 else SumReal(cs) / |cs| as real
  }

  /** The Textract document built from a response's blocks. */
  function TextractDocument(bs: seq<Block>): ExtractedDocument
  {
    var lines := LineTexts(bs);
    ExtractedDocument(CleanText(Join(lines, "\n")), 1, Textract, MeanConfidence(bs), true, BlockCount(|lines|))
  }

  /**
   * `_extract_with_tesseract`: the OCR text of each page image, or the error
   * raised while converting or recognising, which propagates.
   */
  function TesseractDocument(ocr: Result<seq<string>>): (r: Result<ExtractedDocument>)
    ensures ocr.Err? <==> r.Err?
    ensures r.Ok? ==> r.value.extraction == Tesseract && r.value.confidence == 0.8 && r.value.hasImages
                      && r.value.pageCount == |ocr.value| && r.value.metadata == PagesProcessed(|ocr.value|)
  {
    match ocr
    case Err(e) => Err(e)
    case Ok(pages) => Ok(ExtractedDocument(CleanText(Join(pages, "\n\n")), |pages|, Tesseract, 0.8, true, PagesProcessed(|pages|)))
  }

  /**
   * `_extract_with_textract`: `response` is what the synchronous call returns
   * for a document of `size` bytes, or the failure of reading the file or of
   * the call. Large documents hit the unimplemented asynchronous route; every
   * failure falls back to Tesseract.
   */
  function TextractOrFallback(size: nat, response: Result<seq<Block>>, ocr: Result<seq<string>>): Result<ExtractedDocument>
  {
    if size >= SyncByteLimit || response.Err? then TesseractDocument(ocr)
    else Ok(TextractDocument(response.value))
  }

  /** Block confidences between 0 and 100 give a mean confidence between 0 and 1. */
  lemma MeanConfidenceRange(bs: seq<Block>)
    requires forall k :: 0 <= k < |bs| ==> bs[k].confidence.Some? ==> 0.0 <= bs[k].confidence.value <= 100.0
    ensures 0.0 <= MeanConfidence(bs) <= 1.0
  {
    var cs := LineConfidences(bs);
    var ls := Filter(bs, IsLine);
    forall k | 0 <= k < |cs| ensures 0.0 <= cs[k] <= 1.0 {
      FilterMember(bs, IsLine, ls[k]);
    }
    SumRealRange(cs);
  }

  lemma {:induction false} SumRealRange(xs: seq<real>)
    requires forall k :: 0 <= k < |xs| ==> 0.0 <= xs[k] <= 1.0
    ensures 0.0 <= SumReal(xs) <= |xs| as real
    decreases |xs|
  {
    if xs != [] {
      SumRealRange(xs[..|xs| - 1]);
    }
  }

  // ---------------------------------------------------------------------
  // extract_text
  // ---------------------------------------------------------------------

  /** The digital result is kept only above this confidence. */
  const DigitalConfidenceThreshold := 0.7

  /** The document `extract_text` returns, given what each extraction route sees. */
  function ExtractTextResult(forceOcr: bool, useTextract: bool, pdf: Result<seq<RawPage>>,
                             size: nat, response: Result<seq<Block>>, ocr: Result<seq<string>>): Result<ExtractedDocument>
  {
    var digital := if pdf.Err? then None else DigitalDocument(pdf.value);
    if !forceOcr && digital.Some? && digital.value.confidence > DigitalConfidenceThreshold then Ok(digital.value)
    else if useTextract then TextractOrFallback(size, response, ocr)
    else TesseractDocument(ocr)
  }

  /** `extract_text`: digital extraction first unless OCR is forced, then Textract or Tesseract. */
  method ExtractText(forceOcr: bool, useTextract: bool, pdf: Result<seq<RawPage>>,
                     size: nat, response: Result<seq<Block>>, ocr: Result<seq<string>>)
    returns (r: Result<ExtractedDocument>)
    ensures r == ExtractTextResult(forceOcr, useTextract, pdf, size, response, ocr)
  {
    if !forceOcr {
      var digital := ExtractDigital(pdf);
      if digital.Some? && digital.value.confidence > DigitalConfidenceThreshold {
        return Ok(digital.value);
      }
    }
    if useTextract {
      r := TextractOrFallback(size, response, ocr);
    } else {
      r := TesseractDocument(ocr);
    }
  }

  /**
   * The digital result is returned exactly when OCR is not forced and it is
   * confident above 0.7; otherwise the result comes from Textract or
   * Tesseract, and only a Tesseract failure makes extraction fail.
   */
  lemma ExtractTextChoice(forceOcr: bool, useTextract: bool, pdf: Result<seq<RawPage>>,
                          size: nat, response: Result<seq<Block>>, ocr: Result<seq<string>>)
    ensures var r := ExtractTextResult(forceOcr, useTextract, pdf, size, response, ocr);
      && ((r.Ok? && r.value.extraction == Digital) <==>
           (!forceOcr && pdf.Ok? && DigitalDocument(pdf.value).Some? && DigitalDocument(pdf.value).value.confidence > 0.7))
      && (r.Ok? && r.value.extraction == Digital ==> r.value == DigitalDocument(pdf.value).value)
      && (r.Err? ==> ocr.Err?)
      && (r.Ok? && r.value.extraction == Textract ==> useTextract && size < SyncByteLimit && response.Ok?)
      && (!useTextract && r.Ok? && r.value.extraction != Digital ==> r == TesseractDocument(ocr))
  {
  }

  // ---------------------------------------------------------------------
  // extract_sections
  // ---------------------------------------------------------------------

  /** The sections of a Camden officer report, in dictionary order. */
  datatype SectionKey = Proposal | SiteDescription | PlanningHistory | PolicyContext | Assessment | Conclusion | Conditions
  {
    function Key(): string
    {
      match this
      case Proposal => "proposal"
      case SiteDescription => "site_description"
      case PlanningHistory => "planning_history"
      case PolicyContext => "policy_context"
      case Assessment => "assessment"
      case Conclusion => "conclusion"
      case Conditions => "conditions"
    }
  }

  const SectionOrder := [Proposal, SiteDescription, PlanningHistory, PolicyContext, Assessment, Conclusion, Conditions]

  const SectionKeys := {"proposal", "site_description", "planning_history", "policy_context", "assessment", "conclusion", "conditions"}

  /** Section texts are cut to this many characters. */
  const MaxSectionLength := 2000

  /** A section's value from the first group of its pattern's first match, if any. */
  function SectionValue(group: Option<string>): (v: string)
    ensures |v| <= MaxSectionLength
    ensures group.None? ==> v == ""
    ensures group.Some? ==> |v| == Min(MaxSectionLength, |Strip(group.value)|) && v == Strip(group.value)[..|v|]
  {
    if group.None? then "" else Take(Strip(group.value), MaxSectionLength)
  }

  /** Each key's place in the dictionary. */
  function SectionIndex(k: SectionKey): (i: nat)
    ensures i < |SectionOrder| && SectionOrder[i] == k
  {
    match k
    case Proposal => 0
    case SiteDescription => 1
    case PlanningHistory => 2
    case PolicyContext => 3
    case Assessment => 4
    case Conclusion => 5
    case Conditions => 6
  }

  /** The seven keys are distinct, and they are exactly the dictionary's keys. */
  lemma SectionKeysDistinct(a: SectionKey, b: SectionKey)
    ensures a.Key() == b.Key() ==> a == b
    ensures a.Key() in SectionKeys
  {
  }

  lemma SectionKeysCovered(key: string)
    requires key in SectionKeys
    ensures exists k: SectionKey :: k.Key() == key
  {
    if key == "proposal" { assert Proposal.Key() == key; }
    else if key == "site_description" { assert SiteDescription.Key() == key; }
    else if key == "planning_history" { assert PlanningHistory.Key() == key; }
    else if key == "policy_context" { assert PolicyContext.Key() == key; }
    else if key == "assessment" { assert Assessment.Key() == key; }
    else if key == "conclusion" { assert Conclusion.Key() == key; }
    else { assert Conditions.Key() == key; }
  }

  /** The dictionary every key starts from. */
  const EmptySections := map["proposal" := "", "site_description" := "", "planning_history" := "",
                             "policy_context" := "", "assessment" := "", "conclusion" := "", "conditions" := ""]

  lemma EmptySectionsShape()
    ensures EmptySections.Keys == SectionKeys
    ensures forall key :: key in EmptySections ==> EmptySections[key] == ""
  {
  }

  /** The dictionary after the first `i` keys have been searched. */
  function FilledSections(search: SectionKey -> Option<string>, i: nat): map<string, string>
    requires i <= |SectionOrder|
  {
    if i == 0 then EmptySections
    else
      var prev := FilledSections(search, i - 1);
      var k := SectionOrder[i - 1];
      var group := search(k);
      if group.Some? then prev[k.Key() := Take(Strip(group.value), MaxSectionLength)] else prev
  }

  /** The first `i` keys hold their section values and the rest are still empty. */
  predicate FilledUpTo(sections: map<string, string>, search: SectionKey -> Option<string>, i: nat)
  {
    && sections.Keys == SectionKeys
    && forall k: SectionKey :: sections[k.Key()] == (if SectionIndex(k) < i then SectionValue(search(k)) else "")
  }

  lemma FilledSectionsBase(search: SectionKey -> Option<string>)
    ensures FilledUpTo(FilledSections(search, 0), search, 0)
  {
    EmptySectionsShape();
    forall k: SectionKey ensures EmptySections[k.Key()] == "" {
      SectionKeysDistinct(k, k);
    }
  }

  lemma FilledSectionsStep(search: SectionKey -> Option<string>, i: nat)
    requires 0 < i <= |SectionOrder|
    requires FilledUpTo(FilledSections(search, i - 1), search, i - 1)
    ensures FilledUpTo(FilledSections(search, i), search, i)
  {
    var prev, cur := FilledSections(search, i - 1), FilledSections(search, i);
    var k := SectionOrder[i - 1];
    assert SectionIndex(k) == i - 1 by {
      SectionOrderIndex(i - 1);
    }
    assert cur == if search(k).Some? then prev[k.Key() := SectionValue(search(k))] else prev;
    assert cur.Keys == SectionKeys by {
      SectionKeysDistinct(k, k);
    }
    forall other: SectionKey
      ensures cur[other.Key()] == (if SectionIndex(other) < i then SectionValue(search(other)) else "")
    {
      SectionKeysDistinct(other, k);
    }
  }

  lemma SectionOrderIndex(i: nat)
    requires i < |SectionOrder|
    ensures SectionIndex(SectionOrder[i]) == i
  {
  }

  /** After `i` keys, those keys hold their section values and the rest are still empty. */
  lemma {:induction false} FilledSectionsSpec(search: SectionKey -> Option<string>, i: nat)
    requires i <= |SectionOrder|
    ensures FilledUpTo(FilledSections(search, i), search, i)
  {
    if i == 0 {
      FilledSectionsBase(search);
    } else {
      FilledSectionsSpec(search, i - 1);
      FilledSectionsStep(search, i);
    }
  }

  /**
   * `extract_sections`: every key starts empty and is filled from the
   * case-insensitive search of its pattern; `search` gives the first
   * group of the first match.
   */
  method ExtractSections(search: SectionKey -> Option<string>) returns (sections: map<string, string>)
    ensures sections.Keys == SectionKeys
    ensures forall k: SectionKey :: sections[k.Key()] == SectionValue(search(k))
  {
    sections := EmptySections;
    for i := 0 to |SectionOrder|
      invariant sections == FilledSections(search, i)
    {
      var k := SectionOrder[i];
      var group := search(k);
      if group.Some? {
        sections := sections[k.Key() := Take(Strip(group.value), MaxSectionLength)];
      }
    }
    FilledSectionsSpec(search, |SectionOrder|);
  }

  /** Every value of the dictionary is at most 2000 characters. */
  lemma SectionsBounded(sections: map<string, string>, search: SectionKey -> Option<string>)
    requires sections.Keys == SectionKeys
    requires forall k: SectionKey :: sections[k.Key()] == SectionValue(search(k))
    ensures forall key :: key in sections ==> |sections[key]| <= MaxSectionLength
  {
    forall key | key in sections ensures |sections[key]| <= MaxSectionLength {
      SectionKeysCovered(key);
    }
  }

  // ---------------------------------------------------------------------
  // extract_officer_quotes
  // ---------------------------------------------------------------------

  /** The five officer-statement patterns, in the order they are searched. */
  datatype QuotePattern = OfficerConsiders | ProposalAcceptable | NoHarm | DevelopmentComplies | DesignSympathetic

  const QuotePatterns := [OfficerConsiders, ProposalAcceptable, NoHarm, DevelopmentComplies, DesignSympathetic]

  const QuotesPerPattern := 3

  const MaxQuotes := 10

  /** The first three matches of each pattern, pattern after pattern. */
  function QuotesFrom(ps: seq<QuotePattern>, findall: QuotePattern -> seq<string>): seq<string>
  {
    if ps == [] then []
    else QuotesFrom(ps[..|ps| - 1], findall) + Take(findall(ps[|ps| - 1]), QuotesPerPattern)
  }

  /**
   * `extract_officer_quotes`: each pattern's matches (given by `findall`,
   * the case-insensitive `re.findall`) cut to three, then the list cut to ten.
   */
  method ExtractOfficerQuotes(findall: QuotePattern -> seq<string>) returns (quotes: seq<string>)
    ensures quotes == Take(QuotesFrom(QuotePatterns, findall), MaxQuotes)
  {
    var all: seq<string> := [];
    for i := 0 to |QuotePatterns|
      invariant all == QuotesFrom(QuotePatterns[..i], findall)
    {
      assert QuotePatterns[..i + 1][..i] == QuotePatterns[..i];
      all := all + Take(findall(QuotePatterns[i]), QuotesPerPattern);
    }
    assert QuotePatterns[..|QuotePatterns|] == QuotePatterns;
    quotes := Take(all, MaxQuotes);
  }

  /** The quote came from one of a pattern's first three matches. */
  predicate QuotedBy(q: string, ps: seq<QuotePattern>, findall: QuotePattern -> seq<string>)
  {
    exists i :: 0 <= i < |ps| && q in Take(findall(ps[i]), QuotesPerPattern)
  }

  /** At most three quotes per pattern, each one among its pattern's first three matches. */
  lemma {:induction false} QuotesFromSpec(ps: seq<QuotePattern>, findall: QuotePattern -> seq<string>)
    ensures |QuotesFrom(ps, findall)| <= QuotesPerPattern * |ps|
    ensures forall q :: q in QuotesFrom(ps, findall) ==> QuotedBy(q, ps, findall)
    decreases |ps|
  {
    if ps != [] {
      var init := ps[..|ps| - 1];
      QuotesFromSpec(init, findall);
      forall q | q in QuotesFrom(ps, findall) ensures QuotedBy(q, ps, findall) {
        if q in QuotesFrom(init, findall) {
          var i :| 0 <= i < |init| && q in Take(findall(init[i]), QuotesPerPattern);
          assert ps[i] == init[i];
        } else {
          assert q in Take(findall(ps[|ps| - 1]), QuotesPerPattern);
        }
      }
    }
  }

  /** The quotes: at most ten, the leading part of the per-pattern quotes in pattern order, each from some pattern. */
  lemma OfficerQuotesSpec(findall: QuotePattern -> seq<string>)
    ensures var all := QuotesFrom(QuotePatterns, findall);
      var r := Take(all, MaxQuotes);
      && |r| <= MaxQuotes && r == all[..|r|]
      && |all| <= 15
      && (forall q :: q in r ==> QuotedBy(q, QuotePatterns, findall))
  {
    QuotesFromSpec(QuotePatterns, findall);
  }
}
