/**
 * The Python `str` operations the planning code relies on, over Dafny's
 * `string` (a sequence of Unicode scalar values).
 *
 * Case mapping is ASCII-only here; `str.lower`/`str.upper` also map
 * non-ASCII letters, which no rule of the modelled code depends on.
 */
module PyStr {
  import opened Common

  /** `str.isspace()` for one character, the set `str.strip()` and `str.split()` use. */
  predicate IsSpace(c: char)
  {
    var n := c as int;
    n == 32 || 9 <= n <= 13 || 28 <= n <= 31 || n == 0x85 || n == 0xA0 || n == 0x1680
    || 0x2000 <= n <= 0x200A || n == 0x2028 || n == 0x2029 || n == 0x202F || n == 0x205F
    || n == 0x3000
  }

  predicate IsAsciiUpper(c: char) { 'A' <= c <= 'Z' }

  predicate IsAsciiLower(c: char) { 'a' <= c <= 'z' }

  predicate IsDigit(c: char) { '0' <= c <= '9' }

  predicate AllSpace(s: string) { forall i :: 0 <= i < |s| ==> IsSpace(s[i]) }

  predicate NoSpace(s: string) { forall i :: 0 <= i < |s| ==> !IsSpace(s[i]) }

  /** `s.lstrip()` */
  function LStrip(s: string): (r: string)
    ensures |r| <= |s|
  {
    if s == [] || !IsSpace(s[0]) then s else LStrip(s[1..])
  }

  /** `s.rstrip()` */
  function RStrip(s: string): (r: string)
    ensures |r| <= |s|
  {
    if s == [] || !IsSpace(s[|s| - 1]) then s else RStrip(s[..|s| - 1])
  }

  /** `lstrip` removes exactly the leading whitespace. */
  lemma {:induction false} LStripShape(s: string)
    ensures var r := LStrip(s);
      && r == s[|s| - |r|..]
      && (r == [] || !IsSpace(r[0]))
      && AllSpace(s[..|s| - |r|])
      && (r == [] <==> AllSpace(s))
    decreases |s|
  {
    if s != [] && IsSpace(s[0]) {
      LStripShape(s[1..]);
      var r := LStrip(s);
      assert s[..|s| - |r|] == [s[0]] + s[1..][..|s| - 1 - |r|];
    }
  }

  /** `rstrip` removes exactly the trailing whitespace. */
  lemma {:induction false} RStripShape(s: string)
    ensures var r := RStrip(s);
      && r == s[..|r|]
      && (r == [] || !IsSpace(r[|r| - 1]))
      && AllSpace(s[|r|..])
      && (s != [] && !IsSpace(s[0]) ==> r != [])
    decreases |s|
  {
    if s != [] && IsSpace(s[|s| - 1]) {
      var p := s[..|s| - 1];
      RStripShape(p);
      var r := RStrip(s);
      assert r == RStrip(p);
      assert r == s[..|r|] by { assert p[..|r|] == s[..|r|]; }
      forall i | |r| <= i < |s| ensures IsSpace(s[i]) {
        if i < |s| - 1 { assert s[i] == p[|r|..][i - |r|]; }
      }
      if !IsSpace(s[0]) {
        assert |s| > 1 && p[0] == s[0];
      }
    }
  }

  /** `s.strip()`: the text without leading and trailing whitespace. */
  function Strip(s: string): (r: string)
    ensures |r| <= |s|
  {
    RStrip(LStrip(s))
  }

  /** The text is empty or holds only whitespace. */
  predicate IsBlank(s: string) { Strip(s) == [] }

  /** The stripped text is a piece of the original that neither starts nor ends with whitespace. */
  lemma StripShape(s: string)
    ensures var r := Strip(s);
      |r| <= |s| && (r == [] || (!IsSpace(r[0]) && !IsSpace(r[|r| - 1])))
  {
    LStripShape(s);
    RStripShape(LStrip(s));
  }

  /** A text is blank exactly when it is all whitespace. */
  lemma BlankIffAllSpace(s: string)
    ensures IsBlank(s) <==> AllSpace(s)
  {
    LStripShape(s);
    RStripShape(LStrip(s));
  }

  lemma StripNoSpaceIdentity(s: string)
    requires s == [] || (!IsSpace(s[0]) && !IsSpace(s[|s| - 1]))
    ensures Strip(s) == s
  {
  }

  lemma StripIdempotent(s: string)
    ensures Strip(Strip(s)) == Strip(s)
  {
    StripShape(s);
    StripNoSpaceIdentity(Strip(s));
  }

  /** `re.sub(r"\s+", " ", s)`: every run of whitespace becomes one space. */
  function CollapseSpace(s: string): (r: string)
    ensures |r| <= |s|
    decreases |s|
  {
    if s == [] then []
    else if IsSpace(s[0]) then " " + CollapseSpace(LStrip(s[1..]))
    else [s[0]] + CollapseSpace(s[1..])
  }

  /** The text with its whitespace removed. */
  function NonSpace(s: string): string
  {
    if s == [] then [] else (if IsSpace(s[0]) then [] else [s[0]]) + NonSpace(s[1..])
  }

  lemma {:induction false} NonSpaceLStrip(s: string)
    ensures NonSpace(LStrip(s)) == NonSpace(s)
    decreases |s|
  {
    if s != [] && IsSpace(s[0]) {
      NonSpaceLStrip(s[1..]);
    }
  }

  /** Collapsing keeps every non-whitespace character, in order. */
  lemma {:induction false} CollapseKeepsText(s: string)
    ensures NonSpace(CollapseSpace(s)) == NonSpace(s)
    decreases |s|
  {
    if s != [] {
      if IsSpace(s[0]) {
        CollapseKeepsText(LStrip(s[1..]));
        NonSpaceLStrip(s[1..]);
        assert CollapseSpace(s) == " " + CollapseSpace(LStrip(s[1..]));
      } else {
        CollapseKeepsText(s[1..]);
        assert CollapseSpace(s) == [s[0]] + CollapseSpace(s[1..]);
      }
    }
  }

  /**
   * Collapsing leaves only single plain spaces and adds no whitespace at
   * either end.
   */
  lemma {:induction false} CollapseSpaceShape(s: string)
    ensures var r := CollapseSpace(s);
      && (forall i :: 0 <= i < |r| && IsSpace(r[i]) ==> r[i] == ' ')
      && (forall i :: 0 <= i < |r| - 1 ==> !(IsSpace(r[i]) && IsSpace(r[i + 1])))
      && (r == [] <==> s == [])
      && (s != [] && !IsSpace(s[0]) ==> !IsSpace(r[0]))
      && (s != [] && !IsSpace(s[|s| - 1]) ==> !IsSpace(r[|r| - 1]))
    decreases |s|
  {
    if s != [] {
      var r := CollapseSpace(s);
      if IsSpace(s[0]) {
        var t := LStrip(s[1..]);
        LStripShape(s[1..]);
        CollapseSpaceShape(t);
        var c := CollapseSpace(t);
        assert r == " " + c;
        if !IsSpace(s[|s| - 1]) {
          assert t != [] && t[|t| - 1] == s[|s| - 1];
        }
      } else {
        CollapseSpaceShape(s[1..]);
        var c := CollapseSpace(s[1..]);
        assert r == [s[0]] + c;
        if |s| > 1 && !IsSpace(s[|s| - 1]) {
          assert s[1..][|s| - 2] == s[|s| - 1];
        }
      }
    }
  }

  function LowerChar(c: char): char { if IsAsciiUpper(c) then (c as int + 32) as char else c }

  function UpperChar(c: char): char { if IsAsciiLower(c) then (c as int - 32) as char else c }

  /** `s.lower()` */
  function Lower(s: string): (r: string)
    ensures |r| == |s|
    ensures forall i :: 0 <= i < |s| ==> r[i] == LowerChar(s[i])
  {
    seq(|s|, i requires 0 <= i < |s| => LowerChar(s[i]))
  }

  /** `s.upper()` */
  function Upper(s: string): (r: string)
    ensures |r| == |s|
    ensures forall i :: 0 <= i < |s| ==> r[i] == UpperChar(s[i])
  {
    seq(|s|, i requires 0 <= i < |s| => UpperChar(s[i]))
  }

  lemma UpperIdempotent(s: string)
    ensures Upper(Upper(s)) == Upper(s)
  {
  }

  /** `s.startswith(p)` */
  predicate StartsWith(s: string, p: string) { |p| <= |s| && s[..|p|] == p }

  /** `sub in s`: a substring test. */
  predicate Contains(s: string, sub: string)
    decreases |s|
  {
    StartsWith(s, sub) || (s != [] && Contains(s[1..], sub))
  }

  /** Some key occurs in the text. */
  predicate ContainsAny(s: string, keys: seq<string>)
  {
    exists k :: k in keys && Contains(s, k)
  }

  /** `s.replace(pat, rep)`: non-overlapping occurrences, left to right. */
  function Replace(s: string, pat: string, rep: string): (r: string)
    requires pat != []
    decreases |s|
  {
    if |s| < |pat| then s
    else if s[..|pat|] == pat then rep + Replace(s[|pat|..], pat, rep)
    else [s[0]] + Replace(s[1..], pat, rep)
  }

  lemma {:induction false} ReplaceAbsent(s: string, pat: string, rep: string)
    requires pat != []
    requires !Contains(s, pat)
    ensures Replace(s, pat, rep) == s
    decreases |s|
  {
    if |s| >= |pat| {
      ReplaceAbsent(s[1..], pat, rep);
      assert s == [s[0]] + s[1..];
    }
  }

  /** `s.replace(c, "")` for one character: every `c` removed. */
  lemma {:induction false} ReplaceCharByEmpty(s: string, c: char)
    ensures |Replace(s, [c], [])| <= |s|
    ensures forall i :: 0 <= i < |Replace(s, [c], [])| ==> Replace(s, [c], [])[i] != c
    decreases |s|
  {
    if |s| >= 1 {
      ReplaceCharByEmpty(s[1..], c);
    }
  }

  /** Removing one character distributes over concatenation. */
  lemma {:induction false} ReplaceCharConcat(a: string, b: string, c: char)
    ensures Replace(a + b, [c], []) == Replace(a, [c], []) + Replace(b, [c], [])
    decreases |a|
  {
    if a == [] {
      assert a + b == b;
    } else {
      assert (a + b)[1..] == a[1..] + b;
      assert (a + b)[..1] == a[..1];
      ReplaceCharConcat(a[1..], b, c);
    }
  }

  /** Removing a character that does not occur changes nothing. */
  lemma {:induction false} ReplaceCharAbsent(s: string, c: char)
    requires forall i :: 0 <= i < |s| ==> s[i] != c
    ensures Replace(s, [c], []) == s
    decreases |s|
  {
    if s != [] {
      ReplaceCharAbsent(s[1..], c);
      assert s == [s[0]] + s[1..];
    }
  }

  /** Removing a character keeps only characters of the original. */
  lemma {:induction false} ReplaceCharKeeps(s: string, c: char, p: char -> bool)
    requires All(s, p)
    ensures All(Replace(s, [c], []), p)
    decreases |s|
  {
    if s != [] {
      ReplaceCharKeeps(s[1..], c, p);
    }
  }

  /** Stripping keeps only characters of the original. */
  lemma StripKeeps(s: string, p: char -> bool)
    requires All(s, p)
    ensures All(Strip(s), p)
  {
    LStripShape(s);
    RStripShape(LStrip(s));
    var l := LStrip(s);
    forall k | 0 <= k < |Strip(s)| ensures p(Strip(s)[k]) {
      assert Strip(s)[k] == l[k] == s[|s| - |l| + k];
    }
  }

  /** The maximal run of non-whitespace at the start of `s`. */
  function WordAt(s: string): (w: string)
    ensures |w| <= |s| && w == s[..|w|] && NoSpace(w)
    ensures |w| == |s| || IsSpace(s[|w|])
    ensures s != [] && !IsSpace(s[0]) ==> w != []
  {
    if s == [] || IsSpace(s[0]) then [] else [s[0]] + WordAt(s[1..])
  }

  /** `s.split()`: the maximal runs of non-whitespace characters, in order. */
  function Words(s: string): (ws: seq<string>)
    decreases |s|
  {
    var t := LStrip(s);
    LStripShape(s);
    if t == [] then []
    else
      var w := WordAt(t);
      [w] + Words(t[|w|..])
  }

  /** Every element is a non-empty run of non-whitespace, as `str.split()` produces. */
  predicate AreWords(ws: seq<string>)
  {
    ws == [] || (ws[0] != [] && NoSpace(ws[0]) && AreWords(ws[1..]))
  }

  lemma {:induction false} WordsAreWords(s: string)
    ensures AreWords(Words(s))
    decreases |s|
  {
    var t := LStrip(s);
    LStripShape(s);
    if t != [] {
      var w := WordAt(t);
      WordsAreWords(t[|w|..]);
      assert Words(s) == [w] + Words(t[|w|..]);
    }
  }

  /** `" ".join(ws)` */
  function JoinSpace(ws: seq<string>): (r: string)
  {
    if ws == [] then [] else if |ws| == 1 then ws[0] else ws[0] + (" " + JoinSpace(ws[1..]))
  }

  /** `sep.join(ws)` */
  function Join(ws: seq<string>, sep: string): string
  {
    if ws == [] then [] else if |ws| == 1 then ws[0] else ws[0] + sep + Join(ws[1..], sep)
  }

  lemma {:induction false} WordAtNoSpace(w: string, rest: string)
    requires NoSpace(w)
    requires rest == [] || IsSpace(rest[0])
    ensures WordAt(w + rest) == w
    decreases |w|
  {
    if w != [] {
      assert (w + rest)[1..] == w[1..] + rest;
      WordAtNoSpace(w[1..], rest);
    } else {
      assert w + rest == rest;
    }
  }

  lemma LStripNonSpace(s: string)
    requires s != [] && !IsSpace(s[0])
    ensures LStrip(s) == s
  {
  }

  /** A word followed by whitespace (or nothing) splits off as the first word. */
  lemma WordsCons(w: string, rest: string)
    requires w != [] && NoSpace(w)
    requires rest == [] || IsSpace(rest[0])
    ensures Words(w + rest) == [w] + Words(rest)
  {
    var s := w + rest;
    assert s[0] == w[0];
    LStripNonSpace(s);
    WordAtNoSpace(w, rest);
    assert s[|w|..] == rest;
  }

  lemma WordsInitialSpace(s: string)
    ensures Words(" " + s) == Words(s)
  {
    assert (" " + s)[1..] == s;
  }

  /**
   * `" ".join(ws).split() == ws` for words that are non-empty and hold no
   * whitespace: the pieces the chunker joins can be split back.
   */
  lemma {:induction false} WordsJoinSpace(ws: seq<string>)
    requires AreWords(ws)
    ensures Words(JoinSpace(ws)) == ws
    decreases |ws|
  {
    if ws == [] {
    } else if |ws| == 1 {
      WordsCons(ws[0], []);
      assert ws[0] + [] == ws[0];
    } else {
      WordsJoinSpace(ws[1..]);
      WordsJoinSpaceStep(ws[0], JoinSpace(ws[1..]), ws[1..]);
      WordsJoinSpaceCons(ws);
    }
  }

  lemma WordsJoinSpaceCons(ws: seq<string>)
    requires |ws| >= 2
    requires Words(ws[0] + (" " + JoinSpace(ws[1..]))) == [ws[0]] + ws[1..]
    ensures Words(JoinSpace(ws)) == ws
  {
    assert ws == [ws[0]] + ws[1..];
  }

  lemma WordsJoinSpaceStep(w: string, rest: string, tl: seq<string>)
    requires w != [] && NoSpace(w)
    requires Words(rest) == tl
    ensures Words(w + (" " + rest)) == [w] + tl
  {
    WordsCons(w, " " + rest);
    WordsInitialSpace(rest);
  }

  /** `s.split(sep)` for a one-character separator (never empty: `"".split(",") == [""]`). */
  function SplitChar(s: string, sep: char): (r: seq<string>)
    ensures |r| >= 1
    decreases |s|
  {
    if s == [] then [[]]
    else if s[0] == sep then [[]] + SplitChar(s[1..], sep)
    else
      var rest := SplitChar(s[1..], sep);
      [[s[0]] + rest[0]] + rest[1..]
  }

  /** Splitting at a separator and joining the pieces with it gives back the text; no piece holds the separator. */
  lemma SplitCharRoundTrip(s: string, sep: char)
    ensures Join(SplitChar(s, sep), [sep]) == s
    ensures forall i, j :: 0 <= i < |SplitChar(s, sep)| && 0 <= j < |SplitChar(s, sep)[i]| ==>
              SplitChar(s, sep)[i][j] != sep
  {
    SplitCharJoin(s, sep);
    SplitCharPieces(s, sep);
  }

  lemma {:induction false} SplitCharJoin(s: string, sep: char)
    ensures Join(SplitChar(s, sep), [sep]) == s
    decreases |s|
  {
    if s != [] {
      SplitCharJoin(s[1..], sep);
      var rest := SplitChar(s[1..], sep);
      if s[0] == sep {
        assert SplitChar(s, sep)[1..] == rest;
        assert s == [sep] + s[1..];
      } else {
        var r := SplitChar(s, sep);
        assert r[1..] == rest[1..];
        if |rest| == 1 {
          assert s == [s[0]] + s[1..];
        } else {
          assert rest == [rest[0]] + rest[1..];
          assert Join(rest, [sep]) == rest[0] + [sep] + Join(rest[1..], [sep]);
          assert s == [s[0]] + s[1..];
        }
      }
    }
  }

  lemma {:induction false} SplitCharPieces(s: string, sep: char)
    ensures forall i, j :: 0 <= i < |SplitChar(s, sep)| && 0 <= j < |SplitChar(s, sep)[i]| ==>
              SplitChar(s, sep)[i][j] != sep
    decreases |s|
  {
    if s != [] {
      SplitCharPieces(s[1..], sep);
      var rest := SplitChar(s[1..], sep);
      var r := SplitChar(s, sep);
      if s[0] == sep {
        assert r[1..] == rest;
      } else {
        assert r[1..] == rest[1..];
        forall i, j | 0 <= i < |r| && 0 <= j < |r[i]| ensures r[i][j] != sep {
          if i == 0 {
            if j > 0 { assert r[0][j] == rest[0][j - 1]; }
          } else {
            assert r[i] == rest[i];
          }
        }
      }
    }
  }

  /** Each piece stripped of surrounding whitespace. */
  function StripAll(ps: seq<string>): (r: seq<string>)
    ensures |r| == |ps|
    ensures forall i :: 0 <= i < |ps| ==> r[i] == Strip(ps[i])
  {
    if ps == [] then [] else [Strip(ps[0])] + StripAll(ps[1..])
  }

  function DigitChar(d: nat): char
    requires d < 10
  {
    ('0' as int + d) as char
  }

  /** `str(n)` for a natural number. */
  function NatToString(n: nat): (r: string)
    ensures r != [] && forall i :: 0 <= i < |r| ==> IsDigit(r[i])
  {
    if n < 10 then [DigitChar(n)] else NatToString(n / 10) + [DigitChar(n % 10)]
  }

  /** `int(s)` for a string of decimal digits (a non-digit counts as 0). */
  function DigitsValue(s: string): nat
  {
    if s == [] then 0
    else DigitsValue(s[..|s| - 1]) * 10 + (if IsDigit(s[|s| - 1]) then s[|s| - 1] as int - '0' as int else 0)
  }

  /** `int(str(n)) == n`: the decimal rendering loses nothing. */
  lemma {:induction false} NatToStringRoundTrip(n: nat)
    ensures DigitsValue(NatToString(n)) == n
    decreases n
  {
    var r := NatToString(n);
    if n < 10 {
      assert r[..|r| - 1] == [];
    } else {
      NatToStringRoundTrip(n / 10);
      assert r[..|r| - 1] == NatToString(n / 10);
    }
  }

  /** Distinct numbers render distinctly. */
  lemma NatToStringInjective(a: nat, b: nat)
    requires NatToString(a) == NatToString(b)
    ensures a == b
  {
    NatToStringRoundTrip(a);
    NatToStringRoundTrip(b);
  }
}
