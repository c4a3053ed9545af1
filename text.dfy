// Character classes and the handful of Python string operations the statement
// pipeline relies on: `str.strip`, `str.split`, `str.replace`, `str.upper` /
// `str.lower`, the `in` substring test, `int()` on digit runs and `float()` on
// plain decimal literals.  Characters are modelled up to U+00FF for letters and
// case mapping; Python's whitespace set is modelled completely.
module Text {
  import opened Wrappers

  /** Python's `str.isspace()`, which is also what `\s` and `strip()` use. */
  predicate IsSpace(c: char)
  {
    c == ' ' || ('\t' <= c <= '\r') || ('\U{1C}' <= c <= '\U{1F}')
    || c == '\U{85}' || c == '\U{A0}' || c == '\U{1680}'
    || ('\U{2000}' <= c <= '\U{200A}') || c == '\U{2028}' || c == '\U{2029}'
    || c == '\U{202F}' || c == '\U{205F}' || c == '\U{3000}'
  }

  /** `\d` restricted to the ASCII digits. */
  predicate IsDigit(c: char)
  {
    '0' <= c <= '9'
  }

  predicate IsAsciiLetter(c: char)
  {
    ('a' <= c <= 'z') || ('A' <= c <= 'Z')
  }

  predicate IsLatin1Upper(c: char)
  {
    ('\U{C0}' <= c <= '\U{DE}') && c != '\U{D7}'
  }

  predicate IsLatin1Lower(c: char)
  {
    ('\U{DF}' <= c <= '\U{FF}') && c != '\U{F7}'
  }

  /** `\w`: letters, digits and underscore (Latin-1 letters and the Latin-1 numeric signs included). */
  predicate IsWordChar(c: char)
  {
    IsDigit(c) || IsAsciiLetter(c) || c == '_' || IsLatin1Upper(c) || IsLatin1Lower(c)
    || c == '\U{AA}' || c == '\U{B2}' || c == '\U{B3}' || c == '\U{B5}' || c == '\U{B9}'
    || c == '\U{BA}' || ('\U{BC}' <= c <= '\U{BE}')
  }

  function LowerChar(c: char): char
  {
    if 'A' <= c <= 'Z' || IsLatin1Upper(c) then (c as int + 32) as char else c
  }

  function UpperChar(c: char): char
  {
    if 'a' <= c <= 'z' || (IsLatin1Lower(c) && c != '\U{DF}' && c != '\U{FF}') then (c as int - 32) as char else c
  }

  function Lower(s: string): string
  {
    seq(|s|, i requires 0 <= i < |s| => LowerChar(s[i]))
  }

  function Upper(s: string): string
  {
    seq(|s|, i requires 0 <= i < |s| => UpperChar(s[i]))
  }

  predicate IsBlank(s: string)
  {
    forall k :: 0 <= k < |s| ==> IsSpace(s[k])
  }

  predicate StartsWith(s: string, p: string)
  {
    |p| <= |s| && s[..|p|] == p
  }

  /** Python's `t in s` for strings. */
  predicate Contains(s: string, t: string)
  {
    StartsWith(s, t) || (s != [] && Contains(s[1..], t))
  }

  /** Number of leading whitespace characters. */
  function LeadSpaces(s: string): (n: nat)
    ensures n <= |s|
    ensures forall k :: 0 <= k < n ==> IsSpace(s[k])
    ensures n < |s| ==> !IsSpace(s[n])
  {
    if s != [] && IsSpace(s[0]) then 1 + LeadSpaces(s[1..]) else 0
  }

  /** Number of trailing whitespace characters. */
  function TrailSpaces(s: string): (n: nat)
    ensures n <= |s|
    ensures forall k :: |s| - n <= k < |s| ==> IsSpace(s[k])
    ensures n < |s| ==> !IsSpace(s[|s| - 1 - n])
  {
    if s != [] && IsSpace(s[|s| - 1]) then 1 + TrailSpaces(s[..|s| - 1]) else 0
  }

  /** Python's `s.strip()`. */
  function Strip(s: string): (r: string)
    ensures |r| <= |s|
    ensures r == [] <==> IsBlank(s)
    ensures r != [] ==> !IsSpace(r[0]) && !IsSpace(r[|r| - 1])
  {
    var t := s[LeadSpaces(s)..];
    t[..|t| - TrailSpaces(t)]
  }

  lemma StripIdempotent(s: string)
    ensures Strip(Strip(s)) == Strip(s)
  {
    var r := Strip(s);
    if r != [] {
      assert LeadSpaces(r) == 0;
      assert r[0..] == r;
      assert TrailSpaces(r) == 0;
    }
  }

  /** `re.sub(r'\s+', ' ', s)`: every maximal run of whitespace becomes one space. */
  function CollapseSpaces(s: string): (r: string)
    ensures |r| <= |s|
    ensures r == [] <==> s == []
    ensures r != [] ==> (IsSpace(r[0]) <==> IsSpace(s[0]))
    ensures forall i :: 0 <= i < |r| && IsSpace(r[i]) ==> r[i] == ' '
    ensures forall i :: 0 <= i < |r| - 1 && IsSpace(r[i]) ==> !IsSpace(r[i + 1])
    decreases |s|
  {
    if s == [] then []
    else if IsSpace(s[0]) then
      var n := LeadSpaces(s);
      [' '] + CollapseSpaces(s[n..])
    else [s[0]] + CollapseSpaces(s[1..])
  }

  /** Collapsing white space never introduces a character that is not white space. */
  lemma {:induction false} CollapseKeepsOut(s: string, c: char)
    requires !IsSpace(c) && c !in s
    ensures c !in CollapseSpaces(s)
    decreases |s|
  {
    if s != [] {
      if IsSpace(s[0]) {
        var n := LeadSpaces(s);
        CollapseKeepsOut(s[n..], c);
      } else {
        CollapseKeepsOut(s[1..], c);
      }
    }
  }

  /** Words separated by single spaces: every white-space character is a space and none is
      followed by another. */
  predicate SingleSpaced(s: string)
  {
    (forall i :: 0 <= i < |s| && IsSpace(s[i]) ==> s[i] == ' ')
    && (forall i :: 0 <= i < |s| - 1 && IsSpace(s[i]) ==> !IsSpace(s[i + 1]))
  }

  /** `strip()` cuts out a slice, so it keeps single spacing and never adds a character. */
  lemma StripSlice(s: string)
    ensures SingleSpaced(s) ==> SingleSpaced(Strip(s))
    ensures forall c :: c in Strip(s) ==> c in s
  {
    var a := LeadSpaces(s);
    var t := s[a..];
    var r := Strip(s);
    assert r == s[a..a + |r|];
    assert forall i :: 0 <= i < |r| ==> r[i] == s[a + i];
  }

  /** Python's `any(k in s for k in kws)`. */
  predicate ContainsAny(s: string, kws: seq<string>)
  {
    exists k :: 0 <= k < |kws| && Contains(s, kws[k])
  }

  /** Index of the first `c` in `s`. */
  function IndexOfChar(s: string, c: char): (r: Option<nat>)
    ensures r.Some? ==> r.value < |s| && s[r.value] == c && c !in s[..r.value]
    ensures r.None? ==> c !in s
  {
    if s == [] then None
    else if s[0] == c then Some(0)
    else match IndexOfChar(s[1..], c)
      case None => None
      case Some(i) => assert s[..i + 1] == [s[0]] + s[1..][..i]; Some(i + 1)
  }

  /** Python's `s.split(sep)` for a one-character separator. */
  function Split(s: string, sep: char): (parts: seq<string>)
    ensures |parts| >= 1
    ensures forall k :: 0 <= k < |parts| ==> sep !in parts[k]
    decreases |s|
  {
    match IndexOfChar(s, sep)
    case None => [s]
    case Some(i) => [s[..i]] + Split(s[i + 1..], sep)
  }

  /** Python's `sep.join(parts)`. */
  function Join(parts: seq<string>, sep: char): string
  {
    if parts == [] then []
    else if |parts| == 1 then parts[0]
    else parts[0] + [sep] + Join(parts[1..], sep)
  }

  lemma {:induction false} JoinSplit(s: string, sep: char)
    ensures Join(Split(s, sep), sep) == s
    decreases |s|
  {
    match IndexOfChar(s, sep)
    case None =>
    case Some(i) =>
      var rest := Split(s[i + 1..], sep);
      assert Split(s, sep) == [s[..i]] + rest;
      JoinSplit(s[i + 1..], sep);
      assert Join([s[..i]] + rest, sep) == s[..i] + [sep] + Join(rest, sep) by {
        assert ([s[..i]] + rest)[1..] == rest;
      }
      assert s == s[..i] + [sep] + s[i + 1..];
  }

  /** The first separator splits off the part before it. */
  lemma SplitAt(a: string, b: string, sep: char)
    requires sep !in a
    ensures Split(a + [sep] + b, sep) == [a] + Split(b, sep)
  {
    var s := a + [sep] + b;
    var r := IndexOfChar(s, sep);
    assert s[|a|] == sep;
    assert s[..|a|] == a;
    assert r.Some?;
    assert r.value == |a|;
    assert s[|a| + 1..] == b;
  }

  lemma SplitNone(s: string, sep: char)
    requires sep !in s
    ensures Split(s, sep) == [s]
  {
  }

  /** Length of the leading run of non-whitespace characters. */
  function WordLen(s: string): (n: nat)
    ensures n <= |s|
    ensures forall k :: 0 <= k < n ==> !IsSpace(s[k])
    ensures n < |s| ==> IsSpace(s[n])
  {
    if s != [] && !IsSpace(s[0]) then 1 + WordLen(s[1..]) else 0
  }

  /** A non-empty run of non-whitespace characters. */
  predicate IsWord(w: string)
  {
    w != [] && forall j :: 0 <= j < |w| ==> !IsSpace(w[j])
  }

  /** Python's `s.split()` with no argument: the maximal non-whitespace runs. */
  function Words(s: string): (ws: seq<string>)
    ensures forall k :: 0 <= k < |ws| ==> IsWord(ws[k])
    ensures ws == [] <==> IsBlank(s)
    decreases |s|
  {
    var a := LeadSpaces(s);
    if a == |s| then []
    else
      var t := s[a..];
      assert t[0] == s[a];
      var n := WordLen(t);
      var rest := Words(t[n..]);
      assert IsWord(t[..n]);
      assert !IsBlank(s) by { assert !IsSpace(s[a]); }
      AllWordsCons(t[..n], rest);
      [t[..n]] + rest
  }

  lemma AllWordsCons(w: string, ws: seq<string>)
    requires IsWord(w) && forall k :: 0 <= k < |ws| ==> IsWord(ws[k])
    ensures forall k :: 0 <= k < |[w] + ws| ==> IsWord(([w] + ws)[k])
  {
    forall k | 0 < k < |[w] + ws|
      ensures IsWord(([w] + ws)[k])
    {
      assert ([w] + ws)[k] == ws[k - 1];
    }
  }

  lemma {:induction false} WordLenOfWord(w: string, rest: string)
    requires IsWord(w) && (rest == [] || IsSpace(rest[0]))
    ensures WordLen(w + rest) == |w|
    decreases |w|
  {
    assert (w + rest)[0] == w[0];
    if |w| > 1 {
      assert (w + rest)[1..] == w[1..] + rest;
      WordLenOfWord(w[1..], rest);
    } else {
      assert (w + rest)[1..] == rest;
    }
  }

  /** `"a b".split()` is `["a", "b"]` for two words. */
  lemma WordsOfTwo(a: string, b: string)
    requires IsWord(a) && IsWord(b)
    ensures Words(a + " " + b) == [a, b]
  {
    var s := a + " " + b;
    assert s[0] == a[0];
    assert LeadSpaces(s) == 0;
    assert s[0..] == s;
    assert s == a + (" " + b);
    WordLenOfWord(a, " " + b);
    assert s[|a|..] == " " + b;
    var t := " " + b;
    assert t[1..] == b;
    assert LeadSpaces(b) == 0;
    assert LeadSpaces(t) == 1;
    assert t[1..] == b + [];
    WordLenOfWord(b, []);
    assert b[|b|..] == [];
    assert Words(t) == [b];
  }

  /** Python's `" ".join(words)`. */
  function JoinWords(ws: seq<string>): string
  {
    if ws == [] then [] else if |ws| == 1 then ws[0] else ws[0] + " " + JoinWords(ws[1..])
  }

  /** Python's `s.replace(pat, rep)`: every non-overlapping occurrence, left to right. */
  function Replace(s: string, pat: string, rep: string): string
    requires pat != []
    decreases |s|
  {
    if |s| < |pat| then s
    else if s[..|pat|] == pat then rep + Replace(s[|pat|..], pat, rep)
    else [s[0]] + Replace(s[1..], pat, rep)
  }

  lemma {:induction false} ReplaceCharByNothing(s: string, c: char)
    ensures c !in Replace(s, [c], [])
    decreases |s|
  {
    if |s| >= 1 {
      ReplaceCharByNothing(s[1..], c);
      if s[..1] != [c] {
        assert s[0] != c;
      }
    }
  }

  /** A character in neither the text nor the replacement is not in the result. */
  lemma {:induction false} ReplaceKeepsOut(s: string, pat: string, rep: string, c: char)
    requires pat != [] && c !in s && c !in rep
    ensures c !in Replace(s, pat, rep)
    decreases |s|
  {
    if |s| >= |pat| {
      if s[..|pat|] == pat {
        assert c !in s[|pat|..];
        ReplaceKeepsOut(s[|pat|..], pat, rep, c);
      } else {
        assert c !in s[1..];
        ReplaceKeepsOut(s[1..], pat, rep, c);
      }
    }
  }

  /** Text before the first occurrence of the pattern's first character is copied unchanged. */
  lemma {:induction false} ReplaceSkip(a: string, b: string, pat: string, rep: string)
    requires pat != [] && pat[0] !in a
    ensures Replace(a + b, pat, rep) == a + Replace(b, pat, rep)
    decreases |a|
  {
    if a == [] {
      assert a + b == b;
    } else {
      var s := a + b;
      if |s| < |pat| {
        assert Replace(b, pat, rep) == b;
      } else {
        assert s[0] == a[0] != pat[0];
        assert s[..|pat|][0] == s[0];
        assert s[1..] == a[1..] + b;
        ReplaceSkip(a[1..], b, pat, rep);
        assert [a[0]] + a[1..] == a;
      }
    }
  }

  /** The one occurrence of `c`, between two runs without it, is removed. */
  lemma ReplaceOneChar(a: string, b: string, c: char)
    requires c !in a && c !in b
    ensures Replace(a + [c] + b, [c], []) == a + b
  {
    var t := [c] + b;
    assert a + [c] + b == a + t;
    ReplaceSkip(a, t, [c], []);
    ReplaceHead([c], b, []);
    ReplaceAbsent(b, [c], []);
    assert [] + b == b;
  }

  /** An occurrence at the front is replaced and the search goes on after it. */
  lemma ReplaceHead(pat: string, b: string, rep: string)
    requires pat != []
    ensures Replace(pat + b, pat, rep) == rep + Replace(b, pat, rep)
  {
    var s := pat + b;
    assert s[..|pat|] == pat;
    assert s[|pat|..] == b;
  }

  /** Text without the pattern's first character is left alone. */
  lemma ReplaceAbsent(a: string, pat: string, rep: string)
    requires pat != [] && pat[0] !in a
    ensures Replace(a, pat, rep) == a
  {
    ReplaceSkip(a, [], pat, rep);
    assert a + [] == a;
  }

  /** Replacing a single character works piece by piece. */
  lemma {:induction false} ReplaceCharAppend(a: string, b: string, c: char, rep: string)
    ensures Replace(a + b, [c], rep) == Replace(a, [c], rep) + Replace(b, [c], rep)
    decreases |a|
  {
    if a == [] {
      assert a + b == b;
    } else {
      var s := a + b;
      assert s[..1] == a[..1] && s[0] == a[0];
      assert s[1..] == a[1..] + b;
      ReplaceCharAppend(a[1..], b, c, rep);
    }
  }

  /** Every character of the result comes from the text or from the replacement. */
  lemma {:induction false} ReplaceChars(s: string, pat: string, rep: string)
    requires pat != []
    ensures forall ch :: ch in Replace(s, pat, rep) ==> ch in s || ch in rep
    decreases |s|
  {
    if |s| >= |pat| {
      if s[..|pat|] == pat {
        ReplaceChars(s[|pat|..], pat, rep);
        assert forall ch :: ch in s[|pat|..] ==> ch in s;
      } else {
        ReplaceChars(s[1..], pat, rep);
        assert forall ch :: ch in s[1..] ==> ch in s;
      }
    }
  }

  predicate AllDigits(s: string)
  {
    forall k :: 0 <= k < |s| ==> IsDigit(s[k])
  }

  function DigitValue(c: char): nat
    requires IsDigit(c)
  {
    c as int - '0' as int
  }

  function DigitsValue(s: string): nat
    requires AllDigits(s)
  {
    if s == [] then 0 else DigitsValue(s[..|s| - 1]) * 10 + DigitValue(s[|s| - 1])
  }

  /** Python's `int(s)` on a run of ASCII digits; any other string is rejected. */
  function ParseInt(s: string): (r: Option<nat>)
    ensures r.Some? <==> s != [] && AllDigits(s)
  {
    if s != [] && AllDigits(s) then Some(DigitsValue(s)) else None
  }

  function DigitChar(d: nat): (c: char)
    requires d < 10
    ensures IsDigit(c) && DigitValue(c) == d
  {
    ('0' as int + d) as char
  }

  /** Decimal digits of `n`, no leading zeros (Python's `str(n)`). */
  function NatToString(n: nat): (s: string)
    ensures s != [] && AllDigits(s) && DigitsValue(s) == n
    ensures |s| > 1 ==> s[0] != '0'
  {
    if n < 10 then [DigitChar(n)]
    else
      var s := NatToString(n / 10) + [DigitChar(n % 10)];
      assert s[..|s| - 1] == NatToString(n / 10);
      s
  }

  /** Decimal digits of `n`, left-padded with zeros to at least `width` characters. */
  function PadNat(n: nat, width: nat): (s: string)
    ensures AllDigits(s) && DigitsValue(s) == n && |s| >= width
    decreases width
  {
    var d := NatToString(n);
    if |d| >= width then d
    else
      var s := PadNat(n, width - 1);
      LeadingZero(s);
      if |s| >= width then s else "0" + s
  }

  lemma {:induction false} LeadingZero(s: string)
    requires AllDigits(s)
    ensures AllDigits("0" + s) && DigitsValue("0" + s) == DigitsValue(s)
    decreases |s|
  {
    if s != [] {
      assert ("0" + s)[..|"0" + s| - 1] == "0" + s[..|s| - 1];
      LeadingZero(s[..|s| - 1]);
    }
  }

  function Pow10(n: nat): (p: nat)
    ensures p >= 1
  {
    if n == 0 then 1 else 10 * Pow10(n - 1)
  }

  lemma {:induction false} PadLength(n: nat, w: nat)
    ensures |PadNat(n, w)| == if |NatToString(n)| >= w then |NatToString(n)| else w
    decreases w
  {
    if |NatToString(n)| < w { PadLength(n, w - 1); }
  }

  lemma {:induction false} NatToStringBound(n: nat, w: nat)
    requires w >= 1 && n < Pow10(w)
    ensures |NatToString(n)| <= w
    decreases n
  {
    if n >= 10 {
      assert w != 1;
      NatToStringBound(n / 10, w - 1);
    }
  }

  /** Python's `float(s)` on plain decimal literals: optional sign, digits with an
      optional fraction, at least one digit, surrounding whitespace allowed. */
  function ParseFloat(s: string): Option<real>
  {
    ParseSignedDecimal(Strip(s))
  }

  function ParseSignedDecimal(t: string): Option<real>
  {
    if t == [] then None
    else if t[0] == '-' then
      match ParseUnsignedDecimal(t[1..])
      case None => None
      case Some(v) => Some(-v)
    else if t[0] == '+' then ParseUnsignedDecimal(t[1..])
    else ParseUnsignedDecimal(t)
  }

  function ParseUnsignedDecimal(s: string): (r: Option<real>)
    ensures r.Some? ==> r.value >= 0.0
  {
    match IndexOfChar(s, '.')
    case None => if s != [] && AllDigits(s) then Some(DigitsValue(s) as real) else None
    case Some(i) =>
      var ip := s[..i];
      var fp := s[i + 1..];
      if AllDigits(ip) && AllDigits(fp) && (ip != [] || fp != [])
      then Some(DigitsValue(ip) as real + Shift(DigitsValue(fp), |fp|))
      else None
  }

  /** `f` moved `n` places to the right of the decimal point: `f / 10^n`. */
  function Shift(f: nat, n: nat): (r: real)
    ensures r >= 0.0
  {
    if n == 0 then f as real else Shift(f, n - 1) / 10.0
  }

  /** Two places to the right is hundredths. */
  lemma ShiftTwo(f: nat)
    ensures Shift(f, 2) == f as real / 100.0
  {
    assert Shift(f, 1) == f as real / 10.0;
  }

  /** Text whose first point is at `i`, with digits around it, reads as the whole part plus
      the scaled fraction. */
  lemma UnsignedAt(t: string, i: nat)
    requires IndexOfChar(t, '.') == Some(i)
    requires AllDigits(t[..i]) && AllDigits(t[i + 1..]) && (t[..i] != [] || t[i + 1..] != [])
    ensures ParseUnsignedDecimal(t) == Some(DigitsValue(t[..i]) as real + Shift(DigitsValue(t[i + 1..]), |t[i + 1..]|))
  {
  }

  /** In `ip + "." + fp`, with no point in `ip`, the first point follows `ip`. */
  lemma PointSplit(ip: string, fp: string)
    requires '.' !in ip
    ensures var t := ip + "." + fp;
      IndexOfChar(t, '.') == Some(|ip|) && t[..|ip|] == ip && t[|ip| + 1..] == fp
  {
    var t := ip + "." + fp;
    assert t[|ip|] == '.';
    assert forall k :: 0 <= k < |ip| ==> t[k] == ip[k];
  }

  /** `float(s)` is never negative when `s` has no minus sign. */
  lemma ParseFloatNoMinus(s: string)
    requires '-' !in s && ParseFloat(s).Some?
    ensures ParseFloat(s).value >= 0.0
  {
    StripSlice(s);
  }
}
