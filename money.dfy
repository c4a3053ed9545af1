// Monetary amounts as exact decimals (`real`): rounding to cents with ties to
// even, and the text Python's `str()` gives a float holding a whole number of
// cents.
module Money {
  import opened Wrappers
  import opened Text

  /** A whole number of cents. */
  predicate IsCents(x: real)
  {
    (x * 100.0).Floor as real == x * 100.0
  }

  function Abs(x: real): (r: real)
    ensures r >= 0.0 && (r == x || r == -x)
  {
    if x < 0.0 then -x else x
  }

  /** The nearest whole number of cents; a value exactly halfway goes to the even cent. */
  function RoundCents(x: real): (r: real)
    ensures IsCents(r)
    ensures -0.005 <= r - x <= 0.005
    ensures x * 100.0 - (x * 100.0).Floor as real == 0.5 ==> (r * 100.0).Floor % 2 == 0
  {
    var y := x * 100.0;
    var f := y.Floor;
    var d := y - f as real;
    var n := if d < 0.5 then f else if d > 0.5 then f + 1 else if f % 2 == 0 then f else f + 1;
    assert (n as real / 100.0) * 100.0 == n as real;
    n as real / 100.0
  }

  lemma RoundCentsKeepsCents(x: real)
    requires IsCents(x)
    ensures RoundCents(x) == x
  {
  }

  /** Rounding keeps the sign: it never turns a non-negative amount negative or the reverse. */
  lemma RoundCentsSign(x: real)
    ensures x >= 0.0 ==> RoundCents(x) >= 0.0
    ensures x <= 0.0 ==> RoundCents(x) <= 0.0
  {
    var y := x * 100.0;
    var f := y.Floor;
    assert f as real <= y < f as real + 1.0;
    if x >= 0.0 {
      assert y >= 0.0;
      assert f >= 0;
    }
    if x <= 0.0 {
      assert y <= 0.0;
      assert y - f as real > 0.5 ==> f <= -1;
      assert y - f as real == 0.5 ==> f <= -1;
    }
  }

  lemma RoundCentsIdempotent(x: real)
    ensures RoundCents(RoundCents(x)) == RoundCents(x)
  {
    RoundCentsKeepsCents(RoundCents(x));
  }

  /** The whole number of cents in a cents value. */
  function CentsOf(x: real): int
  {
    (x * 100.0).Floor
  }

  /** The fraction digits `str()` prints for `fp` hundredths: one digit when the
      second would be a trailing zero. */
  function FracDigits(fp: nat): string
    requires fp < 100
  {
    if fp % 10 == 0 then [DigitChar(fp / 10)] else [DigitChar(fp / 10), DigitChar(fp % 10)]
  }

  /** Python's `str(x)` for a float holding a whole number of cents: the integer
      part, a point, and one or two fraction digits without a trailing zero. */
  function FormatAmount(x: real): string
    requires IsCents(x)
  {
    FormatCents(CentsOf(x))
  }

  /** `str()` of the float holding `c` hundredths, in positional form and with no sign on zero
      (`str(-0.0)` is "-0.0" and amounts of 1e16 or more print with an exponent in Python). */
  function FormatCents(c: int): string
  {
    if c < 0 then "-" + AmountBody(-c) else AmountBody(c)
  }

  /** The unsigned text of `a` hundredths. */
  function AmountBody(a: nat): string
  {
    NatToString(a / 100) + "." + FracDigits(a % 100)
  }

  lemma FracDigitsValue(fp: nat)
    requires fp < 100
    ensures AllDigits(FracDigits(fp))
    ensures Shift(DigitsValue(FracDigits(fp)), |FracDigits(fp)|) == fp as real / 100.0
  {
    var f := FracDigits(fp);
    if fp % 10 == 0 {
      assert f[..0] == [];
      assert DigitsValue(f) == fp / 10;
      assert fp == 10 * (fp / 10);
      assert Shift(fp / 10, 1) == (fp / 10) as real / 10.0;
    } else {
      assert f[..1] == [DigitChar(fp / 10)];
      assert [DigitChar(fp / 10)][..0] == [];
      assert DigitsValue(f[..1]) == fp / 10;
      assert DigitsValue(f) == fp;
      ShiftTwo(fp);
    }
  }

  lemma UnsignedBody(a: nat)
    ensures ParseUnsignedDecimal(AmountBody(a)) == Some(a as real / 100.0)
    ensures IsDigit(AmountBody(a)[0]) && IsDigit(AmountBody(a)[|AmountBody(a)| - 1])
  {
    var ip := NatToString(a / 100);
    var frac := FracDigits(a % 100);
    var body := AmountBody(a);
    assert '.' !in ip;
    assert body[..|ip|] == ip;
    assert body[|ip|] == '.';
    assert IndexOfChar(body, '.') == Some(|ip|);
    assert body[|ip| + 1..] == frac;
    FracDigitsValue(a % 100);
    assert body[0] == ip[0];
    assert body[|body| - 1] == frac[|frac| - 1];
  }

  lemma StripUnchanged(t: string)
    requires t != [] && !IsSpace(t[0]) && !IsSpace(t[|t| - 1])
    ensures Strip(t) == t
  {
    assert LeadSpaces(t) == 0;
    assert t[0..] == t;
    assert TrailSpaces(t) == 0;
  }

  /** The amount `c` hundredths stand for. */
  function CentsValue(c: int): real
  {
    c as real / 100.0
  }

  /** A digit-led unsigned decimal reads back with or without a leading minus. */
  lemma SignedOfBody(body: string, v: real)
    requires body != [] && IsDigit(body[0]) && ParseUnsignedDecimal(body) == Some(v)
    ensures ParseSignedDecimal(body) == Some(v)
    ensures ParseSignedDecimal("-" + body) == Some(-v)
  {
    assert ("-" + body)[1..] == body;
  }

  /** A text with no surrounding white space and a digit-led body parses as its body. */
  lemma TextParses(t: string, body: string, v: real)
    requires body != [] && IsDigit(body[0]) && IsDigit(body[|body| - 1])
    requires ParseSignedDecimal(t) == Some(v)
    requires t == body || t == "-" + body
    ensures ParseFloat(t) == Some(v)
  {
    assert t[|t| - 1] == body[|body| - 1];
    StripUnchanged(t);
  }

  /** `str()` of `c` hundredths reads back as `c / 100`. */
  lemma FormatCentsParses(c: int)
    ensures ParseFloat(FormatCents(c)) == Some(CentsValue(c))
  {
    var a: nat := if c < 0 then -c else c;
    var body := AmountBody(a);
    var v := CentsValue(a);
    UnsignedBody(a);
    SignedOfBody(body, v);
    if c < 0 {
      assert FormatCents(c) == "-" + body;
      assert -v == CentsValue(c);
      TextParses("-" + body, body, -v);
    } else {
      TextParses(body, body, v);
    }
  }

  /** `float(str(x)) == x` for every cents value. */
  lemma FormatAmountParses(x: real)
    requires IsCents(x)
    ensures ParseFloat(FormatAmount(x)) == Some(x)
  {
    var c := CentsOf(x);
    FormatCentsParses(c);
    assert FormatAmount(x) == FormatCents(c);
    CentsOfCents(x);
  }

  /** A whole number of cents is its cent count over a hundred. */
  lemma CentsOfCents(x: real)
    requires IsCents(x)
    ensures CentsValue(CentsOf(x)) == x
  {
    assert CentsOf(x) as real == x * 100.0;
  }
}
