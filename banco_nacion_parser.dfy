// The parser for Banco Nación (Mastercard Gold) statements: a section state
// machine that only reads the lines between a "COMPRAS DEL MES" heading and a
// closing total, one anchored line layout with a five-digit reference,
// `DD-mmm-YY` dates with Spanish month names and a 50/51 century pivot,
// `123.456,78` amounts, Spanish and English keyword classification and the
// statement's metadata patterns.
module BancoNacionParser {
  import opened Wrappers
  import opened Text
  import opened Rx
  import opened Dates
  import opened Money
  import opened StatementData
  import opened BaseParser

  // ---------------------------------------------------------- line layout

  /** `\d{2}-[a-zA-Z]{3}\.?-\d{2}` */
  const LineDate: seq<Piece> :=
    [Times(Digit, 2, 2), Lit("-"), Times(Letter, 3, 3), Opt(OneOf(".")), Lit("-"), Times(Digit, 2, 2)]

  /** `[\d.]+,\d{2}` */
  const LineAmount: seq<Piece> := [Plus(OneOf("0123456789.")), Lit(","), Times(Digit, 2, 2)]

  /** `(date)\s+(.+?)\s+(\d{5})\s+(amount)$`, IGNORECASE, used with `match`. */
  const TransactionPattern: Regex :=
    Ci(Grp(1, LineDate) + [Plus(Space)] + Grp(2, [LazyPlus(NotNewline)]) + [Plus(Space)]
       + Grp(3, [Times(Digit, 5, 5)]) + [Plus(Space)] + Grp(4, LineAmount) + [Eol])

  // ---------------------------------------------------------------- dates

  /** The Spanish month table: the abbreviations, then the full names (September also as "setiembre"). */
  const SpanishMonthNames: seq<string> := [
    "ene", "feb", "mar", "abr", "may", "jun", "jul", "ago", "sep", "oct", "nov", "dic",
    "enero", "febrero", "marzo", "abril", "mayo", "junio", "julio", "agosto",
    "septiembre", "setiembre", "octubre", "noviembre", "diciembre"]

  const SpanishMonthNumbers: seq<int> := [
    1, 2, 3, 4, 5, 6, 7, 8, 9, 10, 11, 12,
    1, 2, 3, 4, 5, 6, 7, 8,
    9, 9, 10, 11, 12]

  /** `month_names.get(name)` */
  function SpanishMonth(name: string): (r: Option<int>)
    ensures r.Some? <==> name in SpanishMonthNames
    ensures r.Some? ==> 1 <= r.value <= 12
  {
    assert |SpanishMonthNumbers| == |SpanishMonthNames|;
    assert forall k :: 0 <= k < |SpanishMonthNumbers| ==> 1 <= SpanishMonthNumbers[k] <= 12;
    match IndexIn(name, SpanishMonthNames)
    case None => None
    case Some(i) => Some(SpanishMonthNumbers[i])
  }

  /** Python's `s.rstrip(c)`: every trailing `c` removed. */
  function TrimTrailing(s: string, c: char): (r: string)
    ensures |r| <= |s| && r == s[..|r|]
    ensures r == [] || r[|r| - 1] != c
    ensures forall k :: |r| <= k < |s| ==> s[k] == c
  {
    if s == [] || s[|s| - 1] != c then s
    else
      var r := TrimTrailing(s[..|s| - 1], c);
      assert s[..|s| - 1][..|r|] == s[..|r|];
      r
  }

  /** The century pivot of a year below 100: 00–50 are the 2000s, 51–99 the 1900s. */
  function Pivot(y: nat): (r: int)
    ensures y < 100 ==> 1951 <= r <= 2050 && r % 100 == y
    ensures y < 100 && y <= 50 ==> r == 2000 + y
    ensures y >= 100 ==> r == y
  {
    if y < 100 then (if y <= 50 then y + 2000 else y + 1900) else y
  }

  /** `_parse_banco_nacion_date`: three '-' parts, the day, the Spanish month (trailing dots
      removed, any case) and the year with the century pivot. The current year is not consulted. */
  function ParseBancoDate(dateStr: string, currentYear: int): (r: Option<Date>)
    ensures r.Some? ==> Valid(r.value)
    ensures r.Some? ==> |Split(dateStr, '-')| == 3
  {
    var parts := Split(dateStr, '-');
    if |parts| != 3 then None
    else
      var day := ParseInt(parts[0]);
      var month := SpanishMonth(Lower(TrimTrailing(parts[1], '.')));
      var year := ParseInt(parts[2]);
      if day.None? || month.None? || year.None? then None
      else MakeDate(Pivot(year.value), month.value, day.value)
  }

  /** "D-mmm-Y" splits into its three parts. */
  lemma SplitDashes(d: string, mon: string, y: string)
    requires '-' !in d && '-' !in mon && '-' !in y
    ensures Split(d + "-" + mon + "-" + y, '-') == [d, mon, y]
  {
    var tail := mon + "-" + y;
    assert d + "-" + mon + "-" + y == d + "-" + tail;
    SplitAt(mon, y, '-');
    SplitNone(y, '-');
    SplitAt(d, tail, '-');
  }

  /** A day, a month word and a year give the date in the pivoted year, whatever the current year;
      a month word outside the table gives None. */
  lemma DateForm(d: string, mon: string, y: string, currentYear: int)
    requires IsNumber(d) && IsNumber(y) && '-' !in mon
    ensures ParseBancoDate(d + "-" + mon + "-" + y, currentYear)
      == match SpanishMonth(Lower(TrimTrailing(mon, '.')))
         case None => None
         case Some(m) => MakeDate(Pivot(DigitsValue(y)), m, DigitsValue(d))
  {
    assert '-' !in d && '-' !in y;
    SplitDashes(d, mon, y);
    var parts := [d, mon, y];
    assert parts[0] == d && parts[1] == mon && parts[2] == y;
    assert ParseInt(d) == Some(DigitsValue(d)) && ParseInt(y) == Some(DigitsValue(y));
  }

  // -------------------------------------------------------------- amounts

  /** The placeholder the comma is turned into while the dots are removed. */
  const DecimalMark := "|DECIMAL|"

  /** `_parse_banco_nacion_amount`: the comma becomes the decimal point and the dots are
      dropped, then `float`. */
  function ParseBancoAmount(s: string): Option<real>
  {
    var marked := Replace(Strip(s), ",", DecimalMark);
    var undotted := Replace(marked, ".", "");
    ParseFloat(Replace(undotted, DecimalMark, "."))
  }

  predicate DigitsAndDots(s: string)
  {
    forall k :: 0 <= k < |s| ==> IsDigit(s[k]) || s[k] == '.'
  }

  /** Removing the dots from digits and dots leaves digits. */
  lemma DotlessDigits(s: string)
    requires DigitsAndDots(s)
    ensures AllDigits(Replace(s, ".", ""))
  {
    ReplaceChars(s, ".", "");
    ReplaceCharByNothing(s, '.');
    var r := Replace(s, ".", "");
    forall k | 0 <= k < |r|
      ensures IsDigit(r[k])
    {
      assert r[k] in r;
      var j :| 0 <= j < |s| && s[j] == r[k];
    }
  }

  /** The digits of `s` with its thousands dots removed. */
  function DropDots(s: string): (r: string)
    requires DigitsAndDots(s)
    ensures AllDigits(r) && |r| <= |s|
  {
    DotlessDigits(s);
    DropDotsShorter(s);
    Replace(s, ".", "")
  }

  lemma {:induction false} DropDotsShorter(s: string)
    ensures |Replace(s, ".", "")| <= |s|
    decreases |s|
  {
    if |s| >= 1 {
      DropDotsShorter(s[1..]);
    }
  }

  /** The first occurrence of `c` is the one after `a` when `a` has none. */
  lemma IndexAfter(a: string, c: char, b: string)
    requires c !in a
    ensures IndexOfChar(a + [c] + b, c) == Some(|a|)
  {
    var s := a + [c] + b;
    assert s[|a|] == c && s[..|a|] == a;
    var r := IndexOfChar(s, c);
    assert r.Some?;
    assert r.value == |a|;
  }

  /** Text made of a digit string, a point and two digits, as an unsigned decimal; the text
      is known only through where its point is. */
  lemma UnsignedOfParts(t: string, d: string, fp: string)
    requires AllDigits(d) && |fp| == 2 && AllDigits(fp)
    requires IndexOfChar(t, '.') == Some(|d|) && t[..|d|] == d && t[|d| + 1..] == fp
    ensures ParseUnsignedDecimal(t) == Some(Hundredths(DigitsValue(d), DigitsValue(fp)))
  {
    UnsignedAt(t, |d|);
    ShiftTwo(DigitsValue(fp));
  }

  /** `a` units and `b` hundredths. */
  function Hundredths(a: nat, b: nat): real
  {
    a as real + b as real / 100.0
  }

  /** A digit string, a point and two digits, read by `float`. */
  lemma FloatOfParts(d: string, fp: string)
    requires AllDigits(d) && |fp| == 2 && AllDigits(fp)
    ensures ParseFloat(d + "." + fp) == Some(Hundredths(DigitsValue(d), DigitsValue(fp)))
  {
    var t := d + "." + fp;
    assert t[|t| - 1] == fp[1] && IsDigit(fp[1]);
    assert t[0] == (if d == [] then '.' else d[0]);
    StripUnchanged(t);
    assert t[0] != '-' && t[0] != '+';
    assert '.' !in d;
    PointSplit(d, fp);
    UnsignedOfParts(t, d, fp);
  }

  /** The stripped text with its comma turned into the placeholder. */
  lemma MarkComma(ip: string, fp: string)
    requires DigitsAndDots(ip) && |fp| == 2 && AllDigits(fp)
    ensures Replace(Strip(ip + "," + fp), ",", DecimalMark) == ip + DecimalMark + fp
  {
    var s := ip + "," + fp;
    assert s[|s| - 1] == fp[1] && IsDigit(fp[1]);
    assert ip != [] ==> s[0] == ip[0] && (IsDigit(ip[0]) || ip[0] == '.');
    assert ip == [] ==> s[0] == ',';
    StripUnchanged(s);
    assert ',' !in ip && ',' !in fp;
    assert s == ip + ("," + fp);
    ReplaceSkip(ip, "," + fp, ",", DecimalMark);
    assert ("," + fp)[..1] == "," && ("," + fp)[1..] == fp;
    ReplaceSkip(fp, [], ",", DecimalMark);
    assert fp + [] == fp;
  }

  /** The dots removed from the marked text. */
  lemma UndotMarked(ip: string, fp: string)
    requires DigitsAndDots(ip) && |fp| == 2 && AllDigits(fp)
    ensures Replace(ip + DecimalMark + fp, ".", "") == DropDots(ip) + DecimalMark + fp
  {
    assert '.' !in fp;
    ReplaceCharAppend(ip + DecimalMark, fp, '.', "");
    ReplaceCharAppend(ip, DecimalMark, '.', "");
    ReplaceSkip(DecimalMark, [], ".", "");
    ReplaceSkip(fp, [], ".", "");
    assert DecimalMark + [] == DecimalMark && fp + [] == fp;
  }

  /** The placeholder turned into a decimal point. */
  lemma RestorePoint(d: string, fp: string)
    requires AllDigits(d) && |fp| == 2 && AllDigits(fp)
    ensures Replace(d + DecimalMark + fp, DecimalMark, ".") == d + "." + fp
  {
    assert '|' !in d;
    assert d + DecimalMark + fp == d + (DecimalMark + fp);
    ReplaceSkip(d, DecimalMark + fp, DecimalMark, ".");
    var t := DecimalMark + fp;
    assert t[..|DecimalMark|] == DecimalMark && t[|DecimalMark|..] == fp;
    assert Replace(fp, DecimalMark, ".") == fp;
  }

  /** The layout's amount shape `[\d.]+,\d{2}` converts to its digits with the dots dropped,
      the two after the comma being hundredths. */
  lemma GroupAmount(ip: string, fp: string)
    requires DigitsAndDots(ip) && |fp| == 2 && AllDigits(fp)
    ensures ParseBancoAmount(ip + "," + fp) == Some(Hundredths(DigitsValue(DropDots(ip)), DigitsValue(fp)))
  {
    var d := DropDots(ip);
    var s := ip + "," + fp;
    var marked := Replace(Strip(s), ",", DecimalMark);
    var undotted := Replace(marked, ".", "");
    var point := Replace(undotted, DecimalMark, ".");
    assert ParseBancoAmount(s) == ParseFloat(point);
    MarkComma(ip, fp);
    assert marked == ip + DecimalMark + fp;
    UndotMarked(ip, fp);
    assert undotted == d + DecimalMark + fp;
    RestorePoint(d, fp);
    assert point == d + "." + fp;
    FloatOfParts(d, fp);
  }

  /** One thousands dot between two digit runs is dropped. */
  lemma DropOneDot(a: string, b: string)
    requires AllDigits(a) && AllDigits(b)
    ensures DigitsAndDots(a + "." + b) && DropDots(a + "." + b) == a + b
  {
    var s := a + "." + b;
    forall k | 0 <= k < |s|
      ensures IsDigit(s[k]) || s[k] == '.'
    {
      if k < |a| {
        assert s[k] == a[k];
      } else if k > |a| {
        assert s[k] == b[k - |a| - 1];
      }
    }
    assert '.' !in a && '.' !in b;
    ReplaceOneChar(a, b, '.');
  }

  /** "123.456,78" (the text `ip + "," + fp`) is 123456.78: the thousands dot is dropped and the
      comma is the decimal point. */
  lemma AmountExample(ip: string, fp: string)
    requires ip == "123.456" && fp == "78"
    ensures ParseBancoAmount(ip + "," + fp) == Some(123456.78)
  {
    DropOneDot("123", "456");
    assert ip == "123" + "." + "456";
    assert DropDots(ip) == "123456";
    assert DigitsValue("1") == 1 by { assert "1"[..0] == []; }
    assert DigitsValue("12") == 12 by { assert "12"[..1] == "1"; }
    assert DigitsValue("123") == 123 by { assert "123"[..2] == "12"; }
    assert DigitsValue("1234") == 1234 by { assert "1234"[..3] == "123"; }
    assert DigitsValue("12345") == 12345 by { assert "12345"[..4] == "1234"; }
    assert DigitsValue("123456") == 123456 by { assert "123456"[..5] == "12345"; }
    assert DigitsValue("7") == 7 by { assert "7"[..0] == []; }
    assert DigitsValue("78") == 78 by { assert "78"[..1] == "7"; }
    GroupAmount(ip, fp);
  }

  // ------------------------------------------------------- classification

  const BancoKeywords: seq<(TransactionType, seq<string>)> := [
    (Payment, ["PAGO", "PAYMENT", "ACREDITACION", "CREDIT"]),
    (Interest, ["INTERES", "INTEREST", "FINANCIACION"]),
    (Fee, ["COMISION", "FEE", "CARGO", "ANUAL"]),
    (CashAdvance, ["ADELANTO", "CASH", "ATM", "CAJERO"]),
    (Credit, ["DEVOLUCION", "REFUND", "NOTA CREDITO"])]

  /** `_classify_banco_nacion_transaction`: keyword search in the upper-cased description. */
  function ClassifyBanco(description: string): (r: TransactionType)
    ensures r in {Payment, Interest, Fee, CashAdvance, Credit, Purchase}
  {
    KeywordType(BancoKeywords, Upper(description))
  }

  /** A text containing `u + t + v` contains `t`. */
  lemma {:induction false} ContainsInner(s: string, u: string, t: string)
    requires Contains(s, u + t)
    ensures Contains(s, t)
    decreases |s|
  {
    if StartsWith(s, u + t) {
      assert s[|u|..][..|t|] == (u + t)[|u|..] == t;
      StartsWithContains(s, |u|, t);
    } else {
      ContainsInner(s[1..], u, t);
    }
  }

  /** `t` occurring at offset `i` of `s`. */
  lemma {:induction false} StartsWithContains(s: string, i: nat, t: string)
    requires i <= |s| && StartsWith(s[i..], t)
    ensures Contains(s, t)
    decreases i
  {
    if i > 0 {
      assert s[1..][i - 1..] == s[i..];
      StartsWithContains(s[1..], i - 1, t);
    } else {
      assert s[0..] == s;
    }
  }

  /** Any description containing "CREDIT", even a "NOTA CREDITO", is a payment: the credit row is
      reached only through "DEVOLUCION" or "REFUND". */
  lemma CreditIsPayment(description: string)
    requires Contains(Upper(description), "CREDIT")
    ensures ClassifyBanco(description) == Payment
  {
    KeywordTypeFirstRow(BancoKeywords, Upper(description), "CREDIT");
  }

  lemma NotaCreditoIsPayment(description: string)
    requires Contains(Upper(description), "NOTA CREDITO")
    ensures ClassifyBanco(description) == Payment
  {
    assert "NOTA CREDITO" == "NOTA " + "CREDITO";
    ContainsInner(Upper(description), "NOTA ", "CREDITO");
    assert "CREDITO" == "CREDIT" + "O";
    ContainsPrefix(Upper(description), "CREDIT", "O");
    CreditIsPayment(description);
  }

  /** A text containing `t + v` contains `t`. */
  lemma {:induction false} ContainsPrefix(s: string, t: string, v: string)
    requires Contains(s, t + v)
    ensures Contains(s, t)
    decreases |s|
  {
    if StartsWith(s, t + v) {
      assert s[..|t|] == (t + v)[..|t|] == t;
    } else {
      ContainsPrefix(s[1..], t, v);
    }
  }

  // ------------------------------------------------------------- one line

  /** The types whose amounts are made negative. */
  predicate PaysBack(t: TransactionType)
  {
    t == Payment || t == Credit
  }

  /** The transaction built from a parsed date, description and amount: payments and credits get
      `-|a|`, every other type `|a|`. */
  function Build(d: Date, description: string, a: real, reference: string): (t: Transaction)
    requires Valid(d)
    ensures WellFormed(t) && t.date == d && t.description == Strip(description)
    ensures t.ttype == ClassifyBanco(description) && t.category.None? && t.reference == Some(reference)
    ensures PaysBack(t.ttype) ==> t.amount == ValidateAmount(-Abs(a)) && t.amount <= 0.0
    ensures !PaysBack(t.ttype) ==> t.amount == ValidateAmount(Abs(a)) && t.amount >= 0.0
  {
    var ttype := ClassifyBanco(description);
    var amount := Signed(a, PaysBack(ttype));
    ValidateAmountSign(amount);
    NewTransaction(d, description, amount, ttype, None, Some(reference))
  }

  /** The transaction the layout's groups stand for: the date, the stripped description (which must
      not be empty), the five-digit group as reference and the converted amount, negative exactly
      for payments and credits. */
  function FromGroups(dateStr: string, rawDesc: string, reference: string, amountStr: string, year: int)
    : (r: Option<Transaction>)
    ensures r.Some? <==> ParseBancoDate(dateStr, year).Some? && Strip(rawDesc) != [] && ParseBancoAmount(amountStr).Some?
    ensures r.Some? ==> (WellFormed(r.value)
      && r.value.date == ParseBancoDate(dateStr, year).value
      && r.value.description == Strip(rawDesc)
      && r.value.ttype == ClassifyBanco(Strip(rawDesc))
      && r.value.category.None? && r.value.reference == Some(reference))
    ensures r.Some? && PaysBack(r.value.ttype) ==>
      r.value.amount == ValidateAmount(-Abs(ParseBancoAmount(amountStr).value)) && r.value.amount <= 0.0
    ensures r.Some? && !PaysBack(r.value.ttype) ==>
      r.value.amount == ValidateAmount(Abs(ParseBancoAmount(amountStr).value)) && r.value.amount >= 0.0
  {
    var date := ParseBancoDate(dateStr, year);
    var description := Strip(rawDesc);
    var amount := ParseBancoAmount(amountStr);
    if date.None? || description == [] || amount.None? then None
    else
      StripIdempotent(rawDesc);
      Some(Build(date.value, description, amount.value, reference))
  }

  /** `_parse_banco_nacion_transaction`: the layout matched from the start of the line, then its groups. */
  function ParseBancoTransaction(line: string, year: int): (r: Option<Transaction>)
    ensures r.Some? ==> WellFormed(r.value)
    ensures r.Some? ==> (MatchStart(TransactionPattern, line).Some?
      && var mt := MatchStart(TransactionPattern, line).value;
      && Capture(mt, line, 1).Some? && Capture(mt, line, 2).Some?
      && Capture(mt, line, 3).Some? && Capture(mt, line, 4).Some?
      && r == FromGroups(Capture(mt, line, 1).value, Capture(mt, line, 2).value,
                         Capture(mt, line, 3).value, Capture(mt, line, 4).value, year))
  {
    match MatchStart(TransactionPattern, line)
    case None => None
    case Some(mt) =>
      var g1 := Capture(mt, line, 1);
      var g2 := Capture(mt, line, 2);
      var g3 := Capture(mt, line, 3);
      var g4 := Capture(mt, line, 4);
      if g1.None? || g2.None? || g3.None? || g4.None? then None
      else FromGroups(g1.value, g2.value, g3.value, g4.value, year)
  }

  // ---------------------------------------------------------------- year

  /** `max(int(t) for t in tokens)` */
  function MaxYear(tokens: seq<string>): (y: int)
    requires tokens != [] && forall k :: 0 <= k < |tokens| ==> IsYearToken(tokens[k])
    ensures exists k :: 0 <= k < |tokens| && y == YearValue(tokens[k])
    ensures forall k :: 0 <= k < |tokens| ==> YearValue(tokens[k]) <= y
  {
    if |tokens| == 1 then YearValue(tokens[0])
    else
      var rest := MaxYear(tokens[1..]);
      assert forall k :: 1 <= k < |tokens| ==> tokens[k] == tokens[1..][k - 1];
      if YearValue(tokens[0]) >= rest then YearValue(tokens[0]) else rest
  }

  /** `_detect_year`: the latest "20dd" token of the text, else the current year. */
  function DetectYear(text: string, currentYear: int): (y: int)
    ensures YearTokens(text) == [] ==> y == currentYear
    ensures YearTokens(text) != [] ==> (2000 <= y <= 2099
      && (exists k :: 0 <= k < |YearTokens(text)| && y == YearValue(YearTokens(text)[k]))
      && forall k :: 0 <= k < |YearTokens(text)| ==> YearValue(YearTokens(text)[k]) <= y)
  {
    var tokens := YearTokens(text);
    if tokens == [] then currentYear
    else MaxYear(tokens)
  }

  // --------------------------------------------------- the section machine

  /** `COMPRAS\s+DEL\s+MES` */
  const SectionStart: Regex := Ci(Spaced1(["COMPRAS", "DEL", "MES"]))

  /** `TOTAL\s+COMPRAS|RESUMEN\s+DE\s+CUENTA|DETALLE\s+DE\s+PAGOS` */
  const SectionEnd: Regex :=
    Regex([Branch(Spaced1(["TOTAL", "COMPRAS"])), Branch(Spaced1(["RESUMEN", "DE", "CUENTA"])),
           Branch(Spaced1(["DETALLE", "DE", "PAGOS"]))], true)

  predicate StartsSection(line: string) { Found(SectionStart, line) }
  predicate EndsSection(line: string) { Found(SectionEnd, line) }

  /** The headings that open and close the transaction section, and the line parser used inside it. */
  datatype Sections = Sections(starts: string -> bool, ends: string -> bool, parse: string -> Option<Transaction>)

  /** The loop's state: whether it is inside the transaction section, and what it has collected. */
  datatype Scan = Scan(inSection: bool, transactions: seq<Transaction>)

  /** One line of the loop: blank lines are passed over, a start heading opens the section (it is
      tested first), an end heading closes it, and any other line is parsed only inside it. */
  function Step(st: Scan, line: string, sx: Sections): Scan
  {
    var l := Strip(line);
    if l == [] then st
    else if sx.starts(l) then Scan(true, st.transactions)
    else if sx.ends(l) then Scan(false, st.transactions)
    else if !st.inSection then st
    else match sx.parse(l)
      case None => st
      case Some(t) => Scan(true, st.transactions + [t])
  }

  /** The loop over `lines`, from outside the section with nothing collected. */
  function ScanLines(lines: seq<string>, sx: Sections): Scan
  {
    if lines == [] then Scan(false, [])
    else Step(ScanLines(lines[..|lines| - 1], sx), lines[|lines| - 1], sx)
  }

  /** Line `i` is handed to the line parser: it is not blank, not a heading, and the section is open
      when it is reached. */
  predicate Offered(lines: seq<string>, i: nat, sx: Sections)
    requires i < |lines|
  {
    var l := Strip(lines[i]);
    l != [] && !sx.starts(l) && !sx.ends(l) && ScanLines(lines[..i], sx).inSection
  }

  /** What line `i` does to the state: the section flag it leaves, and the transaction it adds
      exactly when it is offered and parses. */
  lemma ScanStep(lines: seq<string>, i: nat, sx: Sections)
    requires i < |lines|
    ensures var before := ScanLines(lines[..i], sx);
      var after := ScanLines(lines[..i + 1], sx);
      var l := Strip(lines[i]);
      && (l != [] && sx.starts(l) ==> after.inSection)
      && (l != [] && !sx.starts(l) && sx.ends(l) ==> !after.inSection)
      && ((l == [] || (!sx.starts(l) && !sx.ends(l))) ==> after.inSection == before.inSection)
      && after.transactions == before.transactions
           + (if Offered(lines, i, sx) && sx.parse(l).Some? then [sx.parse(l).value] else [])
  {
    assert lines[..i + 1][..i] == lines[..i];
  }

  /** At most one transaction per line. */
  lemma {:induction false} ScanLength(lines: seq<string>, sx: Sections)
    ensures |ScanLines(lines, sx).transactions| <= |lines|
  {
    if lines != [] {
      var n := |lines| - 1;
      ScanLength(lines[..n], sx);
      ScanStep(lines, n, sx);
      assert lines[..n + 1] == lines;
    }
  }

  /** Whether a line is offered depends only on the lines before it. */
  lemma OfferedPrefix(lines: seq<string>, n: nat, i: nat, sx: Sections)
    requires i < n <= |lines|
    ensures Offered(lines[..n], i, sx) == Offered(lines, i, sx)
  {
    assert lines[..n][i] == lines[i] && lines[..n][..i] == lines[..i];
  }

  /** Each transaction comes from a line that was offered to the line parser. */
  lemma {:induction false} ScanSources(lines: seq<string>, sx: Sections)
    ensures forall t :: t in ScanLines(lines, sx).transactions ==>
      exists i :: 0 <= i < |lines| && Offered(lines, i, sx) && sx.parse(Strip(lines[i])) == Some(t)
  {
    if lines != [] {
      var n := |lines| - 1;
      var init := lines[..n];
      ScanSources(init, sx);
      ScanStep(lines, n, sx);
      assert lines[..n + 1] == lines;
      forall t | t in ScanLines(lines, sx).transactions
        ensures exists i :: 0 <= i < |lines| && Offered(lines, i, sx) && sx.parse(Strip(lines[i])) == Some(t)
      {
        if t in ScanLines(init, sx).transactions {
          var i :| 0 <= i < |init| && Offered(init, i, sx) && sx.parse(Strip(init[i])) == Some(t);
          OfferedPrefix(lines, n, i, sx);
          assert lines[i] == init[i];
        }
      }
    }
  }

  /** Without a start heading the section never opens and nothing is collected. */
  lemma {:induction false} NoStartNoTransactions(lines: seq<string>, sx: Sections)
    requires forall i :: 0 <= i < |lines| ==> !sx.starts(Strip(lines[i]))
    ensures ScanLines(lines, sx) == Scan(false, [])
  {
    if lines != [] {
      var n := |lines| - 1;
      NoStartNoTransactions(lines[..n], sx);
    }
  }

  lemma {:induction false} ScanWellFormed(lines: seq<string>, sx: Sections)
    requires forall l :: sx.parse(l).Some? ==> WellFormed(sx.parse(l).value)
    ensures AllWellFormed(ScanLines(lines, sx).transactions)
  {
    if lines != [] {
      ScanWellFormed(lines[..|lines| - 1], sx);
    }
  }

  /** The Banco Nación headings and line parser with the statement year fixed. */
  function BancoSections(year: int): (sx: Sections)
    ensures forall l :: sx.parse(l).Some? ==> WellFormed(sx.parse(l).value)
  {
    Sections(StartsSection, EndsSection, line => ParseBancoTransaction(line, year))
  }

  /** The transactions the Banco Nación parser finds in `text`. */
  function Transactions(text: string, currentYear: int): seq<Transaction>
  {
    ScanLines(Split(text, '\n'), BancoSections(DetectYear(text, currentYear))).transactions
  }

  lemma TransactionsWellFormed(text: string, currentYear: int)
    ensures AllWellFormed(Transactions(text, currentYear))
  {
    ScanWellFormed(Split(text, '\n'), BancoSections(DetectYear(text, currentYear)));
  }

  /** `extract_transactions` of the Banco Nación parser: the loop carrying the section flag. */
  method ExtractTransactions(text: string, currentYear: int) returns (transactions: seq<Transaction>)
    ensures transactions == Transactions(text, currentYear)
    ensures AllWellFormed(transactions)
  {
    var lines := Split(text, '\n');
    var sx := BancoSections(DetectYear(text, currentYear));
    var inSection := false;
    transactions := [];
    var i := 0;
    while i < |lines|
      invariant 0 <= i <= |lines|
      invariant ScanLines(lines[..i], sx) == Scan(inSection, transactions)
    {
      assert lines[..i + 1][..i] == lines[..i];
      var line := Strip(lines[i]);
      if line != [] {
        if sx.starts(line) {
          inSection := true;
        } else if sx.ends(line) {
          inSection := false;
        } else if inSection {
          var transaction := sx.parse(line);
          if transaction.Some? {
            transactions := transactions + [transaction.value];
          }
        }
      }
      i := i + 1;
    }
    assert lines[..i] == lines;
    ScanWellFormed(lines, sx);
  }

  // ------------------------------------------------------------- metadata

  const Label: seq<Piece> := [Opt(OneOf(":")), Star(Space)]

  /** `(?:a|b)` */
  function Either(a: seq<Piece>, b: seq<Piece>): Piece
  {
    Group([Branch(a), Branch(b)], false)
  }

  /** `[\d.,]+` after an optional dollar sign. */
  const Figure: seq<Piece> := [Opt(OneOf("$")), Star(Space)] + Grp(1, [Plus(OneOf("0123456789.,"))])

  /** `\d{2}[/-]\d{2}[/-]\d{2,4}` */
  const NumericDate: seq<Piece> :=
    [Times(Digit, 2, 2), One(OneOf("/-")), Times(Digit, 2, 2), One(OneOf("/-")), Times(Digit, 2, 4)]

  /** `\d{2}-[a-zA-Z]{3}-\d{2}` */
  const PeriodDate: seq<Piece> := [Times(Digit, 2, 2), Lit("-"), Times(Letter, 3, 3), Lit("-"), Times(Digit, 2, 2)]

  const CardholderPattern: Regex :=
    Ci([Lit("Titular")] + Label + Grp(1, [LazyPlus(NotNewline)]) + [Either([Lit("\n")], [Lit("Tarjeta")])])
  const BalancePattern: Regex := Ci([Either([Lit("Saldo")], [Lit("Balance")])] + Label + Figure)
  const MinimumPaymentPattern: Regex :=
    Ci([Either([Lit("Pago"), Star(Space), Lit("M"), One(OneOf("íi")), Lit("nimo")], Spaced(["Minimum", "Payment"]))]
       + Label + Figure)
  const DueDatePattern: Regex := Ci([Either([Lit("Vencimiento")], Spaced(["Due", "Date"]))] + Label + Grp(1, NumericDate))
  const NextClosingPattern: Regex :=
    Ci([Either([Lit("Pr"), One(OneOf("oó")), Lit("ximo"), Star(Space), Lit("Cierre")], Spaced(["Next", "Closing"]))]
       + Label + Grp(1, NumericDate))
  const PeriodPattern: Regex :=
    Ci([Lit("Per"), One(OneOf("íi")), Lit("odo")] + Label + Grp(1, PeriodDate)
       + [Star(Space), Lit("a"), Opt(OneOf("l")), Star(Space)] + Grp(2, PeriodDate))

  /** `_extract_cardholder`: the stripped name after "Titular". */
  function CardholderOf(text: string): (r: Option<string>)
    ensures r.Some? <==> SearchGroup(CardholderPattern, text, 1).Some?
    ensures r.Some? ==> r.value == Strip(SearchGroup(CardholderPattern, text, 1).value) && Strip(r.value) == r.value
  {
    match SearchGroup(CardholderPattern, text, 1)
    case None => None
    case Some(g) => StripIdempotent(g); Some(Strip(g))
  }

  /** `_extract_statement_period`: both dates of the first period line, as "start to end". */
  function StatementPeriodOf(text: string): (r: Option<string>)
    ensures r.Some? <==> SearchGroup(PeriodPattern, text, 1).Some? && SearchGroup(PeriodPattern, text, 2).Some?
    ensures r.Some? ==> r.value == SearchGroup(PeriodPattern, text, 1).value + " to " + SearchGroup(PeriodPattern, text, 2).value
  {
    var start := SearchGroup(PeriodPattern, text, 1);
    var end := SearchGroup(PeriodPattern, text, 2);
    if start.None? || end.None? then None else Some(start.value + " to " + end.value)
  }

  /** `_extract_due_date` */
  function DueDateOf(text: string): Option<string>
  {
    SearchGroup(DueDatePattern, text, 1)
  }

  /** `_extract_next_closing` */
  function NextClosingOf(text: string): Option<string>
  {
    SearchGroup(NextClosingPattern, text, 1)
  }

  /** `_extract_balance` */
  function BalanceOf(text: string): (r: Option<string>)
    ensures r.Some? <==> SearchGroup(BalancePattern, text, 1).Some?
    ensures r.Some? ==> r.value == "$" + SearchGroup(BalancePattern, text, 1).value
  {
    match SearchGroup(BalancePattern, text, 1)
    case None => None
    case Some(g) => Some("$" + g)
  }

  /** `_extract_minimum_payment` */
  function MinimumPaymentOf(text: string): (r: Option<string>)
    ensures r.Some? <==> SearchGroup(MinimumPaymentPattern, text, 1).Some?
    ensures r.Some? ==> r.value == "$" + SearchGroup(MinimumPaymentPattern, text, 1).value
  {
    match SearchGroup(MinimumPaymentPattern, text, 1)
    case None => None
    case Some(g) => Some("$" + g)
  }

  const BankName := "Banco Nación"

  /** `extract_metadata` of the Banco Nación parser. The cardholder is looked up but not kept,
      and the account number is never read. */
  function ExtractMetadata(text: string): (md: Metadata)
    ensures md.bankType == BancoNacion && md.bankName == BankName && md.accountNumber.None?
    ensures md.statementPeriod == Strip(OrElse(StatementPeriodOf(text), "Unknown"))
    ensures md.balance == OrElse(BalanceOf(text), "0,00")
    ensures md.dueDate == ValidateDateField(DueDateOf(text))
    ensures md.nextClosing == ValidateDateField(NextClosingOf(text))
    ensures md.minimumPayment == MinimumPaymentOf(text)
  {
    NewMetadata(BankName, BancoNacion, None, OrElse(StatementPeriodOf(text), "Unknown"),
                DueDateOf(text), NextClosingOf(text), OrElse(BalanceOf(text), "0,00"), MinimumPaymentOf(text))
  }

  // ------------------------------------------------------------ statement

  function CountNote(count: nat): string
  {
    "Parsed " + NatToString(count) + " transactions using Banco Nación parser"
  }

  /** The processing notes of the Banco Nación parser: the count, and the file name when one is given. */
  function BancoNotes(count: nat, filename: Option<string>): (notes: seq<string>)
    ensures |notes| == (if filename.Some? && filename.value != [] then 2 else 1)
    ensures notes[0] == CountNote(count)
  {
    [CountNote(count)] + (if filename.Some? && filename.value != [] then ["Source file: " + filename.value] else [])
  }

  /** `parse_statement` of the Banco Nación parser; `currentYear` stands for `datetime.now().year`. */
  method ParseStatement(text: string, filename: Option<string>, currentYear: int) returns (statement: ProcessedStatement)
    ensures fresh(statement) && statement.Valid()
    ensures statement.transactions == Transactions(text, currentYear)
    ensures statement.metadata == ExtractMetadata(text) && statement.rawText == Some(text)
    ensures statement.notes == BancoNotes(|statement.transactions|, filename)
  {
    var metadata := ExtractMetadata(text);
    var transactions := ExtractTransactions(text, currentYear);
    statement := new ProcessedStatement(transactions, metadata, Some(text), BancoNotes(|transactions|, filename));
  }
}
