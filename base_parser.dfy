// The logic every statement parser shares: dates, amounts and descriptions
// read off a line, keyword classification, the lines to skip, the line loop,
// and the plausibility warnings on a parsed statement.
module BaseParser {
  import opened Wrappers
  import opened Text
  import opened Rx
  import opened Dates
  import opened Money
  import opened StatementData

  // ---------------------------------------------------------------- dates

  /** `(\d{1,2})/(\d{1,2})/(\d{2,4})` */
  const SlashDate: Regex :=
    Pattern(Grp(1, [Times(Digit, 1, 2)]) + [Lit("/")] + Grp(2, [Times(Digit, 1, 2)]) + [Lit("/")]
            + Grp(3, [Times(Digit, 2, 4)]), false)

  /** `(\d{1,2})-(\d{1,2})-(\d{2,4})` */
  const DashDate: Regex :=
    Pattern(Grp(1, [Times(Digit, 1, 2)]) + [Lit("-")] + Grp(2, [Times(Digit, 1, 2)]) + [Lit("-")]
            + Grp(3, [Times(Digit, 2, 4)]), false)

  /** `(\d{2,4})-(\d{1,2})-(\d{1,2})`, the only pattern read as year, month, day. */
  const YearFirstDate: Regex :=
    Pattern(Grp(1, [Times(Digit, 2, 4)]) + [Lit("-")] + Grp(2, [Times(Digit, 1, 2)]) + [Lit("-")]
            + Grp(3, [Times(Digit, 1, 2)]), false)

  /** `([A-Za-z]{3})\s+(\d{1,2}),?\s+(\d{2,4})` */
  const NamedDate: Regex :=
    Pattern(Grp(1, [Times(Letter, 3, 3)]) + [Plus(Space)] + Grp(2, [Times(Digit, 1, 2)])
            + [Opt(OneOf(",")), Plus(Space)] + Grp(3, [Times(Digit, 2, 4)]), false)

  const DatePatterns: seq<Regex> := [SlashDate, DashDate, YearFirstDate, NamedDate]
  const DateCount: nat := 4

  const MonthAbbrevs: seq<string> := ["jan", "feb", "mar", "apr", "may", "jun", "jul", "aug", "sep", "oct", "nov", "dec"]

  /** The position of `s` in a table of strings. */
  function IndexIn(s: string, table: seq<string>): (r: Option<nat>)
    ensures r.Some? ==> r.value < |table| && table[r.value] == s && s !in table[..r.value]
    ensures r.None? ==> s !in table
  {
    if table == [] then None
    else if table[0] == s then Some(0)
    else match IndexIn(s, table[1..])
      case None => None
      case Some(i) => assert table[..i + 1] == [table[0]] + table[1..][..i]; Some(i + 1)
  }

  /** The key a month name is looked up by: its first three letters in lower case. */
  function MonthKey(s: string): string
  {
    var low := Lower(s);
    if |low| <= 3 then low else low[..3]
  }

  /** `month_names.get(s.lower()[:3])`: the 1-based position of the key in the table of months. */
  function MonthOfName(s: string): (r: Option<int>)
    ensures r.Some? <==> MonthKey(s) in MonthAbbrevs
    ensures r.Some? ==> 1 <= r.value <= 12 && MonthAbbrevs[r.value - 1] == MonthKey(s)
  {
    match IndexIn(MonthKey(s), MonthAbbrevs)
    case None => None
    case Some(i) => Some(i + 1)
  }

  /** A two-digit year is read as 20yy. */
  function Century(y: int): int
  {
    if y < 100 then y + 2000 else y
  }

  /** `[A-Za-z]{3}\s+\d{1,2},?\s+\d{4}` */
  const NamedDateText: seq<Piece> :=
    [Times(Letter, 3, 3), Plus(Space), Times(Digit, 1, 2), Opt(OneOf(",")), Plus(Space), Times(Digit, 4, 4)]

  /** `\d{1,2}/\d{1,2}/\d{2,4}`, ungrouped. */
  const SlashDateText: seq<Piece> := [Times(Digit, 1, 2), Lit("/"), Times(Digit, 1, 2), Lit("/"), Times(Digit, 2, 4)]

  /** The slash form of the bank parsers' date readers, split at '/': "M/D" in the statement year, "M/D/Y" with a two-digit year
      in the 2000s; any other number of parts, or a part that is not a number, gives None. */
  function DateOfParts(parts: seq<string>, year: int): (r: Option<Date>)
    ensures r.Some? ==> Valid(r.value)
  {
    if |parts| == 2 then
      var m := ParseInt(parts[0]);
      var d := ParseInt(parts[1]);
      if m.None? || d.None? then None else MakeDate(year, m.value, d.value)
    else if |parts| == 3 then
      var m := ParseInt(parts[0]);
      var d := ParseInt(parts[1]);
      var y := ParseInt(parts[2]);
      if m.None? || d.None? || y.None? then None else MakeDate(Century(y.value), m.value, d.value)
    else None
  }

  predicate IsNumber(s: string)
  {
    s != [] && AllDigits(s)
  }

  /** The month-name form of the bank parsers' date readers, split at white space: "Mon D" in the statement year. */
  function DateOfWords(parts: seq<string>, year: int): (r: Option<Date>)
    ensures r.Some? ==> Valid(r.value)
  {
    if |parts| == 2 then
      match MonthOfName(parts[0])
      case None => None
      case Some(m) =>
        var d := ParseInt(parts[1]);
        if d.None? then None else MakeDate(year, m, d.value)
    else None
  }

  /** "Mon D" splits into its two words, has no '/', and names the month by its first three letters. */
  lemma SplitWords(mon: string, d: string)
    requires IsWord(mon) && IsNumber(d) && '/' !in mon
    ensures '/' !in mon + " " + d && Words(mon + " " + d) == [mon, d]
    ensures forall year :: (DateOfWords([mon, d], year)
      == if MonthOfName(mon).None? then None else MakeDate(year, MonthOfName(mon).value, DigitsValue(d)))
  {
    var s := mon + " " + d;
    assert IsWord(d) by { assert forall j :: 0 <= j < |d| ==> IsDigit(d[j]); }
    WordsOfTwo(mon, d);
    forall j | 0 <= j < |s|
      ensures s[j] != '/'
    {
      if j < |mon| { assert s[j] == mon[j]; }
      else if j > |mon| { assert s[j] == d[j - |mon| - 1]; }
    }
    assert '/' !in s;
    assert ParseInt(d) == Some(DigitsValue(d));
  }

  /** Two numbers are the month and day in the statement year. */
  lemma DateOfTwo(m: string, d: string, year: int)
    requires IsNumber(m) && IsNumber(d)
    ensures DateOfParts([m, d], year) == MakeDate(year, DigitsValue(m), DigitsValue(d))
  {
    assert ParseInt(m) == Some(DigitsValue(m)) && ParseInt(d) == Some(DigitsValue(d));
  }

  /** Three numbers are month, day and year, a two-digit year read in the 2000s. */
  lemma DateOfThree(m: string, d: string, y: string, year: int)
    requires IsNumber(m) && IsNumber(d) && IsNumber(y)
    ensures DateOfParts([m, d, y], year) == MakeDate(Century(DigitsValue(y)), DigitsValue(m), DigitsValue(d))
  {
    var parts := [m, d, y];
    assert parts[0] == m && parts[1] == d && parts[2] == y;
    assert ParseInt(m) == Some(DigitsValue(m)) && ParseInt(d) == Some(DigitsValue(d)) && ParseInt(y) == Some(DigitsValue(y));
  }

  /** "M/D" splits into its two numbers. */
  lemma SplitTwo(m: string, d: string)
    requires '/' !in m && '/' !in d
    ensures Split(m + "/" + d, '/') == [m, d] && '/' in m + "/" + d
  {
    SplitAt(m, d, '/');
    SplitNone(d, '/');
    assert (m + "/" + d)[|m|] == '/';
  }

  /** "M/D/Y" splits into its three numbers. */
  lemma SplitThree(m: string, d: string, y: string)
    requires '/' !in m && '/' !in d && '/' !in y
    ensures Split(m + "/" + d + "/" + y, '/') == [m, d, y] && '/' in m + "/" + d + "/" + y
  {
    var tail := d + "/" + y;
    assert m + "/" + d + "/" + y == m + "/" + tail;
    SplitAt(d, y, '/');
    SplitNone(y, '/');
    SplitAt(m, tail, '/');
    assert (m + "/" + d + "/" + y)[|m|] == '/';
  }

  /** The date the three groups of date pattern `k` stand for, if it exists. */
  function DateFromGroups(k: nat, g1: string, g2: string, g3: string): (r: Option<Date>)
    ensures r.Some? ==> Valid(r.value)
  {
    if k == 3 then
      match MonthOfName(g1)
      case None => None
      case Some(m) =>
        var d := ParseInt(g2);
        var y := ParseInt(g3);
        if d.None? || y.None? then None else MakeDate(Century(y.value), m, d.value)
    else
      var a := ParseInt(g1);
      var b := ParseInt(g2);
      var c := ParseInt(g3);
      if a.None? || b.None? || c.None? then None
      else if k == 2 then MakeDate(Century(a.value), b.value, c.value)
      else MakeDate(Century(c.value), a.value, b.value)
  }

  /** What date pattern `k` makes of its first match in `line`. */
  function DateCandidate(k: nat, line: string): (r: Option<Date>)
    requires k < DateCount
    ensures r.Some? ==> Valid(r.value)
  {
    match Search(DatePatterns[k], line)
    case None => None
    case Some(mt) =>
      var g1 := Capture(mt, line, 1);
      var g2 := Capture(mt, line, 2);
      var g3 := Capture(mt, line, 3);
      if g1.None? || g2.None? || g3.None? then None
      else DateFromGroups(k, g1.value, g2.value, g3.value)
  }

  /** `_extract_date` from the `k`-th pattern on: the first pattern whose first match is a real date. */
  function ExtractDateFrom(line: string, k: nat): (r: Option<Date>)
    requires k <= DateCount
    ensures r.Some? ==> Valid(r.value)
    ensures r.Some? ==> exists j :: (k <= j < DateCount && DateCandidate(j, line) == r
      && forall i :: k <= i < j ==> DateCandidate(i, line).None?)
    ensures r.None? <==> forall j :: k <= j < DateCount ==> DateCandidate(j, line).None?
    decreases DateCount - k
  {
    if k == DateCount then None
    else match DateCandidate(k, line)
      case Some(d) => Some(d)
      case None => ExtractDateFrom(line, k + 1)
  }

  function ExtractDate(line: string): (r: Option<Date>)
    ensures r.Some? ==> Valid(r.value)
  {
    ExtractDateFrom(line, 0)
  }

  /** The numeric patterns read month, day, year except the year-first one; a year below 100
      gains 2000; letters must name a month. */
  lemma DateGroupsOrder(g1: string, g2: string, g3: string, a: nat, b: nat, c: nat)
    requires ParseInt(g1) == Some(a) && ParseInt(g2) == Some(b) && ParseInt(g3) == Some(c)
    ensures DateFromGroups(0, g1, g2, g3) == MakeDate(if c < 100 then c + 2000 else c, a, b)
    ensures DateFromGroups(1, g1, g2, g3) == MakeDate(if c < 100 then c + 2000 else c, a, b)
    ensures DateFromGroups(2, g1, g2, g3) == MakeDate(if a < 100 then a + 2000 else a, b, c)
    ensures DateFromGroups(3, g1, g2, g3).Some? ==> MonthOfName(g1).Some?
  {
  }

  // -------------------------------------------------------------- amounts

  /** `[0-9,]+\.?\d{0,2}` */
  const AmountNumber: seq<Piece> := [Plus(OneOf("0123456789,")), Opt(OneOf(".")), Times(Digit, 0, 2)]

  /** `\$?\s*([0-9,]+\.?\d{0,2})\s*(?:CR|DB)?` */
  const AmountWithCode: Regex :=
    Ci([Opt(OneOf("$")), Star(Space)] + Grp(1, AmountNumber)
       + [Star(Space), Group([Branch([Lit("CR")]), Branch([Lit("DB")])], true)])

  /** `([0-9,]+\.?\d{0,2})\s*\$?` */
  const AmountTrailingDollar: Regex := Ci(Grp(1, AmountNumber) + [Star(Space), Opt(OneOf("$"))])

  /** `\$\s*([0-9,]+\.?\d{0,2})` */
  const AmountLeadingDollar: Regex := Ci([Lit("$"), Star(Space)] + Grp(1, AmountNumber))

  const AmountPatterns: seq<Regex> := [AmountWithCode, AmountTrailingDollar, AmountLeadingDollar]
  const AmountCount: nat := 3

  /** `float(s.replace(',', ''))`, None where Python raises. */
  function ToAmount(s: string): Option<real>
  {
    ParseFloat(Replace(s, ",", ""))
  }

  lemma ToAmountNoMinus(s: string)
    requires '-' !in s && ToAmount(s).Some?
    ensures ToAmount(s).value >= 0.0
  {
    ReplaceKeepsOut(s, ",", "", '-');
    ParseFloatNoMinus(Replace(s, ",", ""));
  }

  /** The last `findall` result of amount pattern `k`, converted. */
  function AmountCandidate(k: nat, line: string): Option<real>
    requires k < AmountCount
  {
    var gs := FindAllGroup(AmountPatterns[k], line, 1);
    if gs == [] then None else ToAmount(gs[|gs| - 1])
  }

  /** The first amount pattern, from the `k`-th on, whose last match converts. */
  function ExtractAmountFrom(line: string, k: nat): (r: Option<real>)
    requires k <= AmountCount
    ensures r.Some? ==> exists j :: (k <= j < AmountCount && AmountCandidate(j, line) == r
      && forall i :: k <= i < j ==> AmountCandidate(i, line).None?)
    ensures r.None? <==> forall j :: k <= j < AmountCount ==> AmountCandidate(j, line).None?
    decreases AmountCount - k
  {
    if k == AmountCount then None
    else match AmountCandidate(k, line)
      case Some(a) => Some(a)
      case None => ExtractAmountFrom(line, k + 1)
  }

  /** `'CR' in line.upper() or line.count('-') > 0` */
  predicate IsCreditLine(line: string)
  {
    Contains(Upper(line), "CR") || '-' in line
  }

  datatype AmountResult = AmountResult(amount: Option<real>, isCredit: bool)

  /** `_extract_amount`: the amount with the credit flag, or `(None, False)`. */
  function ExtractAmount(line: string): (r: AmountResult)
    ensures r.amount.None? <==> forall j :: 0 <= j < AmountCount ==> AmountCandidate(j, line).None?
    ensures r.amount.Some? ==> exists j :: (0 <= j < AmountCount && AmountCandidate(j, line) == r.amount
      && forall i :: 0 <= i < j ==> AmountCandidate(i, line).None?)
    ensures r.isCredit <==> r.amount.Some? && IsCreditLine(line)
  {
    var a := ExtractAmountFrom(line, 0);
    if a.None? then AmountResult(None, false) else AmountResult(a, IsCreditLine(line))
  }

  // ---------------------------------------------------------- descriptions

  const CrNoise: Regex := Ci([Star(Space), Lit("CR"), Star(Space)])
  const DbNoise: Regex := Ci([Star(Space), Lit("DB"), Star(Space)])

  /** The noise removal that ends `_extract_description`: CR and DB markers with their
      surrounding white space, dollar signs, runs of white space, then the outer strip. */
  function Tidy(s: string): (r: string)
    ensures r == Strip(r) && SingleSpaced(r) && '$' !in r
  {
    var noDollar := Replace(Sub(DbNoise, Sub(CrNoise, s, ""), ""), "$", "");
    ReplaceCharByNothing(Sub(DbNoise, Sub(CrNoise, s, ""), ""), '$');
    var collapsed := CollapseSpaces(noDollar);
    CollapseKeepsOut(noDollar, '$');
    StripSlice(collapsed);
    StripIdempotent(collapsed);
    Strip(collapsed)
  }

  /** What `_extract_description` leaves of a line. */
  function DescriptionOf(line: string): (r: string)
    ensures r == Strip(r) && SingleSpaced(r) && '$' !in r
  {
    Tidy(SubEach(AmountPatterns, SubEach(DatePatterns, line)))
  }

  /** `_extract_description`: the date and amount patterns are removed one after the other,
      then the noise. */
  method ExtractDescription(line: string) returns (description: string)
    ensures description == DescriptionOf(line)
  {
    description := line;
    var i := 0;
    while i < |DatePatterns|
      invariant 0 <= i <= |DatePatterns|
      invariant description == SubEach(DatePatterns[..i], line)
    {
      assert DatePatterns[..i + 1][..i] == DatePatterns[..i];
      description := Sub(DatePatterns[i], description, "");
      i := i + 1;
    }
    assert DatePatterns[..i] == DatePatterns;
    var afterDates := description;
    var j := 0;
    while j < |AmountPatterns|
      invariant 0 <= j <= |AmountPatterns|
      invariant description == SubEach(AmountPatterns[..j], afterDates)
    {
      assert AmountPatterns[..j + 1][..j] == AmountPatterns[..j];
      description := Sub(AmountPatterns[j], description, "");
      j := j + 1;
    }
    assert AmountPatterns[..j] == AmountPatterns;
    description := Sub(CrNoise, description, "");
    description := Sub(DbNoise, description, "");
    description := Replace(description, "$", "");
    description := CollapseSpaces(description);
    description := Strip(description);
  }

  // -------------------------------------------------------- classification

  /** The types the keyword table can choose, in the order they are tried. */
  const TypeOrder: seq<TransactionType> := [Payment, Fee, Interest, CashAdvance, Credit]

  const PaymentKeywords: seq<Regex> :=
    [Ci(Spaced1(["payment", "thank", "you"])), Ci([Lit("autopay")]),
     Ci(Spaced1(["online", "payment"])), Ci(Spaced1(["payment", "received"]))]
  const FeeKeywords: seq<Regex> :=
    [Ci([Lit("fee")]), Ci([Lit("charge")]), Ci(Spaced1(["annual", "fee"])),
     Ci(Spaced1(["late", "fee"])), Ci(Spaced1(["foreign", "transaction"]))]
  const InterestKeywords: seq<Regex> :=
    [Ci([Lit("interest")]), Ci(Spaced1(["finance", "charge"])), Ci([Lit("apr")])]
  const CashAdvanceKeywords: seq<Regex> :=
    [Ci(Spaced1(["cash", "advance"])), Ci([Lit("atm")]), Ci(Spaced1(["cash", "withdrawal"]))]
  const CreditKeywords: seq<Regex> :=
    [Ci([Lit("credit")]), Ci([Lit("refund")]), Ci([Lit("return")])]

  /** The keyword patterns of a type; the types outside the table have none. */
  function Keywords(t: TransactionType): seq<Regex>
  {
    match t
    case Payment => PaymentKeywords
    case Fee => FeeKeywords
    case Interest => InterestKeywords
    case CashAdvance => CashAdvanceKeywords
    case Credit => CreditKeywords
    case _ => []
  }

  /** Some keyword pattern of `t` occurs in the description. */
  predicate HasKeyword(t: TransactionType, desc: string)
  {
    AnyHit(Keywords(t), desc, false)
  }

  /** `_classify_transaction_type` from the `k`-th type of the table on. */
  function ClassifyFrom(desc: string, k: nat): (r: TransactionType)
    requires k <= |TypeOrder|
    ensures r == Purchase <==> forall j :: k <= j < |TypeOrder| ==> !HasKeyword(TypeOrder[j], desc)
    ensures r != Purchase ==> exists j :: (k <= j < |TypeOrder| && TypeOrder[j] == r
      && HasKeyword(r, desc) && forall i :: k <= i < j ==> !HasKeyword(TypeOrder[i], desc))
    decreases |TypeOrder| - k
  {
    if k == |TypeOrder| then Purchase
    else if HasKeyword(TypeOrder[k], desc) then TypeOrder[k]
    else ClassifyFrom(desc, k + 1)
  }

  /** The first type of the table whose keywords occur in the description, else purchase;
      transfer and other are never chosen. */
  function Classify(desc: string): (r: TransactionType)
    ensures r == Purchase <==> forall j :: 0 <= j < |TypeOrder| ==> !HasKeyword(TypeOrder[j], desc)
    ensures r != Purchase ==> exists j :: (0 <= j < |TypeOrder| && TypeOrder[j] == r
      && HasKeyword(r, desc) && forall i :: 0 <= i < j ==> !HasKeyword(TypeOrder[i], desc))
    ensures r != Transfer && r != Other
  {
    ClassifyFrom(desc, 0)
  }

  // -------------------------------------------------------- lines to skip

  /** The skip patterns `^Word...`: the word and what follows it. */
  const PrefixRules: seq<(string, seq<Piece>)> := [
    ("Page", [Plus(Space), Plus(Digit)]),
    ("Statement", [Plus(Space), Lit("Date")]),
    ("Account", [Plus(Space), Lit("Number")]),
    ("Total", [Plus(Space)]),
    ("Balance", [Plus(Space)]),
    ("Previous", [Plus(Space), Lit("Balance")]),
    ("New", [Plus(Space), Lit("Balance")])]

  /** `^` then the word then the rest, case-insensitive. */
  function Prefixed(rule: (string, seq<Piece>)): Regex
  {
    Ci([Bol, Lit(rule.0)] + rule.1)
  }

  /** The skip patterns for blank lines and rules of dashes or equals signs. */
  const RuleLines: seq<Regex> := [
    Ci([Bol, Star(Space), Eol]),
    Ci([Bol, Plus(OneOf("-")), Star(Space), Eol]),
    Ci([Bol, Plus(OneOf("=")), Star(Space), Eol])]

  const BaseIgnorePatterns: seq<Regex> :=
    [Prefixed(PrefixRules[0]), Prefixed(PrefixRules[1]), Prefixed(PrefixRules[2]), Prefixed(PrefixRules[3]),
     Prefixed(PrefixRules[4]), Prefixed(PrefixRules[5]), Prefixed(PrefixRules[6])] + RuleLines

  /** `_should_ignore_line`: some skip pattern matches at the start of the line. */
  predicate ShouldIgnore(line: string)
  {
    AnyHit(BaseIgnorePatterns, line, true)
  }

  /** A line matched by a `^Word...` pattern begins, in any case, with that word. */
  lemma PrefixedHit(rule: (string, seq<Piece>), line: string)
    requires Hits(Prefixed(rule), line, true)
    ensures LitAt(rule.0, line, 0, true)
  {
    MatchStartLiteral(rule.0, rule.1, line, true);
  }

  /** A line skipped by one of the word patterns begins, in any case, with that word. */
  lemma IgnoredByPrefix(line: string, k: nat)
    requires k < |PrefixRules| && Hits(BaseIgnorePatterns[k], line, true)
    ensures LitAt(PrefixRules[k].0, line, 0, true)
  {
    assert BaseIgnorePatterns[k] == Prefixed(PrefixRules[k]);
    PrefixedHit(PrefixRules[k], line);
  }

  /** The text a line must begin with, in any case, for a rule made of words and `\s+` to match
      it: the words with one blank for each `\s+`. None for a rule that asks for digits. */
  function Heading(rule: (string, seq<Piece>)): (r: Option<string>)
    ensures r.Some? <==> SpacedText(rule.1).Some?
    ensures r.Some? ==> r.value == rule.0 + SpacedText(rule.1).value
  {
    match SpacedText(rule.1)
    case None => None
    case Some(t) => Some(rule.0 + t)
  }

  /** A line that begins, in any case, with a rule's heading is matched by the rule. */
  lemma HeadingHit(rule: (string, seq<Piece>), line: string)
    requires Heading(rule).Some? && LitAt(Heading(rule).value, line, 0, true)
    ensures Hits(Prefixed(rule), line, true)
  {
    LeadTextMatches(rule.0, rule.1, line, true);
  }

  /** A rule that is a bare word matches exactly the lines that begin with the word, in any case. */
  lemma WordHitIff(rule: (string, seq<Piece>), line: string)
    requires rule.1 == []
    ensures Hits(Prefixed(rule), line, true) <==> LitAt(rule.0, line, 0, true)
  {
    if LitAt(rule.0, line, 0, true) {
      assert Heading(rule) == Some(rule.0 + "");
      assert rule.0 + "" == rule.0;
      HeadingHit(rule, line);
    } else if Hits(Prefixed(rule), line, true) {
      PrefixedHit(rule, line);
    }
  }

  /** A line that begins, in any case, with one of the literal headings (Statement Date,
      Account Number, Total, Balance, Previous Balance, New Balance) is skipped. */
  lemma HeadingIgnored(line: string, k: nat)
    requires k < |PrefixRules| && Heading(PrefixRules[k]).Some?
    requires LitAt(Heading(PrefixRules[k]).value, line, 0, true)
    ensures ShouldIgnore(line)
  {
    HeadingHit(PrefixRules[k], line);
    assert BaseIgnorePatterns[k] == Prefixed(PrefixRules[k]);
    assert Hits(BaseIgnorePatterns[k], line, true);
  }

  /** For instance, "STATEMENT DATE: 01/31/2024" is skipped: its first fourteen characters
      are "Statement Date" up to case. */
  lemma StatementDateIgnored(line: string)
    requires LitAt("Statement Date", line, 0, true)
    ensures ShouldIgnore(line)
  {
    SpacedWord("Date");
    assert Heading(PrefixRules[1]).value == "Statement Date";
    HeadingIgnored(line, 1);
  }

  // ------------------------------------------------------ keyword tables

  /** The bank parsers' classifiers: the type of the first row, from the `k`-th on, one of whose
      keywords occurs in `text`, else purchase. */
  function KeywordTypeFrom(table: seq<(TransactionType, seq<string>)>, text: string, k: nat): (r: TransactionType)
    requires k <= |table|
    ensures (r == Purchase && forall j :: k <= j < |table| ==> !ContainsAny(text, table[j].1))
      || exists j :: (k <= j < |table| && ContainsAny(text, table[j].1) && r == table[j].0
           && forall i :: k <= i < j ==> !ContainsAny(text, table[i].1))
    decreases |table| - k
  {
    if k == |table| then Purchase
    else if ContainsAny(text, table[k].1) then table[k].0
    else KeywordTypeFrom(table, text, k + 1)
  }

  function KeywordType(table: seq<(TransactionType, seq<string>)>, text: string): (r: TransactionType)
    ensures (r == Purchase && forall j :: 0 <= j < |table| ==> !ContainsAny(text, table[j].1))
      || exists j :: (0 <= j < |table| && ContainsAny(text, table[j].1) && r == table[j].0
           && forall i :: 0 <= i < j ==> !ContainsAny(text, table[i].1))
  {
    KeywordTypeFrom(table, text, 0)
  }

  /** A keyword of the first row decides, whatever else the text contains. */
  lemma KeywordTypeFirstRow(table: seq<(TransactionType, seq<string>)>, text: string, w: string)
    requires table != [] && w in table[0].1 && Contains(text, w)
    ensures KeywordType(table, text) == table[0].0
  {
    var i :| 0 <= i < |table[0].1| && table[0].1[i] == w;
    assert ContainsAny(text, table[0].1);
  }

  /** Python's `value or default` on an optional string: absent or empty gives the default. */
  function OrElse(v: Option<string>, default: string): (r: string)
    ensures v.Some? && v.value != [] ==> r == v.value
    ensures (v.None? || v.value == []) ==> r == default
  {
    if v.None? || v.value == [] then default else v.value
  }

  // --------------------------------------------------------- year tokens

  /** `20\d{2}` */
  const YearToken: Regex := Pattern([Lit("20"), Times(Digit, 2, 2)], false)

  predicate IsYearToken(t: string)
  {
    |t| == 4 && t[0] == '2' && t[1] == '0' && IsDigit(t[2]) && IsDigit(t[3])
  }

  /** `int(t)` of a year token. */
  function YearValue(t: string): (y: int)
    requires IsYearToken(t)
    ensures 2000 <= y <= 2099
    ensures ParseInt(t) == Some(y)
  {
    var a, b, c := t[..1], t[..2], t[..3];
    assert a[..0] == [] && DigitsValue(a) == 2;
    assert b[..1] == a && DigitsValue(b) == 20;
    assert c[..2] == b && DigitsValue(c) == 200 + DigitValue(t[2]);
    assert t[..3] == c && DigitsValue(t) == 2000 + DigitValue(t[2]) * 10 + DigitValue(t[3]);
    DigitsValue(t)
  }

  /** A match of the year pattern is four characters long, `20` and two digits. */
  lemma YearMatchAt(s: string, i: nat)
    requires i <= |s| && MatchAltsAt(YearToken.alts, s, i, false).Some?
    ensures var h := MatchAltsAt(YearToken.alts, s, i, false).value;
      h.end == i + 4 && IsYearToken(s[i..i + 4])
  {
    var ps := [Lit("20"), Times(Digit, 2, 2)];
    assert YearToken.alts == [Branch(ps)];
    assert [Branch(ps)][1..] == [];
    var h := MatchAt(ps, s, i, map[], false);
    assert h.Some?;
    assert ps[0] == Lit("20") && ps[1..] == [Times(Digit, 2, 2)] && ps[1..][1..] == [];
    assert LitAt("20", s, i, false);
    var n := RunLen(Digit, s, i + 2, false, 2);
    assert n == 2;
    assert CharEq(s[i + 0], "20"[0], false) && CharEq(s[i + 1], "20"[1], false);
    assert s[i..i + 4][0] == s[i] == '2' && s[i..i + 4][1] == s[i + 1] == '0';
    assert s[i..i + 4][2] == s[i + 2] && s[i..i + 4][3] == s[i + 3];
  }

  lemma {:induction false} YearSearchFrom(s: string, from: nat)
    requires from <= |s| && SearchFrom(YearToken, s, from).Some?
    ensures var mt := SearchFrom(YearToken, s, from).value;
      mt.end == mt.start + 4 && IsYearToken(s[mt.start..mt.end])
    decreases |s| - from
  {
    if MatchAltsAt(YearToken.alts, s, from, false).Some? {
      YearMatchAt(s, from);
    } else {
      YearSearchFrom(s, from + 1);
    }
  }

  lemma {:induction false} YearFindAllFrom(s: string, from: nat)
    requires from <= |s|
    ensures forall k :: 0 <= k < |FindAllFrom(YearToken, s, from)| ==>
      FindAllFrom(YearToken, s, from)[k].end == FindAllFrom(YearToken, s, from)[k].start + 4
      && IsYearToken(s[FindAllFrom(YearToken, s, from)[k].start..FindAllFrom(YearToken, s, from)[k].end])
    decreases |s| - from
  {
    var ms := FindAllFrom(YearToken, s, from);
    if ms != [] {
      YearSearchFrom(s, from);
      var mt := SearchFrom(YearToken, s, from).value;
      if Resume(mt) <= |s| {
        YearFindAllFrom(s, Resume(mt));
        assert ms == [mt] + FindAllFrom(YearToken, s, Resume(mt));
      }
    }
  }

  /** `re.findall(r'20\d{2}', text)` */
  function YearTokens(text: string): (r: seq<string>)
    ensures forall k :: 0 <= k < |r| ==> IsYearToken(r[k])
  {
    YearFindAllFrom(text, 0);
    FindAllGroup(YearToken, text, 0)
  }

  /** The year of `re.search(r'20\d{2}', line)`, if there is one. */
  function FirstYearIn(line: string): (r: Option<int>)
    ensures r.Some? ==> 2000 <= r.value <= 2099
    ensures r.None? <==> !Found(YearToken, line)
  {
    match Search(YearToken, line)
    case None => None
    case Some(mt) =>
      YearSearchFrom(line, 0);
      Some(YearValue(line[mt.start..mt.end]))
  }

  /** The statement-year scan of the Chase and Amex parsers: the year in the first line that has one,
      else 2024. */
  function FirstYear(lines: seq<string>): (y: int)
    ensures 2000 <= y <= 2099
    ensures (forall i :: 0 <= i < |lines| ==> FirstYearIn(lines[i]).None?) ==> y == 2024
    ensures forall i :: (0 <= i < |lines| && FirstYearIn(lines[i]).Some?
      && (forall j :: 0 <= j < i ==> FirstYearIn(lines[j]).None?)) ==> y == FirstYearIn(lines[i]).value
  {
    if lines == [] then 2024
    else match FirstYearIn(lines[0])
      case Some(y) => y
      case None =>
        var y := FirstYear(lines[1..]);
        assert forall i :: 1 <= i < |lines| ==> lines[i] == lines[1..][i - 1];
        y
  }

  /** The year scan loop: stop at the first line with a year token, else 2024. */
  method ScanYear(lines: seq<string>) returns (year: int)
    ensures year == FirstYear(lines)
  {
    year := 2024;
    var i := 0;
    while i < |lines|
      invariant 0 <= i <= |lines|
      invariant year == 2024
      invariant FirstYear(lines) == FirstYear(lines[i..])
    {
      var found := FirstYearIn(lines[i]);
      assert lines[i..][0] == lines[i];
      if found.Some? {
        year := found.value;
        return;
      }
      assert lines[i..][1..] == lines[i + 1..];
      i := i + 1;
    }
    assert lines[i..] == [];
  }

  // ------------------------------------------------------------ one line

  /** Credits are negative and debits positive. */
  function Signed(a: real, negative: bool): (r: real)
    ensures negative ==> r <= 0.0 && r == -Abs(a)
    ensures !negative ==> r >= 0.0 && r == Abs(a)
  {
    if negative then -Abs(a) else Abs(a)
  }

  /** The bank parsers' `if is_credit: amount = -abs(amount)`. */
  function CreditAdjusted(a: real, credit: bool): (r: real)
    ensures credit ==> r == -Abs(a) && r <= 0.0
    ensures !credit ==> r == a
  {
    if credit then -Abs(a) else a
  }

  /** What the bank parsers build from a layout's date, description and converted amount: the
      amount made `-abs(amount)` by the parser's credit test, then the record's validators. */
  function LayoutTransaction(d: Date, description: string, a: real, credit: bool, tt: TransactionType,
                             reference: Option<string>): (t: Transaction)
    requires Valid(d)
    ensures WellFormed(t) && t.date == d && t.description == Strip(description) && t.ttype == tt
    ensures t.category.None? && t.reference == reference
    ensures t.amount == ValidateAmount(CreditAdjusted(a, credit))
    ensures credit ==> t.amount <= 0.0
    ensures !credit && a >= 0.0 ==> t.amount >= 0.0
  {
    var amount := CreditAdjusted(a, credit);
    ValidateAmountSign(amount);
    NewTransaction(d, description, amount, tt, None, reference)
  }

  /** `_parse_transaction_line`. */
  function ParseTransactionLine(line: string): (r: Option<Transaction>)
    ensures r.Some? ==> WellFormed(r.value)
  {
    match ExtractDate(line)
    case None => None
    case Some(d) =>
      var ah := ExtractAmount(line);
      if ah.amount.None? then None
      else
        var desc := DescriptionOf(line);
        if IsBlank(desc) then None
        else
          var tt := Classify(desc);
          Some(NewTransaction(d, desc, Signed(ah.amount.value, ah.isCredit || tt == Payment || tt == Credit), tt, None, None))
  }

  /** A line gives a transaction exactly when it has a date, an amount and a non-blank description. */
  lemma ParseLineDefined(line: string)
    ensures ParseTransactionLine(line).Some? <==>
      ExtractDate(line).Some? && ExtractAmount(line).amount.Some? && !IsBlank(DescriptionOf(line))
  {
  }

  /** The amount of a transaction built from `a`: the sign the rule asks for and the magnitude of `a`
      to the cent. */
  lemma SignedTransaction(d: Date, desc: string, a: real, negative: bool, tt: TransactionType)
    requires Valid(d)
    ensures var t := NewTransaction(d, desc, Signed(a, negative), tt, None, None);
      && (negative ==> t.amount <= 0.0)
      && (!negative ==> t.amount >= 0.0)
      && -0.005 <= Abs(t.amount) - Abs(a) <= 0.005
  {
    var v := Signed(a, negative);
    ValidateAmountSign(v);
  }

  /** The transaction's fields: the line's date and description, the type of the description,
      no category or reference, and the amount's magnitude with the credit sign rule. */
  lemma ParseLineFields(line: string)
    requires ParseTransactionLine(line).Some?
    ensures ExtractDate(line).Some? && ExtractAmount(line).amount.Some?
    ensures var t := ParseTransactionLine(line).value;
      var a := ExtractAmount(line);
      var negative := a.isCredit || t.ttype == Payment || t.ttype == Credit;
      && t.date == ExtractDate(line).value
      && t.description == DescriptionOf(line)
      && t.ttype == Classify(DescriptionOf(line))
      && t.category.None? && t.reference.None?
      && (negative ==> t.amount <= 0.0)
      && (!negative ==> t.amount >= 0.0)
      && -0.005 <= Abs(t.amount) - Abs(a.amount.value) <= 0.005
  {
    var d := ExtractDate(line).value;
    var a := ExtractAmount(line);
    var desc := DescriptionOf(line);
    var tt := Classify(desc);
    var negative := a.isCredit || tt == Payment || tt == Credit;
    assert ParseTransactionLine(line) == Some(NewTransaction(d, desc, Signed(a.amount.value, negative), tt, None, None));
    SignedTransaction(d, desc, a.amount.value, negative, tt);
  }

  // ------------------------------------------------------------- the loop

  /** What one raw line contributes: nothing if it is blank or skipped after stripping,
      otherwise the parser's result on the stripped line. */
  function LineResult(line: string, ignore: string -> bool, parse: string -> Option<Transaction>): seq<Transaction>
  {
    var l := Strip(line);
    if l == [] || ignore(l) then []
    else match parse(l)
      case None => []
      case Some(t) => [t]
  }

  /** The transactions an `extract_transactions` loop collects from `lines`, in line order. */
  function Collect(lines: seq<string>, ignore: string -> bool, parse: string -> Option<Transaction>): seq<Transaction>
  {
    if lines == [] then []
    else Collect(lines[..|lines| - 1], ignore, parse) + LineResult(lines[|lines| - 1], ignore, parse)
  }

  lemma {:induction false} CollectAppend(a: seq<string>, b: seq<string>, ignore: string -> bool, parse: string -> Option<Transaction>)
    ensures Collect(a + b, ignore, parse) == Collect(a, ignore, parse) + Collect(b, ignore, parse)
    decreases |b|
  {
    if b == [] {
      assert a + b == a;
    } else {
      assert (a + b)[..|a + b| - 1] == a + b[..|b| - 1];
      CollectAppend(a, b[..|b| - 1], ignore, parse);
    }
  }

  /** At most one transaction per line, and each comes from a non-blank, non-skipped line. */
  lemma {:induction false} CollectSources(lines: seq<string>, ignore: string -> bool, parse: string -> Option<Transaction>)
    ensures |Collect(lines, ignore, parse)| <= |lines|
    ensures forall t :: t in Collect(lines, ignore, parse) ==>
      exists i :: 0 <= i < |lines| && Strip(lines[i]) != [] && !ignore(Strip(lines[i])) && parse(Strip(lines[i])) == Some(t)
  {
    if lines != [] {
      var init := lines[..|lines| - 1];
      CollectSources(init, ignore, parse);
      forall t | t in Collect(lines, ignore, parse)
        ensures exists i :: 0 <= i < |lines| && Strip(lines[i]) != [] && !ignore(Strip(lines[i])) && parse(Strip(lines[i])) == Some(t)
      {
        if t in Collect(init, ignore, parse) {
          var i :| 0 <= i < |init| && Strip(init[i]) != [] && !ignore(Strip(init[i])) && parse(Strip(init[i])) == Some(t);
          assert lines[i] == init[i];
        } else {
          assert t in LineResult(lines[|lines| - 1], ignore, parse);
        }
      }
    }
  }

  lemma CollectOne(line: string, ignore: string -> bool, parse: string -> Option<Transaction>)
    ensures Collect([line], ignore, parse) == LineResult(line, ignore, parse)
  {
    assert [line][..0] == [];
  }

  /** Blank and skipped lines contribute nothing, wherever they stand. */
  lemma SkippedLineAddsNothing(before: seq<string>, line: string, after: seq<string>, ignore: string -> bool, parse: string -> Option<Transaction>)
    requires Strip(line) == [] || ignore(Strip(line))
    ensures Collect(before + [line] + after, ignore, parse) == Collect(before + after, ignore, parse)
  {
    var withLine := before + [line];
    CollectAppend(withLine, after, ignore, parse);
    CollectAppend(before, [line], ignore, parse);
    CollectAppend(before, after, ignore, parse);
    CollectOne(line, ignore, parse);
    assert Collect(withLine, ignore, parse) == Collect(before, ignore, parse);
  }

  /** One more line of an `extract_transactions` loop adds what that line contributes. */
  lemma CollectStep(lines: seq<string>, i: nat, ignore: string -> bool, parse: string -> Option<Transaction>)
    requires i < |lines|
    ensures Collect(lines[..i + 1], ignore, parse) == Collect(lines[..i], ignore, parse) + LineResult(lines[i], ignore, parse)
  {
    assert lines[..i + 1][..i] == lines[..i];
  }

  /** A parser that only builds well-formed transactions collects only well-formed ones. */
  lemma {:induction false} CollectWellFormed(lines: seq<string>, ignore: string -> bool, parse: string -> Option<Transaction>)
    requires forall l :: parse(l).Some? ==> WellFormed(parse(l).value)
    ensures AllWellFormed(Collect(lines, ignore, parse))
  {
    if lines != [] {
      CollectWellFormed(lines[..|lines| - 1], ignore, parse);
    }
  }

  lemma ParseTransactionLineWellFormed()
    ensures forall l :: ParseTransactionLine(l).Some? ==> WellFormed(ParseTransactionLine(l).value)
  {
  }

  /** `extract_transactions` of the base parser: split on newlines, strip, skip, parse, append. */
  /** The loop every `extract_transactions` runs: each line stripped, blank and skipped lines
      passed over, the parser's transaction kept when there is one. */
  method CollectLines(lines: seq<string>, ignore: string -> bool, parse: string -> Option<Transaction>)
    returns (transactions: seq<Transaction>)
    ensures transactions == Collect(lines, ignore, parse)
  {
    transactions := [];
    var i := 0;
    while i < |lines|
      invariant 0 <= i <= |lines|
      invariant transactions == Collect(lines[..i], ignore, parse)
    {
      CollectStep(lines, i, ignore, parse);
      var line := Strip(lines[i]);
      if line != [] && !ignore(line) {
        var transaction := parse(line);
        if transaction.Some? {
          transactions := transactions + [transaction.value];
        }
      }
      i := i + 1;
    }
    assert lines[..i] == lines;
  }

  /** `extract_transactions` of the shared parser logic. */
  method ExtractTransactions(text: string) returns (transactions: seq<Transaction>)
    ensures transactions == Collect(Split(text, '\n'), ShouldIgnore, ParseTransactionLine)
  {
    transactions := CollectLines(Split(text, '\n'), ShouldIgnore, ParseTransactionLine);
  }

  // ----------------------------------------------------------- validation

  function ZeroCount(txs: seq<Transaction>): (n: nat)
    ensures n <= |txs|
  {
    if txs == [] then 0 else ZeroCount(txs[..|txs| - 1]) + (if txs[|txs| - 1].amount == 0.0 then 1 else 0)
  }

  /** The day numbers of the transaction dates, in order. */
  function DayNumbers(txs: seq<Transaction>): (r: seq<int>)
    requires AllWellFormed(txs)
    ensures |r| == |txs|
    ensures forall i :: 0 <= i < |txs| ==> r[i] == Ordinal(txs[i].date)
  {
    seq(|txs|, i requires 0 <= i < |txs| => Ordinal(txs[i].date))
  }

  function MaxOf(xs: seq<int>): int
    requires xs != []
  {
    if |xs| == 1 then xs[0]
    else
      var m := MaxOf(xs[..|xs| - 1]);
      if xs[|xs| - 1] > m then xs[|xs| - 1] else m
  }

  function MinOf(xs: seq<int>): int
    requires xs != []
  {
    if |xs| == 1 then xs[0]
    else
      var m := MinOf(xs[..|xs| - 1]);
      if xs[|xs| - 1] < m then xs[|xs| - 1] else m
  }

  /** The largest and smallest day numbers bound all of them, and each is one of them. */
  lemma {:induction false} ExtremesBound(xs: seq<int>)
    requires xs != []
    ensures forall i :: 0 <= i < |xs| ==> MinOf(xs) <= xs[i] <= MaxOf(xs)
    ensures MaxOf(xs) in xs && MinOf(xs) in xs
  {
    if |xs| > 1 {
      var init := xs[..|xs| - 1];
      ExtremesBound(init);
      assert forall i :: 0 <= i < |init| ==> xs[i] == init[i];
      assert MaxOf(init) in xs && MinOf(init) in xs;
    }
  }

  /** Days between the earliest and the latest transaction date. */
  function DateSpan(txs: seq<Transaction>): (n: nat)
    requires txs != [] && AllWellFormed(txs)
  {
    var xs := DayNumbers(txs);
    ExtremesBound(xs);
    MaxOf(xs) - MinOf(xs)
  }

  /** The span is the number of days from some transaction date to some other, and none is further apart. */
  lemma DateSpanIsWidest(txs: seq<Transaction>)
    requires txs != [] && AllWellFormed(txs)
    ensures exists i, j :: 0 <= i < |txs| && 0 <= j < |txs| && DaysBetween(txs[i].date, txs[j].date) == DateSpan(txs)
    ensures forall i, j :: 0 <= i < |txs| && 0 <= j < |txs| ==> DaysBetween(txs[i].date, txs[j].date) <= DateSpan(txs)
  {
    var xs := DayNumbers(txs);
    ExtremesBound(xs);
    var i :| 0 <= i < |xs| && xs[i] == MinOf(xs);
    var j :| 0 <= j < |xs| && xs[j] == MaxOf(xs);
    assert DaysBetween(txs[i].date, txs[j].date) == DateSpan(txs);
  }

  /** The kinds of warning `validate_parsed_data` raises. */
  datatype Warning = NoTransactions | NoPeriod | NoBalance | ManyZeros(count: nat) | WideSpan(days: nat)

  /** The text of each warning. */
  function Message(w: Warning): string
  {
    match w
    case NoTransactions => "No transactions found in statement"
    case NoPeriod => "Statement period not found"
    case NoBalance => "Account balance not found"
    case ManyZeros(n) => "High number of zero-amount transactions (" + NatToString(n) + ")"
    case WideSpan(n) => "Transaction date range seems large (" + NatToString(n) + " days)"
  }

  function Messages(ws: seq<Warning>): (r: seq<string>)
    ensures |r| == |ws|
  {
    if ws == [] then [] else Messages(ws[..|ws| - 1]) + [Message(ws[|ws| - 1])]
  }

  lemma MessagesSnoc(ws: seq<Warning>, w: Warning)
    ensures Messages(ws + [w]) == Messages(ws) + [Message(w)]
  {
    assert (ws + [w])[..|ws|] == ws;
  }

  /** More than a tenth of the transactions have a zero amount. */
  predicate TooManyZeros(txs: seq<Transaction>)
  {
    10 * ZeroCount(txs) > |txs|
  }

  predicate SpanTooLarge(txs: seq<Transaction>)
    requires AllWellFormed(txs)
  {
    txs != [] && DateSpan(txs) > 35
  }

  /** The warnings raised from the outcome of each check, in the order the checks run. */
  function WarningList(noTransactions: bool, noPeriod: bool, noBalance: bool, zeros: Option<nat>, span: Option<nat>): seq<Warning>
  {
    When(noTransactions, NoTransactions) + When(noPeriod, NoPeriod) + When(noBalance, NoBalance)
    + (if zeros.Some? then [ManyZeros(zeros.value)] else [])
    + (if span.Some? then [WideSpan(span.value)] else [])
  }

  /** The one warning `w` if its check failed, else nothing. */
  function When(failed: bool, w: Warning): seq<Warning>
  {
    if failed then [w] else []
  }

  /** The warnings of `validate_parsed_data`. */
  function Warnings(txs: seq<Transaction>, md: Metadata): seq<Warning>
    requires AllWellFormed(txs)
  {
    WarningList(txs == [], md.statementPeriod == [], md.balance == [],
                if TooManyZeros(txs) then Some(ZeroCount(txs)) else None,
                if SpanTooLarge(txs) then Some(DateSpan(txs)) else None)
  }

  /** Each check's warning is in the list exactly when the check fails, with the figure it reports. */
  lemma WarningListExactly(noTransactions: bool, noPeriod: bool, noBalance: bool, zeros: Option<nat>, span: Option<nat>)
    ensures var ws := WarningList(noTransactions, noPeriod, noBalance, zeros, span);
      && (NoTransactions in ws <==> noTransactions)
      && (NoPeriod in ws <==> noPeriod)
      && (NoBalance in ws <==> noBalance)
      && (forall n: nat :: ManyZeros(n) in ws <==> zeros == Some(n))
      && (forall n: nat :: WideSpan(n) in ws <==> span == Some(n))
      && |ws| <= 5
  {
    InWarningList(NoTransactions, noTransactions, noPeriod, noBalance, zeros, span);
    InWarningList(NoPeriod, noTransactions, noPeriod, noBalance, zeros, span);
    InWarningList(NoBalance, noTransactions, noPeriod, noBalance, zeros, span);
    forall n: nat ensures ManyZeros(n) in WarningList(noTransactions, noPeriod, noBalance, zeros, span) <==> zeros == Some(n) {
      InWarningList(ManyZeros(n), noTransactions, noPeriod, noBalance, zeros, span);
    }
    forall n: nat ensures WideSpan(n) in WarningList(noTransactions, noPeriod, noBalance, zeros, span) <==> span == Some(n) {
      InWarningList(WideSpan(n), noTransactions, noPeriod, noBalance, zeros, span);
    }
  }

  /** A warning is in the list exactly when it is the one a failed check raises. */
  lemma InWarningList(v: Warning, noTransactions: bool, noPeriod: bool, noBalance: bool, zeros: Option<nat>, span: Option<nat>)
    ensures v in WarningList(noTransactions, noPeriod, noBalance, zeros, span) <==>
      (noTransactions && v == NoTransactions) || (noPeriod && v == NoPeriod) || (noBalance && v == NoBalance)
      || (zeros.Some? && v == ManyZeros(zeros.value)) || (span.Some? && v == WideSpan(span.value))
  {
    var a := When(noTransactions, NoTransactions);
    var b := When(noPeriod, NoPeriod);
    var c := When(noBalance, NoBalance);
    var d: seq<Warning> := if zeros.Some? then [ManyZeros(zeros.value)] else [];
    var e: seq<Warning> := if span.Some? then [WideSpan(span.value)] else [];
    assert WarningList(noTransactions, noPeriod, noBalance, zeros, span) == a + b + c + d + e;
    assert v in a + b + c + d + e <==> v in a || v in b || v in c || v in d || v in e;
  }

  /** Each warning is raised exactly when its condition holds, with the figure it reports. */
  lemma WarningsExactly(txs: seq<Transaction>, md: Metadata)
    requires AllWellFormed(txs)
    ensures NoTransactions in Warnings(txs, md) <==> txs == []
    ensures NoPeriod in Warnings(txs, md) <==> md.statementPeriod == []
    ensures NoBalance in Warnings(txs, md) <==> md.balance == []
    ensures forall n :: ManyZeros(n) in Warnings(txs, md) <==> TooManyZeros(txs) && n == ZeroCount(txs)
    ensures forall n :: WideSpan(n) in Warnings(txs, md) <==> SpanTooLarge(txs) && n == DateSpan(txs)
    ensures |Warnings(txs, md)| <= 5
  {
    WarningListExactly(txs == [], md.statementPeriod == [], md.balance == [],
                       if TooManyZeros(txs) then Some(ZeroCount(txs)) else None,
                       if SpanTooLarge(txs) then Some(DateSpan(txs)) else None);
  }

  /** `sum(1 for t in transactions if t.amount == 0)` */
  method CountZeros(txs: seq<Transaction>) returns (zeros: nat)
    ensures zeros == ZeroCount(txs)
  {
    zeros := 0;
    var i := 0;
    while i < |txs|
      invariant 0 <= i <= |txs|
      invariant zeros == ZeroCount(txs[..i])
    {
      assert txs[..i + 1][..i] == txs[..i];
      if txs[i].amount == 0.0 {
        zeros := zeros + 1;
      }
      i := i + 1;
    }
    assert txs[..i] == txs;
  }

  /** `max(xs)` and `min(xs)`, found in one pass. */
  method Extremes(xs: seq<int>) returns (latest: int, earliest: int)
    requires xs != []
    ensures latest == MaxOf(xs) && earliest == MinOf(xs)
  {
    latest := xs[0];
    earliest := xs[0];
    var k := 1;
    while k < |xs|
      invariant 1 <= k <= |xs|
      invariant latest == MaxOf(xs[..k]) && earliest == MinOf(xs[..k])
    {
      assert xs[..k + 1][..k] == xs[..k];
      if xs[k] > latest {
        latest := xs[k];
      }
      if xs[k] < earliest {
        earliest := xs[k];
      }
      k := k + 1;
    }
    assert xs[..k] == xs;
  }

  /** `max(dates) - min(dates)` in days. */
  method DateRange(txs: seq<Transaction>) returns (days: int)
    requires txs != [] && AllWellFormed(txs)
    ensures days == DateSpan(txs)
  {
    var latest, earliest := Extremes(DayNumbers(txs));
    days := latest - earliest;
  }

  /** `validate_parsed_data`: the warnings are collected one check at a time. */
  method ValidateParsedData(statement: ProcessedStatement) returns (warnings: seq<string>)
    requires statement.Valid()
    ensures warnings == Messages(Warnings(statement.transactions, statement.metadata))
  {
    var txs := statement.transactions;
    var noPeriod := statement.metadata.statementPeriod == [];
    var noBalance := statement.metadata.balance == [];
    warnings := [];
    if txs == [] {
      warnings := warnings + [Message(NoTransactions)];
    }
    ghost var a := When(txs == [], NoTransactions);
    assert warnings == Messages(a);
    if noPeriod {
      warnings := warnings + [Message(NoPeriod)];
    }
    ghost var b := When(noPeriod, NoPeriod);
    MessagesAppend(a, b);
    if noBalance {
      warnings := warnings + [Message(NoBalance)];
    }
    ghost var c := When(noBalance, NoBalance);
    MessagesAppend(a + b, c);
    var zeros := CountZeros(txs);
    ghost var zeroCheck: Option<nat> := None;
    if 10 * zeros > |txs| {
      warnings := warnings + [Message(ManyZeros(zeros))];
      zeroCheck := Some(zeros);
    }
    ghost var d: seq<Warning> := if zeroCheck.Some? then [ManyZeros(zeroCheck.value)] else [];
    MessagesAppend(a + b + c, d);
    ghost var spanCheck: Option<nat> := None;
    if txs != [] {
      var days := DateRange(txs);
      if days > 35 {
        warnings := warnings + [Message(WideSpan(days))];
        spanCheck := Some(days);
      }
    }
    ghost var e: seq<Warning> := if spanCheck.Some? then [WideSpan(spanCheck.value)] else [];
    MessagesAppend(a + b + c + d, e);
    assert warnings == Messages(a + b + c + d + e);
    assert zeroCheck == if TooManyZeros(txs) then Some(ZeroCount(txs)) else None;
    assert spanCheck == if SpanTooLarge(txs) then Some(DateSpan(txs)) else None;
    assert a + b + c + d + e == WarningList(txs == [], noPeriod, noBalance, zeroCheck, spanCheck);
  }

  /** The messages of two lists of warnings, one after the other. */
  lemma {:induction false} MessagesAppend(ws: seq<Warning>, more: seq<Warning>)
    ensures Messages(ws + more) == Messages(ws) + Messages(more)
    decreases |more|
  {
    if more == [] {
      assert ws + more == ws;
    } else {
      var init := more[..|more| - 1];
      var last := more[|more| - 1];
      assert more == init + [last];
      assert ws + more == (ws + init) + [last];
      MessagesSnoc(ws + init, last);
      MessagesAppend(ws, init);
      MessagesSnoc(init, last);
    }
  }
}
