// The parser for statements of banks without a parser of their own: three
// line layouts tried in order before the shared line logic, keyword
// classification, the statement year as the most frequent year token, and
// metadata found by search.
module GenericParser {
  import opened Wrappers
  import opened Text
  import opened Rx
  import opened Dates
  import opened Money
  import opened StatementData
  import opened BaseParser

  // --------------------------------------------------------- line layouts

  /** `(?:\s*(CR|DB))?$` */
  const CodeTail: seq<Piece> :=
    [Group([Branch([Star(Space)] + Grp(4, [Group([Branch([Lit("CR")]), Branch([Lit("DB")])], false)]))], true), Eol]

  /** `\d{1,2}/\d{1,2}(?:/\d{2,4})?` */
  const SlashDay: seq<Piece> :=
    [Times(Digit, 1, 2), Lit("/"), Times(Digit, 1, 2), Group([Branch([Lit("/"), Times(Digit, 2, 4)])], true)]

  /** `^(date)\s+(.+?)\s+\$(amount)(?:\s*(CR|DB))?$` */
  const DollarLine: Regex :=
    Pattern([Bol] + Grp(1, SlashDay) + [Plus(Space)] + Grp(2, [LazyPlus(NotNewline)]) + [Plus(Space), Lit("$")]
            + Grp(3, AmountNumber) + CodeTail, false)

  /** `^(date)\s+(.+?)\s+(amount)(?:\s*(CR|DB))?$` */
  const PlainLine: Regex :=
    Pattern([Bol] + Grp(1, SlashDay) + [Plus(Space)] + Grp(2, [LazyPlus(NotNewline)]) + [Plus(Space)]
            + Grp(3, AmountNumber) + CodeTail, false)

  /** `^([A-Za-z]{3}\s+\d{1,2})\s+(.+?)\s+\$?(amount)(?:\s*(CR|DB))?$` */
  const NamedLine: Regex :=
    Pattern([Bol] + Grp(1, [Times(Letter, 3, 3), Plus(Space), Times(Digit, 1, 2)]) + [Plus(Space)]
            + Grp(2, [LazyPlus(NotNewline)]) + [Plus(Space), Opt(OneOf("$"))] + Grp(3, AmountNumber) + CodeTail, false)

  const LinePatterns: seq<Regex> := [DollarLine, PlainLine, NamedLine]
  const LineCount: nat := 3

  // ---------------------------------------------------------------- dates

  /** `_parse_generic_date` */
  function ParseGenericDate(dateStr: string, year: int): (r: Option<Date>)
    ensures r.Some? ==> Valid(r.value)
  {
    if '/' in dateStr then DateOfParts(Split(dateStr, '/'), year) else DateOfWords(Words(dateStr), year)
  }

  /** "M/D" is the month and day in the statement year. */
  lemma MonthDayForm(m: string, d: string, year: int)
    requires IsNumber(m) && IsNumber(d)
    ensures ParseGenericDate(m + "/" + d, year) == MakeDate(year, DigitsValue(m), DigitsValue(d))
  {
    assert '/' !in m && '/' !in d;
    SplitTwo(m, d);
    DateOfTwo(m, d, year);
  }

  /** "M/D/Y" ignores the statement year and reads a two-digit year in the 2000s. */
  lemma MonthDayYearForm(m: string, d: string, y: string, year: int)
    requires IsNumber(m) && IsNumber(d) && IsNumber(y)
    ensures ParseGenericDate(m + "/" + d + "/" + y, year)
      == MakeDate(Century(DigitsValue(y)), DigitsValue(m), DigitsValue(d))
  {
    assert '/' !in m && '/' !in d && '/' !in y;
    SplitThree(m, d, y);
    DateOfThree(m, d, y, year);
  }

  /** "Mon D" looks the month up by its first three letters and uses the statement year. */
  lemma MonthNameForm(mon: string, d: string, year: int)
    requires IsWord(mon) && IsNumber(d) && '/' !in mon
    ensures ParseGenericDate(mon + " " + d, year)
      == if MonthOfName(mon).None? then None else MakeDate(year, MonthOfName(mon).value, DigitsValue(d))
  {
    SplitWords(mon, d);
  }

  // ------------------------------------------------------- classification

  const GenericKeywords: seq<(TransactionType, seq<string>)> := [
    (Payment, ["PAYMENT", "PAY", "AUTOPAY", "THANK YOU"]),
    (Fee, ["FEE", "CHARGE", "ANNUAL", "LATE"]),
    (Interest, ["INTEREST", "FINANCE", "APR"]),
    (CashAdvance, ["CASH ADVANCE", "ATM", "WITHDRAWAL"]),
    (Credit, ["CREDIT", "REFUND", "RETURN", "ADJUSTMENT"])]

  /** `_classify_generic_transaction`: keyword search in the upper-cased description. */
  function ClassifyGeneric(description: string): (r: TransactionType)
    ensures r in {Payment, Fee, Interest, CashAdvance, Credit, Purchase}
  {
    KeywordType(GenericKeywords, Upper(description))
  }

  /** Any description containing "PAY" (a PayPal purchase included) is a payment. */
  lemma PayIsPayment(description: string)
    requires Contains(Upper(description), "PAY")
    ensures ClassifyGeneric(description) == Payment
  {
    KeywordTypeFirstRow(GenericKeywords, Upper(description), "PAY");
  }

  // ------------------------------------------------------------- one line

  /** The credit test of the line layouts. */
  predicate GenericCredit(indicator: Option<string>, description: string)
  {
    indicator == Some("CR") || StartsWith(Upper(description), "PAYMENT")
    || Contains(Upper(description), "CREDIT") || Contains(Upper(description), "REFUND")
  }

  /** The transaction a layout's groups stand for: the date read in the statement year, the
      stripped description, the converted amount made negative exactly by the credit test. A date
      that does not parse or an amount that does not convert gives None. */
  function FromGroups(dateStr: string, rawDesc: string, amountStr: string, code: Option<string>, year: int)
    : (r: Option<Transaction>)
    ensures r.Some? <==> ParseGenericDate(dateStr, year).Some? && ToAmount(amountStr).Some?
    ensures r.Some? ==> (WellFormed(r.value)
      && r.value.date == ParseGenericDate(dateStr, year).value
      && r.value.description == Strip(rawDesc)
      && r.value.ttype == ClassifyGeneric(r.value.description)
      && r.value.category.None? && r.value.reference.None?)
    ensures r.Some? ==>
      r.value.amount == ValidateAmount(CreditAdjusted(ToAmount(amountStr).value, GenericCredit(code, r.value.description)))
    ensures r.Some? && GenericCredit(code, r.value.description) ==> r.value.amount <= 0.0
  {
    var description := Strip(rawDesc);
    match ParseGenericDate(dateStr, year)
    case None => None
    case Some(d) =>
      match ToAmount(amountStr)
      case None => None
      case Some(a) =>
        StripIdempotent(rawDesc);
        Some(LayoutTransaction(d, description, a, GenericCredit(code, description), ClassifyGeneric(description), None))
  }

  /** What line layout `k` makes of `line`: None if it does not match or its groups yield nothing,
      which sends the search on to the next layout. */
  function LineCandidate(k: nat, line: string, year: int): (r: Option<Transaction>)
    ensures r.Some? ==> (k < LineCount && MatchStart(LinePatterns[k], line).Some?
      && var mt := MatchStart(LinePatterns[k], line).value;
      && Capture(mt, line, 1).Some? && Capture(mt, line, 2).Some? && Capture(mt, line, 3).Some?
      && r == FromGroups(Capture(mt, line, 1).value, Capture(mt, line, 2).value, Capture(mt, line, 3).value,
                         Capture(mt, line, 4), year))
  {
    if k >= LineCount then None
    else
      match MatchStart(LinePatterns[k], line)
      case None => None
      case Some(mt) =>
        var g1 := Capture(mt, line, 1);
        var g2 := Capture(mt, line, 2);
        var g3 := Capture(mt, line, 3);
        if g1.None? || g2.None? || g3.None? then None
        else FromGroups(g1.value, g2.value, g3.value, Capture(mt, line, 4), year)
  }

  /** The first layout, from the `k`-th on, that yields a transaction. */
  function FirstCandidate(line: string, year: int, k: nat): (r: Option<Transaction>)
    requires k <= LineCount
    ensures r.Some? ==> exists j :: (k <= j < LineCount && LineCandidate(j, line, year) == r
      && forall i :: k <= i < j ==> LineCandidate(i, line, year).None?)
    ensures r.None? <==> forall j :: k <= j < LineCount ==> LineCandidate(j, line, year).None?
    decreases LineCount - k
  {
    if k == LineCount then None
    else match LineCandidate(k, line, year)
      case Some(t) => Some(t)
      case None => FirstCandidate(line, year, k + 1)
  }

  /** `_parse_generic_transaction`: the first layout that yields a transaction, else the shared line logic. */
  function ParseGenericTransaction(line: string, year: int): (r: Option<Transaction>)
    ensures r.Some? ==> WellFormed(r.value)
    ensures FirstCandidate(line, year, 0).None? ==> r == ParseTransactionLine(line)
    ensures FirstCandidate(line, year, 0).Some? ==> exists j :: (0 <= j < LineCount && r == LineCandidate(j, line, year)
      && forall i :: 0 <= i < j ==> LineCandidate(i, line, year).None?)
  {
    var found := FirstCandidate(line, year, 0);
    if found.Some? then found else ParseTransactionLine(line)
  }

  /** Without the credit test the amount is the converted capture, which is not negative when the
      captured text has no minus sign. */
  lemma DebitNotNegative(dateStr: string, rawDesc: string, amountStr: string, code: Option<string>, year: int)
    requires FromGroups(dateStr, rawDesc, amountStr, code, year).Some?
    requires '-' !in amountStr && !GenericCredit(code, Strip(rawDesc))
    ensures FromGroups(dateStr, rawDesc, amountStr, code, year).value.amount >= 0.0
  {
    ToAmountNoMinus(amountStr);
    ValidateAmountSign(ToAmount(amountStr).value);
  }

  // ------------------------------------------------------------- the year

  function Occurrences(xs: seq<string>, x: string): nat
  {
    if xs == [] then 0 else Occurrences(xs[..|xs| - 1], x) + (if xs[|xs| - 1] == x then 1 else 0)
  }

  /** The position of the token `Counter(xs).most_common(1)` returns, among `xs[..n]`: the most
      frequent one, ties going to the one seen first. */
  function MostCommonIndex(xs: seq<string>, n: nat): (b: nat)
    requires 0 < n <= |xs|
    ensures b < n
    ensures forall i :: 0 <= i < n ==> Occurrences(xs, xs[i]) <= Occurrences(xs, xs[b])
    ensures forall i :: 0 <= i < b ==> Occurrences(xs, xs[i]) < Occurrences(xs, xs[b])
  {
    if n == 1 then 0
    else
      var b := MostCommonIndex(xs, n - 1);
      if Occurrences(xs, xs[n - 1]) > Occurrences(xs, xs[b]) then n - 1 else b
  }

  /** `_detect_year`: the most common year token, else 2024. */
  function DetectYear(text: string): (y: int)
    ensures 2000 <= y <= 2099
    ensures YearTokens(text) == [] ==> y == 2024
    ensures YearTokens(text) != [] ==> exists k :: (0 <= k < |YearTokens(text)| && ParseInt(YearTokens(text)[k]) == Some(y)
      && (forall i :: 0 <= i < |YearTokens(text)| ==> Occurrences(YearTokens(text), YearTokens(text)[i]) <= Occurrences(YearTokens(text), YearTokens(text)[k]))
      && forall i :: 0 <= i < k ==> Occurrences(YearTokens(text), YearTokens(text)[i]) < Occurrences(YearTokens(text), YearTokens(text)[k]))
  {
    var tokens := YearTokens(text);
    if tokens == [] then 2024 else YearValue(tokens[MostCommonIndex(tokens, |tokens|)])
  }

  // ------------------------------------------------------------- the loop

  /** `_should_ignore_line`: the generic patterns, then the shared ones. */
  const GenericPrefixRules: seq<(string, seq<Piece>)> := [
    ("Page", [Plus(Space), Plus(Digit)]),
    ("Statement", [Plus(Space), Lit("Date")]),
    ("Account", [Plus(Space), Lit("Number")]),
    ("Payment", [Plus(Space), Lit("Due")]),
    ("Previous", [Plus(Space), Lit("Balance")]),
    ("New", [Plus(Space), Lit("Balance")]),
    ("Total", [Plus(Space)]),
    ("Summary", []),
    ("Customer", [Plus(Space), Lit("Service")]),
    ("Questions?", []),
    ("Visit", [Plus(Space), Lit("us")]),
    ("Call", [Plus(Space), Lit("us")]),
    ("www.", []),
    ("http", [])]

  const GenericRuleLines: seq<Regex> := [
    Ci([Bol, Plus(Digit), Star(Space), Eol]),
    Ci([Bol, Plus(OneOf("-")), Star(Space), Eol]),
    Ci([Bol, Plus(OneOf("=")), Star(Space), Eol]),
    Ci([Bol, Star(Space), Eol])]

  predicate PrefixIgnored(line: string)
  {
    exists k :: 0 <= k < |GenericPrefixRules| && Hits(Prefixed(GenericPrefixRules[k]), line, true)
  }

  predicate ShouldIgnoreGeneric(line: string)
  {
    PrefixIgnored(line) || AnyHit(GenericRuleLines, line, true) || ShouldIgnore(line)
  }

  /** A line skipped by a generic word pattern begins, in any case, with that word. */
  lemma GenericIgnoredByPrefix(line: string, k: nat)
    requires k < |GenericPrefixRules| && Hits(Prefixed(GenericPrefixRules[k]), line, true)
    ensures LitAt(GenericPrefixRules[k].0, line, 0, true)
  {
    PrefixedHit(GenericPrefixRules[k], line);
  }

  /** A line that begins, in any case, with a generic heading is skipped; only `Page\s+\d+` is
      not a literal heading. */
  lemma GenericHeadingIgnored(line: string, k: nat)
    requires k < |GenericPrefixRules| && Heading(GenericPrefixRules[k]).Some?
    requires LitAt(Heading(GenericPrefixRules[k]).value, line, 0, true)
    ensures ShouldIgnoreGeneric(line)
  {
    HeadingHit(GenericPrefixRules[k], line);
    assert PrefixIgnored(line);
  }

  /** For instance, a line that begins "Customer Service" in any case is skipped. */
  lemma CustomerServiceIgnored(line: string)
    requires LitAt("Customer Service", line, 0, true)
    ensures ShouldIgnoreGeneric(line)
  {
    SpacedWord("Service");
    assert Heading(GenericPrefixRules[8]).value == "Customer Service";
    GenericHeadingIgnored(line, 8);
  }

  /** The line parser with the statement year fixed. */
  function ParseWithYear(year: int): string -> Option<Transaction>
  {
    line => ParseGenericTransaction(line, year)
  }

  /** The transactions the generic parser finds in `text`. */
  function Transactions(text: string): seq<Transaction>
  {
    Collect(Split(text, '\n'), ShouldIgnoreGeneric, ParseWithYear(DetectYear(text)))
  }

  lemma TransactionsWellFormed(text: string)
    ensures AllWellFormed(Transactions(text))
  {
    CollectWellFormed(Split(text, '\n'), ShouldIgnoreGeneric, ParseWithYear(DetectYear(text)));
  }

  /** `extract_transactions` of the generic parser. */
  method ExtractTransactions(text: string) returns (transactions: seq<Transaction>)
    ensures transactions == Transactions(text)
    ensures AllWellFormed(transactions)
  {
    var year := DetectYear(text);
    transactions := CollectLines(Split(text, '\n'), ShouldIgnoreGeneric, ParseWithYear(year));
    CollectWellFormed(Split(text, '\n'), ShouldIgnoreGeneric, ParseWithYear(year));
  }

  // ------------------------------------------------------------- metadata

  const IndicatorPatterns: seq<Regex> := [
    Pattern([Lit("chase")], false),
    Regex([Branch(Spaced1(["american", "express"])), Branch([Lit("amex")])], false),
    Regex([Branch([Lit("citibank")]), Branch([Lit("citi")])], false),
    Pattern(Spaced1(["bank", "of", "america"]), false),
    Pattern(Spaced1(["capital", "one"]), false),
    Pattern(Spaced1(["wells", "fargo"]), false),
    Pattern([Lit("discover")], false),
    Pattern([Lit("synchrony")], false),
    Pattern([Lit("barclays")], false)]

  const IndicatorNames: seq<string> := ["Chase", "American Express", "Citibank", "Bank of America",
    "Capital One", "Wells Fargo", "Discover", "Synchrony Bank", "Barclays"]

  const UnknownBank := "Unknown Bank"

  /** The name paired with the first pattern found in `s`, or `fallback`. */
  function FirstName(res: seq<Regex>, names: seq<string>, s: string, fallback: string): (r: string)
    requires |names| == |res| && fallback !in names
    ensures r == fallback <==> forall j :: 0 <= j < |res| ==> !Found(res[j], s)
    ensures forall j :: (0 <= j < |res| && Found(res[j], s) && forall i :: 0 <= i < j ==> !Found(res[i], s))
                        ==> r == names[j]
  {
    match FirstHit(res, s, false)
    case None => fallback
    case Some(k) =>
      assert forall j :: (0 <= j < |res| && Found(res[j], s) && forall i :: 0 <= i < j ==> !Found(res[i], s)) ==> j == k by {
        assert forall j :: 0 <= j < k ==> !Hits(res[j], s, false);
      }
      names[k]
  }

  /** `_detect_bank_name`: the name of the first indicator found in the lower-cased text,
      "Unknown Bank" exactly when none is. */
  function DetectBankName(text: string): (r: string)
    ensures r == UnknownBank <==> forall j :: 0 <= j < |IndicatorPatterns| ==> !Found(IndicatorPatterns[j], Lower(text))
  {
    FirstName(IndicatorPatterns, IndicatorNames, Lower(text), UnknownBank)
  }

  /** `[0-9,]+\.?\d{0,2}` behind `\$?` */
  const BalanceAmount: seq<Piece> := [Opt(OneOf("$"))] + Grp(1, AmountNumber)

  const BalancePatterns: seq<Regex> := [
    Ci([Group([Branch([Lit("new")]), Branch([Lit("current")]), Branch([Lit("total")]), Branch([Lit("outstanding")])], false),
        Plus(Space), Lit("balance"), Opt(OneOf(":")), Star(Space)] + BalanceAmount),
    Ci([Lit("balance"), Opt(OneOf(":")), Star(Space)] + BalanceAmount),
    Ci([Lit("$")] + Grp(1, AmountNumber) + [Plus(Space), Group([Branch([Lit("balance")]), Branch([Lit("total")])], false)])]

  /** `(?:payment\s+)?due\s+date:?\s*` */
  const DueDateLabel: seq<Piece> :=
    [Group([Branch([Lit("payment"), Plus(Space)])], true), Lit("due"), Plus(Space), Lit("date"), Opt(OneOf(":")), Star(Space)]

  const DueDatePatterns: seq<Regex> := [
    Ci(DueDateLabel + Grp(1, SlashDateText)),
    Ci(DueDateLabel + Grp(1, NamedDateText)),
    Ci([Lit("due"), Opt(OneOf(":")), Star(Space)] + Grp(1, SlashDateText))]

  const StatementDatePatterns: seq<Regex> := [
    Ci(Spaced1(["statement", "date"]) + [Opt(OneOf(":")), Star(Space)] + Grp(1, SlashDateText)),
    Ci(Spaced1(["statement", "date"]) + [Opt(OneOf(":")), Star(Space)] + Grp(1, NamedDateText)),
    Ci(Spaced1(["closing", "date"]) + [Opt(OneOf(":")), Star(Space)] + Grp(1, SlashDateText))]

  /** `(?:number|#):?\s*[*\-x]*(\d{4,5})` */
  const AccountTail: seq<Piece> :=
    [Group([Branch([Lit("number")]), Branch([Lit("#")])], false), Opt(OneOf(":")), Star(Space), Star(OneOf("*-x"))]
    + Grp(1, [Times(Digit, 4, 5)])

  const AccountPatterns: seq<Regex> := [
    Ci([Lit("account"), Plus(Space)] + AccountTail),
    Ci([Lit("acct"), Plus(Space)] + AccountTail),
    Ci(Spaced1(["ending", "in"]) + [Opt(OneOf(":")), Star(Space)] + Grp(1, [Times(Digit, 4, 5)]))]

  /** `_extract_statement_period` */
  function StatementPeriodOf(text: string): (r: Option<string>)
    ensures r.Some? <==> FirstGroup(StatementDatePatterns, text, 1).Some?
    ensures r.Some? ==> r.value == "Statement Date: " + FirstGroup(StatementDatePatterns, text, 1).value
  {
    match FirstGroup(StatementDatePatterns, text, 1)
    case None => None
    case Some(g) => Some("Statement Date: " + g)
  }

  /** `_extract_due_date` */
  function DueDateOf(text: string): Option<string>
  {
    FirstGroup(DueDatePatterns, text, 1)
  }

  /** `_extract_balance` */
  function BalanceOf(text: string): (r: Option<string>)
    ensures r.Some? <==> FirstGroup(BalancePatterns, text, 1).Some?
    ensures r.Some? ==> r.value == "$" + FirstGroup(BalancePatterns, text, 1).value
  {
    match FirstGroup(BalancePatterns, text, 1)
    case None => None
    case Some(g) => Some("$" + g)
  }

  /** `_extract_account_number` */
  function AccountNumberOf(text: string): (r: Option<string>)
    ensures r.Some? <==> FirstGroup(AccountPatterns, text, 1).Some?
    ensures r.Some? ==> r.value == "****" + FirstGroup(AccountPatterns, text, 1).value
  {
    match FirstGroup(AccountPatterns, text, 1)
    case None => None
    case Some(g) => Some("****" + g)
  }

  /** `extract_metadata` of the generic parser. */
  function ExtractMetadata(text: string): (md: Metadata)
    ensures md.bankType == Generic && md.bankName == DetectBankName(text)
    ensures md.statementPeriod == Strip(if StatementPeriodOf(text).None? then "Unknown" else StatementPeriodOf(text).value)
    ensures md.balance == (if BalanceOf(text).None? then "0.00" else BalanceOf(text).value)
    ensures md.accountNumber == AccountNumberOf(text)
    ensures md.dueDate == ValidateDateField(DueDateOf(text)) && md.nextClosing.None?
  {
    NewMetadata(DetectBankName(text), Generic, AccountNumberOf(text), OrElse(StatementPeriodOf(text), "Unknown"),
                DueDateOf(text), None, OrElse(BalanceOf(text), "0.00"), None)
  }

  // ------------------------------------------------------------ statement

  const GenericCaveat := "Used generic parser - results may be less accurate than bank-specific parsing"

  function CountNote(count: nat): string
  {
    "Parsed " + NatToString(count) + " transactions using generic parser"
  }

  /** The processing notes of the generic parser: the count, the file name when one is given,
      and the caveat last. */
  function GenericNotes(count: nat, filename: Option<string>): (notes: seq<string>)
    ensures |notes| == (if filename.Some? && filename.value != [] then 3 else 2)
    ensures notes[0] == CountNote(count) && notes[|notes| - 1] == GenericCaveat
  {
    [CountNote(count)] + (if filename.Some? && filename.value != [] then ["Source file: " + filename.value] else []) + [GenericCaveat]
  }

  /** `parse_statement` of the generic parser. */
  method ParseStatement(text: string, filename: Option<string>) returns (statement: ProcessedStatement)
    ensures fresh(statement) && statement.Valid()
    ensures statement.transactions == Transactions(text)
    ensures statement.metadata == ExtractMetadata(text) && statement.rawText == Some(text)
    ensures statement.notes == GenericNotes(|statement.transactions|, filename)
  {
    var metadata := ExtractMetadata(text);
    var transactions := ExtractTransactions(text);
    statement := new ProcessedStatement(transactions, metadata, Some(text), GenericNotes(|transactions|, filename));
  }
}
