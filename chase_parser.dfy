// The parser for Chase credit card statements: three line layouts tried in
// order before the shared line logic, the statement year from the first line
// that holds one, Chase's keyword classification and its metadata patterns.
module ChaseParser {
  import opened Wrappers
  import opened Text
  import opened Rx
  import opened Dates
  import opened Money
  import opened StatementData
  import opened BaseParser

  // --------------------------------------------------------- line layouts

  /** `\d{1,2}/\d{1,2}` */
  const MonthDay: seq<Piece> := [Times(Digit, 1, 2), Lit("/"), Times(Digit, 1, 2)]

  /** `^(MM/DD)\s+(.+?)\s+(amount)$` */
  const PlainLine: Regex :=
    Pattern([Bol] + Grp(1, MonthDay) + [Plus(Space)] + Grp(2, [LazyPlus(NotNewline)]) + [Plus(Space)]
            + Grp(3, AmountNumber) + [Eol], false)

  /** `^(MM/DD)\s+(.+?)\s+\$(amount)$` */
  const DollarLine: Regex :=
    Pattern([Bol] + Grp(1, MonthDay) + [Plus(Space)] + Grp(2, [LazyPlus(NotNewline)]) + [Plus(Space), Lit("$")]
            + Grp(3, AmountNumber) + [Eol], false)

  /** `^(MM/DD/YY)\s+(.+?)\s+(amount)$` */
  const YearLine: Regex :=
    Pattern([Bol] + Grp(1, MonthDay + [Lit("/"), Times(Digit, 2, 2)]) + [Plus(Space)] + Grp(2, [LazyPlus(NotNewline)])
            + [Plus(Space)] + Grp(3, AmountNumber) + [Eol], false)

  const LinePatterns: seq<Regex> := [PlainLine, DollarLine, YearLine]
  const LineCount: nat := 3

  // ---------------------------------------------------------------- dates

  /** `_parse_chase_date`: only the slash forms; anything without a '/' gives None. */
  function ParseChaseDate(dateStr: string, year: int): (r: Option<Date>)
    ensures r.Some? ==> Valid(r.value)
    ensures '/' !in dateStr ==> r.None?
  {
    if '/' in dateStr then DateOfParts(Split(dateStr, '/'), year) else None
  }

  /** "MM/DD" is the month and day in the statement year. */
  lemma MonthDayForm(m: string, d: string, year: int)
    requires IsNumber(m) && IsNumber(d)
    ensures ParseChaseDate(m + "/" + d, year) == MakeDate(year, DigitsValue(m), DigitsValue(d))
  {
    assert '/' !in m && '/' !in d;
    SplitTwo(m, d);
    DateOfTwo(m, d, year);
  }

  /** "MM/DD/YY" ignores the statement year and reads a two-digit year in the 2000s. */
  lemma MonthDayYearForm(m: string, d: string, y: string, year: int)
    requires IsNumber(m) && IsNumber(d) && IsNumber(y)
    ensures ParseChaseDate(m + "/" + d + "/" + y, year)
      == MakeDate(Century(DigitsValue(y)), DigitsValue(m), DigitsValue(d))
  {
    assert '/' !in m && '/' !in d && '/' !in y;
    SplitThree(m, d, y);
    DateOfThree(m, d, y, year);
  }

  // ------------------------------------------------------- classification

  const ChaseKeywords: seq<(TransactionType, seq<string>)> := [
    (Payment, ["PAYMENT", "AUTOPAY", "THANK YOU"]),
    (Fee, ["ANNUAL FEE", "LATE FEE", "OVERLIMIT"]),
    (Interest, ["INTEREST", "FINANCE CHARGE"]),
    (CashAdvance, ["CASH ADVANCE", "ATM WITHDRAWAL"]),
    (Credit, ["CREDIT", "REFUND", "RETURN"])]

  /** `_classify_chase_transaction`: keyword search in the upper-cased description. */
  function ClassifyChase(description: string): (r: TransactionType)
    ensures r in {Payment, Fee, Interest, CashAdvance, Credit, Purchase}
  {
    KeywordType(ChaseKeywords, Upper(description))
  }

  /** The credit test of the Chase layouts. */
  predicate ChaseCredit(description: string)
  {
    StartsWith(Upper(description), "PAYMENT") || Contains(Upper(description), "CREDIT")
  }

  // ------------------------------------------------------------- one line

  /** The transaction a layout's groups stand for: the date read in the statement year, the
      stripped description, the converted amount made negative exactly by the credit test. A date
      that does not parse or an amount that does not convert gives None. */
  function FromGroups(dateStr: string, rawDesc: string, amountStr: string, year: int): (r: Option<Transaction>)
    ensures r.Some? <==> ParseChaseDate(dateStr, year).Some? && ToAmount(amountStr).Some?
    ensures r.Some? ==> (WellFormed(r.value)
      && r.value.date == ParseChaseDate(dateStr, year).value
      && r.value.description == Strip(rawDesc)
      && r.value.ttype == ClassifyChase(r.value.description)
      && r.value.category.None? && r.value.reference.None?)
    ensures r.Some? ==>
      r.value.amount == ValidateAmount(CreditAdjusted(ToAmount(amountStr).value, ChaseCredit(r.value.description)))
    ensures r.Some? && ChaseCredit(r.value.description) ==> r.value.amount <= 0.0
  {
    var description := Strip(rawDesc);
    match ParseChaseDate(dateStr, year)
    case None => None
    case Some(d) =>
      match ToAmount(amountStr)
      case None => None
      case Some(a) =>
        StripIdempotent(rawDesc);
        Some(LayoutTransaction(d, description, a, ChaseCredit(description), ClassifyChase(description), None))
  }

  /** A description that starts with PAYMENT is a payment, and its amount is never positive. */
  lemma PaymentLine(dateStr: string, rawDesc: string, amountStr: string, year: int)
    requires FromGroups(dateStr, rawDesc, amountStr, year).Some?
    requires StartsWith(Upper(Strip(rawDesc)), "PAYMENT")
    ensures FromGroups(dateStr, rawDesc, amountStr, year).value.ttype == Payment
    ensures FromGroups(dateStr, rawDesc, amountStr, year).value.amount <= 0.0
  {
    var u := Upper(Strip(rawDesc));
    assert Contains(u, "PAYMENT") by {
      if |u| > 0 {
        assert StartsWith(u, "PAYMENT");
      }
    }
    KeywordTypeFirstRow(ChaseKeywords, u, "PAYMENT");
  }

  /** What line layout `k` makes of `line`: None if it does not match or its groups yield nothing,
      which sends the search on to the next layout. */
  function LineCandidate(k: nat, line: string, year: int): (r: Option<Transaction>)
    ensures r.Some? ==> (k < LineCount && MatchStart(LinePatterns[k], line).Some?
      && var mt := MatchStart(LinePatterns[k], line).value;
      && Capture(mt, line, 1).Some? && Capture(mt, line, 2).Some? && Capture(mt, line, 3).Some?
      && r == FromGroups(Capture(mt, line, 1).value, Capture(mt, line, 2).value, Capture(mt, line, 3).value, year))
  {
    if k >= LineCount then None
    else
      match MatchStart(LinePatterns[k], line)
      case None => None
      case Some(mt) =>
        var g1 := Capture(mt, line, 1);
        var g2 := Capture(mt, line, 2);
        var g3 := Capture(mt, line, 3);
        if g1.None? || g2.None? || g3.None? then None
        else FromGroups(g1.value, g2.value, g3.value, year)
  }

  /** The first layout, from the `k`-th on, that yields a transaction. */
  function FirstCandidate(line: string, year: int, k: nat): (r: Option<Transaction>)
    requires k <= LineCount
    ensures r.Some? ==> exists j :: (k <= j < LineCount && LineCandidate(j, line, year) == r
      && forall i :: k <= i < j ==> LineCandidate(i, line, year).None?)
    ensures r.None? <==> forall j :: k <= j < LineCount ==> LineCandidate(j, line, year).None?
    decreases LineCount - k
  {
    if k == LineCount then None
    else
      var c := LineCandidate(k, line, year);
      if c.Some? then c else FirstCandidate(line, year, k + 1)
  }

  /** `_parse_chase_transaction`: the first layout that yields a transaction, else the shared line logic. */
  function ParseChaseTransaction(line: string, year: int): (r: Option<Transaction>)
    ensures r.Some? ==> WellFormed(r.value)
    ensures FirstCandidate(line, year, 0).None? ==> r == ParseTransactionLine(line)
    ensures FirstCandidate(line, year, 0).Some? ==> exists j :: (0 <= j < LineCount && r == LineCandidate(j, line, year)
      && forall i :: 0 <= i < j ==> LineCandidate(i, line, year).None?)
  {
    var found := FirstCandidate(line, year, 0);
    if found.Some? then found else ParseTransactionLine(line)
  }

  // ------------------------------------------------------------- the loop

  /** `_should_ignore_line`: Chase's section headings, then the shared patterns. */
  const ChasePrefixRules: seq<(string, seq<Piece>)> := [
    ("CHASE", []),
    ("Customer Service", []),
    ("Account Summary", []),
    ("Previous Balance", []),
    ("Payments and Credits", []),
    ("Purchases", []),
    ("Fees", []),
    ("Interest Charged", []),
    ("Page ", [Plus(Digit)])]

  predicate ShouldIgnoreChase(line: string)
  {
    (exists k :: 0 <= k < |ChasePrefixRules| && Hits(Prefixed(ChasePrefixRules[k]), line, true)) || ShouldIgnore(line)
  }

  /** A line skipped by a Chase heading begins, in any case, with that heading. */
  lemma ChaseIgnoredByPrefix(line: string, k: nat)
    requires k < |ChasePrefixRules| && Hits(Prefixed(ChasePrefixRules[k]), line, true)
    ensures LitAt(ChasePrefixRules[k].0, line, 0, true)
  {
    PrefixedHit(ChasePrefixRules[k], line);
  }

  /** A line that begins, in any case, with a Chase heading is skipped; the headings other than
      `Page \d+` are literal. */
  lemma ChaseHeadingIgnored(line: string, k: nat)
    requires k < |ChasePrefixRules| && Heading(ChasePrefixRules[k]).Some?
    requires LitAt(Heading(ChasePrefixRules[k]).value, line, 0, true)
    ensures ShouldIgnoreChase(line)
  {
    HeadingHit(ChasePrefixRules[k], line);
  }

  /** For instance, a line that begins "PREVIOUS BALANCE" in any case is skipped. */
  lemma PreviousBalanceIgnored(line: string)
    requires LitAt("Previous Balance", line, 0, true)
    ensures ShouldIgnoreChase(line)
  {
    assert Heading(ChasePrefixRules[3]).value == "Previous Balance" + "";
    assert "Previous Balance" + "" == "Previous Balance";
    ChaseHeadingIgnored(line, 3);
  }

  /** The line parser with the statement year fixed. */
  function ParseWithYear(year: int): string -> Option<Transaction>
  {
    line => ParseChaseTransaction(line, year)
  }

  /** The transactions the Chase parser finds in `text`. */
  function Transactions(text: string): seq<Transaction>
  {
    Collect(Split(text, '\n'), ShouldIgnoreChase, ParseWithYear(FirstYear(Split(text, '\n'))))
  }

  lemma TransactionsWellFormed(text: string)
    ensures AllWellFormed(Transactions(text))
  {
    CollectWellFormed(Split(text, '\n'), ShouldIgnoreChase, ParseWithYear(FirstYear(Split(text, '\n'))));
  }

  /** `extract_transactions` of the Chase parser: the year scan, then the line loop. */
  method ExtractTransactions(text: string) returns (transactions: seq<Transaction>)
    ensures transactions == Transactions(text)
    ensures AllWellFormed(transactions)
  {
    var lines := Split(text, '\n');
    var year := ScanYear(lines);
    transactions := CollectLines(lines, ShouldIgnoreChase, ParseWithYear(year));
    CollectWellFormed(lines, ShouldIgnoreChase, ParseWithYear(year));
  }

  // ------------------------------------------------------------- metadata

  const Label: seq<Piece> := [Opt(OneOf(":")), Star(Space)]

  const StatementDatePattern: Regex := Ci(Spaced1(["Statement", "Date"]) + Label + Grp(1, SlashDateText))
  const PaymentDuePattern: Regex := Ci(Spaced1(["Payment", "Due", "Date"]) + Label + Grp(1, SlashDateText))
  const BalancePattern: Regex := Ci(Spaced1(["New", "Balance"]) + Label + [Opt(OneOf("$"))] + Grp(1, AmountNumber))
  const AccountPattern: Regex :=
    Ci(Spaced1(["Account", "Number"]) + Label + [Star(OneOf("*-x"))] + Grp(1, [Times(Digit, 4, 4)]))

  /** `Statement\s+Period:?\s*([^\n]+)` and the same for "Billing". */
  const PeriodPatterns: seq<Regex> := [
    Ci(Spaced1(["Statement", "Period"]) + Label + Grp(1, [Plus(NotNewline)])),
    Ci(Spaced1(["Billing", "Period"]) + Label + Grp(1, [Plus(NotNewline)]))]

  /** `_extract_statement_period`: the statement date if there is one, else the stripped rest of
      a period line. */
  function StatementPeriodOf(text: string): (r: Option<string>)
    ensures SearchGroup(StatementDatePattern, text, 1).Some? ==>
      r == Some("Statement Date: " + SearchGroup(StatementDatePattern, text, 1).value)
    ensures SearchGroup(StatementDatePattern, text, 1).None? ==>
      (r.Some? <==> FirstGroup(PeriodPatterns, text, 1).Some?)
    ensures SearchGroup(StatementDatePattern, text, 1).None? && r.Some? ==>
      r.value == Strip(FirstGroup(PeriodPatterns, text, 1).value) && Strip(r.value) == r.value
  {
    match SearchGroup(StatementDatePattern, text, 1)
    case Some(g) => Some("Statement Date: " + g)
    case None =>
      match FirstGroup(PeriodPatterns, text, 1)
      case None => None
      case Some(g) => StripIdempotent(g); Some(Strip(g))
  }

  /** `_extract_due_date` */
  function DueDateOf(text: string): Option<string>
  {
    SearchGroup(PaymentDuePattern, text, 1)
  }

  /** `_extract_balance` */
  function BalanceOf(text: string): (r: Option<string>)
    ensures r.Some? <==> SearchGroup(BalancePattern, text, 1).Some?
    ensures r.Some? ==> r.value == "$" + SearchGroup(BalancePattern, text, 1).value
  {
    match SearchGroup(BalancePattern, text, 1)
    case None => None
    case Some(g) => Some("$" + g)
  }

  /** `_extract_account_number` */
  function AccountNumberOf(text: string): (r: Option<string>)
    ensures r.Some? <==> SearchGroup(AccountPattern, text, 1).Some?
    ensures r.Some? ==> r.value == "****" + SearchGroup(AccountPattern, text, 1).value
  {
    match SearchGroup(AccountPattern, text, 1)
    case None => None
    case Some(g) => Some("****" + g)
  }

  /** `extract_metadata` of the Chase parser. */
  function ExtractMetadata(text: string): (md: Metadata)
    ensures md.bankType == Chase && md.bankName == "Chase"
    ensures md.statementPeriod == Strip(OrElse(StatementPeriodOf(text), "Unknown"))
    ensures md.balance == OrElse(BalanceOf(text), "0.00")
    ensures md.accountNumber == AccountNumberOf(text)
    ensures md.dueDate == ValidateDateField(DueDateOf(text)) && md.nextClosing.None?
  {
    NewMetadata("Chase", Chase, AccountNumberOf(text), OrElse(StatementPeriodOf(text), "Unknown"),
                DueDateOf(text), None, OrElse(BalanceOf(text), "0.00"), None)
  }

  // ------------------------------------------------------------ statement

  function CountNote(count: nat): string
  {
    "Parsed " + NatToString(count) + " transactions from Chase statement"
  }

  /** The processing notes of the Chase parser: the count, and the file name when one is given. */
  function ChaseNotes(count: nat, filename: Option<string>): (notes: seq<string>)
    ensures |notes| == (if filename.Some? && filename.value != [] then 2 else 1)
    ensures notes[0] == CountNote(count)
  {
    [CountNote(count)] + (if filename.Some? && filename.value != [] then ["Source file: " + filename.value] else [])
  }

  /** `parse_statement` of the Chase parser. */
  method ParseStatement(text: string, filename: Option<string>) returns (statement: ProcessedStatement)
    ensures fresh(statement) && statement.Valid()
    ensures statement.transactions == Transactions(text)
    ensures statement.metadata == ExtractMetadata(text) && statement.rawText == Some(text)
    ensures statement.notes == ChaseNotes(|statement.transactions|, filename)
  {
    var metadata := ExtractMetadata(text);
    var transactions := ExtractTransactions(text);
    statement := new ProcessedStatement(transactions, metadata, Some(text), ChaseNotes(|transactions|, filename));
  }
}
