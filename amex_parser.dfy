// The parser for American Express statements: three line layouts tried in
// order before the shared line logic (the third with a reference code), the
// statement year from the first line that holds one, Amex's keyword
// classification and its metadata patterns.
module AmexParser {
  import opened Wrappers
  import opened Text
  import opened Rx
  import opened Dates
  import opened Money
  import opened StatementData
  import opened BaseParser

  // --------------------------------------------------------- line layouts

  /** `[A-Za-z]{3}\s+\d{1,2}` */
  const MonthNameDay: seq<Piece> := [Times(Letter, 3, 3), Plus(Space), Times(Digit, 1, 2)]

  /** `[A-Z0-9]`, case-sensitive as the pattern is. */
  const RefChars := "ABCDEFGHIJKLMNOPQRSTUVWXYZ0123456789"

  /** `^(MMM DD)\s+(.+?)\s+\$?(amount)$` */
  const NamedLine: Regex :=
    Pattern([Bol] + Grp(1, MonthNameDay) + [Plus(Space)] + Grp(2, [LazyPlus(NotNewline)])
            + [Plus(Space), Opt(OneOf("$"))] + Grp(3, AmountNumber) + [Eol], false)

  /** `^(MM/DD)\s+(.+?)\s+\$(amount)$` */
  const SlashLine: Regex :=
    Pattern([Bol] + Grp(1, [Times(Digit, 1, 2), Lit("/"), Times(Digit, 1, 2)]) + [Plus(Space)]
            + Grp(2, [LazyPlus(NotNewline)]) + [Plus(Space), Lit("$")] + Grp(3, AmountNumber) + [Eol], false)

  /** `^(MMM DD)\s+(.+?)\s+([A-Z0-9]+)\s+\$?(amount)$` */
  const ReferenceLine: Regex :=
    Pattern([Bol] + Grp(1, MonthNameDay) + [Plus(Space)] + Grp(2, [LazyPlus(NotNewline)]) + [Plus(Space)]
            + Grp(3, [Plus(OneOf(RefChars))]) + [Plus(Space), Opt(OneOf("$"))] + Grp(4, AmountNumber) + [Eol], false)

  const LinePatterns: seq<Regex> := [NamedLine, SlashLine, ReferenceLine]
  const LineCount: nat := 3

  // ---------------------------------------------------------------- dates

  /** `_parse_amex_date`: "MM/DD" or "Mon DD", both in the statement year. */
  function ParseAmexDate(dateStr: string, year: int): (r: Option<Date>)
    ensures r.Some? ==> Valid(r.value) && r.value.year == year
  {
    if '/' in dateStr then
      var parts := Split(dateStr, '/');
      if |parts| == 2 then DateOfParts(parts, year) else None
    else DateOfWords(Words(dateStr), year)
  }

  /** "MM/DD" is the month and day in the statement year. */
  lemma MonthDayForm(m: string, d: string, year: int)
    requires IsNumber(m) && IsNumber(d)
    ensures ParseAmexDate(m + "/" + d, year) == MakeDate(year, DigitsValue(m), DigitsValue(d))
  {
    assert '/' !in m && '/' !in d;
    SplitTwo(m, d);
    DateOfTwo(m, d, year);
  }

  /** A slash date with a year part is not an Amex date. */
  lemma MonthDayYearRejected(m: string, d: string, y: string, year: int)
    requires '/' !in m && '/' !in d && '/' !in y
    ensures ParseAmexDate(m + "/" + d + "/" + y, year).None?
  {
    SplitThree(m, d, y);
  }

  /** "Mon DD" looks the month up by its first three letters. */
  lemma MonthNameForm(mon: string, d: string, year: int)
    requires IsWord(mon) && IsNumber(d) && '/' !in mon
    ensures ParseAmexDate(mon + " " + d, year)
      == if MonthOfName(mon).None? then None else MakeDate(year, MonthOfName(mon).value, DigitsValue(d))
  {
    SplitWords(mon, d);
  }

  // ------------------------------------------------------- classification

  const AmexKeywords: seq<(TransactionType, seq<string>)> := [
    (Payment, ["PAYMENT", "AUTOPAY", "THANK YOU", "ONLINE PMT"]),
    (Fee, ["ANNUAL FEE", "LATE FEE", "RETURN FEE"]),
    (Interest, ["INTEREST", "FINANCE CHARGE", "PLAN FEES"]),
    (CashAdvance, ["CASH ADVANCE", "ATM"]),
    (Credit, ["CREDIT", "REFUND", "ADJUSTMENT"])]

  /** `_classify_amex_transaction`: keyword search in the upper-cased description. */
  function ClassifyAmex(description: string): (r: TransactionType)
    ensures r in {Payment, Fee, Interest, CashAdvance, Credit, Purchase}
  {
    KeywordType(AmexKeywords, Upper(description))
  }

  /** The credit test of the Amex layouts, on the description and the converted amount. */
  predicate AmexCredit(description: string, amount: real)
  {
    StartsWith(Upper(description), "PAYMENT") || Contains(Upper(description), "CREDIT") || amount < 0.0
  }

  // ------------------------------------------------------------- one line

  /** The transaction a layout's groups stand for: the date, the stripped description, the reference
      code if the layout has one, and the converted amount made negative exactly by the credit test.
      A date that does not parse or an amount that does not convert gives None. */
  function FromGroups(dateStr: string, rawDesc: string, reference: Option<string>, amountStr: string, year: int)
    : (r: Option<Transaction>)
    ensures r.Some? <==> ParseAmexDate(dateStr, year).Some? && ToAmount(amountStr).Some?
    ensures r.Some? ==> (WellFormed(r.value)
      && r.value.date == ParseAmexDate(dateStr, year).value
      && r.value.description == Strip(rawDesc)
      && r.value.ttype == ClassifyAmex(r.value.description)
      && r.value.category.None? && r.value.reference == reference)
    ensures r.Some? ==> var a := ToAmount(amountStr).value;
      r.value.amount == ValidateAmount(CreditAdjusted(a, AmexCredit(r.value.description, a)))
    ensures r.Some? && AmexCredit(r.value.description, ToAmount(amountStr).value) ==> r.value.amount <= 0.0
    ensures r.Some? && !AmexCredit(r.value.description, ToAmount(amountStr).value) ==> r.value.amount >= 0.0
  {
    var description := Strip(rawDesc);
    match ParseAmexDate(dateStr, year)
    case None => None
    case Some(d) =>
      match ToAmount(amountStr)
      case None => None
      case Some(a) =>
        StripIdempotent(rawDesc);
        Some(LayoutTransaction(d, description, a, AmexCredit(description, a), ClassifyAmex(description), reference))
  }

  /** What line layout `k` makes of `line`: None if it does not match or its groups yield nothing,
      which sends the search on to the next layout. Only the third layout carries a reference. */
  function LineCandidate(k: nat, line: string, year: int): (r: Option<Transaction>)
    ensures r.Some? ==> (k < LineCount && MatchStart(LinePatterns[k], line).Some?
      && var mt := MatchStart(LinePatterns[k], line).value;
      && Capture(mt, line, 1).Some? && Capture(mt, line, 2).Some?
      && Capture(mt, line, 3).Some?
      && (k < 2 ==> r == FromGroups(Capture(mt, line, 1).value, Capture(mt, line, 2).value, None,
                                    Capture(mt, line, 3).value, year))
      && (k == 2 ==> (Capture(mt, line, 4).Some?
                      && r == FromGroups(Capture(mt, line, 1).value, Capture(mt, line, 2).value, Capture(mt, line, 3),
                                         Capture(mt, line, 4).value, year))))
  {
    if k >= LineCount then None
    else
      match MatchStart(LinePatterns[k], line)
      case None => None
      case Some(mt) =>
        var g1 := Capture(mt, line, 1);
        var g2 := Capture(mt, line, 2);
        var g3 := Capture(mt, line, 3);
        var g4 := Capture(mt, line, 4);
        if g1.None? || g2.None? || g3.None? then None
        else if k < 2 then FromGroups(g1.value, g2.value, None, g3.value, year)
        else if g4.None? then None
        else FromGroups(g1.value, g2.value, g3, g4.value, year)
  }

  /** The first layout, from the `k`-th on, that yields a transaction. */
  function FirstCandidate(line: string, year: int, k: nat): (r: Option<Transaction>)
    requires k <= LineCount
    ensures r.Some? ==> exists j :: (k <= j < LineCount && LineCandidate(j, line, year) == r
      && forall i :: k <= i < j ==> LineCandidate(i, line, year).None?)
    ensures r.None? <==> forall j :: k <= j < LineCount ==> LineCandidate(j, line, year).None?
    decreases LineCount - k
  {
    if k == LineCount then None
    else match LineCandidate(k, line, year)
      case Some(t) => Some(t)
      case None => FirstCandidate(line, year, k + 1)
  }

  /** `_parse_amex_transaction`: the first layout that yields a transaction, else the shared line logic. */
  function ParseAmexTransaction(line: string, year: int): (r: Option<Transaction>)
    ensures r.Some? ==> WellFormed(r.value)
    ensures FirstCandidate(line, year, 0).None? ==> r == ParseTransactionLine(line)
    ensures FirstCandidate(line, year, 0).Some? ==> exists j :: (0 <= j < LineCount && r == LineCandidate(j, line, year)
      && forall i :: 0 <= i < j ==> LineCandidate(i, line, year).None?)
  {
    var found := FirstCandidate(line, year, 0);
    if found.Some? then found else ParseTransactionLine(line)
  }

  // ------------------------------------------------------------- the loop

  /** `_should_ignore_line`: Amex's section headings, then the shared patterns. */
  const AmexPrefixRules: seq<(string, seq<Piece>)> := [
    ("AMERICAN EXPRESS", []),
    ("Member", [Plus(Space), Lit("Since")]),
    ("Account", [Plus(Space), Lit("Summary")]),
    ("Previous", [Plus(Space), Lit("Balance")]),
    ("Payments", [Plus(Space), Lit("and"), Plus(Space), Lit("Credits")]),
    ("Purchases", [Plus(Space), Lit("and"), Plus(Space), Lit("Adjustments")]),
    ("Fees", []),
    ("Interest", [Plus(Space), Lit("and"), Plus(Space), Lit("Finance"), Plus(Space), Lit("Charges")]),
    ("Page", [Plus(Space), Plus(Digit)]),
    ("Statement", [Plus(Space), Lit("Date")]),
    ("Payment", [Plus(Space), Lit("Due"), Plus(Space), Lit("Date")]),
    ("Membership", [Plus(Space), Lit("Rewards")])]

  predicate ShouldIgnoreAmex(line: string)
  {
    (exists k :: 0 <= k < |AmexPrefixRules| && Hits(Prefixed(AmexPrefixRules[k]), line, true)) || ShouldIgnore(line)
  }

  /** A line skipped by an Amex heading begins, in any case, with the heading's first word. */
  lemma AmexIgnoredByPrefix(line: string, k: nat)
    requires k < |AmexPrefixRules| && Hits(Prefixed(AmexPrefixRules[k]), line, true)
    ensures LitAt(AmexPrefixRules[k].0, line, 0, true)
  {
    PrefixedHit(AmexPrefixRules[k], line);
  }

  /** A line that begins, in any case, with an Amex heading is skipped, its words separated by
      single blanks; only `Page\s+\d+` is not a literal heading. */
  lemma AmexHeadingIgnored(line: string, k: nat)
    requires k < |AmexPrefixRules| && Heading(AmexPrefixRules[k]).Some?
    requires LitAt(Heading(AmexPrefixRules[k]).value, line, 0, true)
    ensures ShouldIgnoreAmex(line)
  {
    HeadingHit(AmexPrefixRules[k], line);
  }

  /** For instance, a line that begins "Member Since" in any case is skipped. */
  lemma MemberSinceIgnored(line: string)
    requires LitAt("Member Since", line, 0, true)
    ensures ShouldIgnoreAmex(line)
  {
    SpacedWord("Since");
    assert Heading(AmexPrefixRules[1]).value == "Member Since";
    AmexHeadingIgnored(line, 1);
  }

  /** The line parser with the statement year fixed. */
  function ParseWithYear(year: int): string -> Option<Transaction>
  {
    line => ParseAmexTransaction(line, year)
  }

  /** The transactions the Amex parser finds in `text`. */
  function Transactions(text: string): seq<Transaction>
  {
    Collect(Split(text, '\n'), ShouldIgnoreAmex, ParseWithYear(FirstYear(Split(text, '\n'))))
  }

  lemma TransactionsWellFormed(text: string)
    ensures AllWellFormed(Transactions(text))
  {
    CollectWellFormed(Split(text, '\n'), ShouldIgnoreAmex, ParseWithYear(FirstYear(Split(text, '\n'))));
  }

  /** `extract_transactions` of the Amex parser: the year scan, then the line loop. */
  method ExtractTransactions(text: string) returns (transactions: seq<Transaction>)
    ensures transactions == Transactions(text)
    ensures AllWellFormed(transactions)
  {
    var lines := Split(text, '\n');
    var year := ScanYear(lines);
    transactions := CollectLines(lines, ShouldIgnoreAmex, ParseWithYear(year));
    CollectWellFormed(lines, ShouldIgnoreAmex, ParseWithYear(year));
  }

  // ------------------------------------------------------------- metadata

  const Label: seq<Piece> := [Opt(OneOf(":")), Star(Space)]

  const StatementDatePattern: Regex := Ci(Spaced1(["Statement", "Date"]) + Label + Grp(1, NamedDateText))
  const DueDatePattern: Regex := Ci(Spaced1(["Payment", "Due", "Date"]) + Label + Grp(1, NamedDateText))

  /** `Statement\s+Period`, `Billing\s+Period` and `Statement\s+Closing\s+Date`, each followed by
      `:?\s*([^\n]+)`. */
  const PeriodPatterns: seq<Regex> := [
    Ci(Spaced1(["Statement", "Period"]) + Label + Grp(1, [Plus(NotNewline)])),
    Ci(Spaced1(["Billing", "Period"]) + Label + Grp(1, [Plus(NotNewline)])),
    Ci(Spaced1(["Statement", "Closing", "Date"]) + Label + Grp(1, [Plus(NotNewline)]))]

  const BalancePatterns: seq<Regex> := [
    Ci(Spaced1(["New", "Balance"]) + Label + [Opt(OneOf("$"))] + Grp(1, AmountNumber)),
    Ci(Spaced1(["Total", "Balance"]) + Label + [Opt(OneOf("$"))] + Grp(1, AmountNumber)),
    Ci(Spaced1(["Current", "Balance"]) + Label + [Opt(OneOf("$"))] + Grp(1, AmountNumber))]

  const EndingPattern: Regex := Ci(Spaced1(["Account", "Ending", "in"]) + Label + Grp(1, [Times(Digit, 5, 5)]))
  const NumberPattern: Regex :=
    Ci(Spaced1(["Account", "Number"]) + Label + [Star(OneOf("*-x"))] + Grp(1, [Times(Digit, 4, 5)]))

  /** `_extract_statement_period`: the statement date if there is one, else the stripped rest of
      the first period line. */
  function StatementPeriodOf(text: string): (r: Option<string>)
    ensures SearchGroup(StatementDatePattern, text, 1).Some? ==>
      r == Some("Statement Date: " + SearchGroup(StatementDatePattern, text, 1).value)
    ensures SearchGroup(StatementDatePattern, text, 1).None? ==>
      (r.Some? <==> FirstGroup(PeriodPatterns, text, 1).Some?)
    ensures SearchGroup(StatementDatePattern, text, 1).None? && r.Some? ==>
      r.value == Strip(FirstGroup(PeriodPatterns, text, 1).value) && Strip(r.value) == r.value
  {
    match SearchGroup(StatementDatePattern, text, 1)
    case Some(g) => Some("Statement Date: " + g)
    case None =>
      match FirstGroup(PeriodPatterns, text, 1)
      case None => None
      case Some(g) => StripIdempotent(g); Some(Strip(g))
  }

  /** `_extract_due_date` */
  function DueDateOf(text: string): Option<string>
  {
    SearchGroup(DueDatePattern, text, 1)
  }

  /** `_extract_balance` */
  function BalanceOf(text: string): (r: Option<string>)
    ensures r.Some? <==> FirstGroup(BalancePatterns, text, 1).Some?
    ensures r.Some? ==> r.value == "$" + FirstGroup(BalancePatterns, text, 1).value
  {
    match FirstGroup(BalancePatterns, text, 1)
    case None => None
    case Some(g) => Some("$" + g)
  }

  /** `_extract_account_number`: five masking stars before the five digits of "Account Ending in",
      else four before the digits of "Account Number". */
  function AccountNumberOf(text: string): (r: Option<string>)
    ensures SearchGroup(EndingPattern, text, 1).Some? ==> r == Some("*****" + SearchGroup(EndingPattern, text, 1).value)
    ensures SearchGroup(EndingPattern, text, 1).None? ==>
      (r.Some? <==> SearchGroup(NumberPattern, text, 1).Some?)
    ensures SearchGroup(EndingPattern, text, 1).None? && r.Some? ==>
      r.value == "****" + SearchGroup(NumberPattern, text, 1).value
  {
    match SearchGroup(EndingPattern, text, 1)
    case Some(g) => Some("*****" + g)
    case None =>
      match SearchGroup(NumberPattern, text, 1)
      case None => None
      case Some(g) => Some("****" + g)
  }

  /** `extract_metadata` of the Amex parser. */
  function ExtractMetadata(text: string): (md: Metadata)
    ensures md.bankType == Amex && md.bankName == "American Express"
    ensures md.statementPeriod == Strip(OrElse(StatementPeriodOf(text), "Unknown"))
    ensures md.balance == OrElse(BalanceOf(text), "0.00")
    ensures md.accountNumber == AccountNumberOf(text)
    ensures md.dueDate == ValidateDateField(DueDateOf(text)) && md.nextClosing.None?
  {
    NewMetadata("American Express", Amex, AccountNumberOf(text), OrElse(StatementPeriodOf(text), "Unknown"),
                DueDateOf(text), None, OrElse(BalanceOf(text), "0.00"), None)
  }

  // ------------------------------------------------------------ statement

  function CountNote(count: nat): string
  {
    "Parsed " + NatToString(count) + " transactions from Amex statement"
  }

  /** The processing notes of the Amex parser: the count, and the file name when one is given. */
  function AmexNotes(count: nat, filename: Option<string>): (notes: seq<string>)
    ensures |notes| == (if filename.Some? && filename.value != [] then 2 else 1)
    ensures notes[0] == CountNote(count)
  {
    [CountNote(count)] + (if filename.Some? && filename.value != [] then ["Source file: " + filename.value] else [])
  }

  /** `parse_statement` of the Amex parser. */
  method ParseStatement(text: string, filename: Option<string>) returns (statement: ProcessedStatement)
    ensures fresh(statement) && statement.Valid()
    ensures statement.transactions == Transactions(text)
    ensures statement.metadata == ExtractMetadata(text) && statement.rawText == Some(text)
    ensures statement.notes == AmexNotes(|statement.transactions|, filename)
  {
    var metadata := ExtractMetadata(text);
    var transactions := ExtractTransactions(text);
    statement := new ProcessedStatement(transactions, metadata, Some(text), AmexNotes(|transactions|, filename));
  }
}
