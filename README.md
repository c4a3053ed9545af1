# Bank statement interpretation, modelled in Dafny

The repository turns the text of a credit-card statement into CSV-ready rows:

- a **bank detector** scores each known bank from pattern counts on normalised text and picks the first highest score that reaches a threshold, else the generic tag;
- a **parser registry** maps each bank tag to a parser class;
- a family of **statement parsers** (a shared base, Chase, American Express, Banco Nación, generic) turns lines into transactions and reads metadata;
- a **data cleaner** re-cases descriptions, rewrites merchant names, assigns categories, rounds amounts to cents, checks a date window, removes duplicates and counts suspicious entries;
- the **result models** and the **processor** combine these into success or error replies, after the uploaded file has passed its guards.

This project models that pipeline from the moment the statement text is available.

One Dafny module stands for each source file:

| module | source file |
|---|---|
| `StatementData` | `backend/models/statement_data.py` |
| `Exceptions` | `backend/utils/exceptions.py` |
| `BankDetection` | `backend/services/bank_detection.py` |
| `ParserRegistry` | `backend/services/bank_parsers/__init__.py` |
| `BaseParser` | `backend/services/bank_parsers/base_parser.py` |
| `ChaseParser` | `backend/services/bank_parsers/chase_parser.py` |
| `AmexParser` | `backend/services/bank_parsers/amex_parser.py` |
| `BancoNacionParser` | `backend/services/bank_parsers/banco_nacion_parser.py` |
| `GenericParser` | `backend/services/bank_parsers/generic_parser.py` |
| `DataCleaner` | `backend/utils/data_cleaner.py` |
| `PdfProcessor` | `backend/services/pdf_processor.py` |

Five supporting modules give Python's building blocks to the rest:

- `Wrappers`: `Option`.
- `Text`: characters and the `str` methods used.
- `Dates`: calendar dates as year, month and day, with validity, order, day numbers and the ISO 8601 `YYYY-MM-DD` form.
- `Money`: amounts as exact decimals, half-even rounding to cents, and `str` of a cents amount.
- `Rx`: the fragment of Python's `re` that the patterns use.

The model keeps the source's own form:

- **Loops are methods.** Each loop of the source is a `method` with a `while` loop, proved equal to a specification function. This covers the line loops of the parsers, the Banco Nación section state machine, the year scans, the detector's score loops, the cleaner's loops and the CSV row loop.
- **Properties are proved on the specification functions.**
- **Mutable objects are classes.** The two objects the source updates in place are classes with `modifies` clauses:
  - the registry dictionary (`ParserRegistry.Registry`);
  - the parsed statement (`StatementData.ProcessedStatement`), whose transactions, notes, count and raw text are reassigned by the cleaner and the processor.

Every regular expression of the source is written out as data in `Rx`. `Rx` matches by backtracking in Python's order:

- greedy repetition tries the longest run first, and lazy repetition the shortest;
- alternatives are tried left to right;
- `search` takes the leftmost match;
- `findall` and `sub` work through non-overlapping matches from left to right.

Amounts and scores are exact reals:

- The detector's 0.3, 0.2 and 0.1 are exact.
- On exact reals, Python's `round(v, 2)` and `Decimal.quantize(Decimal('0.01'))` are both half-even rounding to cents, and they agree. On floats they can differ; "## Left out" says how.
- "Today" and the current year are parameters.

## Model

| member | source | states |
|---|---|---|
| StatementData.TransactionTypeOf | backend/models/statement_data.py:10-19 | looking a type up by its value finds the member carrying that value |
| StatementData.TypeValueRoundTrip | backend/models/statement_data.py:10-19 | every transaction type is recovered from its value, so the values are distinct |
| StatementData.ValidateAmount | backend/models/statement_data.py:44-48 | the validated amount is in whole cents, within half a cent of the input, and zero stays zero |
| StatementData.ValidateAmountKeepsCents | backend/models/statement_data.py:44-48 | an amount already in cents passes the validator unchanged |
| StatementData.ValidateAmountSign | backend/models/statement_data.py:44-48 | rounding to cents never flips the sign of an amount |
| StatementData.ValidateAmountIdempotent | backend/models/statement_data.py:44-48 | validating twice is the same as validating once |
| StatementData.ValidateDescription | backend/models/statement_data.py:50-52 | the stored description is the stripped input, and stripping it again changes nothing |
| StatementData.NewTransaction | backend/models/statement_data.py:35-52 | a constructed transaction is well formed, keeps date, type, category and reference, stores the stripped description and the validated amount, and keeps an amount already in cents |
| StatementData.ValidateDateField | backend/models/statement_data.py:69-73 | a present date-like field is stored stripped and an absent one stays absent |
| StatementData.NewMetadata | backend/models/statement_data.py:55-73 | the metadata keeps the fields given, strips the period and date fields, and leaves credit limit, available credit and count at their defaults |
| StatementData.RowOf | backend/models/statement_data.py:92-100 | a CSV row has one cell per header |
| StatementData.RowRoundTrip | backend/models/statement_data.py:92-100 | the row's cells give back the transaction's date (ISO form), description, amount (as `str` of a float in cents, written positionally and with no sign on zero) and type; the last two cells are the category and the reference, or "" when absent |
| StatementData.RowsOf | backend/models/statement_data.py:88-101 | one row per transaction, in order |
| StatementData.RowsSnoc | backend/models/statement_data.py:92-100 | one more transaction adds its row at the end and changes no earlier row |
| StatementData.ProcessedStatement.Rows | backend/models/statement_data.py:88-101 | the row loop builds exactly the rows of the statement's transactions |
| StatementData.ProcessedStatement.constructor | backend/models/statement_data.py:76-81 | a statement holds the transactions, metadata, raw text and notes it was made with |
| StatementData.SuccessResponse | backend/models/statement_data.py:111-129 | a success result has no errors, the six headers, one row per transaction, the transaction count and the metadata summary fields |
| StatementData.SuccessIgnoresStoredCount | backend/models/statement_data.py:121 | the count returned to the client is the length of the list, whatever count the metadata holds |
| StatementData.ErrorResponse | backend/models/statement_data.py:131-138 | an error result has no data, the given message, and an absent error list becomes empty |
| Exceptions.NewConverterError | backend/utils/exceptions.py:9-13 | an error keeps its kind, message and code, and absent details become the empty dictionary |
| Exceptions.CreateErrorResponse | backend/utils/exceptions.py:67-83 | the reply is unsuccessful, carries the error's message, code and details, and lists the message as its only error |
| Exceptions.ErrorCodesAreIdentity | backend/utils/exceptions.py:52-64 | the table has eleven codes and maps each code to itself |
| ParserRegistry.DefaultClass | backend/services/bank_parsers/__init__.py:18-29 | Chase, American Express and Banco Nación each have their own parser class, and every other tag uses the generic parser |
| ParserRegistry.ClassFor | backend/services/bank_parsers/__init__.py:42-47 | a lookup gives the registered class, and an unregistered tag falls back to the generic parser |
| ParserRegistry.InitialRegistry | backend/services/bank_parsers/__init__.py:18-29 | the initial registry lists every bank tag exactly once, and looking any tag up gives its default class |
| ParserRegistry.ClassForUpdate | backend/services/bank_parsers/__init__.py:71 | registering a class changes the lookup of that tag to the class and leaves every other tag's lookup alone |
| ParserRegistry.Registry.constructor | backend/services/bank_parsers/__init__.py:18-29 | the registry starts with the nine entries in the order they are written |
| ParserRegistry.Registry.GetParserForBank | backend/services/bank_parsers/__init__.py:32-47 | there is always a parser: a new object of the class the lookup gives |
| ParserRegistry.Registry.GetSupportedBanks | backend/services/bank_parsers/__init__.py:50-57 | the supported tags are the dictionary's keys, in insertion order, each once |
| ParserRegistry.Registry.RegisterParser | backend/services/bank_parsers/__init__.py:60-71 | a class not derived from the base parser is refused with the ValueError message and nothing changes; otherwise that tag's entry alone is set, and a new tag goes to the end of the key order |
| PdfProcessor.IntToString | backend/services/pdf_processor.py:176 | an integer is written with its digits and a leading minus sign when negative |
| PdfProcessor.RoundHalfEven | backend/services/pdf_processor.py:176 | the rounded quotient is within half a unit of the exact one, and an exact tie goes to the even neighbour |
| PdfProcessor.SizeTextAccurate | backend/services/pdf_processor.py:174-176 | the size shown in the error message is within half a tenth of a mebibyte of the exact size |
| PdfProcessor.ValidatePdfContent | backend/services/pdf_processor.py:162-186 | content is valid exactly when it is within the size limit, starts with `%PDF-` and is at least 1024 bytes, and then there is no message; otherwise the message is that of the first check that fails: size, then header, then minimum size |
| PdfProcessor.OversizedWhateverItHolds | backend/services/pdf_processor.py:174-176 | an upload over the size limit is refused for its size alone, whatever its bytes are |
| PdfProcessor.NonPdfRejected | backend/services/pdf_processor.py:178-180 | content without the `%PDF-` header is never valid, whatever the size limit |
| PdfProcessor.ValidationExamples | backend/test_basic.py:164-173 | the short upload with a header is refused as too small, and the text without a header as not a PDF |
| PdfProcessor.ErrorFor | backend/services/pdf_processor.py:100-111 | a processing error's message becomes the single error line; any other exception gives only "Internal error: " and its type name |
| PdfProcessor.UnexpectedErrorHidesMessage | backend/services/pdf_processor.py:106-111 | the message of an unexpected exception never reaches the result |
| PdfProcessor.ChosenClass | backend/services/pdf_processor.py:71-76 | the class looked up for the detected tag is one of the package's own parsers |
| PdfProcessor.CompleteStatement | backend/services/pdf_processor.py:86-98 | a statement without transactions gives the "No transactions found" error and is left as it is; otherwise the count is written into its metadata, the raw text is set, and the success result is built from it |
| PdfProcessor.ParseDetected | backend/services/pdf_processor.py:71-98 | detection, the registry lookup, parsing and completion give the result that the chosen parser's statement calls for |
| PdfProcessor.ProcessPdf | backend/services/pdf_processor.py:61-111 | the method returns exactly the decision chain's result for what extraction produced |
| PdfProcessor.ResultOfShape | backend/services/pdf_processor.py:86-98 | after parsing, the result is a success exactly when there are transactions, and then it carries them as rows with their count and the bank name |
| PdfProcessor.OutcomeSuccess | backend/services/pdf_processor.py:61-111 | processing succeeds exactly when text was extracted, it is not blank, and the chosen parser finds at least one transaction; a success carries those rows and their count, and every failure carries no data and one error line |
| PdfProcessor.BlankTextRefused | backend/services/pdf_processor.py:65-69 | blank text gives the "Unable to extract text" error before detection, whatever the registry and the parsers |
| PdfProcessor.InitialRegistryOutcome | backend/services/pdf_processor.py:71-84 | with the registry as the package creates it, the detected tag's default parser class parses the text |
| PdfProcessor.GetProcessingStats | backend/services/pdf_processor.py:198-211 | a failed result, or one without data, gives failure statistics with a zero count; a success reports the summary's count, bank, period and balance |
| PdfProcessor.StatsOfOutcome | backend/services/pdf_processor.py:198-211 | the statistics of a processing result report success exactly when the result does, and count the transactions the chosen parser found, or zero |
| BankDetection.SecondaryOnlyForThree | backend/services/bank_detection.py:98-117 | only Chase, American Express and Citibank have secondary indicators |
| BankDetection.CleanForDetection | backend/services/bank_detection.py:162-168 | the cleaned text is the stripped text with every whitespace run made one space, and every character other than a word character, whitespace, `.`, `-` or `@` is replaced by a space, so the length stays the same |
| BankDetection.PrimarySum | backend/services/bank_detection.py:182-191 | the loop over the primary patterns adds each pattern's capped contribution and counts the patterns that occur |
| BankDetection.SecondaryBonus | backend/services/bank_detection.py:197-206 | each secondary indicator that occurs adds 0.1 |
| BankDetection.CalculateBankScore | backend/services/bank_detection.py:170-208 | the method's score is the bank's contribution sum, boosted by 20% for each distinct pattern after the first, plus the secondary bonus, capped at 2.0 |
| BankDetection.BaseSumBounds | backend/services/bank_detection.py:186-191 | each occurring pattern contributes more than 0 and at most 1.0, so the sum is at most the number of distinct matches, which is at most the number of patterns |
| BankDetection.ScoreBounds | backend/services/bank_detection.py:180-208 | every score lies between 0.0 and 2.0 |
| BankDetection.BaseSumMonotone | backend/services/bank_detection.py:186-191 | more occurrences of each pattern never lower the sum or the number of distinct matches |
| BankDetection.BonusMonotone | backend/services/bank_detection.py:204-206 | more secondary indicators found never lower the bonus |
| BankDetection.BoostMonotone | backend/services/bank_detection.py:194-195 | the boost grows with the base score and with the number of distinct matches |
| BankDetection.ScoreMonotone | backend/services/bank_detection.py:170-208 | a text with at least as many occurrences of every pattern and indicator scores at least as high |
| BankDetection.BestPositiveIsFirstMax | backend/services/bank_detection.py:141-150 | among the positive scores the best bank is the first one with the largest score, and there is none exactly when no score is positive |
| BankDetection.DecideChoosesFirstMax | backend/services/bank_detection.py:138-160 | a bank is detected exactly when its score is positive, reaches the threshold, is the largest, and no earlier bank has the same score |
| BankDetection.BlankIsGeneric | backend/services/bank_detection.py:130-132 | blank text is detected as generic whatever the threshold |
| BankDetection.BelowThresholdIsGeneric | backend/services/bank_detection.py:155-158 | if no bank reaches the threshold, the result is generic |
| BankDetection.ScoredBanksDistinct | backend/services/bank_detection.py:20-88 | each bank appears once in the pattern table, and the generic tag is not in it |
| BankDetection.SingleMatchScore | backend/services/bank_detection.py:186-208 | one occurrence of a single pattern, with no secondary indicator, scores 0.3 |
| BankDetection.AmexExample | backend/services/bank_detection.py:186-195 | given counts of two primary patterns found once each and no secondary ones, the score is 0.72, and a bank scoring that while the others score nothing is chosen |
| BankDetection.ChaseTestExample | backend/services/bank_detection.py:155-195 | given counts of one Chase primary pattern found once, no secondary one and no other bank scoring, the score is 0.3, below the default threshold 0.6, so the generic tag is chosen |
| BankDetection.ScoreBank | backend/services/bank_detection.py:139-140 | the score computed for a bank is that bank's score on the cleaned text |
| BankDetection.PositiveScoresLookup | backend/services/bank_detection.py:141-142 | the score dictionary holds exactly the banks whose score is positive, with those scores |
| BankDetection.PositiveScoreMap | backend/services/bank_detection.py:138-142 | the loop builds the dictionary of positive scores in table order |
| BankDetection.FirstBest | backend/services/bank_detection.py:149-150 | `max` over the dictionary picks the first positive maximal score |
| BankDetection.DetectBank | backend/services/bank_detection.py:119-160 | the method returns what the decision on the cleaned text's scores gives: generic for blank text, for no positive score or for a best score below the threshold, otherwise the best bank |
| BankDetection.MatchedAmongFacts | backend/services/bank_detection.py:227-235 | the matched-pattern list names each occurring pattern once, in pattern order, with its index, source and number of matches, and no other pattern |
| BankDetection.BankDetailOf | backend/services/bank_detection.py:223-244 | one bank's detail holds its matched patterns, their total matches, their count and the bank's score |
| BankDetection.DetailsFor | backend/services/bank_detection.py:223-244 | the loop gives every listed bank its detail, and holds no other bank |
| BankDetection.ScoredBanksAll | backend/services/bank_detection.py:20-88 | the pattern table has a row for every tag except the generic one |
| BankDetection.GetBankConfidenceDetails | backend/services/bank_detection.py:210-246 | there is a detail for every bank with patterns, and only for them, each computed on the cleaned text |
| BankDetection.ValidateDetection | backend/services/bank_detection.py:248-260 | the answer is true exactly when detection at the default threshold of 0.6 gives the expected bank |
| BaseParser.MonthOfName | backend/services/bank_parsers/base_parser.py:192-197 | a month name is known exactly when its first three letters, in lower case, are in the table, and it gives that position, from 1 to 12 |
| BaseParser.DateFromGroups | backend/services/bank_parsers/base_parser.py:188-217 | the groups of a date pattern give only real calendar dates |
| BaseParser.DateGroupsOrder | backend/services/bank_parsers/base_parser.py:201-215 | the slash and dash patterns read month, day, year and the year-first pattern reads year, month, day; a year below 100 gets 2000 added; the month-name pattern needs a known month |
| BaseParser.ExtractDateFrom | backend/services/bank_parsers/base_parser.py:184-220 | the date is that of the first pattern, in order, whose first match is a real date; an impossible date falls through to the next pattern, and there is no date only when no pattern gives one |
| BaseParser.ExtractDate | backend/services/bank_parsers/base_parser.py:182-220 | a date found in a line is always a real calendar date |
| BaseParser.ToAmountNoMinus | backend/services/bank_parsers/base_parser.py:238 | text without a minus sign never converts to a negative amount |
| BaseParser.ExtractAmountFrom | backend/services/bank_parsers/base_parser.py:231-243 | the amount is the last match of the first pattern whose last match converts; a failed conversion tries the next pattern |
| BaseParser.ExtractAmount | backend/services/bank_parsers/base_parser.py:222-243 | there is no amount only when no pattern's last match converts; the credit flag is set exactly when there is an amount and the line holds "CR" in upper case or a `-` |
| BaseParser.Tidy | backend/services/bank_parsers/base_parser.py:258-263 | the cleaned-up description has no `$`, no leading or trailing space and single spaces only |
| BaseParser.ExtractDescription | backend/services/bank_parsers/base_parser.py:245-263 | the loops remove the date and amount patterns in order and then the noise, giving the line's description |
| BaseParser.ClassifyFrom | backend/services/bank_parsers/base_parser.py:267-272 | the type is the first in the order payment, fee, interest, cash advance, credit with a keyword in the description, and a purchase exactly when none has one |
| BaseParser.Classify | backend/services/bank_parsers/base_parser.py:265-272 | the same, from the first type of the table on; the classifier never gives a transfer or other |
| BaseParser.ShouldIgnore | backend/services/bank_parsers/base_parser.py:274-293 | a line is skipped exactly when one of the listed patterns matches at its start, case-insensitively |
| BaseParser.IgnoredByPrefix | backend/services/bank_parsers/base_parser.py:277-290 | a line skipped by a word pattern begins with that word, in any case |
| BaseParser.Heading | backend/services/bank_parsers/base_parser.py:277-290 | a rule of words and `\s+` steps has a heading text, the words joined by single blanks, and a rule asking for digits has none |
| BaseParser.HeadingHit | backend/services/bank_parsers/base_parser.py:277-290 | a line that begins with a rule's heading, in any case, is matched by the rule |
| BaseParser.WordHitIff | backend/services/bank_parsers/base_parser.py:277-290 | a bare-word rule matches a line exactly when the line begins with the word, in any case |
| BaseParser.HeadingIgnored | backend/services/bank_parsers/base_parser.py:277-290 | a line that begins with a literal heading of the table, in any case, is skipped |
| BaseParser.StatementDateIgnored | backend/services/bank_parsers/base_parser.py:279 | a line that begins with "Statement Date", in any case, is skipped |
| BaseParser.KeywordTypeFrom | backend/services/bank_parsers/chase_parser.py:174-190 | the bank classifiers give the type of the first table row with a keyword in the text, and a purchase when no row has one |
| BaseParser.KeywordTypeFirstRow | backend/services/bank_parsers/chase_parser.py:179-181 | a keyword of the first row decides the type, whatever else the text holds |
| BaseParser.OrElse | backend/services/bank_parsers/chase_parser.py:82-84 | `value or default`: an absent or empty value gives the default, any other the value |
| BaseParser.YearValue | backend/services/bank_parsers/chase_parser.py:97-99 | a year token is read as its number, between 2000 and 2099 |
| BaseParser.YearTokens | backend/services/bank_parsers/generic_parser.py:222 | every token the year search finds is "20" followed by two digits |
| BaseParser.FirstYearIn | backend/services/bank_parsers/chase_parser.py:97-99 | a line's year is between 2000 and 2099, and there is one exactly when the year pattern occurs in the line |
| BaseParser.FirstYear | backend/services/bank_parsers/chase_parser.py:95-103 | the statement year is that of the first line with a year token, and 2024 when no line has one |
| BaseParser.ScanYear | backend/services/bank_parsers/chase_parser.py:95-103 | the scan loop stops at the first line with a year token and gives that statement year |
| BaseParser.Signed | backend/services/bank_parsers/base_parser.py:170-173 | a credit becomes minus the magnitude and a debit plus the magnitude |
| BaseParser.ParseTransactionLine | backend/services/bank_parsers/base_parser.py:139-180 | a parsed line gives a well-formed transaction |
| BaseParser.ParseLineDefined | backend/services/bank_parsers/base_parser.py:151-164 | a line gives a transaction exactly when it has a date, an amount and a non-blank description |
| BaseParser.ParseLineFields | backend/services/bank_parsers/base_parser.py:166-180 | the transaction has the line's date and description and the description's type; its amount is negative, as the magnitude, exactly when the line is a credit or the type is payment or credit, so a purchase line holding `-` is negative |
| BaseParser.SignedTransaction | backend/services/bank_parsers/base_parser.py:170-180 | the stored amount has the sign the rule asks for and the cent-rounded magnitude of the parsed amount |
| BaseParser.CollectAppend | backend/services/bank_parsers/base_parser.py:125-137 | the transactions of two runs of lines are those of the first followed by those of the second, so line order is kept |
| BaseParser.CollectSources | backend/services/bank_parsers/base_parser.py:125-137 | there is at most one transaction per line, and each comes from a non-blank line that is not skipped |
| BaseParser.SkippedLineAddsNothing | backend/services/bank_parsers/base_parser.py:129-131 | a blank or skipped line adds nothing, wherever it stands |
| BaseParser.CollectStep | backend/services/bank_parsers/base_parser.py:128-135 | one more line adds exactly what that line contributes |
| BaseParser.CollectWellFormed | backend/services/bank_parsers/base_parser.py:133-135 | if the line parser builds only well-formed transactions, so does the loop |
| BaseParser.CollectLines | backend/services/bank_parsers/base_parser.py:125-137 | the loop strips each line, skips blank and ignored lines, and appends each parsed transaction in line order |
| BaseParser.ExtractTransactions | backend/services/bank_parsers/base_parser.py:114-137 | the method gives the collected transactions of the text's lines, split at newlines |
| BaseParser.ZeroCount | backend/services/bank_parsers/base_parser.py:342 | the number of zero amounts is at most the number of transactions |
| BaseParser.ExtremesBound | backend/services/bank_parsers/base_parser.py:349 | the largest and smallest day numbers bound all of them, and each is one of them |
| BaseParser.DateSpanIsWidest | backend/services/bank_parsers/base_parser.py:347-350 | the date range is the distance between two transaction dates, and no two are further apart |
| BaseParser.WarningListExactly | backend/services/bank_parsers/base_parser.py:330-351 | each check's warning is in the list exactly when that check fails, with the figure it reports, in the order the checks run |
| BaseParser.WarningsExactly | backend/services/bank_parsers/base_parser.py:320-352 | warnings name the missing transactions, period and balance exactly when each is missing, the zero count exactly when zeros exceed a tenth of the transactions, and the date range exactly when it exceeds 35 days; there are at most five |
| BaseParser.CountZeros | backend/services/bank_parsers/base_parser.py:342 | the loop counts the zero amounts |
| BaseParser.Extremes | backend/services/bank_parsers/base_parser.py:349 | one pass finds the largest and the smallest value |
| BaseParser.DateRange | backend/services/bank_parsers/base_parser.py:347-349 | the range is the span between the earliest and the latest date |
| BaseParser.ValidateParsedData | backend/services/bank_parsers/base_parser.py:320-352 | the method's warnings are the messages of exactly the checks that fail |
| ChaseParser.ParseChaseDate | backend/services/bank_parsers/chase_parser.py:157-172 | only the slash forms give a date, and only a real one |
| ChaseParser.MonthDayForm | backend/services/bank_parsers/chase_parser.py:161-165 | "MM/DD" is that month and day in the statement year |
| ChaseParser.MonthDayYearForm | backend/services/bank_parsers/chase_parser.py:166-170 | "MM/DD/YY" ignores the statement year, and a year below 100 gets 2000 added |
| ChaseParser.ClassifyChase | backend/services/bank_parsers/chase_parser.py:174-190 | the type is chosen from the table in the order payment, fee, interest, cash advance, credit, else purchase |
| ChaseParser.FromGroups | backend/services/bank_parsers/chase_parser.py:122-152 | a layout's groups give a transaction exactly when the date and amount parse; a description that starts with PAYMENT or holds CREDIT makes the amount minus the captured amount's magnitude, rounded to cents, otherwise it is the rounded captured amount |
| ChaseParser.PaymentLine | backend/services/bank_parsers/chase_parser.py:136-142 | a description starting with PAYMENT is a payment with a non-positive amount |
| ChaseParser.FirstCandidate | backend/services/bank_parsers/chase_parser.py:119-152 | the transaction is that of the first layout that yields one, and there is none only when no layout yields one |
| ChaseParser.ParseChaseTransaction | backend/services/bank_parsers/chase_parser.py:116-155 | the first layout that yields a transaction wins, and without one the shared line logic decides |
| ChaseParser.ChaseIgnoredByPrefix | backend/services/bank_parsers/chase_parser.py:233-250 | a line skipped by a Chase heading begins with that heading, in any case |
| ChaseParser.ChaseHeadingIgnored | backend/services/bank_parsers/chase_parser.py:233-250 | a line that begins with a literal Chase heading, in any case, is skipped |
| ChaseParser.PreviousBalanceIgnored | backend/services/bank_parsers/chase_parser.py:233-250 | a line that begins with "Previous Balance", in any case, is skipped |
| ChaseParser.TransactionsWellFormed | backend/services/bank_parsers/chase_parser.py:89-114 | every transaction the parser finds is well formed |
| ChaseParser.ExtractTransactions | backend/services/bank_parsers/chase_parser.py:89-114 | the year scan and then the line loop give the Chase transactions of the text |
| ChaseParser.StatementPeriodOf | backend/services/bank_parsers/chase_parser.py:192-210 | the statement date wins when there is one; otherwise the first of the statement and billing period lines, stripped |
| ChaseParser.BalanceOf | backend/services/bank_parsers/chase_parser.py:219-224 | the balance is "$" and the new-balance digits, when the line is there |
| ChaseParser.AccountNumberOf | backend/services/bank_parsers/chase_parser.py:226-231 | the account number is "****" and the four digits found, when there are any |
| ChaseParser.ExtractMetadata | backend/services/bank_parsers/chase_parser.py:73-87 | the metadata names Chase, defaults the period to "Unknown" and the balance to "0.00", and has no next closing date |
| ChaseParser.ChaseNotes | backend/services/bank_parsers/chase_parser.py:62-69 | the notes give the count, and the file name when one is given |
| ChaseParser.ParseStatement | backend/services/bank_parsers/chase_parser.py:53-71 | the statement holds the text's transactions, metadata, raw text and notes |
| AmexParser.ParseAmexDate | backend/services/bank_parsers/amex_parser.py:163-189 | a date is always a real one in the statement year |
| AmexParser.MonthDayForm | backend/services/bank_parsers/amex_parser.py:166-171 | "MM/DD" is that month and day in the statement year |
| AmexParser.MonthDayYearRejected | backend/services/bank_parsers/amex_parser.py:166-189 | a slash date with a year part gives no date |
| AmexParser.MonthNameForm | backend/services/bank_parsers/amex_parser.py:172-186 | "Mon DD" looks the month up by its first three letters |
| AmexParser.ClassifyAmex | backend/services/bank_parsers/amex_parser.py:191-207 | the type is chosen from the table in the order payment, fee, interest, cash advance, credit, else purchase |
| AmexParser.FromGroups | backend/services/bank_parsers/amex_parser.py:118-155 | a layout's groups give a transaction exactly when the date and amount parse; the reference is kept; a credit line (PAYMENT first, CREDIT inside or a negative amount) has minus the captured amount's magnitude rounded to cents, and any other line the rounded captured amount, which is never negative |
| AmexParser.FirstCandidate | backend/services/bank_parsers/amex_parser.py:114-158 | the transaction is that of the first layout that yields one, and there is none only when no layout yields one |
| AmexParser.ParseAmexTransaction | backend/services/bank_parsers/amex_parser.py:112-161 | the first layout that yields a transaction wins, and without one the shared line logic decides |
| AmexParser.AmexIgnoredByPrefix | backend/services/bank_parsers/amex_parser.py:263-283 | a line skipped by an Amex heading begins with that heading's first word, in any case |
| AmexParser.AmexHeadingIgnored | backend/services/bank_parsers/amex_parser.py:263-283 | a line that begins with a literal Amex heading, in any case and with its words separated by single blanks, is skipped |
| AmexParser.MemberSinceIgnored | backend/services/bank_parsers/amex_parser.py:263-283 | a line that begins with "Member Since", in any case, is skipped |
| AmexParser.TransactionsWellFormed | backend/services/bank_parsers/amex_parser.py:85-110 | every transaction the parser finds is well formed |
| AmexParser.ExtractTransactions | backend/services/bank_parsers/amex_parser.py:85-110 | the year scan and then the line loop give the Amex transactions of the text |
| AmexParser.StatementPeriodOf | backend/services/bank_parsers/amex_parser.py:209-227 | the statement date wins when there is one; otherwise the first period line, stripped |
| AmexParser.BalanceOf | backend/services/bank_parsers/amex_parser.py:236-248 | the balance is "$" and the digits of the first of the new, total and current balance lines |
| AmexParser.AccountNumberOf | backend/services/bank_parsers/amex_parser.py:250-261 | "Account Ending in" gives five stars and its five digits; otherwise "Account Number" gives four stars and its digits; otherwise there is none |
| AmexParser.ExtractMetadata | backend/services/bank_parsers/amex_parser.py:69-83 | the metadata names American Express, defaults the period to "Unknown" and the balance to "0.00", and has no next closing date |
| AmexParser.AmexNotes | backend/services/bank_parsers/amex_parser.py:58-60 | the notes give the count, and the file name when one is given |
| AmexParser.ParseStatement | backend/services/bank_parsers/amex_parser.py:53-67 | the statement holds the text's transactions, metadata, raw text and notes |
| BancoNacionParser.SpanishMonth | backend/services/bank_parsers/banco_nacion_parser.py:32-40 | a month name is known exactly when it is in the Spanish table, abbreviations and full names, and it gives a month from 1 to 12 |
| BancoNacionParser.TrimTrailing | backend/services/bank_parsers/banco_nacion_parser.py:184 | `rstrip` removes exactly the trailing run of the character and keeps the rest |
| BancoNacionParser.Pivot | backend/services/bank_parsers/banco_nacion_parser.py:193-199 | a two-digit year up to 50 is in the 2000s and from 51 on in the 1900s, keeping its last two digits; a longer year is kept |
| BancoNacionParser.ParseBancoDate | backend/services/bank_parsers/banco_nacion_parser.py:172-204 | a date is always a real one, and only text of exactly three `-` parts gives one |
| BancoNacionParser.DateForm | backend/services/bank_parsers/banco_nacion_parser.py:176-201 | day, month word and year give the date in the pivoted year, the month looked up with its trailing dots removed and in lower case; an unknown month gives none; the current year plays no part |
| BancoNacionParser.GroupAmount | backend/services/bank_parsers/banco_nacion_parser.py:206-223 | an amount of digits and dots, a comma and two digits reads as its digits with the dots dropped, plus the two digits after the comma as hundredths |
| BancoNacionParser.AmountExample | backend/services/bank_parsers/banco_nacion_parser.py:207-212 | "123.456,78" reads as 123456.78 |
| BancoNacionParser.DropOneDot | backend/services/bank_parsers/banco_nacion_parser.py:216 | one thousands dot between two digit runs is dropped |
| BancoNacionParser.ClassifyBanco | backend/services/bank_parsers/banco_nacion_parser.py:225-241 | the type is chosen from the table in the order payment, interest, fee, cash advance, credit, else purchase |
| BancoNacionParser.CreditIsPayment | backend/services/bank_parsers/banco_nacion_parser.py:230-231 | any description holding CREDIT is a payment |
| BancoNacionParser.NotaCreditoIsPayment | backend/services/bank_parsers/banco_nacion_parser.py:230-238 | a "NOTA CREDITO" is a payment, so the credit row's own keyword never decides |
| BancoNacionParser.Build | backend/services/bank_parsers/banco_nacion_parser.py:151-166 | the transaction has the date, the stripped description, its type and the reference; payments and credits have non-positive amounts, every other type non-negative |
| BancoNacionParser.FromGroups | backend/services/bank_parsers/banco_nacion_parser.py:132-166 | the groups give a transaction exactly when the date parses, the stripped description is not empty and the amount parses; the five-digit group is the reference, and payments and credits are negative |
| BancoNacionParser.ParseBancoTransaction | backend/services/bank_parsers/banco_nacion_parser.py:125-170 | a transaction comes only from a line the layout matches from its start, and is what its four groups give |
| BancoNacionParser.MaxYear | backend/services/bank_parsers/banco_nacion_parser.py:292 | the largest year token is one of the tokens and no token is larger |
| BancoNacionParser.DetectYear | backend/services/bank_parsers/banco_nacion_parser.py:286-295 | the year is the latest "20dd" token of the text, and the current year when there is none |
| BancoNacionParser.ScanStep | backend/services/bank_parsers/banco_nacion_parser.py:99-120 | a start heading opens the section and is tested first, an end heading closes it, other lines leave it as it was, and a line adds a transaction exactly when it is offered to the parser and parses |
| BancoNacionParser.ScanLength | backend/services/bank_parsers/banco_nacion_parser.py:99-120 | at most one transaction per line |
| BancoNacionParser.OfferedPrefix | backend/services/bank_parsers/banco_nacion_parser.py:99-117 | whether a line is offered depends only on the lines before it |
| BancoNacionParser.ScanSources | backend/services/bank_parsers/banco_nacion_parser.py:116-120 | each transaction comes from a non-blank, non-heading line inside the section |
| BancoNacionParser.NoStartNoTransactions | backend/services/bank_parsers/banco_nacion_parser.py:96-108 | without a start heading the section never opens and nothing is collected |
| BancoNacionParser.ScanWellFormed | backend/services/bank_parsers/banco_nacion_parser.py:116-120 | if the line parser builds only well-formed transactions, so does the section loop |
| BancoNacionParser.BancoSections | backend/services/bank_parsers/banco_nacion_parser.py:118-120 | the Banco Nación line parser builds only well-formed transactions |
| BancoNacionParser.TransactionsWellFormed | backend/services/bank_parsers/banco_nacion_parser.py:90-123 | every transaction the parser finds is well formed |
| BancoNacionParser.ExtractTransactions | backend/services/bank_parsers/banco_nacion_parser.py:90-123 | the year detection and then the section loop give the Banco Nación transactions of the text |
| BancoNacionParser.CardholderOf | backend/services/bank_parsers/banco_nacion_parser.py:243-248 | the cardholder is the stripped first group of the holder line, when there is one |
| BancoNacionParser.StatementPeriodOf | backend/services/bank_parsers/banco_nacion_parser.py:250-256 | the period is "start to end" from the period line, when there is one |
| BancoNacionParser.BalanceOf | backend/services/bank_parsers/banco_nacion_parser.py:272-277 | the balance is "$" and the digits found, when there are any |
| BancoNacionParser.MinimumPaymentOf | backend/services/bank_parsers/banco_nacion_parser.py:279-284 | the minimum payment is "$" and the digits found, when there are any |
| BancoNacionParser.ExtractMetadata | backend/services/bank_parsers/banco_nacion_parser.py:70-88 | the metadata names Banco Nación, never has an account number, defaults the period to "Unknown" and the balance to "0,00", and carries the due date, next closing and minimum payment found |
| BancoNacionParser.BancoNotes | backend/services/bank_parsers/banco_nacion_parser.py:59-61 | the notes give the count, and the file name when one is given |
| BancoNacionParser.ParseStatement | backend/services/bank_parsers/banco_nacion_parser.py:54-68 | the statement holds the text's transactions, metadata, raw text and notes |
| GenericParser.ParseGenericDate | backend/services/bank_parsers/generic_parser.py:149-179 | a date is always a real one |
| GenericParser.MonthDayForm | backend/services/bank_parsers/generic_parser.py:152-156 | "M/D" is that month and day in the statement year |
| GenericParser.MonthDayYearForm | backend/services/bank_parsers/generic_parser.py:157-161 | "M/D/Y" ignores the statement year, and a year below 100 gets 2000 added |
| GenericParser.MonthNameForm | backend/services/bank_parsers/generic_parser.py:162-176 | "Mon D" looks the month up by its first three letters and uses the statement year; an unknown month gives none |
| GenericParser.ClassifyGeneric | backend/services/bank_parsers/generic_parser.py:181-197 | the type is chosen from the table in the order payment, fee, interest, cash advance, credit, else purchase |
| GenericParser.PayIsPayment | backend/services/bank_parsers/generic_parser.py:186-187 | any description holding PAY, a PayPal purchase included, is a payment |
| GenericParser.FromGroups | backend/services/bank_parsers/generic_parser.py:110-141 | a layout's groups give a transaction exactly when the date and amount parse; when the indicator is CR, or the description starts with PAYMENT or holds CREDIT or REFUND, the amount is minus the captured amount's magnitude rounded to cents, and otherwise it is the rounded captured amount |
| GenericParser.DebitNotNegative | backend/services/bank_parsers/generic_parser.py:122-131 | without the credit test, a captured amount without a minus sign is never negative |
| GenericParser.FirstCandidate | backend/services/bank_parsers/generic_parser.py:106-144 | the transaction is that of the first layout that yields one, and there is none only when no layout yields one |
| GenericParser.ParseGenericTransaction | backend/services/bank_parsers/generic_parser.py:104-147 | the first layout that yields a transaction wins, and without one the shared line logic decides |
| GenericParser.MostCommonIndex | backend/services/bank_parsers/generic_parser.py:226 | `most_common(1)` picks a token as frequent as any other, and no token seen before it is as frequent |
| GenericParser.DetectYear | backend/services/bank_parsers/generic_parser.py:220-228 | the year is one of the year tokens, as frequent as any, and the first to appear among the most frequent ones (every token before it is strictly less frequent); 2024 when there is none |
| GenericParser.GenericIgnoredByPrefix | backend/services/bank_parsers/generic_parser.py:270-293 | a line skipped by a generic word pattern begins with that word, in any case |
| GenericParser.GenericHeadingIgnored | backend/services/bank_parsers/generic_parser.py:270-293 | a line that begins with a literal generic heading, in any case, is skipped |
| GenericParser.CustomerServiceIgnored | backend/services/bank_parsers/generic_parser.py:270-293 | a line that begins with "Customer Service", in any case, is skipped |
| GenericParser.TransactionsWellFormed | backend/services/bank_parsers/generic_parser.py:87-102 | every transaction the parser finds is well formed |
| GenericParser.ExtractTransactions | backend/services/bank_parsers/generic_parser.py:87-102 | the year detection and then the line loop give the generic transactions of the text |
| GenericParser.FirstName | backend/services/bank_parsers/generic_parser.py:213-218 | the name is that of the first indicator found, and the fallback exactly when none is found |
| GenericParser.DetectBankName | backend/services/bank_parsers/generic_parser.py:199-218 | "Unknown Bank" is given exactly when no indicator occurs in the lower-cased text |
| GenericParser.StatementPeriodOf | backend/services/bank_parsers/generic_parser.py:230-236 | the period is "Statement Date: " and the first statement or closing date found |
| GenericParser.BalanceOf | backend/services/bank_parsers/generic_parser.py:246-252 | the balance is "$" and the digits of the first balance pattern found |
| GenericParser.AccountNumberOf | backend/services/bank_parsers/generic_parser.py:254-266 | the account number is "****" and the four or five digits of the first account pattern found |
| GenericParser.ExtractMetadata | backend/services/bank_parsers/generic_parser.py:70-85 | the metadata is generic, names the detected bank, defaults the period to "Unknown" and the balance to "0.00", and has no next closing date |
| GenericParser.GenericNotes | backend/services/bank_parsers/generic_parser.py:56-61 | the notes give the count, the file name when one is given, and end with the caveat about generic parsing |
| GenericParser.ParseStatement | backend/services/bank_parsers/generic_parser.py:51-68 | the statement holds the text's transactions, metadata, raw text and notes |
| DataCleaner.Capitalize | backend/utils/data_cleaner.py:213 | `capitalize` keeps the word's length |
| DataCleaner.CaseKeepsWord | backend/utils/data_cleaner.py:204-213 | changing the case of a word leaves it a word |
| DataCleaner.NormalizeWord | backend/utils/data_cleaner.py:205-213 | the listed abbreviations, and two-letter words that are state codes, are put in upper case; every other word is capitalised |
| DataCleaner.NormalizeWords | backend/utils/data_cleaner.py:201-213 | each word is normalised in place, and the number of words is kept |
| DataCleaner.JoinWordsShape | backend/utils/data_cleaner.py:215 | joining words with single spaces gives text with no leading or trailing space and no double space |
| DataCleaner.CleanDescriptionShape | backend/utils/data_cleaner.py:171-215 | an empty description gives ""; the result is stripped and single-spaced, and its words are the normalised words of the text left after the noise patterns |
| DataCleaner.RemoveAll | backend/utils/data_cleaner.py:197-198 | the loop removes the noise patterns one after the other |
| DataCleaner.NormalizeEach | backend/utils/data_cleaner.py:202-213 | the loop normalises each word in order |
| DataCleaner.CleanDescription | backend/utils/data_cleaner.py:171-215 | the method's result is the cleaned description |
| DataCleaner.FirstFound | backend/utils/data_cleaner.py:227-228 | the first table pattern, from a given row on, that occurs in the text, and none exactly when none occurs |
| DataCleaner.RewriteFirst | backend/utils/data_cleaner.py:217-231 | the first merchant pattern that occurs rewrites all of its matches; when none occurs the description is unchanged |
| DataCleaner.FirstCategoryFrom | backend/utils/data_cleaner.py:243-246 | the first category, from a given row on, one of whose patterns occurs |
| DataCleaner.CategorizeWith | backend/utils/data_cleaner.py:233-248 | the category is one whose patterns occur, the first in table order, and none exactly when no category's patterns occur |
| DataCleaner.CleanAmount | backend/utils/data_cleaner.py:250-268 | the amount is quantised to cents with half-even rounding, and falls back to 0.0 when the quantised value is beyond what the decimal context can hold |
| DataCleaner.CleanAmountKeepsCents | backend/utils/data_cleaner.py:260-265 | an amount already in cents is kept |
| DataCleaner.CleanAmountIdempotent | backend/utils/data_cleaner.py:250-268 | cleaning an amount twice is the same as cleaning it once |
| DataCleaner.ValidDateWindow | backend/utils/data_cleaner.py:270-288 | a date is accepted exactly when its year lies from ten years before today's year to one year after it |
| DataCleaner.CleanTransaction | backend/utils/data_cleaner.py:127-169 | there is no result exactly when the cleaned description is blank or the date is outside the window; otherwise date, type and reference are kept, the description is the standardised one, an existing category is kept and a missing one is looked up, and the amount is cleaned |
| DataCleaner.CleanOne | backend/utils/data_cleaner.py:113-115 | one transaction contributes at most one transaction, and a well-formed one |
| DataCleaner.CleanAll | backend/utils/data_cleaner.py:110-115 | every kept transaction is well formed, and there are no more of them than before |
| DataCleaner.CleanAllAppend | backend/utils/data_cleaner.py:112-115 | cleaning two runs of transactions gives the cleaned first run followed by the cleaned second run, so order is kept |
| DataCleaner.CleanAllOne | backend/utils/data_cleaner.py:113-115 | one transaction is kept exactly when its cleaning gives a result, and then as that result |
| DataCleaner.CleanEach | backend/utils/data_cleaner.py:110-115 | the loop keeps the cleaned transactions in order |
| DataCleaner.CleanStatement | backend/utils/data_cleaner.py:100-125 | the same statement object is returned with its transactions replaced by the cleaned ones and exactly one note with their count added; nothing else changes |
| DataCleaner.KeysSnoc | backend/utils/data_cleaner.py:311-313 | adding a transaction adds its key to the keys seen |
| DataCleaner.DedupBy | backend/utils/data_cleaner.py:300-317 | deduplication never adds transactions |
| DataCleaner.DeduplicateTransactions | backend/utils/data_cleaner.py:290-317 | the loop keeps the first transaction of each key |
| DataCleaner.DedupKeys | backend/utils/data_cleaner.py:303-313 | the kept transactions cover every key of the input |
| DataCleaner.DedupSubsequence | backend/utils/data_cleaner.py:303-313 | the result is a subsequence of the input, so order is kept |
| DataCleaner.DedupDistinctKeys | backend/utils/data_cleaner.py:311-313 | no two kept transactions share a key |
| DataCleaner.DedupFirst | backend/utils/data_cleaner.py:311-313 | each kept transaction is the first of its key in the input |
| DataCleaner.DedupOfDistinct | backend/utils/data_cleaner.py:303-313 | a list whose keys are already distinct is kept whole |
| DataCleaner.DedupIdempotent | backend/utils/data_cleaner.py:290-317 | deduplicating twice is the same as deduplicating once |
| DataCleaner.DedupDropsRepeat | backend/utils/data_cleaner.py:311-315 | a transaction whose key was just seen is dropped |
| DataCleaner.DedupDropsReversal | backend/utils/data_cleaner.py:305-308 | a transaction followed by the same one with the opposite sign keeps only the first, since the key uses the magnitude |
| DataCleaner.CountInvalidDates | backend/utils/data_cleaner.py:342-344 | no more invalid dates than transactions |
| DataCleaner.CountBlank | backend/utils/data_cleaner.py:351-353 | no more blank descriptions than transactions |
| DataCleaner.CountValid | backend/utils/data_cleaner.py:338-356 | no more valid transactions than transactions |
| DataCleaner.ValidCountBounds | backend/utils/data_cleaner.py:338-356 | the valid transactions and the invalid dates together, or the valid transactions and the blank descriptions together, are at most the total, and all are valid exactly when there are no invalid dates and no blank descriptions |
| DataCleaner.StatsWarnings | backend/utils/data_cleaner.py:358-366 | there are at most three warnings |
| DataCleaner.StatsOf | backend/utils/data_cleaner.py:329-368 | the total is the number of transactions, and the valid count is at most the total |
| DataCleaner.StatsWarningsExactly | backend/utils/data_cleaner.py:358-366 | the invalid-date and empty-description warnings appear exactly when their counts are positive, and the zero-amount one exactly when zeros exceed 5% of the total, each with its count |
| DataCleaner.Tally | backend/utils/data_cleaner.py:338-356 | the loop counts the valid transactions, invalid dates, zero amounts and blank descriptions |
| DataCleaner.ValidateTransactionData | backend/utils/data_cleaner.py:319-368 | the method's statistics are the counts and warnings of the transactions |
| Text.Strip | backend/models/statement_data.py:52 | `strip()` never lengthens a string, gives "" exactly for blank text, and leaves no whitespace at either end |
| Text.StripIdempotent | backend/models/statement_data.py:52 | stripping twice is the same as stripping once |
| Text.JoinSplit | backend/services/bank_parsers/base_parser.py:126 | splitting the text into lines loses nothing: joining the lines back with the separator gives the text |
| Text.CollapseSpaces | backend/services/bank_detection.py:165 | collapsing whitespace never lengthens a string, gives "" only for "", keeps whether the text starts with whitespace, and leaves only single spaces, never two whitespace characters in a row |
| Money.RoundCents | backend/models/statement_data.py:48 | rounding to two decimals gives whole cents within half a cent of the value, a tie going to the even cent |
| Money.FormatAmountParses | backend/models/statement_data.py:96 | the amount written into a CSV cell reads back as the same amount |
| Dates.IsoRoundTrip | backend/models/statement_data.py:94 | a date is written as ten characters `YYYY-MM-DD` that read back as the same date |
| Dates.OrdinalMonotone | backend/services/bank_parsers/base_parser.py:347-349 | day numbers follow date order, so the span from the earliest to the latest date is never negative |

## Left out

- PDF text extraction (`_extract_text_from_pdf`, pdfplumber, the thread pool and `async`) is not modelled. `PdfProcessor.ProcessPdf` takes what extraction produced as input: the text, or the error it raised.
- The HTTP application (`backend/main.py`) is not part of this model: routes, CORS and the server.
- The logging setup (`backend/utils/logger.py`) is not part of this model: handlers, colours, timing decorators and every `logger` call. None of it affects a result.
- Binary floating point is not modelled; amounts and scores are exact reals. Consequences:
  - A float whose decimal expansion is not exact, such as 0.1 + 0.2, is not represented.
  - `str(float)` is modelled only for amounts in whole cents written in positional form, without a sign on zero; `Money.FormatAmountParses` is stated for those.
  - `round(v, 2)` and `Decimal(str(v)).quantize(...)` differ on floats: `round` works on the stored binary value, so `round(2.675, 2)` is 2.67 because the double lies just below 2.675. `quantize` works on the shortest decimal string, so it gives 2.68. The model gives 2.68 in both places (`StatementData.ValidateAmount` and `DataCleaner.CleanAmount`).
  - The one-decimal megabyte figure in the size message is exact for sizes below 2^53 bytes.
- The 5% and 10% zero-amount tests are written without floats, as `20 * zeros > total` and `10 * zeros > total`. They agree with the source for every count a float represents exactly.
- The decimal context's 28-digit precision is modelled only as the bound `DataCleaner.AmountLimit`. Beyond it, `quantize` raises and `clean_amount` returns 0.0.
- `DataCleaner.ValidDateWindow`: a current year of 10 or less, or of 9999, is not modelled. For those years `date(today.year - 10, 1, 1)` or `date(today.year + 1, 12, 31)` raises; the model compares the dates as if those days existed.
- `DataCleaner.CleanTransaction`: the `except` branch of `clean_transaction` is not modelled. No step of the modelled cleaning can raise, so the branch is unreachable.
- `StatementData.RowRoundTrip` does not model the sign of zero or exponent notation, in two cases:
  - A zero credit amount is `-abs(0.0)`, which is `-0.0` in the source (base_parser.py:171 and the bank parsers' credit branches). The validator returns it unchanged and `clean_amount` keeps it, so its CSV cell reads "-0.0" where the model writes "0.0".
  - An amount of magnitude 1e16 or more is written by `str(float)` in exponent form, such as "1e+16"; the model writes it positionally.
- Upper and lower case are modelled for ASCII and Latin-1 letters only. Python's full Unicode case mapping, such as `ß` becoming `SS`, is not.
- The `\d` class is modelled as the ASCII digits only (`Text.IsDigit`), and `\w` as Latin-1 letters, ASCII digits and `_` (`Text.IsWordChar`). Python 3 matches every Unicode decimal digit and alphanumeric, and `int()`/`float()` accept Unicode digits (`int('１２')` is 12). So a line written with, say, full-width digits is parsed by the source and yields nothing in the model.
- `int()` and `float()` are modelled on the strings the model's patterns capture: ASCII digits, an optional sign, commas removed and one decimal point. Exponents, underscores, `inf` and `nan` are not modelled; no capture can hold them.
- `BancoNacionParser.ParseBancoAmount`: only the layout's own amount shape (digits and dots, a comma, two digits) is proved to convert. That `float` refuses text with two commas or other characters is modelled but not stated as a lemma; the line layout never captures such text.
- `BaseParser.Classify`: the example that "finance charge" is a fee, through the keyword "charge", is not proved as a lemma. Only the first-match order of the keyword table is stated.
- `BankDetection.AmexExample` works on given match counts and scores. It does not derive from the text "AMERICAN EXPRESS MEMBER SINCE 2020" that two primary patterns match once each and that every other bank scores 0. Running the seven patterns' `findall` over the text in the verifier is too costly, so the detection of that text as American Express is not proved.
- `BankDetection.DetectBank`: the repository's test at backend/test_basic.py:84-87 expects "CHASE CREDIT CARD STATEMENT Account Number: 1234" to be detected as Chase, but the code as written gives the generic tag. Only `chase\s*credit\s*card` matches, once; no secondary indicator and no other bank's pattern matches. So the score is 0.3, below the default threshold 0.6. `BankDetection.ChaseTestExample` proves this on those match counts. That the text produces those counts is not proved, as for `BankDetection.AmexExample`, and nothing was executed.
- `BankDetection.DetectBank`: the example that "Some Random Bank Statement" is generic is not proved as a lemma. `BankDetection.BelowThresholdIsGeneric` and `BankDetection.SingleMatchScore` state the rule it follows.
- `_parse_date_string` (strptime over the configured formats) is not modelled. It is a library call with no caller.
- `_clean_amount_string` is not modelled, for the same reason.
- `BaseParser.HeadingIgnored`, `ChaseParser.ChaseHeadingIgnored`, `AmexParser.AmexHeadingIgnored` and `GenericParser.GenericHeadingIgnored` state the converse of the skip rules only for a heading whose words are separated by single blanks. A line that separates them by several blanks or a tab is skipped too, but that is not stated. The `Page` rules ask for digits, so only their forward direction (`IgnoredByPrefix`) is stated.
- The Banco Nación `_should_ignore_line` is not modelled. The section loop never calls it.
- Foreign parser classes are outside the model. A caller can register a class of its own with `register_parser`; the model records it as `ParserRegistry.OtherClass` but cannot run its parser. `PdfProcessor.ProcessPdf` therefore requires that every registered class is one of the package's own parsers.
- `PdfProcessor.ProcessPdf`: the "no parser" branch is not modelled, since `get_parser_for_bank` never returns `None`.
- `PdfProcessor.GetProcessingStats`: the "Unknown" fallbacks are not modelled. The success reply always carries the bank name, period and balance keys.
- `Counter.most_common` is modelled by what it promises: the first token among those of highest count. Its hash-table internals are not modelled.
- The Banco Nación cardholder is modelled as extracted, but it is not stored: `StatementMetadata` has no field for it, and the source discards it too.
- Object identity is modelled only where the source relies on it: the cleaner and the processor update the same statement object. Transactions and metadata are values.
