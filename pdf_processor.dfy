// The PDF processing service: the guards an upload passes before any parsing,
// the decision chain that turns the extracted text into a processing result,
// the mapping of exceptions to error results, and the summary statistics of a
// result.  Text extraction itself is not modelled: the extracted text (or the
// exception extraction raised) is an input.
module PdfProcessor {
  import opened Wrappers
  import opened Text
  import opened StatementData
  import opened ParserRegistry
  import BankDetection
  import ChaseParser
  import AmexParser
  import BancoNacionParser
  import GenericParser

  // ------------------------------------------------------------------ upload guards

  newtype byte = x: int | 0 <= x < 256

  /** One mebibyte, the unit of the size limit. */
  const MiB: nat := 1024 * 1024

  /** The smallest accepted file, in bytes. */
  const MinimumSize: nat := 1024

  /** `%PDF-`, the start of the file header (ISO 32000-1, section 7.5.2, File Header). */
  const PdfHeader: seq<byte> := [0x25, 0x50, 0x44, 0x46, 0x2D]

  const DefaultMaxSizeMb: int := 50

  const NotPdfMessage := "File does not appear to be a valid PDF"
  const TooSmallMessage := "PDF file appears to be too small or corrupted"

  predicate HasPdfHeader(content: seq<byte>)
  {
    |PdfHeader| <= |content| && content[..|PdfHeader|] == PdfHeader
  }

  /** `str(i)` for an integer of either sign. */
  function IntToString(i: int): (s: string)
    ensures i >= 0 ==> s == NatToString(i)
    ensures i < 0 ==> s == "-" + NatToString(-i)
  {
    if i < 0 then "-" + NatToString(-i) else NatToString(i)
  }

  lemma EuclideanDivision(num: nat, den: nat)
    requires den > 0
    ensures num == (num / den) * den + num % den && num % den < den
  {
  }

  /** The rounding of `num / den`, given its quotient `d` and remainder `m`. */
  function RoundQuotient(num: nat, den: nat, d: nat, m: nat): (q: nat)
    requires den > 0 && num == d * den + m && m < den
    ensures -(den as int) <= 2 * (num - q * den) <= den
    ensures 2 * (num - q * den) == den ==> q % 2 == 0
    ensures 2 * (num - q * den) == -(den as int) ==> q % 2 == 0
  {
    if 2 * m > den || (2 * m == den && d % 2 == 1) then
      assert (d + 1) * den == d * den + den;
      d + 1
    else
      d
  }

  /** `num / den` rounded to the nearest integer, an exact tie going to the even neighbour. */
  function RoundHalfEven(num: nat, den: nat): (q: nat)
    requires den > 0
    ensures -(den as int) <= 2 * (num - q * den) <= den
    ensures 2 * (num - q * den) == den ==> q % 2 == 0
    ensures 2 * (num - q * den) == -(den as int) ==> q % 2 == 0
  {
    EuclideanDivision(num, den);
    RoundQuotient(num, den, num / den, num % den)
  }

  /** `f"{n / MiB:.1f}"`: the size in mebibytes with one decimal.  The quotient of a byte count
      by a power of two is exact in binary floating point, so the correctly rounded decimal is
      the half-even rounding of the exact quotient. */
  function SizeText(n: nat): (s: string)
  {
    var tenths := RoundHalfEven(n * 10, MiB);
    NatToString(tenths / 10) + "." + [DigitChar(tenths % 10)]
  }

  /** The tenths the size text shows are within half a tenth of the exact size. */
  lemma SizeTextAccurate(n: nat)
    ensures exists tenths: nat {:trigger tenths % 10} ::
      SizeText(n) == NatToString(tenths / 10) + "." + [DigitChar(tenths % 10)]
      && -(MiB as int) <= 2 * (n * 10 - tenths * MiB) <= MiB
  {
    var tenths := RoundHalfEven(n * 10, MiB);
    assert SizeText(n) == NatToString(tenths / 10) + "." + [DigitChar(tenths % 10)];
  }

  function SizeMessage(n: nat, maxSizeMb: int): string
  {
    "File size (" + SizeText(n) + "MB) exceeds maximum allowed size (" + IntToString(maxSizeMb) + "MB)"
  }

  /** `validate_pdf_content`: the size limit first (compared in mebibytes as a float), then the
      header, then the minimum size.  Valid exactly when all three pass, and then without a
      message; otherwise the message of the first guard that fails. */
  function ValidatePdfContent(content: seq<byte>, maxSizeMb: int): (r: (bool, Option<string>))
    ensures r.0 <==> |content| <= maxSizeMb * MiB && HasPdfHeader(content) && |content| >= MinimumSize
    ensures r.0 <==> r.1.None?
    ensures |content| > maxSizeMb * MiB ==> r.1 == Some(SizeMessage(|content|, maxSizeMb))
    ensures |content| <= maxSizeMb * MiB && !HasPdfHeader(content) ==> r.1 == Some(NotPdfMessage)
    ensures |content| <= maxSizeMb * MiB && HasPdfHeader(content) && |content| < MinimumSize ==>
      r.1 == Some(TooSmallMessage)
  {
    var sizeMb := |content| as real / MiB as real;
    assert sizeMb > maxSizeMb as real <==> |content| > maxSizeMb * MiB;
    if sizeMb > maxSizeMb as real then (false, Some(SizeMessage(|content|, maxSizeMb)))
    else if !HasPdfHeader(content) then (false, Some(NotPdfMessage))
    else if |content| < MinimumSize then (false, Some(TooSmallMessage))
    else (true, None)
  }

  /** The size guard comes first: an oversized upload is refused for its size whatever it holds. */
  lemma OversizedWhateverItHolds(a: seq<byte>, b: seq<byte>, maxSizeMb: int)
    requires |a| == |b| && |a| > maxSizeMb * MiB
    ensures ValidatePdfContent(a, maxSizeMb) == ValidatePdfContent(b, maxSizeMb)
  {
  }

  /** Bytes not starting with the header are never valid, whatever the size limit. */
  lemma NonPdfRejected(content: seq<byte>, maxSizeMb: int)
    requires !HasPdfHeader(content)
    ensures !ValidatePdfContent(content, maxSizeMb).0
  {
  }

  /** The bytes of a string whose characters are all below U+0100, as `b"..."` writes them. */
  function Latin1(s: string): (b: seq<byte>)
    requires forall k :: 0 <= k < |s| ==> s[k] as int < 256
    ensures |b| == |s| && forall k :: 0 <= k < |s| ==> b[k] as int == s[k] as int
  {
    seq(|s|, k requires 0 <= k < |s| => s[k] as int as byte)
  }

  /** The two uploads of the basic test: a short file with a header is too small, and text
      without one is not a PDF. */
  lemma ValidationExamples()
    ensures ValidatePdfContent(Latin1("%PDF-1.4\nSome PDF content here"), DefaultMaxSizeMb) == (false, Some(TooSmallMessage))
    ensures ValidatePdfContent(Latin1("Not a PDF file"), DefaultMaxSizeMb) == (false, Some(NotPdfMessage))
  {
    var good := Latin1("%PDF-1.4\nSome PDF content here");
    assert good[..5] == PdfHeader;
    var bad := Latin1("Not a PDF file");
    assert bad[0] != PdfHeader[0];
  }

  // ------------------------------------------------------------------ errors

  /** An exception that reached the handlers of `process_pdf`: the service's own processing
      error, or any other exception, known by its type name. */
  datatype Raised = ProcessingError(message: string) | OtherError(typeName: string, message: string)

  const FailedMessage := "Failed to process PDF"
  const UnexpectedMessage := "An unexpected error occurred while processing the PDF"

  /** The two `except` clauses: a processing error passes its message on, any other exception
      only its type name. */
  function ErrorFor(e: Raised): (r: ProcessingResult)
    ensures !r.success && r.data.None? && |r.errors| == 1
    ensures e.ProcessingError? ==> r.message == FailedMessage && r.errors == [e.message]
    ensures e.OtherError? ==> r.message == UnexpectedMessage && r.errors == ["Internal error: " + e.typeName]
  {
    match e
    case ProcessingError(m) => ErrorResponse(FailedMessage, Some([m]))
    case OtherError(t, _) => ErrorResponse(UnexpectedMessage, Some(["Internal error: " + t]))
  }

  /** The text of an unexpected exception never reaches the client. */
  lemma UnexpectedErrorHidesMessage(typeName: string, m1: string, m2: string)
    ensures ErrorFor(OtherError(typeName, m1)) == ErrorFor(OtherError(typeName, m2))
  {
  }

  // ------------------------------------------------------------------ parser dispatch

  /** Every registered class is one of the package's own parsers. */
  predicate OwnParsersOnly(entries: map<BankType, ParserClass>)
  {
    forall b :: b in entries ==> !entries[b].OtherClass?
  }

  /** What `parse_statement` fills a new statement with.  The transactions are validated on
      construction, so they are well formed whichever parser made them. */
  datatype Parsed = Parsed(transactions: seq<Transaction>, metadata: Metadata, notes: seq<string>)

  type ParsedStatement = p: Parsed | AllWellFormed(p.transactions)
    witness Parsed([], Metadata("", Generic, None, "", None, None, "", None, None, None, 0), [])

  /** `parse_statement(text, filename)` of one parser class; the current year is an input
      because the Banco Nación parser reads the clock. */
  type ParseFn = (string, Option<string>, int) -> ParsedStatement

  /** The `parse_statement` of each of the package's parser classes. */
  datatype ParserSuite = ParserSuite(chase: ParseFn, amex: ParseFn, bancoNacion: ParseFn, generic: ParseFn)

  /** The method a parser of class `c` runs. */
  function ParserOf(suite: ParserSuite, c: ParserClass): ParseFn
    requires !c.OtherClass?
  {
    match c
    case ChaseParserClass => suite.chase
    case AmexParserClass => suite.amex
    case BancoNacionParserClass => suite.bancoNacion
    case GenericParserClass => suite.generic
  }

  /** `parse_statement` of the Chase parser, as a value. */
  function ChaseParsed(text: string, filename: Option<string>, currentYear: int): (p: ParsedStatement)
  {
    ChaseParser.TransactionsWellFormed(text);
    var txs := ChaseParser.Transactions(text);
    Parsed(txs, ChaseParser.ExtractMetadata(text), ChaseParser.ChaseNotes(|txs|, filename))
  }

  /** `parse_statement` of the American Express parser, as a value. */
  function AmexParsed(text: string, filename: Option<string>, currentYear: int): (p: ParsedStatement)
  {
    AmexParser.TransactionsWellFormed(text);
    var txs := AmexParser.Transactions(text);
    Parsed(txs, AmexParser.ExtractMetadata(text), AmexParser.AmexNotes(|txs|, filename))
  }

  /** `parse_statement` of the Banco Nación parser, as a value. */
  function BancoNacionParsed(text: string, filename: Option<string>, currentYear: int): (p: ParsedStatement)
  {
    BancoNacionParser.TransactionsWellFormed(text, currentYear);
    var txs := BancoNacionParser.Transactions(text, currentYear);
    Parsed(txs, BancoNacionParser.ExtractMetadata(text), BancoNacionParser.BancoNotes(|txs|, filename))
  }

  /** `parse_statement` of the generic parser, as a value. */
  function GenericParsed(text: string, filename: Option<string>, currentYear: int): (p: ParsedStatement)
  {
    GenericParser.TransactionsWellFormed(text);
    var txs := GenericParser.Transactions(text);
    Parsed(txs, GenericParser.ExtractMetadata(text), GenericParser.GenericNotes(|txs|, filename))
  }

  /** The package's parsers, each with what its own `parse_statement` puts in the statement. */
  const PackageParsers: ParserSuite := ParserSuite(ChaseParsed, AmexParsed, BancoNacionParsed, GenericParsed)

  // ------------------------------------------------------------------ the decision chain

  /** What extraction handed to the decision chain: the text, or the exception it raised. */
  datatype Extraction = Extracted(text: string) | Failed(error: Raised)

  /** The default confidence threshold of `detect_bank`. */
  const DetectionThreshold: real := 0.6

  const NoTextMessage := "Unable to extract text from PDF"
  const NoTextDetail := "PDF appears to be empty or contains only images"
  const NoTransactionsMessage := "No transactions found in the statement"
  const NoTransactionsDetail := "Statement may be in an unsupported format or corrupted"

  /** The chain once the statement is parsed: no transactions is an error, otherwise the
      statement, its count stored in the metadata, is the success result. */
  function ResultOf(p: ParsedStatement): ProcessingResult
  {
    if p.transactions == [] then ErrorResponse(NoTransactionsMessage, Some([NoTransactionsDetail]))
    else SuccessResponse(p.transactions, p.metadata.(totalTransactions := |p.transactions|))
  }

  /** The class a lookup finds for the text's detected tag. */
  function ChosenClass(entries: map<BankType, ParserClass>, text: string): (c: ParserClass)
    requires OwnParsersOnly(entries)
    ensures !c.OtherClass?
  {
    ClassFor(entries, BankDetection.Detect(text, DetectionThreshold))
  }

  /** What the chosen parser makes of the text. */
  function ParsedText(suite: ParserSuite, entries: map<BankType, ParserClass>, text: string,
                      filename: Option<string>, currentYear: int): ParsedStatement
    requires OwnParsersOnly(entries)
  {
    ParserOf(suite, ChosenClass(entries, text))(text, filename, currentYear)
  }

  /** What `process_pdf` returns for what extraction produced. */
  function ProcessOutcome(suite: ParserSuite, entries: map<BankType, ParserClass>, extraction: Extraction,
                          filename: Option<string>, currentYear: int): ProcessingResult
    requires OwnParsersOnly(entries)
  {
    match extraction
    case Failed(e) => ErrorFor(e)
    case Extracted(text) =>
      if IsBlank(text) then ErrorResponse(NoTextMessage, Some([NoTextDetail]))
      else ResultOf(ParsedText(suite, entries, text, filename, currentYear))
  }

  /** The end of `process_pdf`: a statement with transactions gets its count and the raw text
      written into it, and becomes the success result; one without is left as it is. */
  method CompleteStatement(statement: ProcessedStatement, text: string) returns (r: ProcessingResult)
    requires statement.Valid()
    modifies statement
    ensures r == ResultOf(Parsed(old(statement.transactions), old(statement.metadata), old(statement.notes)))
    ensures statement.transactions == old(statement.transactions) && statement.notes == old(statement.notes)
    ensures old(statement.transactions) == [] ==>
      statement.metadata == old(statement.metadata) && statement.rawText == old(statement.rawText)
    ensures old(statement.transactions) != [] ==>
      statement.metadata == old(statement.metadata).(totalTransactions := |statement.transactions|)
      && statement.rawText == Some(text)
  {
    if |statement.transactions| == 0 {
      return ErrorResponse(NoTransactionsMessage, Some([NoTransactionsDetail]));
    }
    statement.metadata := statement.metadata.(totalTransactions := |statement.transactions|);
    statement.rawText := Some(text);
    r := SuccessResponse(statement.transactions, statement.metadata);
  }

  /** Detection, the registry lookup, `parse_statement` of the class found, and the completion
      of the new statement. */
  method ParseDetected(registry: Registry, suite: ParserSuite, text: string, filename: Option<string>,
                       currentYear: int) returns (r: ProcessingResult)
    requires OwnParsersOnly(registry.entries)
    ensures r == ResultOf(ParsedText(suite, registry.entries, text, filename, currentYear))
  {
    var bank := BankDetection.DetectBank(text, DetectionThreshold);
    var parser := registry.GetParserForBank(bank);
    var parsed := ParserOf(suite, parser.cls)(text, filename, currentYear);
    var statement := new ProcessedStatement(parsed.transactions, parsed.metadata, Some(text), parsed.notes);
    r := CompleteStatement(statement, text);
  }

  /** `process_pdf` after extraction.  The detected tag's parser class is looked up in the
      registry, its `parse_statement` builds a new statement, and the statement is completed in
      place (count and raw text) before the success result is built. */
  method ProcessPdf(registry: Registry, suite: ParserSuite, extraction: Extraction, filename: Option<string>,
                    currentYear: int) returns (r: ProcessingResult)
    requires OwnParsersOnly(registry.entries)
    ensures r == ProcessOutcome(suite, registry.entries, extraction, filename, currentYear)
  {
    if extraction.Failed? {
      return ErrorFor(extraction.error);
    }
    var text := extraction.text;
    if Strip(text) == [] {
      return ErrorResponse(NoTextMessage, Some([NoTextDetail]));
    }
    r := ParseDetected(registry, suite, text, filename, currentYear);
  }

  /** After parsing: success exactly when there are transactions, and then the result carries
      them as rows, their count and the statement's bank name; a failure carries no data. */
  lemma ResultOfShape(p: ParsedStatement)
    ensures ResultOf(p).success <==> p.transactions != []
    ensures p.transactions != [] ==> (
      var r := ResultOf(p);
      r.data.Some? && r.errors == [] && r.data.value.rows == RowsOf(p.transactions)
      && r.data.value.metadata.totalTransactions == |p.transactions|
      && r.data.value.metadata.bankName == p.metadata.bankName)
    ensures p.transactions == [] ==> ResultOf(p).data.None? && ResultOf(p).message == NoTransactionsMessage
  {
    if p.transactions != [] {
      SuccessIgnoresStoredCount(p.transactions, p.metadata, |p.transactions|);
    }
  }

  /** Success exactly when there was text and the chosen parser found at least one transaction;
      the result then carries those transactions as rows and their count.  Every failure carries
      no data and one error line. */
  lemma OutcomeSuccess(suite: ParserSuite, entries: map<BankType, ParserClass>, extraction: Extraction,
                       filename: Option<string>, currentYear: int)
    requires OwnParsersOnly(entries)
    ensures ProcessOutcome(suite, entries, extraction, filename, currentYear).success <==> (
      extraction.Extracted? && !IsBlank(extraction.text)
      && ParsedText(suite, entries, extraction.text, filename, currentYear).transactions != [])
    ensures ProcessOutcome(suite, entries, extraction, filename, currentYear).success ==> (
      var r := ProcessOutcome(suite, entries, extraction, filename, currentYear);
      var txs := ParsedText(suite, entries, extraction.text, filename, currentYear).transactions;
      r.data.Some? && r.errors == [] && r.data.value.rows == RowsOf(txs)
      && r.data.value.metadata.totalTransactions == |txs| > 0)
    ensures !ProcessOutcome(suite, entries, extraction, filename, currentYear).success ==> (
      var r := ProcessOutcome(suite, entries, extraction, filename, currentYear);
      r.data.None? && |r.errors| == 1)
  {
    match extraction
    case Failed(e) =>
    case Extracted(text) =>
      if !IsBlank(text) {
        ResultOfShape(ParsedText(suite, entries, text, filename, currentYear));
      }
  }

  /** Blank text is refused before detection, so neither the registry nor the parsers play a part. */
  lemma BlankTextRefused(s1: ParserSuite, s2: ParserSuite, e1: map<BankType, ParserClass>, e2: map<BankType, ParserClass>,
                         text: string, filename: Option<string>, currentYear: int)
    requires OwnParsersOnly(e1) && OwnParsersOnly(e2) && IsBlank(text)
    ensures ProcessOutcome(s1, e1, Extracted(text), filename, currentYear)
      == ProcessOutcome(s2, e2, Extracted(text), filename, currentYear)
    ensures ProcessOutcome(s1, e1, Extracted(text), filename, currentYear).message == NoTextMessage
  {
  }

  /** With the registry as the package creates it, the detected tag's default class parses the text. */
  lemma InitialRegistryOutcome(suite: ParserSuite, text: string, filename: Option<string>, currentYear: int)
    requires !IsBlank(text)
    ensures OwnParsersOnly(InitialEntries)
    ensures ProcessOutcome(suite, InitialEntries, Extracted(text), filename, currentYear)
      == ResultOf(ParserOf(suite, DefaultClass(BankDetection.Detect(text, DetectionThreshold)))(text, filename, currentYear))
  {
    InitialRegistry();
  }

  // ------------------------------------------------------------------ statistics

  /** The dictionary `get_processing_stats` returns: for a failure `success`, a zero count and
      no processing time; for a success the count, bank, period and balance of the summary. */
  datatype ProcessingStats =
    | FailureStats
    | SuccessStats(transactionsProcessed: nat, bankDetected: string, statementPeriod: string, balance: string)
  {
    predicate Success()
    {
      SuccessStats?
    }

    function TransactionsProcessed(): nat
    {
      if SuccessStats? then transactionsProcessed else 0
    }
  }

  /** `get_processing_stats`.  A success result always carries its metadata summary, so the
      "Unknown" fallbacks of the source are never taken. */
  function GetProcessingStats(r: ProcessingResult): (stats: ProcessingStats)
    ensures stats.Success() <==> r.success && r.data.Some?
    ensures !stats.Success() ==> stats.TransactionsProcessed() == 0
    ensures stats.Success() ==> (
      stats.TransactionsProcessed() == r.data.value.metadata.totalTransactions
      && stats.bankDetected == r.data.value.metadata.bankName
      && stats.statementPeriod == r.data.value.metadata.statementPeriod
      && stats.balance == r.data.value.metadata.balance)
  {
    if !r.success || r.data.None? then FailureStats
    else
      var md := r.data.value.metadata;
      SuccessStats(md.totalTransactions, md.bankName, md.statementPeriod, md.balance)
  }

  /** The statistics of a processing result report success exactly as the result does, and
      count the transactions the chosen parser found. */
  lemma StatsOfOutcome(suite: ParserSuite, entries: map<BankType, ParserClass>, extraction: Extraction,
                       filename: Option<string>, currentYear: int)
    requires OwnParsersOnly(entries)
    ensures GetProcessingStats(ProcessOutcome(suite, entries, extraction, filename, currentYear)).Success()
      <==> ProcessOutcome(suite, entries, extraction, filename, currentYear).success
    ensures ProcessOutcome(suite, entries, extraction, filename, currentYear).success ==> (
      GetProcessingStats(ProcessOutcome(suite, entries, extraction, filename, currentYear)).TransactionsProcessed()
      == |ParsedText(suite, entries, extraction.text, filename, currentYear).transactions|)
    ensures !ProcessOutcome(suite, entries, extraction, filename, currentYear).success ==> (
      GetProcessingStats(ProcessOutcome(suite, entries, extraction, filename, currentYear)).TransactionsProcessed() == 0)
  {
    OutcomeSuccess(suite, entries, extraction, filename, currentYear);
  }
}
