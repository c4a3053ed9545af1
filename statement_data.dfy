// The result models of the converter: transaction and bank tags, the
// transaction and metadata records with their field validators, the processed
// statement with its CSV view, and the success / error envelopes sent back to
// the client.
module StatementData {
  import opened Wrappers
  import opened Text
  import opened Dates
  import opened Money

  datatype TransactionType = Purchase | Payment | Fee | Interest | Credit | CashAdvance | Transfer | Other
  {
    /** The enum's string value. */
    function Value(): string
    {
      match this
      case Purchase => "purchase"
      case Payment => "payment"
      case Fee => "fee"
      case Interest => "interest"
      case Credit => "credit"
      case CashAdvance => "cash_advance"
      case Transfer => "transfer"
      case Other => "other"
    }
  }

  /** `TransactionType(value)`: the member whose value is `s`. */
  function TransactionTypeOf(s: string): (r: Option<TransactionType>)
    ensures r.Some? ==> r.value.Value() == s
  {
    if s == "purchase" then Some(Purchase)
    else if s == "payment" then Some(Payment)
    else if s == "fee" then Some(Fee)
    else if s == "interest" then Some(Interest)
    else if s == "credit" then Some(Credit)
    else if s == "cash_advance" then Some(CashAdvance)
    else if s == "transfer" then Some(Transfer)
    else if s == "other" then Some(Other)
    else None
  }

  /** Every type is recovered from its value, so distinct types have distinct values. */
  lemma TypeValueRoundTrip(t: TransactionType)
    ensures TransactionTypeOf(t.Value()) == Some(t)
  {
  }

  datatype BankType = Chase | Amex | Citibank | BankOfAmerica | CapitalOne | WellsFargo | Discover | BancoNacion | Generic
  {
    function Value(): string
    {
      match this
      case Chase => "chase"
      case Amex => "amex"
      case Citibank => "citibank"
      case BankOfAmerica => "bank_of_america"
      case CapitalOne => "capital_one"
      case WellsFargo => "wells_fargo"
      case Discover => "discover"
      case BancoNacion => "banco_nacion"
      case Generic => "generic"
    }
  }

  /** The bank tags in declaration order. */
  const AllBanks: seq<BankType> :=
    [Chase, Amex, Citibank, BankOfAmerica, CapitalOne, WellsFargo, Discover, BancoNacion, Generic]

  datatype Transaction = Transaction(
    date: Date,
    description: string,
    amount: real,
    ttype: TransactionType,
    category: Option<string>,
    reference: Option<string>)

  /** What the validators guarantee of every constructed transaction. */
  predicate WellFormed(t: Transaction)
  {
    Valid(t.date) && IsCents(t.amount) && t.description == Strip(t.description)
  }

  /** The amount validator: zero is kept as it is, anything else is rounded to cents. */
  function ValidateAmount(v: real): (r: real)
    ensures IsCents(r)
    ensures -0.005 <= r - v <= 0.005
    ensures v == 0.0 ==> r == 0.0
  {
    if v == 0.0 then v else RoundCents(v)
  }

  /** A value already in cents passes the amount validator unchanged. */
  lemma ValidateAmountKeepsCents(v: real)
    requires IsCents(v)
    ensures ValidateAmount(v) == v
  {
    RoundCentsKeepsCents(v);
  }

  lemma ValidateAmountSign(v: real)
    ensures v >= 0.0 ==> ValidateAmount(v) >= 0.0
    ensures v <= 0.0 ==> ValidateAmount(v) <= 0.0
  {
    RoundCentsSign(v);
  }

  lemma ValidateAmountIdempotent(v: real)
    ensures ValidateAmount(ValidateAmount(v)) == ValidateAmount(v)
  {
    ValidateAmountKeepsCents(ValidateAmount(v));
  }

  /** The description validator: an empty value stays empty, anything else is stripped. */
  function ValidateDescription(v: string): (r: string)
    ensures r == Strip(v)
    ensures r == Strip(r)
  {
    StripIdempotent(v);
    if v == [] then [] else Strip(v)
  }

  /** `Transaction(...)`: the record as its validators leave it. */
  function NewTransaction(date: Date, description: string, amount: real, ttype: TransactionType,
                          category: Option<string>, reference: Option<string>): (t: Transaction)
    requires Valid(date)
    ensures WellFormed(t)
    ensures t.date == date && t.ttype == ttype && t.category == category && t.reference == reference
    ensures t.description == Strip(description)
    ensures t.amount == ValidateAmount(amount)
    ensures IsCents(amount) ==> t.amount == amount
  {
    var a := if IsCents(amount) then ValidateAmountKeepsCents(amount); ValidateAmount(amount) else ValidateAmount(amount);
    Transaction(date, ValidateDescription(description), a, ttype, category, reference)
  }

  datatype Metadata = Metadata(
    bankName: string,
    bankType: BankType,
    accountNumber: Option<string>,
    statementPeriod: string,
    dueDate: Option<string>,
    nextClosing: Option<string>,
    balance: string,
    minimumPayment: Option<string>,
    creditLimit: Option<string>,
    availableCredit: Option<string>,
    totalTransactions: int)

  /** The validator of the date-like metadata fields: strings are stripped, an absent value stays absent. */
  function ValidateDateField(v: Option<string>): (r: Option<string>)
    ensures r.Some? <==> v.Some?
    ensures r.Some? ==> r.value == Strip(v.value) && Strip(r.value) == r.value
  {
    match v
    case None => None
    case Some(s) => StripIdempotent(s); Some(if s == [] then s else Strip(s))
  }

  /** `StatementMetadata(...)` with the fields the parsers set; the others keep their defaults. */
  function NewMetadata(bankName: string, bankType: BankType, accountNumber: Option<string>,
                       statementPeriod: string, dueDate: Option<string>, nextClosing: Option<string>,
                       balance: string, minimumPayment: Option<string>): (m: Metadata)
    ensures m.bankName == bankName && m.bankType == bankType && m.accountNumber == accountNumber
    ensures m.statementPeriod == Strip(statementPeriod)
    ensures m.dueDate == ValidateDateField(dueDate) && m.nextClosing == ValidateDateField(nextClosing)
    ensures m.balance == balance && m.minimumPayment == minimumPayment
    ensures m.creditLimit.None? && m.availableCredit.None? && m.totalTransactions == 0
  {
    Metadata(bankName, bankType, accountNumber, ValidateDateField(Some(statementPeriod)).value,
             ValidateDateField(dueDate), ValidateDateField(nextClosing), balance, minimumPayment,
             None, None, 0)
  }

  /** The CSV header line. */
  const Headers: seq<string> := ["Date", "Description", "Amount", "Type", "Category", "Reference"]

  /** One CSV row: ISO date, description, `str(amount)`, type value, category and reference or "". */
  function RowOf(t: Transaction): (row: seq<string>)
    requires WellFormed(t)
    ensures |row| == |Headers|
  {
    [FormatIso(t.date), t.description, FormatAmount(t.amount), t.ttype.Value(),
     t.category.GetOr(""), t.reference.GetOr("")]
  }

  /** The row gives back the transaction's date, description, amount and type; its last two cells
      hold the category and the reference, or "" where there is none. */
  lemma RowRoundTrip(t: Transaction)
    requires WellFormed(t)
    ensures ParseIso(RowOf(t)[0]) == Some(t.date)
    ensures RowOf(t)[1] == t.description
    ensures ParseFloat(RowOf(t)[2]) == Some(t.amount)
    ensures TransactionTypeOf(RowOf(t)[3]) == Some(t.ttype)
    ensures t.category.Some? ==> RowOf(t)[4] == t.category.value
    ensures t.category.None? ==> RowOf(t)[4] == ""
    ensures t.reference.Some? ==> RowOf(t)[5] == t.reference.value
    ensures t.reference.None? ==> RowOf(t)[5] == ""
  {
    var row := RowOf(t);
    assert row[0] == FormatIso(t.date) && row[2] == FormatAmount(t.amount) && row[3] == t.ttype.Value();
    IsoRoundTrip(t.date);
    FormatAmountParses(t.amount);
    TypeValueRoundTrip(t.ttype);
  }

  predicate AllWellFormed(txs: seq<Transaction>)
  {
    forall i :: 0 <= i < |txs| ==> WellFormed(txs[i])
  }

  /** Joining two well-formed lists gives a well-formed list. */
  lemma WellFormedAppend(a: seq<Transaction>, b: seq<Transaction>)
    requires AllWellFormed(a) && AllWellFormed(b)
    ensures AllWellFormed(a + b)
  {
    forall i | 0 <= i < |a + b| ensures WellFormed((a + b)[i]) {
      if i >= |a| { assert (a + b)[i] == b[i - |a|]; }
    }
  }

  /** The rows of a transaction list, one per transaction, in order. */
  function RowsOf(txs: seq<Transaction>): (rows: seq<seq<string>>)
    requires AllWellFormed(txs)
    ensures |rows| == |txs|
    ensures forall i :: 0 <= i < |txs| ==> rows[i] == RowOf(txs[i])
  {
    seq(|txs|, i requires 0 <= i < |txs| => RowOf(txs[i]))
  }

  /** A parsed statement: later steps replace its transaction list, set its raw text and
      append processing notes. */
  class ProcessedStatement {
    var transactions: seq<Transaction>
    var metadata: Metadata
    var rawText: Option<string>
    var notes: seq<string>

    predicate Valid()
      reads this
    {
      AllWellFormed(transactions)
    }

    constructor(transactions: seq<Transaction>, metadata: Metadata, rawText: Option<string>, notes: seq<string>)
      ensures this.transactions == transactions && this.metadata == metadata
      ensures this.rawText == rawText && this.notes == notes
    {
      this.transactions := transactions;
      this.metadata := metadata;
      this.rawText := rawText;
      this.notes := notes;
    }

    /** The `rows` property, built one transaction at a time. */
    method Rows() returns (rows: seq<seq<string>>)
      requires Valid()
      ensures rows == RowsOf(transactions)
    {
      var txs := transactions;
      rows := [];
      var i := 0;
      while i < |txs|
        invariant 0 <= i <= |txs|
        invariant AllWellFormed(txs[..i])
        invariant rows == RowsOf(txs[..i])
      {
        assert txs[..i + 1] == txs[..i] + [txs[i]];
        RowsSnoc(txs[..i], txs[i]);
        rows := rows + [RowOf(txs[i])];
        i := i + 1;
      }
      assert txs[..i] == txs;
    }
  }

  /** Appending a transaction appends its row. */
  lemma RowsSnoc(txs: seq<Transaction>, t: Transaction)
    requires AllWellFormed(txs) && WellFormed(t)
    ensures AllWellFormed(txs + [t])
    ensures RowsOf(txs + [t]) == RowsOf(txs) + [RowOf(t)]
  {
    assert forall i :: 0 <= i < |txs| ==> (txs + [t])[i] == txs[i];
  }

  datatype ResponseMetadata = ResponseMetadata(
    totalTransactions: nat,
    statementPeriod: string,
    dueDate: Option<string>,
    nextClosing: Option<string>,
    balance: string,
    bankName: string)

  datatype ResponseData = ResponseData(headers: seq<string>, rows: seq<seq<string>>, metadata: ResponseMetadata)

  datatype ProcessingResult = ProcessingResult(success: bool, message: string, data: Option<ResponseData>, errors: seq<string>)

  /** The success envelope of a statement: its CSV view and a metadata summary. */
  function SuccessResponse(txs: seq<Transaction>, md: Metadata): (r: ProcessingResult)
    requires AllWellFormed(txs)
    ensures r.success && r.errors == [] && r.data.Some?
    ensures r.data.value.headers == Headers && r.data.value.rows == RowsOf(txs)
    ensures r.data.value.metadata.totalTransactions == |txs|
    ensures r.data.value.metadata.bankName == md.bankName && r.data.value.metadata.balance == md.balance
    ensures r.data.value.metadata.statementPeriod == md.statementPeriod
    ensures r.data.value.metadata.dueDate == md.dueDate && r.data.value.metadata.nextClosing == md.nextClosing
  {
    ProcessingResult(true, "PDF processed successfully",
      Some(ResponseData(Headers, RowsOf(txs),
        ResponseMetadata(|txs|, md.statementPeriod, md.dueDate, md.nextClosing, md.balance, md.bankName))),
      [])
  }

  /** The count reported to the client is the list length, whatever the metadata says. */
  lemma SuccessIgnoresStoredCount(txs: seq<Transaction>, md: Metadata, n: int)
    requires AllWellFormed(txs)
    ensures SuccessResponse(txs, md.(totalTransactions := n)) == SuccessResponse(txs, md)
  {
  }

  /** The error envelope; an absent error list becomes the empty list. */
  function ErrorResponse(message: string, errors: Option<seq<string>>): (r: ProcessingResult)
    ensures !r.success && r.data.None? && r.message == message
    ensures r.errors == (if errors.Some? then errors.value else [])
  {
    ProcessingResult(false, message, None, errors.GetOr([]))
  }
}
