// The converter's error hierarchy, its table of client-side error codes and
// the dictionary an error is turned into for the client.
module Exceptions {
  import opened Wrappers

  /** The subclasses of the base converter error; `Base` is the base class itself. */
  datatype ErrorKind =
    | Base | PdfProcessing | BankDetection | TransactionParsing
    | DataValidation | FileValidation | UnsupportedBank | Configuration

  datatype ConverterError = ConverterError(kind: ErrorKind, message: string, code: Option<string>, details: map<string, string>)

  /** The constructor: message and code as given, an absent (or empty) details dictionary becomes `{}`. */
  function NewConverterError(kind: ErrorKind, message: string, code: Option<string>, details: Option<map<string, string>>): (e: ConverterError)
    ensures e.kind == kind && e.message == message && e.code == code
    ensures details.None? ==> e.details == map[]
    ensures details.Some? ==> e.details == details.value
  {
    ConverterError(kind, message, code, match details case None => map[] case Some(d) => d)
  }

  datatype ErrorReply = ErrorReply(success: bool, message: string, code: Option<string>, details: map<string, string>, errors: seq<string>)

  /** The standard error dictionary of an error. */
  function CreateErrorResponse(e: ConverterError): (r: ErrorReply)
    ensures !r.success
    ensures r.message == e.message && r.code == e.code && r.details == e.details
    ensures r.errors == [e.message]
  {
    ErrorReply(false, e.message, e.code, e.details, [e.message])
  }

  /** The error codes offered to the client, each mapped to itself. */
  const ErrorCodes: map<string, string> := map[
    "INVALID_FILE_TYPE" := "INVALID_FILE_TYPE",
    "FILE_TOO_LARGE" := "FILE_TOO_LARGE",
    "CORRUPTED_PDF" := "CORRUPTED_PDF",
    "NO_TEXT_EXTRACTED" := "NO_TEXT_EXTRACTED",
    "BANK_NOT_DETECTED" := "BANK_NOT_DETECTED",
    "UNSUPPORTED_BANK" := "UNSUPPORTED_BANK",
    "NO_TRANSACTIONS_FOUND" := "NO_TRANSACTIONS_FOUND",
    "PARSING_FAILED" := "PARSING_FAILED",
    "DATA_VALIDATION_FAILED" := "DATA_VALIDATION_FAILED",
    "PROCESSING_TIMEOUT" := "PROCESSING_TIMEOUT",
    "INTERNAL_ERROR" := "INTERNAL_ERROR"
  ]

  lemma ErrorCodesAreIdentity()
    ensures |ErrorCodes| == 11
    ensures forall k :: k in ErrorCodes ==> ErrorCodes[k] == k
  {
  }
}
