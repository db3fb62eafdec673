/**
 * The records the frontend exchanges with the verification backend. Every
 * property the source declares optional is an `Option`; strings keep the
 * exact values the source compares against.
 */
module Verification {
  import opened Wrappers

  datatype Bank = Telebirr | Boa | Cbe

  function BankName(b: Bank): string {
    match b
    case Telebirr => "telebirr"
    case Boa => "boa"
    case Cbe => "cbe"
  }

  /**
   * Every value `error_type` takes at run time: the five the API client
   * assigns plus 'server', which the pages copy over from the error handler.
   */
  datatype ErrorType = Network | Timeout | InvalidTransaction | Validation | Server | Unknown

  /** The extracted transaction record (the fields the core reads or writes). */
  datatype ExtractedData = ExtractedData(
    transactionId: Option<string>,
    possibleTransactionId: Option<string>,
    amount: Option<real>,
    senderName: Option<string>,
    senderBankName: Option<string>,
    receiverName: Option<string>,
    receiverBankName: Option<string>,
    transactionDate: Option<string>,
    date: Option<string>,
    status: Option<string>,
    transactionStatus: Option<string>,
    debugInfo: Option<string>)

  /** `{ transaction_id: undefined }` and every other field absent. */
  const NoData := ExtractedData(None, None, None, None, None, None, None, None, None, None, None, None)

  /**
   * A JSON body: the backend's reply in either of its two shapes, the
   * normalised `ApiResponse` and the `VerificationResponse` the pages store
   * (the source casts freely between them).
   */
  datatype Response = Response(
    status: Option<string>,
    message: Option<string>,
    success: Option<bool>,
    data: Option<ExtractedData>,
    details: Option<string>,
    verifiedData: Option<ExtractedData>,
    cbeExtractedData: Option<ExtractedData>,
    extractedData: Option<ExtractedData>,
    errorType: Option<ErrorType>)

  /** The page-built response `{status, message, error_type}`. */
  function StatusResponse(status: string, message: string, errorType: ErrorType): (r: Response)
    ensures r.status == Some(status) && r.message == Some(message) && r.errorType == Some(errorType)
    ensures r.verifiedData.None? && r.cbeExtractedData.None? && r.extractedData.None?
  {
    Response(Some(status), Some(message), None, None, None, None, None, None, Some(errorType))
  }

  /** A file chosen in a file picker or dropped on the upload area. */
  datatype File = File(name: string, mimeType: string)

  /** A value handed to the backend as the `image` part: a file, or a blob made from a camera capture. */
  datatype Upload = Picked(file: File) | Captured(mimeType: string, dataUrl: string)
}
