/** The helpers the result modals use to pick the data, the outcome and the error text to show. */
module ModalHelpers {
  import opened Wrappers
  import opened Text
  import opened Verification

  /** `getDisplayData`: the first present of verified, CBE-extracted and extracted data, whole. */
  function GetDisplayData(r: Response): (d: Option<ExtractedData>)
    ensures r.verifiedData.Some? ==> d == r.verifiedData
    ensures r.verifiedData.None? && r.cbeExtractedData.Some? ==> d == r.cbeExtractedData
    ensures r.verifiedData.None? && r.cbeExtractedData.None? ==> d == r.extractedData
    ensures d.Some? <==> r.verifiedData.Some? || r.cbeExtractedData.Some? || r.extractedData.Some?
    ensures d == r.verifiedData || d == r.cbeExtractedData || d == r.extractedData
  {
    if r.verifiedData.Some? then r.verifiedData
    else if r.cbeExtractedData.Some? then r.cbeExtractedData
    else r.extractedData
  }

  /** `!!amount`: present and non-zero. */
  predicate AmountTruthy(a: Option<real>) {
    a.Some? && a.value != 0.0
  }

  /** Some transaction id is present: `transaction_id || possible_transaction_id`. */
  predicate HasTransactionId(d: ExtractedData) {
    Truthy(d.transactionId) || Truthy(d.possibleTransactionId)
  }

  /** `isTransactionSuccess`: a 'success' status and a display record with every required field. */
  predicate IsTransactionSuccess(r: Response, d: Option<ExtractedData>) {
    && r.status == Some("success")
    && d.Some?
    && HasTransactionId(d.value)
    && Truthy(d.value.senderName)
    && Truthy(d.value.receiverName)
    && AmountTruthy(d.value.amount)
    && Truthy(d.value.transactionDate)
  }

  /** A 'success' status is not enough: a record missing any required field is not a success. */
  lemma MissingFieldIsNotSuccess(r: Response, d: ExtractedData)
    requires !HasTransactionId(d) || !Truthy(d.senderName) || !Truthy(d.receiverName)
          || !AmountTruthy(d.amount) || !Truthy(d.transactionDate)
    ensures !IsTransactionSuccess(r, Some(d))
  {
  }

  /** `isTestTransaction`: the backend's fixture record. */
  predicate IsTestTransaction(d: Option<ExtractedData>) {
    && d.Some?
    && d.value.senderName == Some("Test User")
    && d.value.receiverName == Some("Test Recipient")
    && d.value.amount == Some(100.0)
  }

  /** The fixture test reads only the two names and the amount. */
  lemma TestTransactionReadsThreeFields(d: ExtractedData, e: ExtractedData)
    requires d.senderName == e.senderName && d.receiverName == e.receiverName && d.amount == e.amount
    ensures IsTestTransaction(Some(d)) <==> IsTestTransaction(Some(e))
    ensures !IsTestTransaction(None)
  {
  }

  /** The success test does not exclude the fixture: with an ID and a date it is a success. */
  lemma TestTransactionCanBeSuccess(r: Response)
    requires r.status == Some("success") && IsTestTransaction(GetDisplayData(r))
    requires HasTransactionId(GetDisplayData(r).value) && Truthy(GetDisplayData(r).value.transactionDate)
    ensures IsTransactionSuccess(r, GetDisplayData(r))
  {
  }

  datatype ErrorInfo = ErrorInfo(title: string, message: string, showRetry: bool)

  const InvalidIdInfo := ErrorInfo(
    "Invalid Transaction ID",
    "Sorry your transaction Id is invalid. Please put the correct ID and retry again.",
    false)

  const ConnectionErrorInfo := ErrorInfo(
    "Connection Error",
    "Unable to connect to the verification service. Please check your internet connection and try again.",
    true)

  const TimeoutInfo := ErrorInfo(
    "Request Timeout",
    "The verification request took too long to complete. Please try again.",
    true)

  const MissingInfoFallback := "Please fill in all required fields and try again."

  /** `getErrorInfo`: the title, message and retry button for an `error_type`. */
  function GetErrorInfo(r: Response): (info: ErrorInfo)
    ensures info.showRetry <==> r.errorType == Some(Network) || r.errorType == Some(Timeout)
    ensures r.errorType == Some(Network) ==> info == ConnectionErrorInfo
    ensures r.errorType == Some(Timeout) ==> info == TimeoutInfo
    ensures r.errorType == Some(Validation) ==>
      info == ErrorInfo("Missing Information", if Truthy(r.message) then r.message.value else MissingInfoFallback, false)
    ensures r.errorType != Some(Network) && r.errorType != Some(Timeout) && r.errorType != Some(Validation) ==>
      info == InvalidIdInfo
  {
    match r.errorType
    case Some(Network) => ConnectionErrorInfo
    case Some(Timeout) => TimeoutInfo
    case Some(InvalidTransaction) => InvalidIdInfo
    case Some(Validation) =>
      ErrorInfo("Missing Information", if Truthy(r.message) then r.message.value else MissingInfoFallback, false)
    case _ => InvalidIdInfo
  }

  /** Only a validation error shows the response's own message. */
  lemma ErrorInfoUsesMessageOnlyForValidation(r: Response, m: Option<string>)
    requires r.errorType != Some(Validation)
    ensures GetErrorInfo(r.(message := m)) == GetErrorInfo(r)
  {
  }

  /** A formatted value: 'N/A', or the input handed on to the locale formatter. */
  datatype Formatted<T> = NotAvailable | ToLocale(value: T)

  /** `formatCurrency`: 'N/A' for null or undefined only; zero is still formatted. */
  function FormatCurrency(amount: Option<real>): (f: Formatted<real>)
    ensures f.NotAvailable? <==> amount.None?
    ensures amount.Some? ==> f.value == amount.value
  {
    if amount.None? then NotAvailable else ToLocale(amount.value)
  }

  /** `formatDate`: 'N/A' for an empty or missing date string. */
  function FormatDate(date: Option<string>): (f: Formatted<string>)
    ensures f.NotAvailable? <==> !Truthy(date)
    ensures Truthy(date) ==> f.value == date.value
  {
    if !Truthy(date) then NotAvailable else ToLocale(date.value)
  }

  /** `formatTime`: 'N/A' for an empty or missing time string. */
  function FormatTime(time: Option<string>): (f: Formatted<string>)
    ensures f.NotAvailable? <==> !Truthy(time)
    ensures Truthy(time) ==> f.value == time.value
  {
    if !Truthy(time) then NotAvailable else ToLocale(time.value)
  }
}
