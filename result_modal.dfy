/**
 * The decision part of `ResultModal`: which view a stored response gets
 * and what that view shows. Its success test is its own copy, which
 * differs from `ModalHelpers.IsTransactionSuccess`.
 */
module ResultModal {
  import opened Wrappers
  import opened Text
  import opened Verification
  import ModalHelpers

  /** `!debug_info?.includes('Test data') && !debug_info?.includes('temporarily unavailable')`. */
  predicate DebugClean(d: ExtractedData) {
    !(d.debugInfo.Some? && (Contains(d.debugInfo.value, "Test data")
                            || Contains(d.debugInfo.value, "temporarily unavailable")))
  }

  /**
   * The modal's `isTransactionSuccess`: a 'success' status and a display
   * record with an id, both names and a non-zero amount that is not test or
   * placeholder data. No transaction date is required.
   */
  predicate IsTransactionSuccess(r: Response) {
    var d := ModalHelpers.GetDisplayData(r);
    && r.status == Some("success")
    && d.Some?
    && ModalHelpers.HasTransactionId(d.value)
    && Truthy(d.value.senderName)
    && Truthy(d.value.receiverName)
    && ModalHelpers.AmountTruthy(d.value.amount)
    && DebugClean(d.value)
  }

  /** `isTransactionFailed`: an explicit failure marker on the response or its display record. */
  predicate IsTransactionFailed(r: Response) {
    var d := ModalHelpers.GetDisplayData(r);
    || r.status == Some("failed")
    || (d.Some? && d.value.transactionStatus == Some("Failed"))
    || (d.Some? && d.value.status == Some("Failed"))
    || (d.Some? && d.value.status == Some("Service Unavailable"))
  }

  datatype View =
    | SuccessView(
        transactionId: string,
        senderName: string,
        senderBank: string,
        receiverName: string,
        amount: real,
        date: string)
    | FailedView(title: string, message: string)

  const ServiceUnavailableMessage := "CBE verification service is temporarily unavailable. Please try again later."
  const VerificationFailedMessage := "Transaction verification failed. Please check your transaction ID and try again."

  predicate ServiceUnavailable(d: Option<ExtractedData>) {
    d.Some? && d.value.status == Some("Service Unavailable")
  }

  /** The failed view's title and message, both chosen by the 'Service Unavailable' test. */
  function FailedContent(d: Option<ExtractedData>): (v: View)
    ensures v.FailedView?
    ensures v.title == "Service Unavailable" <==> ServiceUnavailable(d)
    ensures v.message == (if ServiceUnavailable(d) then ServiceUnavailableMessage else VerificationFailedMessage)
  {
    if ServiceUnavailable(d) then FailedView("Service Unavailable", ServiceUnavailableMessage)
    else FailedView("Invalid Transaction ID", VerificationFailedMessage)
  }

  /** The view the modal renders for a response. */
  function Render(r: Response): (v: View)
    ensures v.SuccessView? <==> IsTransactionSuccess(r)
    ensures v.SuccessView? ==>
      var d := ModalHelpers.GetDisplayData(r).value;
      && v.transactionId == Or(d.transactionId, d.possibleTransactionId).value
      && Truthy(Some(v.transactionId))
      && Some(v.senderName) == d.senderName && Some(v.receiverName) == d.receiverName
      && v.senderBank == (if Truthy(d.senderBankName) then d.senderBankName.value else "N/A")
      && v.date == Or(d.transactionDate, Or(d.date, Some("N/A"))).value
      && Some(v.amount) == d.amount && v.amount != 0.0
    ensures !IsTransactionSuccess(r) ==> v == FailedContent(ModalHelpers.GetDisplayData(r))
  {
    var d := ModalHelpers.GetDisplayData(r);
    if IsTransactionSuccess(r) then
      var data := d.value;
      SuccessView(
        Or(data.transactionId, data.possibleTransactionId).value,
        data.senderName.value,
        if Truthy(data.senderBankName) then data.senderBankName.value else "N/A",
        data.receiverName.value,
        data.amount.value,
        Or(data.transactionDate, Or(data.date, Some("N/A"))).value)
    else if IsTransactionFailed(r) then
      FailedContent(d)
    else
      FailedContent(d)
  }

  /** The view depends on neither the response message nor its `error_type`. */
  lemma RenderIgnoresMessageAndErrorType(r: Response, m: Option<string>, e: Option<ErrorType>)
    ensures Render(r.(message := m, errorType := e)) == Render(r)
  {
  }

  /** Every response that is not a success, manual-verification ones included, gets the failed view. */
  lemma ManualVerificationIsFailedView(r: Response)
    requires r.status == Some("Manual_Verification_Required")
    ensures Render(r).FailedView?
    ensures Render(r).title == "Service Unavailable" <==> ServiceUnavailable(ModalHelpers.GetDisplayData(r))
  {
  }

  /**
   * The two success tests disagree in both directions: the modal accepts a
   * record without a transaction date, and the helper accepts test data.
   */
  lemma SuccessCopiesDisagree()
    ensures exists r :: IsTransactionSuccess(r) && !ModalHelpers.IsTransactionSuccess(r, ModalHelpers.GetDisplayData(r))
    ensures exists r :: !IsTransactionSuccess(r) && ModalHelpers.IsTransactionSuccess(r, ModalHelpers.GetDisplayData(r))
  {
    var d := NoData.(transactionId := Some("FT1"), senderName := Some("A"), receiverName := Some("B"),
                     amount := Some(5.0));
    var r1 := Response(Some("success"), Some("ok"), None, None, None, Some(d), None, None, None);
    assert IsTransactionSuccess(r1);
    var d2 := d.(transactionDate := Some("2024-01-01"), debugInfo := Some("Test data"));
    var r2 := r1.(verifiedData := Some(d2));
    assert StartsWith(d2.debugInfo.value, "Test data");
    assert ModalHelpers.IsTransactionSuccess(r2, ModalHelpers.GetDisplayData(r2));
  }

  /** A helper-approved success whose debug text is clean is also a success for the modal. */
  lemma HelperSuccessIsModalSuccess(r: Response)
    requires ModalHelpers.IsTransactionSuccess(r, ModalHelpers.GetDisplayData(r))
    requires DebugClean(ModalHelpers.GetDisplayData(r).value)
    ensures IsTransactionSuccess(r)
  {
  }

  datatype RetryChoice = CallOnRetry | ReloadPage

  /** The Retry button: `onRetry || (() => window.location.reload())`. */
  function RetryAction(hasOnRetry: bool): (a: RetryChoice)
    ensures a == CallOnRetry <==> hasOnRetry
  {
    if hasOnRetry then CallOnRetry else ReloadPage
  }
}
