/**
 * What the CBE and Telebirr pages share: the catch block that turns a
 * thrown value into the response the result modal shows (manual
 * verification is intercepted before the error handler is consulted), the
 * transaction ID carried over when switching to manual entry, the routing
 * of the modal's Retry button and the drop test.
 */
module PageCommon {
  import opened Wrappers
  import opened Text
  import opened Verification
  import opened Api
  import opened ErrorHandler

  /** The page's two tabs: image upload and typed transaction details. */
  datatype Tab = Upload | Transaction

  const ManualVerificationRequired := "Manual_Verification_Required"
  const DropRejectedMessage := "Please drop an image file or PDF"
  const CameraDeniedMessage := "Unable to access camera. Please check your permissions."

  /** The two phrases of the backend's "could not read the ID" message. */
  predicate HasManualPhrases(m: string) {
    Contains(m, "Unable to extract transaction ID from image") && Contains(m, "Please enter it manually")
  }

  /** The first test: an object with `message` and `error_type` whose message has both phrases. */
  predicate ProcessedManual(err: Thrown) {
    err.ObjectThrown? && err.message.Some? && err.errorType.Some? && HasManualPhrases(err.message.value)
  }

  /** The second test: `err.response.data.data.status === 'Manual Verification Required'`. */
  predicate RawManual(err: Thrown) {
    && err.ObjectThrown? && err.response.Some? && err.response.value.data.Some?
    && err.response.value.data.value.status == Some("Manual Verification Required")
  }

  /** The third test: any object whose message has both phrases. */
  predicate DirectManual(err: Thrown) {
    err.ObjectThrown? && err.message.Some? && HasManualPhrases(err.message.value)
  }

  /** `{status: 'Manual_Verification_Required', message, extracted_data}`. */
  function ManualResponse(message: Option<string>, extracted: ExtractedData): (r: Response)
    ensures r.status == Some(ManualVerificationRequired) && r.message == message
    ensures r.extractedData == Some(extracted) && r.errorType.None?
  {
    Response(Some(ManualVerificationRequired), message, None, None, None, None, None, Some(extracted), None)
  }

  /**
   * The catch block of `handleCBEVerify` and `handleTelebirrVerify`: three
   * manual-verification tests in order, then `{status: 'failed'}` with the
   * error handler's message and type.
   */
  function CatchResponse(err: Thrown): (r: Response)
    ensures r.status == Some(ManualVerificationRequired) <==> RawManual(err) || DirectManual(err)
    ensures ProcessedManual(err) ==> r == ManualResponse(err.message, NoData)
    ensures RawManual(err) && !ProcessedManual(err) ==>
      r == ManualResponse(err.response.value.message, err.response.value.data.value)
    ensures !RawManual(err) && DirectManual(err) ==> r == ManualResponse(err.message, NoData)
    ensures !RawManual(err) && !DirectManual(err) ==>
      r == StatusResponse("failed", Handle(err).message, Handle(err).kind)
  {
    if ProcessedManual(err) then ManualResponse(err.message, NoData)
    else if RawManual(err) then ManualResponse(err.response.value.message, err.response.value.data.value)
    else if DirectManual(err) then ManualResponse(err.message, NoData)
    else
      var errorState := Handle(err);
      StatusResponse("failed", errorState.message, errorState.kind)
  }

  /** The response a page stores once the call settles: the body, or what the catch block makes of the error. */
  function Settle(c: Call): (r: Response)
    ensures c.Returned? ==> r == c.body
    ensures c.Threw? ==> r == CatchResponse(c.error)
  {
    match c
    case Returned(body) => body
    case Threw(err) => CatchResponse(err)
  }

  /**
   * Across the client and the page: what the interceptor rejects is never
   * caught by the raw-response test, so it becomes manual verification
   * exactly when its message has both phrases, and then without an ID.
   */
  lemma RejectionManualIffPhrases(e: AxiosError)
    ensures !RawManual(Reject(e))
    ensures CatchResponse(Reject(e)).status == Some(ManualVerificationRequired)
            <==> HasManualPhrases(HandleError(e).message)
    ensures HasManualPhrases(HandleError(e).message) ==>
      CatchResponse(Reject(e)) == ManualResponse(Some(HandleError(e).message), NoData)
  {
  }

  /**
   * A failed image extraction reported in an error body with a message
   * reaches the user as manual verification carrying that message.
   */
  lemma ExtractionFailureIsManual(e: AxiosError)
    requires e.response.Some? && Truthy(BodyMessage(e.response.value))
    requires HasManualPhrases(BodyMessage(e.response.value).value)
    ensures Settle(Await(Failed(e))) == ManualResponse(BodyMessage(e.response.value), NoData)
  {
  }

  /**
   * A failure the pages build never says `invalid_transaction`: the type the
   * client assigned is dropped and the error handler's is used.
   */
  lemma CaughtFailureIsNeverInvalidTransaction(err: Thrown)
    ensures CatchResponse(err).errorType != Some(InvalidTransaction)
  {
  }

  /** `response?.extracted_data?.transaction_id || response?.verified_data?.transaction_id`. */
  function ExtractedId(response: Option<Response>): (id: Option<string>)
    ensures response.None? ==> id.None?
    ensures response.Some? && response.value.extractedData.Some?
            && Truthy(response.value.extractedData.value.transactionId) ==>
      id == response.value.extractedData.value.transactionId
    ensures response.Some? && !(response.value.extractedData.Some? && Truthy(response.value.extractedData.value.transactionId)) ==>
      id == (if response.value.verifiedData.Some? then response.value.verifiedData.value.transactionId else None)
    ensures Truthy(id) ==>
      && response.Some?
      && (|| (response.value.extractedData.Some? && id == response.value.extractedData.value.transactionId)
          || (response.value.verifiedData.Some? && id == response.value.verifiedData.value.transactionId))
  {
    if response.None? then None
    else
      var fromExtracted := if response.value.extractedData.Some? then response.value.extractedData.value.transactionId else None;
      var fromVerified := if response.value.verifiedData.Some? then response.value.verifiedData.value.transactionId else None;
      Or(fromExtracted, fromVerified)
  }

  /** Switching to manual entry after an intercepted rejection never carries an ID over. */
  lemma ManualSwitchAfterRejectionKeepsId(e: AxiosError)
    requires HasManualPhrases(HandleError(e).message)
    ensures !Truthy(ExtractedId(Some(CatchResponse(Reject(e)))))
  {
    RejectionManualIffPhrases(e);
  }

  /** What the modal's Retry button runs on the CBE and Telebirr pages. */
  datatype RetryHandler = SwitchToManualEntry | CloseAndReverify

  /** The effective `onRetry` prop: switch to manual entry for a manual-verification response. */
  function RetryRoute(response: Option<Response>): (h: RetryHandler)
    ensures h == SwitchToManualEntry <==> response.Some? && response.value.status == Some(ManualVerificationRequired)
  {
    if response.Some? && response.value.status == Some(ManualVerificationRequired) then SwitchToManualEntry
    else CloseAndReverify
  }

  /** The drop test: an image type or a PDF. */
  predicate DropAccepted(mimeType: string) {
    StartsWith(mimeType, "image/") || mimeType == "application/pdf"
  }

  /** Files dropped with any image subtype are accepted; other types are refused. */
  lemma DropAcceptance(subtype: string, other: string)
    requires !StartsWith(other, "image/") && other != "application/pdf"
    ensures DropAccepted("image/" + subtype)
    ensures DropAccepted("application/pdf")
    ensures !DropAccepted(other)
  {
    assert ("image/" + subtype)[..|"image/"|] == "image/";
  }
}
