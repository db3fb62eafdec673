/**
 * `ErrorHandler`: turns whatever a `verify*` call threw into the error
 * state the pages show. Rules are tried in order and the first match wins;
 * the `error_type` the API client attached is never consulted.
 */
module ErrorHandler {
  import opened Wrappers
  import opened Text
  import opened Verification
  import opened Api

  /** `ErrorState`; `type` only ever takes network, server, validation, timeout or unknown. */
  datatype ErrorState = ErrorState(message: string, kind: ErrorType, details: Option<string>, retryable: bool)

  const NetworkMessage := "Unable to connect to the server. Please check your internet connection."
  const TimeoutMessage := "Request timed out. Please try again."
  const ServerMessage := "Server error occurred. Please try again later."
  const InvalidRequestMessage := "Invalid request. Please check your input."
  const GenericApiMessage := "An error occurred while processing your request."
  const FallbackMessage := "An unexpected error occurred. Please try again."

  /** `'message' in error` on an object: the API-error branch applies. */
  predicate HasMessage(e: Thrown) {
    e.ObjectThrown? && e.message.Some?
  }

  predicate NetworkPhrase(m: string) {
    Contains(m, "Network Error") || Contains(m, "Unable to connect")
  }

  /** `status && status >= bound`: a present, non-zero status at least `bound`. */
  predicate StatusAtLeast(status: Option<int>, bound: int) {
    status.Some? && status.value != 0 && status.value >= bound
  }

  /**
   * `ErrorHandler.handle`. Network phrases beat 'timeout', which beats a
   * 5xx status, which beats a 4xx status; an API error matching none is
   * unknown, and so is anything without a message.
   */
  function Handle(e: Thrown): (r: ErrorState)
    // The retry flag is false exactly for validation errors.
    ensures r.retryable <==> r.kind != Validation
    ensures r.kind in {Network, Timeout, Server, Validation, Unknown}
    ensures r.kind == Network <==> HasMessage(e) && NetworkPhrase(e.message.value)
    ensures r.kind == Timeout <==>
      HasMessage(e) && !NetworkPhrase(e.message.value) && Contains(e.message.value, "timeout")
    ensures r.kind == Server <==>
      && HasMessage(e) && !NetworkPhrase(e.message.value) && !Contains(e.message.value, "timeout")
      && StatusAtLeast(e.status, 500)
    ensures r.kind == Validation <==>
      && HasMessage(e) && !NetworkPhrase(e.message.value) && !Contains(e.message.value, "timeout")
      && StatusAtLeast(e.status, 400) && e.status.value < 500
    ensures r.kind == Network ==> r.message == NetworkMessage
    ensures r.kind == Timeout ==> r.message == TimeoutMessage
    ensures r.kind == Server ==> r.message == ServerMessage
    ensures HasMessage(e) && r.kind == Unknown ==>
      r.message == (if e.message.value != "" then e.message.value else GenericApiMessage)
    ensures r.kind == Validation ==>
      r.message == (if e.message.value != "" then e.message.value else InvalidRequestMessage)
    ensures HasMessage(e) ==> r.details == e.details
    ensures !HasMessage(e) ==> r == ErrorState(FallbackMessage, Unknown, None, true)
  {
    if HasMessage(e) then
      var m := e.message.value;
      if NetworkPhrase(m) then
        ErrorState(NetworkMessage, Network, e.details, true)
      else if Contains(m, "timeout") then
        ErrorState(TimeoutMessage, Timeout, e.details, true)
      else if StatusAtLeast(e.status, 500) then
        ErrorState(ServerMessage, Server, e.details, true)
      else if StatusAtLeast(e.status, 400) then
        ErrorState(if m != "" then m else InvalidRequestMessage, Validation, e.details, false)
      else
        ErrorState(if m != "" then m else GenericApiMessage, Unknown, e.details, true)
    else
      ErrorState(FallbackMessage, Unknown, None, true)
  }

  /** `ErrorHandler.isRetryable`: the stored flag. */
  function IsRetryable(s: ErrorState): (r: bool)
    ensures r <==> s.retryable
  {
    s.retryable
  }

  /** A message naming both a network failure and a timeout is classified as network. */
  lemma NetworkBeforeTimeout(e: Thrown)
    requires HasMessage(e) && NetworkPhrase(e.message.value) && Contains(e.message.value, "timeout")
    ensures Handle(e).kind == Network && Handle(e).retryable
  {
  }

  /** A missing or zero status with no phrase match is unknown and retryable. */
  lemma NoStatusIsUnknown(e: Thrown)
    requires HasMessage(e) && !NetworkPhrase(e.message.value) && !Contains(e.message.value, "timeout")
    requires e.status.None? || e.status == Some(0)
    ensures Handle(e).kind == Unknown && Handle(e).retryable
    ensures Handle(e).message == (if e.message.value != "" then e.message.value else GenericApiMessage)
  {
  }

  /** The classification ignores the `error_type` and `response` keys of what was thrown. */
  lemma IgnoresErrorType(e: Thrown, t: Option<ErrorType>, raw: Option<Response>)
    requires e.ObjectThrown?
    ensures Handle(e.(errorType := t, response := raw)) == Handle(e)
  {
  }

  /**
   * Across both stages: an interceptor rejection for a request that got no
   * response always shows as a network error, even when the API client
   * classified it as a timeout.
   */
  lemma NoResponseIsNetwork(e: AxiosError)
    requires e.requestSent && e.response.None?
    ensures Handle(Reject(e)).kind == Network
    ensures TransportTimeout(e) ==> GetErrorType(e) == Timeout
  {
    assert StartsWith(NetworkErrorMessage, "Network Error");
  }

  /**
   * Across both stages: a 408 whose body has no message is a timeout for
   * the API client but a non-retryable validation error for the handler.
   */
  lemma BareTimeoutStatusIsValidation(e: AxiosError)
    requires e.response.Some? && e.response.value.status == 408
    requires !Truthy(BodyMessage(e.response.value))
    ensures GetErrorType(e) == Timeout
    ensures Handle(Reject(e)).kind == Validation && !Handle(Reject(e)).retryable
  {
    var digits := IntToString(e.response.value.status);
    Render408();
    ServerErrorPrefixLetters();
    NoPhraseInAppend("Server Error: ", digits);
  }

  /** A message without 'N', 'U' and 't' holds neither a network phrase nor 'timeout'. */
  lemma NoPhraseWithout(m: string)
    requires 'N' !in m && 'U' !in m && 't' !in m
    ensures !NetworkPhrase(m) && !Contains(m, "timeout")
  {
    NotContainsMissingHead(m, "Network Error");
    NotContainsMissingHead(m, "Unable to connect");
    NotContainsMissingHead(m, "timeout");
  }

  /** A prefix without those letters followed by decimal digits holds none of the phrases. */
  lemma NoPhraseInAppend(prefix: string, digits: string)
    requires 'N' !in prefix && 'U' !in prefix && 't' !in prefix
    requires forall i :: 0 <= i < |digits| ==> '0' <= digits[i] <= '9'
    ensures !NetworkPhrase(prefix + digits) && !Contains(prefix + digits, "timeout")
  {
    assert forall c :: c in prefix + digits ==> c in prefix || c in digits;
    NoPhraseWithout(prefix + digits);
  }

  /**
   * Solver aid for the 408 proof: the fixed prefix lacks the three letters.
   * Kept apart so that the literal is unfolded in a small proof of its own.
   */
  lemma ServerErrorPrefixLetters()
    ensures 'N' !in "Server Error: " && 'U' !in "Server Error: " && 't' !in "Server Error: "
  {
  }

  /** Solver aid for the 408 proof: the status renders as "408". */
  lemma Render408()
    ensures IntToString(408) == "408"
  {
    assert IntToString(4) == "4";
    assert IntToString(40) == "40";
  }
}
