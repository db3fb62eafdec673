/**
 * The BOA page: whatever the tab, it validates and sends the typed
 * transaction ID and account number to the text endpoint. Failures go to
 * an error dialog (not the result modal) whose Retry button appears only
 * for retryable errors.
 */
module BoaPage {
  import opened Wrappers
  import opened Text
  import opened Verification
  import opened Api
  import opened ErrorHandler
  import opened PageCommon

  const MissingFieldsError := ErrorState("Please enter both transaction ID and account number", Validation, None, false)
  const DropRejectedError := ErrorState(DropRejectedMessage, Validation, None, false)
  const CameraDeniedError := ErrorState(CameraDeniedMessage, Validation, None, false)

  /** The form is complete when neither input is blank once trimmed. */
  predicate FormComplete(transactionId: string, accountNumber: string) {
    !IsBlank(transactionId) && !IsBlank(accountNumber)
  }

  /** The request `handleBoaVerify` sends: the ID and the last five characters of the account. */
  function BoaRequest(transactionId: string, accountNumber: string): (r: Request)
    ensures r.JsonPost? && r.path == "/boa/verify"
    ensures r.fields.Keys == {"transaction_id", "sender_account_last_5_digits"}
    ensures r.fields["transaction_id"] == transactionId
    ensures r.fields["sender_account_last_5_digits"] == LastN(accountNumber, 5)
  {
    BoaPaymentRequest(VerificationRequest(transactionId, None, Some(accountNumber)))
  }

  class BoaVerificationPage {
    var transactionId: string
    var accountNumber: string
    var isLoading: bool
    var response: Option<Response>
    var error: Option<ErrorState>
    var activeTab: Tab
    var selectedFile: Option<File>
    /** The requests sent to the backend, oldest first. */
    var sent: seq<Request>

    constructor ()
      ensures transactionId == "" && accountNumber == "" && !isLoading && response.None? && error.None?
      ensures activeTab == Upload && selectedFile.None? && sent == []
    {
      transactionId := "";
      accountNumber := "";
      isLoading := false;
      response := None;
      error := None;
      activeTab := Upload;
      selectedFile := None;
      sent := [];
    }

    /**
     * `handleBoaVerify`: an incomplete form sets the validation error and
     * sends nothing. Otherwise the error is cleared and one request is
     * sent; a body becomes the response, a thrown value becomes the error
     * handler's state (and the response is left as it was).
     */
    method HandleBoaVerify(reply: Reply)
      modifies this
      ensures transactionId == old(transactionId) && accountNumber == old(accountNumber)
      ensures activeTab == old(activeTab) && selectedFile == old(selectedFile)
      ensures !FormComplete(transactionId, accountNumber) ==>
        && error == Some(MissingFieldsError) && response == old(response)
        && sent == old(sent) && isLoading == old(isLoading)
      ensures FormComplete(transactionId, accountNumber) ==>
        && sent == old(sent) + [BoaRequest(transactionId, accountNumber)]
        && !isLoading
        && (Await(reply).Returned? ==> response == Some(Await(reply).body) && error.None?)
        && (Await(reply).Threw? ==> response == old(response) && error == Some(Handle(Await(reply).error)))
    {
      if IsBlank(transactionId) || IsBlank(accountNumber) {
        error := Some(MissingFieldsError);
        return;
      }

      isLoading := true;
      error := None;
      var request := BoaRequest(transactionId, accountNumber);
      sent := sent + [request];
      var outcome := Await(reply);
      match outcome {
        case Returned(data) =>
          response := Some(data);
        case Threw(err) =>
          var errorState := Handle(err);
          error := Some(errorState);
      }
      isLoading := false;
    }

    /** `closeModal`: both the result and the error go away. */
    method CloseModal()
      modifies this
      ensures response.None? && error.None?
      ensures transactionId == old(transactionId) && accountNumber == old(accountNumber) && isLoading == old(isLoading)
      ensures activeTab == old(activeTab) && selectedFile == old(selectedFile) && sent == old(sent)
    {
      response := None;
      error := None;
    }

    /** The error dialog shows its Retry button only for a retryable error. */
    function RetryVisible(): (r: bool)
      reads this
      ensures r <==> error.Some? && error.value.retryable
    {
      error.Some? && IsRetryable(error.value)
    }

    /** The error dialog's Retry button: clear the error and verify again. */
    method PressRetry(reply: Reply)
      requires RetryVisible()
      modifies this
      ensures transactionId == old(transactionId) && accountNumber == old(accountNumber)
      ensures activeTab == old(activeTab) && selectedFile == old(selectedFile)
      ensures !FormComplete(transactionId, accountNumber) ==>
        && error == Some(MissingFieldsError) && response == old(response)
        && sent == old(sent) && isLoading == old(isLoading)
      ensures FormComplete(transactionId, accountNumber) ==>
        && sent == old(sent) + [BoaRequest(transactionId, accountNumber)]
        && !isLoading
        && (Await(reply).Returned? ==> response == Some(Await(reply).body) && error.None?)
        && (Await(reply).Threw? ==> response == old(response) && error == Some(Handle(Await(reply).error)))
    {
      error := None;
      HandleBoaVerify(reply);
    }

    /** The drop handler: take the first dropped file if its type is accepted, else set a validation error. */
    method HandleDrop(files: seq<File>)
      modifies this
      ensures |files| > 0 && DropAccepted(files[0].mimeType) ==> selectedFile == Some(files[0]) && error == old(error)
      ensures |files| > 0 && !DropAccepted(files[0].mimeType) ==>
        selectedFile == old(selectedFile) && error == Some(DropRejectedError)
      ensures |files| == 0 ==> selectedFile == old(selectedFile) && error == old(error)
      ensures transactionId == old(transactionId) && accountNumber == old(accountNumber) && isLoading == old(isLoading)
      ensures response == old(response) && activeTab == old(activeTab) && sent == old(sent)
    {
      if |files| > 0 {
        var file := files[0];
        if DropAccepted(file.mimeType) {
          selectedFile := Some(file);
        } else {
          error := Some(DropRejectedError);
        }
      }
    }

    /** The camera button when camera access is refused. */
    method HandleCameraFailure()
      modifies this
      ensures error == Some(CameraDeniedError)
      ensures transactionId == old(transactionId) && accountNumber == old(accountNumber) && isLoading == old(isLoading)
      ensures response == old(response) && activeTab == old(activeTab) && selectedFile == old(selectedFile) && sent == old(sent)
    {
      error := Some(CameraDeniedError);
    }
  }
}
