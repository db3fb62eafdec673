/**
 * The Telebirr page: image upload alone, or a typed transaction ID. Its
 * catch block is the one the CBE page uses.
 */
module TelebirrPage {
  import opened Wrappers
  import opened Text
  import opened Verification
  import opened Api
  import opened PageCommon

  const MissingFileMessage := "Please select an image file to continue with verification."
  const MissingIdMessage := "Please enter a transaction ID to continue with verification."

  /** The validation message of `handleTelebirrVerify`, or None when the tab's one input is there. */
  function ValidationMessage(tab: Tab, hasFile: bool, transactionId: string): (m: Option<string>)
    ensures m.None? <==> if tab == Upload then hasFile else !IsBlank(transactionId)
    ensures m.Some? ==> m.value == if tab == Upload then MissingFileMessage else MissingIdMessage
  {
    if tab == Upload then
      if !hasFile then Some(MissingFileMessage) else None
    else
      if IsBlank(transactionId) then Some(MissingIdMessage) else None
  }

  /** The request a complete form sends: the file alone, or the transaction ID alone. */
  function TelebirrRequest(tab: Tab, file: Option<File>, transactionId: string): (r: Request)
    requires tab == Upload ==> file.Some?
    ensures tab == Upload ==>
      && r == ImageForm(Telebirr, FileUploadRequest(Picked(file.value), None, None))
      && r.MultipartPost? && r.image == Picked(file.value) && r.fields == map[]
    ensures tab == Transaction ==> r == JsonPost("/telebirr/verify", map["transaction_id" := transactionId])
  {
    if tab == Upload then ImageForm(Telebirr, FileUploadRequest(Picked(file.value), None, None))
    else TelebirrPaymentRequest(VerificationRequest(transactionId, None, None))
  }

  class TelebirrVerificationPage {
    var transactionId: string
    var isLoading: bool
    var response: Option<Response>
    var activeTab: Tab
    var selectedFile: Option<File>
    /** The requests sent to the backend, oldest first. */
    var sent: seq<Request>

    constructor ()
      ensures transactionId == "" && !isLoading && response.None?
      ensures activeTab == Upload && selectedFile.None? && sent == []
    {
      transactionId := "";
      isLoading := false;
      response := None;
      activeTab := Upload;
      selectedFile := None;
      sent := [];
    }

    /**
     * `handleTelebirrVerify`: an incomplete form stores a validation failure
     * and sends nothing; otherwise one request is sent and its settled result
     * stored.
     */
    method HandleTelebirrVerify(reply: Reply)
      modifies this
      ensures transactionId == old(transactionId) && activeTab == old(activeTab) && selectedFile == old(selectedFile)
      ensures var v := ValidationMessage(activeTab, selectedFile.Some?, transactionId);
        if v.Some? then
          response == Some(StatusResponse("failed", v.value, Validation)) && sent == old(sent) && isLoading == old(isLoading)
        else
          && sent == old(sent) + [TelebirrRequest(activeTab, selectedFile, transactionId)]
          && response == Some(Settle(Await(reply)))
          && !isLoading
    {
      if activeTab == Upload {
        if selectedFile.None? {
          response := Some(StatusResponse("failed", MissingFileMessage, Validation));
          return;
        }
      } else {
        if IsBlank(transactionId) {
          response := Some(StatusResponse("failed", MissingIdMessage, Validation));
          return;
        }
      }

      Submit(reply);
    }

    /** The part of `handleTelebirrVerify` after validation: load, send one request, store the settled result. */
    method Submit(reply: Reply)
      requires activeTab == Upload ==> selectedFile.Some?
      modifies this
      ensures transactionId == old(transactionId) && activeTab == old(activeTab) && selectedFile == old(selectedFile)
      ensures sent == old(sent) + [TelebirrRequest(activeTab, selectedFile, transactionId)]
      ensures response == Some(Settle(Await(reply))) && !isLoading
    {
      isLoading := true;
      var request: Request;
      if activeTab == Upload {
        request := ImageRequest(Telebirr, FileUploadRequest(Picked(selectedFile.value), None, None));
      } else {
        request := TelebirrPaymentRequest(VerificationRequest(transactionId, None, None));
      }
      sent := sent + [request];
      StoreOutcome(reply);
      isLoading := false;
    }

    /** `setResponse` with the settled result of the call, whether it returned or threw. */
    method StoreOutcome(reply: Reply)
      modifies this
      ensures response == Some(Settle(Await(reply)))
      ensures transactionId == old(transactionId) && isLoading == old(isLoading)
      ensures activeTab == old(activeTab) && selectedFile == old(selectedFile) && sent == old(sent)
    {
      response := Some(Settle(Await(reply)));
    }

    /** `closeModal`. */
    method CloseModal()
      modifies this
      ensures response.None?
      ensures transactionId == old(transactionId) && isLoading == old(isLoading)
      ensures activeTab == old(activeTab) && selectedFile == old(selectedFile) && sent == old(sent)
    {
      response := None;
    }

    /** `handleSwitchToManualEntry`: keep a truthy extracted ID, go to the transaction tab, close the modal. */
    method HandleSwitchToManualEntry()
      modifies this
      ensures transactionId == if Truthy(ExtractedId(old(response))) then ExtractedId(old(response)).value else old(transactionId)
      ensures activeTab == Transaction && response.None?
      ensures isLoading == old(isLoading) && selectedFile == old(selectedFile) && sent == old(sent)
    {
      var extractedId := ExtractedId(response);
      if Truthy(extractedId) {
        transactionId := extractedId.value;
      }
      activeTab := Transaction;
      CloseModal();
    }

    /** `handleRetry`: close the modal and verify the same form again. */
    method HandleRetry(reply: Reply)
      modifies this
      ensures transactionId == old(transactionId) && activeTab == old(activeTab) && selectedFile == old(selectedFile)
      ensures var v := ValidationMessage(activeTab, selectedFile.Some?, transactionId);
        if v.Some? then
          response == Some(StatusResponse("failed", v.value, Validation)) && sent == old(sent) && isLoading == old(isLoading)
        else
          && sent == old(sent) + [TelebirrRequest(activeTab, selectedFile, transactionId)]
          && response == Some(Settle(Await(reply)))
          && !isLoading
    {
      CloseModal();
      HandleTelebirrVerify(reply);
    }

    /** The modal's Retry button (the effective `onRetry` prop); the modal exists only with a response. */
    method PressRetry(reply: Reply)
      requires response.Some?
      modifies this
      ensures RetryRoute(old(response)) == SwitchToManualEntry ==>
        && activeTab == Transaction && response.None? && sent == old(sent) && isLoading == old(isLoading)
        && transactionId == (if Truthy(ExtractedId(old(response))) then ExtractedId(old(response)).value else old(transactionId))
      ensures RetryRoute(old(response)) == CloseAndReverify ==>
        && activeTab == old(activeTab) && transactionId == old(transactionId)
        && var v := ValidationMessage(activeTab, selectedFile.Some?, transactionId);
        if v.Some? then
          response == Some(StatusResponse("failed", v.value, Validation)) && sent == old(sent) && isLoading == old(isLoading)
        else
          && sent == old(sent) + [TelebirrRequest(activeTab, selectedFile, transactionId)]
          && response == Some(Settle(Await(reply)))
          && !isLoading
      ensures selectedFile == old(selectedFile)
    {
      if RetryRoute(response) == SwitchToManualEntry {
        HandleSwitchToManualEntry();
      } else {
        HandleRetry(reply);
      }
    }

    /** The drop handler: take the first dropped file if its type is accepted, else show a validation failure. */
    method HandleDrop(files: seq<File>)
      modifies this
      ensures |files| > 0 && DropAccepted(files[0].mimeType) ==> selectedFile == Some(files[0]) && response == old(response)
      ensures |files| > 0 && !DropAccepted(files[0].mimeType) ==>
        selectedFile == old(selectedFile) && response == Some(StatusResponse("failed", DropRejectedMessage, Validation))
      ensures |files| == 0 ==> selectedFile == old(selectedFile) && response == old(response)
      ensures transactionId == old(transactionId) && isLoading == old(isLoading)
      ensures activeTab == old(activeTab) && sent == old(sent)
    {
      if |files| > 0 {
        var file := files[0];
        if DropAccepted(file.mimeType) {
          selectedFile := Some(file);
        } else {
          response := Some(StatusResponse("failed", DropRejectedMessage, Validation));
        }
      }
    }

    /** The camera button when camera access is refused. */
    method HandleCameraFailure()
      modifies this
      ensures response == Some(StatusResponse("failed", CameraDeniedMessage, Validation))
      ensures transactionId == old(transactionId) && isLoading == old(isLoading)
      ensures activeTab == old(activeTab) && selectedFile == old(selectedFile) && sent == old(sent)
    {
      response := Some(StatusResponse("failed", CameraDeniedMessage, Validation));
    }
  }
}
