/**
 * The CBE page: image upload (with the account number) or typed
 * transaction ID and account number, local validation with exact messages,
 * one call to the matching endpoint, and the result stored for the modal.
 */
module CbePage {
  import opened Wrappers
  import opened Text
  import opened Verification
  import opened Api
  import opened PageCommon

  /** The upload tab's validation message for the missing fields. */
  function UploadPrompt(missing: string): string {
    "Please " + missing + " to continue with verification."
  }

  /** The transaction tab's validation message for the missing fields. */
  function EnterPrompt(missing: string): string {
    "Please enter " + missing + " to continue with verification."
  }

  /**
   * The validation message `handleCBEVerify` shows, or None when the form is
   * complete: the missing fields in a fixed order, joined with ' and '.
   */
  function ValidationMessage(tab: Tab, hasFile: bool, transactionId: string, accountNumber: string): (m: Option<string>)
    ensures m.None? <==>
      if tab == Upload then hasFile && !IsBlank(accountNumber)
      else !IsBlank(transactionId) && !IsBlank(accountNumber)
  {
    if tab == Upload then
      if !hasFile && IsBlank(accountNumber) then Some(UploadPrompt("image file" + " and " + "account number"))
      else if !hasFile then Some(UploadPrompt("image file"))
      else if IsBlank(accountNumber) then Some(UploadPrompt("account number"))
      else None
    else
      if IsBlank(transactionId) && IsBlank(accountNumber) then Some(EnterPrompt("transaction ID" + " and " + "account number"))
      else if IsBlank(transactionId) then Some(EnterPrompt("transaction ID"))
      else if IsBlank(accountNumber) then Some(EnterPrompt("account number"))
      else None
  }

  /**
   * The request a complete form sends: the image form with the account and
   * a non-empty transaction ID, or the JSON body of the text endpoint.
   */
  function CbeRequest(tab: Tab, file: Option<File>, transactionId: string, accountNumber: string): (r: Request)
    requires tab == Upload ==> file.Some?
    requires !IsBlank(accountNumber)
    ensures r.MultipartPost? <==> tab == Upload
    ensures tab == Upload ==>
      && r == ImageForm(Cbe, FileUploadRequest(Picked(file.value), if transactionId != "" then Some(transactionId) else None, Some(accountNumber)))
      && r.image == Picked(file.value)
      && r.fields == (if transactionId != "" then map["transaction_id" := transactionId, "account_number" := accountNumber]
                      else map["account_number" := accountNumber])
    ensures tab == Transaction ==>
      r == JsonPost("/cbe/verify", map["transaction_id" := transactionId, "account_number" := accountNumber])
  {
    assert accountNumber != "" by {
      if accountNumber == "" {
        assert IsBlank(accountNumber);
      }
    }
    if tab == Upload then
      ImageForm(Cbe, FileUploadRequest(Picked(file.value), if transactionId != "" then Some(transactionId) else None, Some(accountNumber)))
    else
      CbePaymentRequest(VerificationRequest(transactionId, None, Some(accountNumber)))
  }

  /** The two-field lists the page builds, joined with ' and '. */
  lemma JoinAnd(fields: seq<string>, a: string, b: string)
    requires fields == [a] || fields == [b] || fields == [a, b]
    ensures fields == [a, b] ==> Join(fields, " and ") == a + " and " + b
    ensures |fields| == 1 ==> Join(fields, " and ") == fields[0]
  {
    if fields == [a, b] {
      assert fields[1..] == [b];
    }
  }

  class CbeVerificationPage {
    var transactionId: string
    var accountNumber: string
    var isLoading: bool
    var response: Option<Response>
    var activeTab: Tab
    var selectedFile: Option<File>
    /** The requests sent to the backend, oldest first. */
    var sent: seq<Request>

    constructor ()
      ensures transactionId == "" && accountNumber == "" && !isLoading && response.None?
      ensures activeTab == Upload && selectedFile.None? && sent == []
    {
      transactionId := "";
      accountNumber := "";
      isLoading := false;
      response := None;
      activeTab := Upload;
      selectedFile := None;
      sent := [];
    }

    /** The validation step of `handleCBEVerify`: collect the missing fields and phrase them. */
    method CheckFields() returns (message: Option<string>)
      ensures message == ValidationMessage(activeTab, selectedFile.Some?, transactionId, accountNumber)
    {
      var noFile := selectedFile.None?;
      var noId := IsBlank(transactionId);
      var noAccount := IsBlank(accountNumber);
      message := None;
      if activeTab == Upload {
        if noFile || noAccount {
          var missingFields: seq<string> := [];
          if noFile {
            missingFields := missingFields + ["image file"];
          }
          if noAccount {
            missingFields := missingFields + ["account number"];
          }
          JoinAnd(missingFields, "image file", "account number");
          message := Some(UploadPrompt(Join(missingFields, " and ")));
        }
      } else {
        if noId || noAccount {
          var missingFields: seq<string> := [];
          if noId {
            missingFields := missingFields + ["transaction ID"];
          }
          if noAccount {
            missingFields := missingFields + ["account number"];
          }
          JoinAnd(missingFields, "transaction ID", "account number");
          message := Some(EnterPrompt(Join(missingFields, " and ")));
        }
      }
    }

    /** The call step of `handleCBEVerify`: the image endpoint on the upload tab, the text endpoint otherwise. */
    method BuildRequest() returns (request: Request)
      requires activeTab == Upload ==> selectedFile.Some?
      requires !IsBlank(accountNumber)
      ensures request == CbeRequest(activeTab, selectedFile, transactionId, accountNumber)
    {
      if activeTab == Upload {
        request := ImageRequest(Cbe, FileUploadRequest(Picked(selectedFile.value), if transactionId != "" then Some(transactionId) else None, Some(accountNumber)));
      } else {
        request := CbePaymentRequest(VerificationRequest(transactionId, None, Some(accountNumber)));
      }
    }

    /**
     * `handleCBEVerify`; `reply` is what the transport answers if a request
     * goes out. An incomplete form stores a validation failure and sends
     * nothing; otherwise one request is sent and its settled result stored.
     */
    method HandleCbeVerify(reply: Reply)
      modifies this
      ensures transactionId == old(transactionId) && accountNumber == old(accountNumber)
      ensures activeTab == old(activeTab) && selectedFile == old(selectedFile)
      ensures var v := ValidationMessage(activeTab, selectedFile.Some?, transactionId, accountNumber);
        if v.Some? then
          response == Some(StatusResponse("failed", v.value, Validation)) && sent == old(sent) && isLoading == old(isLoading)
        else
          && sent == old(sent) + [CbeRequest(activeTab, selectedFile, transactionId, accountNumber)]
          && response == Some(Settle(Await(reply)))
          && !isLoading
    {
      var validation := CheckFields();
      if validation.Some? {
        response := Some(StatusResponse("failed", validation.value, Validation));
        return;
      }

      Submit(reply);
    }

    /** The part of `handleCBEVerify` after validation: load, send one request, store the settled result. */
    method Submit(reply: Reply)
      requires activeTab == Upload ==> selectedFile.Some?
      requires !IsBlank(accountNumber)
      modifies this
      ensures transactionId == old(transactionId) && accountNumber == old(accountNumber)
      ensures activeTab == old(activeTab) && selectedFile == old(selectedFile)
      ensures sent == old(sent) + [CbeRequest(activeTab, selectedFile, transactionId, accountNumber)]
      ensures response == Some(Settle(Await(reply))) && !isLoading
    {
      isLoading := true;
      var request := BuildRequest();
      sent := sent + [request];
      StoreOutcome(reply);
      isLoading := false;
    }

    /** `setResponse` with the settled result of the call, whether it returned or threw. */
    method StoreOutcome(reply: Reply)
      modifies this
      ensures response == Some(Settle(Await(reply)))
      ensures transactionId == old(transactionId) && accountNumber == old(accountNumber) && isLoading == old(isLoading)
      ensures activeTab == old(activeTab) && selectedFile == old(selectedFile) && sent == old(sent)
    {
      response := Some(Settle(Await(reply)));
    }

    /** `closeModal`. */
    method CloseModal()
      modifies this
      ensures response.None?
      ensures transactionId == old(transactionId) && accountNumber == old(accountNumber) && isLoading == old(isLoading)
      ensures activeTab == old(activeTab) && selectedFile == old(selectedFile) && sent == old(sent)
    {
      response := None;
    }

    /** `handleSwitchToManualEntry`: keep a truthy extracted ID, go to the transaction tab, close the modal. */
    method HandleSwitchToManualEntry()
      modifies this
      ensures transactionId == if Truthy(ExtractedId(old(response))) then ExtractedId(old(response)).value else old(transactionId)
      ensures activeTab == Transaction && response.None?
      ensures accountNumber == old(accountNumber) && isLoading == old(isLoading)
      ensures selectedFile == old(selectedFile) && sent == old(sent)
    {
      var extractedId := ExtractedId(response);
      if Truthy(extractedId) {
        transactionId := extractedId.value;
      }
      activeTab := Transaction;
      CloseModal();
    }

    /** `handleRetry`: close the modal and verify the same form again. */
    method HandleRetry(reply: Reply)
      modifies this
      ensures transactionId == old(transactionId) && accountNumber == old(accountNumber)
      ensures activeTab == old(activeTab) && selectedFile == old(selectedFile)
      ensures var v := ValidationMessage(activeTab, selectedFile.Some?, transactionId, accountNumber);
        if v.Some? then
          response == Some(StatusResponse("failed", v.value, Validation)) && sent == old(sent) && isLoading == old(isLoading)
        else
          && sent == old(sent) + [CbeRequest(activeTab, selectedFile, transactionId, accountNumber)]
          && response == Some(Settle(Await(reply)))
          && !isLoading
    {
      CloseModal();
      HandleCbeVerify(reply);
    }

    /** The modal's Retry button (the effective `onRetry` prop); the modal exists only with a response. */
    method PressRetry(reply: Reply)
      requires response.Some?
      modifies this
      ensures RetryRoute(old(response)) == SwitchToManualEntry ==>
        && activeTab == Transaction && response.None? && sent == old(sent) && isLoading == old(isLoading)
        && transactionId == (if Truthy(ExtractedId(old(response))) then ExtractedId(old(response)).value else old(transactionId))
      ensures RetryRoute(old(response)) == CloseAndReverify ==>
        && activeTab == old(activeTab) && transactionId == old(transactionId)
        && var v := ValidationMessage(activeTab, selectedFile.Some?, transactionId, accountNumber);
        if v.Some? then
          response == Some(StatusResponse("failed", v.value, Validation)) && sent == old(sent) && isLoading == old(isLoading)
        else
          && sent == old(sent) + [CbeRequest(activeTab, selectedFile, transactionId, accountNumber)]
          && response == Some(Settle(Await(reply)))
          && !isLoading
      ensures accountNumber == old(accountNumber) && selectedFile == old(selectedFile)
    {
      if RetryRoute(response) == SwitchToManualEntry {
        HandleSwitchToManualEntry();
      } else {
        HandleRetry(reply);
      }
    }

    /** The drop handler: take the first dropped file if its type is accepted, else show a validation failure. */
    method HandleDrop(files: seq<File>)
      modifies this
      ensures |files| > 0 && DropAccepted(files[0].mimeType) ==> selectedFile == Some(files[0]) && response == old(response)
      ensures |files| > 0 && !DropAccepted(files[0].mimeType) ==>
        selectedFile == old(selectedFile) && response == Some(StatusResponse("failed", DropRejectedMessage, Validation))
      ensures |files| == 0 ==> selectedFile == old(selectedFile) && response == old(response)
      ensures transactionId == old(transactionId) && accountNumber == old(accountNumber) && isLoading == old(isLoading)
      ensures activeTab == old(activeTab) && sent == old(sent)
    {
      if |files| > 0 {
        var file := files[0];
        if DropAccepted(file.mimeType) {
          selectedFile := Some(file);
        } else {
          response := Some(StatusResponse("failed", DropRejectedMessage, Validation));
        }
      }
    }

    /** The camera button when camera access is refused. */
    method HandleCameraFailure()
      modifies this
      ensures response == Some(StatusResponse("failed", CameraDeniedMessage, Validation))
      ensures transactionId == old(transactionId) && accountNumber == old(accountNumber) && isLoading == old(isLoading)
      ensures activeTab == old(activeTab) && selectedFile == old(selectedFile) && sent == old(sent)
    {
      response := Some(StatusResponse("failed", CameraDeniedMessage, Validation));
    }
  }
}
