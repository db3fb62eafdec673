/**
 * `BankVerificationLayout`: a generic verification form with text, image
 * and camera input methods. Its checks do not trim, and it hands the
 * inputs to a bank-specific `onVerify` callback.
 */
module Layout {
  import opened Wrappers
  import opened Text
  import opened Verification

  datatype InputMethod = TextInput | ImageInput | CameraInput

  /** How the `onVerify` promise settled: a response, a rejection with an `Error`, or any other rejection. */
  datatype Outcome = Resolved(response: Response) | RejectedWithError(message: string) | RejectedWithValue

  /** One call of `onVerify` with its four arguments. */
  datatype VerifyCall = VerifyCall(
    inputMethod: InputMethod,
    transactionId: string,
    accountNumber: string,
    fileToUpload: Option<Upload>)

  /** `fileToUpload`: ready (possibly null), or the TypeError of a capture without ':' in its header. */
  datatype Prepared = Ready(upload: Option<Upload>) | TypeErrorThrown

  const UnknownFailureMessage := "An unknown error occurred during verification. Please check console for details."
  const CaptureFailedMessage := "Failed to capture image from camera. Stream might not be ready."
  const WebcamNotReadyMessage := "Webcam component not ready."

  /**
   * The checks of `handleSubmit`, first failure wins: a missing ID in text
   * mode, a missing account in text mode, a missing file or capture, a
   * missing account in image or camera mode. Nothing is trimmed.
   */
  function ValidationError(bankName: string, requiresAccountNumber: bool, inputMethod: InputMethod,
                           transactionId: string, accountNumber: string, hasImage: bool, hasCapture: bool)
    : (r: Option<string>)
    ensures r.None? <==>
      && (inputMethod == TextInput ==> transactionId != "" && (requiresAccountNumber ==> accountNumber != ""))
      && (inputMethod == ImageInput ==> hasImage)
      && (inputMethod == CameraInput ==> hasCapture)
      && (inputMethod != TextInput && requiresAccountNumber ==> accountNumber != "")
    ensures inputMethod == TextInput && transactionId == "" ==>
      r == Some("Please enter a Transaction ID for " + bankName + ".")
    ensures inputMethod == ImageInput && !hasImage ==> r == Some("Please " + "select an image file" + " to upload.")
    ensures inputMethod == CameraInput && !hasCapture ==> r == Some("Please " + "capture an image" + " to upload.")
    ensures inputMethod == TextInput && transactionId != "" && requiresAccountNumber && accountNumber == "" ==>
      r == Some("Please enter an Account Number for " + bankName + ".")
    ensures && inputMethod != TextInput && requiresAccountNumber && accountNumber == ""
            && (inputMethod == ImageInput ==> hasImage) && (inputMethod == CameraInput ==> hasCapture) ==>
      r == Some("Please enter an Account Number for " + bankName + " image verification.")
  {
    if inputMethod == TextInput && transactionId == "" then
      Some("Please enter a Transaction ID for " + bankName + ".")
    else if requiresAccountNumber && inputMethod == TextInput && accountNumber == "" then
      Some("Please enter an Account Number for " + bankName + ".")
    else if (inputMethod == ImageInput && !hasImage) || (inputMethod == CameraInput && !hasCapture) then
      Some("Please " + (if inputMethod == ImageInput then "select an image file" else "capture an image") + " to upload.")
    else if requiresAccountNumber && (inputMethod == ImageInput || inputMethod == CameraInput) && accountNumber == "" then
      Some("Please enter an Account Number for " + bankName + " image verification.")
    else
      assert inputMethod == ImageInput || inputMethod == CameraInput || inputMethod == TextInput;
      None
  }

  /**
   * The blob type of a captured data URL:
   * `src.split(',')[0].split(':')[1].split(';')[0]`, or None where reading
   * the missing second piece throws.
   */
  function CapturedMimeType(src: string): (m: Option<string>)
    ensures m.None? <==> ':' !in Split(src, ',')[0]
  {
    var header := Split(src, ',')[0];
    var parts := Split(header, ':');
    SplitHasSecondPiece(header, ':');
    if |parts| < 2 then None else Some(Split(parts[1], ';')[0])
  }

  /**
   * For a data URL `data:<mediatype>[;<parameters>],<data>` (section 2 of
   * RFC 2397) the blob gets exactly the media type.
   */
  lemma DataUrlMediaType(mediaType: string, params: string, payload: string)
    requires ',' !in mediaType && ':' !in mediaType && ';' !in mediaType
    requires ',' !in params && ':' !in params && (params == "" || params[0] == ';')
    ensures CapturedMimeType("data:" + mediaType + params + "," + payload) == Some(mediaType)
  {
    var header := "data:" + mediaType + params;
    assert ',' !in header by {
      assert forall i :: 0 <= i < |header| ==> header[i] in "data:" || header[i] in mediaType || header[i] in params;
    }
    assert "data:" + mediaType + params + "," + payload == header + [','] + payload;
    SplitAtFirst(header, ',', payload);
    var rest := mediaType + params;
    assert header == "data" + [':'] + rest;
    assert ':' !in rest by {
      assert forall i :: 0 <= i < |rest| ==> rest[i] in mediaType || rest[i] in params;
    }
    SplitAtFirst("data", ':', rest);
    SplitNoSeparator(rest, ':');
    assert Split(header, ':') == ["data", rest];
    if params == "" {
      assert rest == mediaType;
      SplitNoSeparator(mediaType, ';');
    } else {
      assert rest == mediaType + [';'] + params[1..];
      SplitAtFirst(mediaType, ';', params[1..]);
    }
  }

  /** A capture whose header has no ':' cannot be turned into a blob. */
  lemma HeaderWithoutColonThrows(header: string, payload: string)
    requires ',' !in header && ':' !in header
    ensures CapturedMimeType(header + "," + payload).None?
  {
    assert header + "," + payload == header + [','] + payload;
    SplitAtFirst(header, ',', payload);
  }

  /** `fileToUpload`: the picked file in image mode, else a blob of a non-empty capture, else null. */
  function FileToUpload(inputMethod: InputMethod, imageFile: Option<File>, capturedImageSrc: Option<string>)
    : (p: Prepared)
    ensures inputMethod == ImageInput ==> p == Ready(if imageFile.Some? then Some(Picked(imageFile.value)) else None)
    ensures inputMethod != ImageInput && !Truthy(capturedImageSrc) ==> p == Ready(None)
    ensures inputMethod != ImageInput && Truthy(capturedImageSrc) ==>
      match CapturedMimeType(capturedImageSrc.value)
      case None => p == TypeErrorThrown
      case Some(t) => p == Ready(Some(Captured(t, capturedImageSrc.value)))
  {
    if inputMethod == ImageInput then
      Ready(if imageFile.Some? then Some(Picked(imageFile.value)) else None)
    else if Truthy(capturedImageSrc) then
      var mimeType := CapturedMimeType(capturedImageSrc.value);
      if mimeType.None? then TypeErrorThrown else Ready(Some(Captured(mimeType.value, capturedImageSrc.value)))
    else
      Ready(None)
  }

  /** The `disabled` expression of the submit button. */
  predicate SubmitDisabled(isLoading: bool, inputMethod: InputMethod, hasCapture: bool,
                           requiresAccountNumber: bool, accountNumber: string) {
    || isLoading
    || (inputMethod == CameraInput && !hasCapture)
    || ((inputMethod == ImageInput || inputMethod == CameraInput) && requiresAccountNumber && accountNumber == "")
  }

  /** In camera mode an enabled button guarantees that the checks pass. */
  lemma EnabledCameraSubmitPasses(bankName: string, requiresAccountNumber: bool, transactionId: string,
                                  accountNumber: string, hasImage: bool, hasCapture: bool)
    requires !SubmitDisabled(false, CameraInput, hasCapture, requiresAccountNumber, accountNumber)
    ensures ValidationError(bankName, requiresAccountNumber, CameraInput, transactionId, accountNumber, hasImage, hasCapture).None?
  {
  }

  /**
   * In text and image modes the button does not anticipate the checks: it
   * stays enabled with an empty ID or without a file.
   */
  lemma EnabledSubmitCanFail(bankName: string, accountNumber: string)
    ensures !SubmitDisabled(false, TextInput, false, true, accountNumber)
    ensures ValidationError(bankName, true, TextInput, "", accountNumber, false, false).Some?
    ensures !SubmitDisabled(false, ImageInput, false, false, "")
    ensures ValidationError(bankName, false, ImageInput, "", "", false, false).Some?
  {
  }

  class BankVerificationLayout {
    const bankName: string
    const requiresAccountNumber: bool
    var activeInputMethod: InputMethod
    var transactionId: string
    var accountNumber: string
    var imageFile: Option<File>
    var capturedImageSrc: Option<string>
    var isCameraActive: bool
    var isLoading: bool
    var response: Option<Response>
    var error: Option<string>
    /** The calls made to `onVerify`, oldest first. */
    var calls: seq<VerifyCall>

    constructor (bankName: string, requiresAccountNumber: bool)
      ensures this.bankName == bankName && this.requiresAccountNumber == requiresAccountNumber
      ensures activeInputMethod == TextInput && transactionId == "" && accountNumber == ""
      ensures imageFile.None? && capturedImageSrc.None? && !isCameraActive
      ensures !isLoading && response.None? && error.None? && calls == []
    {
      this.bankName := bankName;
      this.requiresAccountNumber := requiresAccountNumber;
      activeInputMethod := TextInput;
      transactionId := "";
      accountNumber := "";
      imageFile := None;
      capturedImageSrc := None;
      isCameraActive := false;
      isLoading := false;
      response := None;
      error := None;
      calls := [];
    }

    /** `resetForm`: clear every input, the result, the error and the camera flag. */
    method ResetForm()
      modifies this
      ensures transactionId == "" && accountNumber == "" && imageFile.None? && capturedImageSrc.None?
      ensures response.None? && error.None? && !isCameraActive
      ensures activeInputMethod == old(activeInputMethod) && isLoading == old(isLoading) && calls == old(calls)
    {
      transactionId := "";
      accountNumber := "";
      imageFile := None;
      capturedImageSrc := None;
      response := None;
      error := None;
      isCameraActive := false;
    }

    /** `handleInputMethodSelect`: switch method and reset the form. */
    method HandleInputMethodSelect(inputMethod: InputMethod)
      modifies this
      ensures activeInputMethod == inputMethod
      ensures transactionId == "" && accountNumber == "" && imageFile.None? && capturedImageSrc.None?
      ensures response.None? && error.None? && !isCameraActive
      ensures isLoading == old(isLoading) && calls == old(calls)
    {
      activeInputMethod := inputMethod;
      ResetForm();
    }

    /**
     * `capture`; `webcamReady` is whether the webcam ref is set and
     * `screenshot` what `getScreenshot` returned.
     */
    method Capture(webcamReady: bool, screenshot: Option<string>)
      modifies this
      ensures !webcamReady ==> error == Some(WebcamNotReadyMessage) && capturedImageSrc == old(capturedImageSrc)
      ensures webcamReady && Truthy(screenshot) ==> capturedImageSrc == screenshot && error.None?
      ensures webcamReady && !Truthy(screenshot) ==> error == Some(CaptureFailedMessage) && capturedImageSrc == old(capturedImageSrc)
      ensures activeInputMethod == old(activeInputMethod) && transactionId == old(transactionId)
      ensures accountNumber == old(accountNumber) && imageFile == old(imageFile) && isCameraActive == old(isCameraActive)
      ensures isLoading == old(isLoading) && response == old(response) && calls == old(calls)
    {
      if webcamReady {
        var imageSrc := screenshot;
        if Truthy(imageSrc) {
          capturedImageSrc := imageSrc;
          error := None;
        } else {
          error := Some(CaptureFailedMessage);
        }
      } else {
        error := Some(WebcamNotReadyMessage);
      }
    }

    /**
     * `handleSubmit`; `outcome` is how `onVerify` settles if it is called.
     * The result and error are cleared first. A failed check sets its
     * message; a capture that cannot become a blob throws before the call
     * and leaves the form loading; otherwise `onVerify` is called once.
     */
    method HandleSubmit(outcome: Outcome)
      modifies this
      ensures activeInputMethod == old(activeInputMethod) && transactionId == old(transactionId)
      ensures accountNumber == old(accountNumber) && imageFile == old(imageFile)
      ensures capturedImageSrc == old(capturedImageSrc) && isCameraActive == old(isCameraActive)
      ensures var v := ValidationError(bankName, requiresAccountNumber, activeInputMethod, transactionId,
                                       accountNumber, imageFile.Some?, Truthy(capturedImageSrc));
        var p := FileToUpload(activeInputMethod, imageFile, capturedImageSrc);
        if v.Some? then
          error == v && response.None? && !isLoading && calls == old(calls)
        else if p.TypeErrorThrown? then
          error.None? && response.None? && isLoading && calls == old(calls)
        else
          && calls == old(calls) + [VerifyCall(activeInputMethod, transactionId, accountNumber, p.upload)]
          && !isLoading
          && response == (if outcome.Resolved? then Some(outcome.response) else None)
          && error == (match outcome
                       case Resolved(_) => None
                       case RejectedWithError(m) => Some(m)
                       case RejectedWithValue => Some(UnknownFailureMessage))
    {
      isLoading := true;
      response := None;
      error := None;

      if activeInputMethod == TextInput && transactionId == "" {
        error := Some("Please enter a Transaction ID for " + bankName + ".");
        isLoading := false;
        return;
      }
      if requiresAccountNumber && activeInputMethod == TextInput && accountNumber == "" {
        error := Some("Please enter an Account Number for " + bankName + ".");
        isLoading := false;
        return;
      }
      if (activeInputMethod == ImageInput && imageFile.None?) || (activeInputMethod == CameraInput && !Truthy(capturedImageSrc)) {
        error := Some("Please " + (if activeInputMethod == ImageInput then "select an image file" else "capture an image") + " to upload.");
        isLoading := false;
        return;
      }
      if requiresAccountNumber && (activeInputMethod == ImageInput || activeInputMethod == CameraInput) && accountNumber == "" {
        error := Some("Please enter an Account Number for " + bankName + " image verification.");
        isLoading := false;
        return;
      }

      var prepared := FileToUpload(activeInputMethod, imageFile, capturedImageSrc);
      if prepared.TypeErrorThrown? {
        return;
      }

      calls := calls + [VerifyCall(activeInputMethod, transactionId, accountNumber, prepared.upload)];
      match outcome {
        case Resolved(result) =>
          response := Some(result);
        case RejectedWithError(message) =>
          error := Some(message);
        case RejectedWithValue =>
          error := Some(UnknownFailureMessage);
      }
      isLoading := false;
    }
  }
}
