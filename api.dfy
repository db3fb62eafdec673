/**
 * The API client: the error interceptor's classification of a failed HTTP
 * exchange, the normalisation of a successful body, and the request each
 * `verify*` call sends. The transport itself is a parameter: a `Reply` is
 * what the server (or the network) answered.
 */
module Api {
  import opened Wrappers
  import opened Text
  import opened Verification

  /** The response part of an Axios error: its HTTP status and its parsed body (`data`). */
  datatype HttpResponse = HttpResponse(status: int, data: Option<Response>)

  /**
   * An Axios error: its message, its `code`, whether a request went out
   * (`error.request`), and the response, if one came back.
   */
  datatype AxiosError = AxiosError(
    message: string,
    code: Option<string>,
    requestSent: bool,
    response: Option<HttpResponse>)

  /** `ApiError`: what `handleError` makes of an Axios error. */
  datatype ApiError = ApiError(message: string, status: Option<int>, details: Option<string>)

  /**
   * A value a `verify*` call can throw: an object with some of the keys
   * `message`, `status`, `details`, `error_type`, `response` (the data of
   * the raw response), or something that is not an object.
   */
  datatype Thrown =
    | ObjectThrown(
        message: Option<string>,
        status: Option<int>,
        details: Option<string>,
        errorType: Option<ErrorType>,
        response: Option<Response>)
    | NonObjectThrown

  /** The settled result of awaiting a `verify*` call. */
  datatype Call = Returned(body: Response) | Threw(error: Thrown)

  /** What the transport produced for one request: a 2xx body, or an Axios error. */
  datatype Reply = Answered(body: Response) | Failed(error: AxiosError)

  const NetworkErrorMessage := "Network Error: Unable to connect to server"

  /** The TypeError thrown when a legacy body has no `data` object to remap. */
  const MissingDataMessage := "Cannot read properties of undefined (reading 'transaction_id')"

  function BodyMessage(r: HttpResponse): Option<string> {
    if r.data.Some? then r.data.value.message else None
  }

  function BodyDetails(r: HttpResponse): Option<string> {
    if r.data.Some? then r.data.value.details else None
  }

  /** `data?.data?.status`: the status nested in the body. */
  function NestedStatus(r: HttpResponse): Option<string> {
    if r.data.Some? && r.data.value.data.Some? then r.data.value.data.value.status else None
  }

  /** `handleError`: message, status and details of the rejected error. */
  function HandleError(e: AxiosError): (r: ApiError)
    ensures r.details.Some?
    ensures e.response.Some? ==>
      && r.status == Some(e.response.value.status)
      && r.message == (if Truthy(BodyMessage(e.response.value)) then BodyMessage(e.response.value).value
                       else "Server Error: " + IntToString(e.response.value.status))
      && r.details == (if Truthy(BodyDetails(e.response.value)) then BodyDetails(e.response.value)
                       else Some(e.message))
    ensures e.response.None? ==> r.status.None? && r.details == Some(e.message)
    ensures e.response.None? && e.requestSent ==> r.message == NetworkErrorMessage
    ensures e.response.None? && !e.requestSent ==> r.message == "Request Error: " + e.message
  {
    if e.response.Some? then
      var resp := e.response.value;
      ApiError(
        Or(BodyMessage(resp), Some("Server Error: " + IntToString(resp.status))).value,
        Some(resp.status),
        Or(BodyDetails(resp), Some(e.message)))
    else if e.requestSent then
      ApiError(NetworkErrorMessage, None, Some(e.message))
    else
      ApiError("Request Error: " + e.message, None, Some(e.message))
  }

  /** The signal that the backend wants the transaction ID typed in by hand. */
  predicate ManualEntrySignal(nestedStatus: Option<string>, message: string) {
    || nestedStatus == Some("Manual Entry Required")
    || nestedStatus == Some("Manual Verification Required")
    || (Contains(message, "Unable to extract transaction ID from image")
        && Contains(message, "Please enter it manually"))
  }

  /** The no-response timeout test: code ECONNABORTED or 'timeout' in the message. */
  predicate TransportTimeout(e: AxiosError) {
    e.code == Some("ECONNABORTED") || Contains(e.message, "timeout")
  }

  /** The response timeout test: status 408 or 'timeout' in the body message. */
  predicate ResponseTimeout(r: HttpResponse) {
    r.status == 408 || Contains(BodyMessage(r).GetOr(""), "timeout")
  }

  predicate InvalidTransactionMessage(message: string) {
    Contains(message, "Invalid Transaction ID") || Contains(message, "Transaction not found")
  }

  /**
   * `getErrorType`: the first matching rule wins. Without a response (but
   * with a request) it is timeout or network; with one, 408/'timeout', then
   * the invalid-transaction phrases, then the manual-entry signal (unknown),
   * then any 4xx (validation); everything else is unknown.
   */
  function GetErrorType(e: AxiosError): (r: ErrorType)
    ensures r != Server
    ensures e.response.None? ==>
      r == (if e.requestSent then (if TransportTimeout(e) then Timeout else Network) else Unknown)
    ensures e.response.Some? ==>
      var resp := e.response.value;
      var m := BodyMessage(resp).GetOr("");
      && (r == Timeout <==> ResponseTimeout(resp))
      && (r == InvalidTransaction <==> !ResponseTimeout(resp) && InvalidTransactionMessage(m))
      && (r == Validation <==>
            && !ResponseTimeout(resp) && !InvalidTransactionMessage(m)
            && !ManualEntrySignal(NestedStatus(resp), m)
            && 400 <= resp.status < 500)
      && r != Network
  {
    if e.requestSent && e.response.None? then
      if TransportTimeout(e) then Timeout else Network
    else if e.response.Some? then
      var resp := e.response.value;
      var m := BodyMessage(resp).GetOr("");
      if ResponseTimeout(resp) then Timeout
      else if InvalidTransactionMessage(m) then InvalidTransaction
      else if ManualEntrySignal(NestedStatus(resp), m) then Unknown
      else if 400 <= resp.status < 500 then Validation
      else Unknown
    else Unknown
  }

  /** The response interceptor's rejection: `{...handleError(e), error_type: getErrorType(e)}`. */
  function Reject(e: AxiosError): (t: Thrown)
    ensures t.ObjectThrown? && t.response.None?
    ensures t.message == Some(HandleError(e).message)
    ensures t.status == HandleError(e).status && t.details == HandleError(e).details
    ensures t.errorType == Some(GetErrorType(e))
  {
    var a := HandleError(e);
    ObjectThrown(Some(a.message), a.status, a.details, Some(GetErrorType(e)), None)
  }

  /** A body already in the frontend's format: both `status` and `message` truthy. */
  predicate IsNormalised(b: Response) {
    Truthy(b.status) && Truthy(b.message)
  }

  /** The `verified_data` record remapped from a legacy `data` object. */
  function Remap(d: ExtractedData): (v: ExtractedData)
    ensures v.transactionStatus == d.status
    ensures v.transactionDate == d.date && v.date == d.date
    ensures v.transactionId == d.transactionId && v.amount == d.amount
    ensures v.senderName == d.senderName && v.receiverName == d.receiverName
    ensures v.senderBankName == d.senderBankName && v.receiverBankName == d.receiverBankName
    ensures v.debugInfo == d.debugInfo
    ensures v.possibleTransactionId.None? && v.status.None?
  {
    ExtractedData(
      transactionId := d.transactionId,
      possibleTransactionId := None,
      amount := d.amount,
      senderName := d.senderName,
      senderBankName := d.senderBankName,
      receiverName := d.receiverName,
      receiverBankName := d.receiverBankName,
      transactionDate := d.date,
      date := d.date,
      status := None,
      transactionStatus := d.status,
      debugInfo := d.debugInfo)
  }

  /**
   * `transformResponse`: a normalised body passes through unchanged; a
   * legacy `{success, message, data}` body is remapped (and reading the
   * fields of a missing `data` throws).
   */
  function TransformResponse(b: Response): (c: Call)
    ensures IsNormalised(b) ==> c == Returned(b)
    ensures !IsNormalised(b) && b.data.None? ==> c.Threw? && c.error.ObjectThrown?
    ensures !IsNormalised(b) && b.data.Some? ==>
      && c.Returned?
      && c.body.status == Some(if b.success == Some(true) then "success" else "error")
      && c.body.message == (if Truthy(b.message) then b.message else Some("Verification completed"))
      && c.body.data == b.data
      && c.body.verifiedData == Some(Remap(b.data.value))
      && c.body.extractedData == b.extractedData
      && c.body.cbeExtractedData == b.cbeExtractedData
    ensures c.Returned? ==> IsNormalised(c.body)
  {
    if IsNormalised(b) then Returned(b)
    else if b.data.None? then Threw(ObjectThrown(Some(MissingDataMessage), None, None, None, None))
    else
      Returned(Response(
        status := Some(if b.success == Some(true) then "success" else "error"),
        message := Or(b.message, Some("Verification completed")),
        success := None,
        data := b.data,
        details := None,
        verifiedData := Some(Remap(b.data.value)),
        cbeExtractedData := b.cbeExtractedData,
        extractedData := b.extractedData,
        errorType := None))
  }

  /** Normalising a body twice gives what normalising it once gave. */
  lemma TransformIdempotent(b: Response)
    requires TransformResponse(b).Returned?
    ensures TransformResponse(TransformResponse(b).body) == TransformResponse(b)
  {
  }

  /** Awaiting a `verify*` call: a 2xx body is normalised, an error is rejected by the interceptor. */
  function Await(reply: Reply): (c: Call)
    ensures reply.Failed? ==> c == Threw(Reject(reply.error))
    ensures reply.Answered? ==> c == TransformResponse(reply.body)
  {
    match reply
    case Answered(b) => TransformResponse(b)
    case Failed(e) => Threw(Reject(e))
  }

  // ----- Request shaping -----

  /** `VerificationRequest`. */
  datatype VerificationRequest = VerificationRequest(
    transactionId: string,
    senderAccount: Option<string>,
    accountNumber: Option<string>)

  /** `FileUploadRequest`. */
  datatype FileUploadRequest = FileUploadRequest(
    file: Upload,
    transactionId: Option<string>,
    accountNumber: Option<string>)

  /** A request as sent: a JSON body, or a multipart form with the image part and text fields. */
  datatype Request =
    | JsonPost(path: string, fields: map<string, string>)
    | MultipartPost(path: string, image: Upload, fields: map<string, string>)

  /** A JSON property whose value may be `undefined` (JSON serialisation drops it). */
  function Put(m: map<string, string>, key: string, value: Option<string>): map<string, string> {
    if value.Some? then m[key := value.value] else m
  }

  /** The account the text endpoints use: `sender_account || account_number`. */
  function Account(req: VerificationRequest): Option<string> {
    Or(req.senderAccount, req.accountNumber)
  }

  /** `verifyCbePayment`: transaction ID and the account number. */
  function CbePaymentRequest(req: VerificationRequest): (r: Request)
    ensures r.JsonPost? && r.path == "/cbe/verify"
    ensures "transaction_id" in r.fields && r.fields["transaction_id"] == req.transactionId
    ensures "account_number" in r.fields <==> Account(req).Some?
    ensures "account_number" in r.fields ==> r.fields["account_number"] == Account(req).value
    ensures r.fields.Keys <= {"transaction_id", "account_number"}
  {
    JsonPost("/cbe/verify", Put(map["transaction_id" := req.transactionId], "account_number", Account(req)))
  }

  /** `verifyBoaPayment`: transaction ID and the last five characters of the account. */
  function BoaPaymentRequest(req: VerificationRequest): (r: Request)
    ensures r.JsonPost? && r.path == "/boa/verify"
    ensures "transaction_id" in r.fields && r.fields["transaction_id"] == req.transactionId
    ensures "sender_account_last_5_digits" in r.fields <==> Account(req).Some?
    ensures "sender_account_last_5_digits" in r.fields ==>
      var acct := Account(req).value;
      var tail := r.fields["sender_account_last_5_digits"];
      && |tail| == (if |acct| < 5 then |acct| else 5)
      && acct == acct[..|acct| - |tail|] + tail
    ensures r.fields.Keys <= {"transaction_id", "sender_account_last_5_digits"}
  {
    var tail := if Account(req).Some? then Some(LastN(Account(req).value, 5)) else None;
    JsonPost("/boa/verify", Put(map["transaction_id" := req.transactionId], "sender_account_last_5_digits", tail))
  }

  /** `verifyTelebirrPayment`: the transaction ID alone. */
  function TelebirrPaymentRequest(req: VerificationRequest): (r: Request)
    ensures r.JsonPost? && r.path == "/telebirr/verify"
    ensures r.fields == map["transaction_id" := req.transactionId]
  {
    JsonPost("/telebirr/verify", map["transaction_id" := req.transactionId])
  }

  /** The name of the account part of an image form: BOA calls it `sender_account`. */
  function ImageAccountField(bank: Bank): (name: string)
    ensures name != "transaction_id"
  {
    if bank == Boa then "sender_account" else "account_number"
  }

  /**
   * The form the image endpoints post: the image part, then `transaction_id`
   * and the account only when they are non-empty.
   */
  function ImageForm(bank: Bank, req: FileUploadRequest): (r: Request)
    ensures r.MultipartPost? && r.path == "/image/" + BankName(bank) + "/verify" && r.image == req.file
    ensures "transaction_id" in r.fields <==> Truthy(req.transactionId)
    ensures "transaction_id" in r.fields ==> r.fields["transaction_id"] == req.transactionId.value
    ensures ImageAccountField(bank) in r.fields <==> Truthy(req.accountNumber)
    ensures ImageAccountField(bank) in r.fields ==> r.fields[ImageAccountField(bank)] == req.accountNumber.value
    ensures r.fields.Keys <= {"transaction_id", ImageAccountField(bank)}
  {
    var id := if Truthy(req.transactionId) then req.transactionId else None;
    var account := if Truthy(req.accountNumber) then req.accountNumber else None;
    MultipartPost("/image/" + BankName(bank) + "/verify", req.file,
                  Put(Put(map[], "transaction_id", id), ImageAccountField(bank), account))
  }

  /**
   * `verifyCbeImage`, `verifyBoaImage`, `verifyTelebirrImage`: the form is
   * built part by part, each optional part appended only when non-empty.
   */
  method ImageRequest(bank: Bank, req: FileUploadRequest) returns (r: Request)
    ensures r == ImageForm(bank, req)
  {
    var formData: map<string, string> := map[];
    if Truthy(req.transactionId) {
      formData := formData["transaction_id" := req.transactionId.value];
    }
    if Truthy(req.accountNumber) {
      formData := formData[ImageAccountField(bank) := req.accountNumber.value];
    }
    r := MultipartPost("/image/" + BankName(bank) + "/verify", req.file, formData);
  }
}
