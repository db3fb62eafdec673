# Payment verification frontend: a Dafny model of its decision logic

The frontend lets a user verify a bank payment (CBE, BOA or Telebirr). The
user either uploads or captures a receipt image, or types the transaction ID
and, for some banks, an account number. The page sends one request to the
verification backend and shows the outcome in a result modal or an error
dialog. The frontend also keeps a per-bank history of attempts in local
storage and uses it for autocomplete.

This project models the deterministic logic between the user's input and
what the user is shown:

- **`Api`** (`api.dfy`): the API client.
  - The error interceptor: `handleError` builds the message, status and details; `getErrorType` classifies the error; the rejected object combines both.
  - `transformResponse`, which normalises a successful body.
  - The request each `verify*` method sends, as a path and a field map. The image forms are built part by part by a method, which is proved equal to the form's specification.
- **`ErrorHandler`** (`error_handler.dfy`): `ErrorHandler.handle`. It turns a thrown value into an error state whose retry flag is false exactly for validation errors.
- **`ModalHelpers`** and **`ResultModal`**: the result modals' choices.
  - Which data record is displayed.
  - The two success tests, which differ: the modal's copy skips the date and rejects test or placeholder data.
  - The title, message and retry button for an `error_type`.
  - The 'N/A' guards of the formatters.
- **`PageCommon`**, **`CbePage`**, **`TelebirrPage`**, **`BoaPage`**: the bank pages as classes over their React state.
  - Validation messages.
  - The request each tab sends.
  - The catch block: manual verification is intercepted before the error handler is consulted.
  - Switching to manual entry, the Retry routing, and the drop and camera errors.
- **`Layout`** (`bank_verification_layout.dfy`): the generic `BankVerificationLayout` form.
  - Its untrimmed validation chain.
  - How a captured data URL (section 2 of RFC 2397) becomes a blob's media type, or a TypeError.
  - `handleSubmit`, `resetForm`, `capture` and the submit-disabled predicate.
- **`History`** and **`HistoryInputComponent`**:
  - The local-storage history: most recent first, at most 50 entries, updated by id.
  - The autocomplete: a case-insensitive filter, and a grouping by value built by a loop with a proved invariant.

Local storage is a `map<string, Stored>`. The transport is a parameter: each
handler receives the `Reply` the backend (or the network) would give. The
pages record the requests they send in a `sent` field, so their contracts
can say exactly which request went out.

Supporting modules:

- `Wrappers`: `Option`.
- `Text`: JavaScript string operations (`includes`, `startsWith`, `trim`-blankness, ASCII `toLowerCase`, `split`, `slice(-n)`, truthiness, `||`).
- `Seqs`: `filter`, `slice(0, n)`, the order-keeping `Set` de-duplication.
- `Verification`: the data types of `src/types/verification.ts`.

## Model

| member | source | states |
|---|---|---|
| ErrorHandler.Handle | src/lib/errorHandler.ts:11-82 | First match wins. Network phrases give network; otherwise 'timeout' gives timeout; otherwise a non-zero status >= 500 gives server with the fixed message; otherwise >= 400 gives validation with the error's message or the invalid-request default. Each type is stated as an iff over the input. Details are copied on every API-error branch. A value without a message gives unknown with the fallback message. Retryable holds exactly when the type is not validation |
| ErrorHandler.IsRetryable | src/lib/errorHandler.ts:84-86 | The result is the stored retry flag |
| ErrorHandler.NetworkBeforeTimeout | src/lib/errorHandler.ts:19-36 | A message with both a network phrase and 'timeout' is classified as network and retryable |
| ErrorHandler.NoStatusIsUnknown | src/lib/errorHandler.ts:59-64 | With no phrase match and a missing or zero status, the type is unknown and retryable, with the message or the generic default |
| ErrorHandler.IgnoresErrorType | src/lib/errorHandler.ts:11-82 | The classification does not depend on the thrown value's `error_type` or `response` |
| ErrorHandler.NoResponseIsNetwork | src/lib/api.ts:64-71 | A rejection for a request that got no response is always shown as a network error, even when the client typed it as a timeout |
| ErrorHandler.BareTimeoutStatusIsValidation | src/lib/api.ts:75-136 | A 408 with no body message is a timeout for the client but a non-retryable validation error for the handler |
| Api.HandleError | src/lib/api.ts:75-97 | With a response: its status, the body message or `Server Error: <status>`, and the body details or the error message. With none: no status; the fixed network message if the request was sent, else `Request Error: ` + message |
| Api.GetErrorType | src/lib/api.ts:99-136 | Never server. Without a response: timeout (ECONNABORTED or 'timeout') or network if a request went out, else unknown. With a response, each result is stated as an iff in first-match order: 408/'timeout', then the invalid-transaction phrases, then the manual-entry signal, then 4xx is validation; never network |
| Api.Reject | src/lib/api.ts:64-71 | The rejected object is `handleError`'s message, status and details, plus `error_type` from `getErrorType`, with no `response` key |
| Api.Remap | src/lib/api.ts:285-296 | The legacy `data` record maps `status` to `transaction_status`, and `date` to both `transaction_date` and `date`; the other fields are copied |
| Api.TransformResponse | src/lib/api.ts:274-303 | A body with truthy status and message passes unchanged. A legacy body with `data` gets status success/error from `success`, the default message, and the remapped `verified_data`. A legacy body without `data` throws. Every returned body is normalised |
| Api.TransformIdempotent | src/lib/api.ts:274-303 | Transforming a transformed body gives the same result |
| Api.Await | src/lib/api.ts:61-71 | A 2xx body settles as `transformResponse` of it; an HTTP error settles as the interceptor's rejection |
| Api.CbePaymentRequest | src/lib/api.ts:153-164 | POST /cbe/verify with `transaction_id`, and `account_number` = `sender_account \|\| account_number`, sent exactly when that expression is defined (an empty `sender_account` with no `account_number` sends no key); no other keys |
| Api.BoaPaymentRequest | src/lib/api.ts:167-178 | POST /boa/verify with `transaction_id`, and `sender_account_last_5_digits` as the last min(5, length) characters of the account; no other keys |
| Api.TelebirrPaymentRequest | src/lib/api.ts:181-191 | POST /telebirr/verify with `transaction_id` only |
| Api.ImageAccountField | src/lib/api.ts:204-236 | The account field is never `transaction_id`; BOA names it `sender_account` |
| Api.ImageForm | src/lib/api.ts:194-259 | The multipart form for `/image/<bank>/verify` carries the file. `transaction_id` and the account field are each present iff non-empty, with their values. There are no other fields |
| Api.ImageRequest | src/lib/api.ts:194-259 | The form built by successive conditional appends equals `ImageForm` |
| ModalHelpers.GetDisplayData | src/utils/modalHelpers.ts:4-6 | The first present of verified, CBE-extracted and extracted data, returned whole; present iff one of them is |
| ModalHelpers.IsTransactionSuccess | src/utils/modalHelpers.ts:9-17 | Holds iff the status is 'success' and the display record is present with a transaction ID or possible ID, both names, a non-zero amount and a transaction date |
| ModalHelpers.MissingFieldIsNotSuccess | src/utils/modalHelpers.ts:9-17 | A record missing the ID, a name, a non-zero amount or the date is not a success, whatever the status |
| ModalHelpers.IsTestTransaction | src/utils/modalHelpers.ts:20-24 | Holds iff the display record is present with sender 'Test User', receiver 'Test Recipient' and amount 100 |
| ModalHelpers.TestTransactionReadsThreeFields | src/utils/modalHelpers.ts:20-24 | The fixture test depends only on the two names and the amount, and fails without data |
| ModalHelpers.TestTransactionCanBeSuccess | src/utils/modalHelpers.ts:9-24 | The helper's success test accepts the test fixture when it has an ID and a date |
| ModalHelpers.GetErrorInfo | src/utils/modalHelpers.ts:27-60 | The retry button shows iff the type is network or timeout. Network gives the 'Connection Error' info and timeout the 'Request Timeout' info, each with its fixed message. Validation shows 'Missing Information' with the response message or the fallback. Every other type, or no type, gives the invalid-ID info |
| ModalHelpers.ErrorInfoUsesMessageOnlyForValidation | src/utils/modalHelpers.ts:27-60 | For any type but validation, the info does not depend on the response message |
| ModalHelpers.FormatCurrency | src/utils/modalHelpers.ts:63-70 | 'N/A' iff the amount is missing (zero is still formatted) |
| ModalHelpers.FormatDate | src/utils/modalHelpers.ts:73-85 | 'N/A' iff the date is missing or empty |
| ModalHelpers.FormatTime | src/utils/modalHelpers.ts:88-100 | 'N/A' iff the time is missing or empty |
| ResultModal.IsTransactionSuccess | src/components/ResultModal.tsx:45-52 | Holds iff the status is 'success' and the display record is present with an ID or possible ID, both names and a non-zero amount, and its debug text mentions neither 'Test data' nor 'temporarily unavailable'; no date is required |
| ResultModal.IsTransactionFailed | src/components/ResultModal.tsx:468-471 | Holds iff the status is 'failed', or the display record's transaction status is 'Failed', or its status is 'Failed' or 'Service Unavailable' |
| ResultModal.FailedContent | src/components/ResultModal.tsx:504-525 | The title is 'Service Unavailable' iff the display data's status says so; the same test picks the message |
| ResultModal.Render | src/components/ResultModal.tsx:41-637 | The success view is chosen iff the modal's own success test holds. Its ID is `transaction_id \|\| possible_transaction_id`, its bank falls back to 'N/A', its date is `transaction_date \|\| date \|\| 'N/A'`, and its amount is non-zero. Any other response gets the failed content |
| ResultModal.RenderIgnoresMessageAndErrorType | src/components/ResultModal.tsx:41-637 | The chosen view does not depend on the response's message or `error_type` |
| ResultModal.ManualVerificationIsFailedView | src/components/ResultModal.tsx:468-637 | A 'Manual_Verification_Required' response gets the failed view, titled by the service-unavailable test |
| ResultModal.SuccessCopiesDisagree | src/components/ResultModal.tsx:45-52 | Some response is a success for the modal but not for the helper (no date), and some for the helper but not the modal (test data) |
| ResultModal.HelperSuccessIsModalSuccess | src/components/ResultModal.tsx:45-52 | A helper-approved success with clean debug text is a modal success |
| ResultModal.RetryAction | src/components/ResultModal.tsx:534 | Retry calls `onRetry` iff one was given, and reloads otherwise |
| History.StorageKeysDistinct | src/utils/verificationHistory.ts:12-14 | Different banks have different storage keys |
| History.Prepend | src/utils/verificationHistory.ts:29-32 | The new attempt is first, the length is min(old + 1, 50), and the earlier entries follow shifted by one |
| History.PrependDropsOnlyOldest | src/utils/verificationHistory.ts:29-32 | Below 50 nothing is dropped; at 50 only the oldest entry is |
| History.FindIndex | src/utils/verificationHistory.ts:56 | -1 iff no entry has the id; otherwise the first index with it |
| History.UpdatedHistory | src/utils/verificationHistory.ts:55-63 | Nothing is written iff the id is absent. Otherwise only the first entry with the id changes: its status, and its error type only when a non-empty one is given. The length is kept |
| History.Values | src/utils/verificationHistory.ts:71-73 | Exactly the non-empty values of the field in the history |
| History.UniqueValues | src/utils/verificationHistory.ts:70-76 | At most 10 distinct, non-empty values from the history; all of them when fewer than 10 |
| History.UniqueValuesOrder | src/utils/verificationHistory.ts:75-76 | The suggestions keep first-occurrence (most recent) order |
| History.UniqueValuesMostRecent | src/utils/verificationHistory.ts:70-76 | A non-empty value the suggestions leave out means there are exactly 10 and each was used more recently than it: the suggestions are the 10 most recent distinct values |
| History.ValuesAppend | src/utils/verificationHistory.ts:70-73 | The values of a newer part of the history come before those of an older part, so value order is history order |
| Seqs.Distinct | src/utils/verificationHistory.ts:76 | `Array.from(new Set(values))` has the same members and no duplicates |
| Seqs.DistinctOrder | src/utils/verificationHistory.ts:76 | `Set` de-duplication keeps first-occurrence order |
| History.AttemptsByValue | src/utils/verificationHistory.ts:84-88 | Exactly the attempts whose field equals the value |
| History.AttemptsByValueAppend | src/utils/verificationHistory.ts:84-88 | The filter keeps history order |
| History.VerificationHistory.constructor | src/utils/verificationHistory.ts:39-47 | The store starts as the given local storage |
| History.VerificationHistory.GetHistory | src/utils/verificationHistory.ts:39-47 | The stored list, or [] when the key is missing or does not parse |
| History.VerificationHistory.AddAttempt | src/utils/verificationHistory.ts:16-37 | Writes `Prepend` of the stamped attempt under the bank's key, returns its id, and leaves every other bank's history unchanged |
| History.VerificationHistory.UpdateAttemptStatus | src/utils/verificationHistory.ts:49-64 | Storage is unchanged when the id is absent; otherwise the bank's key holds `UpdatedHistory`. Other banks are unchanged |
| History.VerificationHistory.GetUniqueValues | src/utils/verificationHistory.ts:66-77 | At most 10 distinct non-empty values, each taken from some stored attempt; a stored value left out means there are 10 and all are more recent than it, so fewer than 10 means all of them |
| History.VerificationHistory.GetAttemptsByValue | src/utils/verificationHistory.ts:79-89 | Exactly the stored attempts whose field equals the value |
| History.VerificationHistory.ClearHistory | src/utils/verificationHistory.ts:91-93 | Only the bank's key is removed; that history reads [] and the others are unchanged |
| History.VerificationHistory.ClearAllHistory | src/utils/verificationHistory.ts:95-99 | Exactly the three banks' keys are removed; every history reads [] |
| HistoryInputComponent.FilterByInput | src/components/HistoryInput.tsx:46-50 | Keeps exactly the attempts whose field is present and contains the input, ignoring case |
| HistoryInputComponent.EmptyInputKeepsFieldHolders | src/components/HistoryInput.tsx:46-50 | An empty input keeps, in order, every attempt that has the field |
| HistoryInputComponent.FilterIgnoresInputCase | src/components/HistoryInput.tsx:46-50 | Lower-casing the input does not change the filtered list |
| HistoryInputComponent.GroupByValue | src/components/HistoryInput.tsx:87-96 | A value is a key iff some filtered attempt has it and it is non-empty; its group is exactly those attempts in filtered order; there are groups iff some attempt has a non-empty value |
| HistoryInputComponent.GroupHeadIsMostRecent | src/components/HistoryInput.tsx:118-119 | A group's first element is the most recent history attempt with that value |
| HistoryInputComponent.HistoryInput.constructor | src/components/HistoryInput.tsx:25-27 | Empty history, empty filtered list, closed dropdown |
| HistoryInputComponent.HistoryInput.LoadHistory | src/components/HistoryInput.tsx:35-39 | Both the history and the filtered list become the stored history |
| HistoryInputComponent.HistoryInput.HandleInputChange | src/components/HistoryInput.tsx:41-52 | The value is passed on, the filtered list becomes `FilterByInput`, and the dropdown opens |
| HistoryInputComponent.HistoryInput.HandleSelectHistory | src/components/HistoryInput.tsx:58-64 | A non-empty value is passed on and the dropdown closes; otherwise nothing changes |
| HistoryInputComponent.HistoryInput.DropdownVisible | src/components/HistoryInput.tsx:113 | Visible iff open and at least one group exists |
| PageCommon.ManualResponse | src/app/cbe/page.tsx:86-93 | The manual-verification response carries the status, the message and the extracted data, and no error type |
| PageCommon.CatchResponse | src/app/cbe/page.tsx:73-142 | Three manual tests in order: the processed-error phrases, the raw `data.status`, and the direct phrases. The result is manual iff the raw or the phrase test holds. Otherwise it is status 'failed' with the error handler's message and type |
| PageCommon.Settle | src/app/cbe/page.tsx:56-142 | A returned body is stored as is; a thrown value goes through the catch block |
| PageCommon.RejectionManualIffPhrases | src/app/cbe/page.tsx:81-132 | An interceptor rejection never matches the raw test; it becomes manual iff its message has both phrases, and then carries no extracted ID |
| PageCommon.ExtractionFailureIsManual | src/app/cbe/page.tsx:81-132 | An error body whose message has both phrases reaches the user as manual verification with that message |
| PageCommon.CaughtFailureIsNeverInvalidTransaction | src/app/cbe/page.tsx:135-142 | A failure built by the catch block never has `invalid_transaction` as its type |
| PageCommon.ExtractedId | src/app/cbe/page.tsx:154 | The extracted data's ID when truthy; otherwise exactly the verified data's ID (`\|\|` fallback); none without a response |
| PageCommon.ManualSwitchAfterRejectionKeepsId | src/app/cbe/page.tsx:152-162 | Switching to manual entry after an intercepted rejection carries no ID over |
| PageCommon.RetryRoute | src/app/cbe/page.tsx:496 | Switch to manual entry iff the response is 'Manual_Verification_Required' |
| PageCommon.DropAcceptance | src/app/cbe/page.tsx:313 | Any `image/` type and `application/pdf` are accepted; other types are refused |
| CbePage.ValidationMessage | src/app/cbe/page.tsx:22-48 | No message iff the tab's fields are present (trimmed). Otherwise the missing fields, in fixed order, joined with ' and ' |
| CbePage.CbeRequest | src/app/cbe/page.tsx:56-69 | Upload: the image form with the account, plus `transaction_id` only when non-empty. Transaction tab: the JSON body with both fields |
| CbePage.JoinAnd | src/app/cbe/page.tsx:24-32 | Joining one or two missing field names with ' and ' |
| CbePage.CbeVerificationPage.constructor | src/app/cbe/page.tsx:12-17 | The initial state |
| CbePage.CbeVerificationPage.CheckFields | src/app/cbe/page.tsx:22-48 | The `push`-built message equals `ValidationMessage` |
| CbePage.CbeVerificationPage.HandleCbeVerify | src/app/cbe/page.tsx:20-146 | Incomplete: a validation failure is stored; nothing is sent and loading is not touched. Complete: exactly `CbeRequest` is sent, the settled response is stored, and loading ends false. Inputs are unchanged |
| CbePage.CbeVerificationPage.BuildRequest | src/app/cbe/page.tsx:56-69 | The request built for the tab equals `CbeRequest` |
| CbePage.CbeVerificationPage.Submit | src/app/cbe/page.tsx:51-145 | Exactly one `CbeRequest` is sent, the settled response is stored, loading ends false, and the inputs are unchanged |
| CbePage.CbeVerificationPage.StoreOutcome | src/app/cbe/page.tsx:70-142 | The response becomes the settled result of the call; nothing else changes |
| CbePage.CbeVerificationPage.CloseModal | src/app/cbe/page.tsx:148-150 | Clears the response only |
| CbePage.CbeVerificationPage.HandleSwitchToManualEntry | src/app/cbe/page.tsx:152-162 | Copies a truthy extracted ID, selects the transaction tab, clears the response |
| CbePage.CbeVerificationPage.HandleRetry | src/app/cbe/page.tsx:164-168 | Closes the modal and verifies again, with `HandleCbeVerify`'s outcome |
| CbePage.CbeVerificationPage.PressRetry | src/app/cbe/page.tsx:496 | A manual response switches to manual entry with loading untouched; any other re-verifies the same form, leaving loading untouched when validation fails |
| CbePage.CbeVerificationPage.HandleDrop | src/app/cbe/page.tsx:311-323 | The first file is selected if accepted; otherwise a validation response is set |
| CbePage.CbeVerificationPage.HandleCameraFailure | src/app/cbe/page.tsx:200-207 | A validation response with the camera message |
| TelebirrPage.ValidationMessage | src/app/telebirr/page.tsx:20-37 | No message iff the file (upload tab) or a non-blank ID (transaction tab) is there; otherwise the tab's fixed message |
| TelebirrPage.TelebirrRequest | src/app/telebirr/page.tsx:45-53 | Upload: the image form with no fields. Transaction tab: only `transaction_id` |
| TelebirrPage.TelebirrVerificationPage.constructor | src/app/telebirr/page.tsx:12-16 | The initial state |
| TelebirrPage.TelebirrVerificationPage.HandleTelebirrVerify | src/app/telebirr/page.tsx:19-130 | Incomplete: a validation failure is stored and nothing is sent. Complete: exactly `TelebirrRequest` is sent, the settled response is stored, and loading ends false |
| TelebirrPage.TelebirrVerificationPage.Submit | src/app/telebirr/page.tsx:40-130 | Exactly one `TelebirrRequest` is sent, the settled response is stored, loading ends false, and the inputs are unchanged |
| TelebirrPage.TelebirrVerificationPage.StoreOutcome | src/app/telebirr/page.tsx:54-126 | The response becomes the settled result of the call; nothing else changes |
| TelebirrPage.TelebirrVerificationPage.CloseModal | src/app/telebirr/page.tsx:132-134 | Clears the response only |
| TelebirrPage.TelebirrVerificationPage.HandleSwitchToManualEntry | src/app/telebirr/page.tsx:136-146 | Copies a truthy extracted ID, selects the transaction tab, clears the response |
| TelebirrPage.TelebirrVerificationPage.HandleRetry | src/app/telebirr/page.tsx:148-152 | Closes the modal and verifies again |
| TelebirrPage.TelebirrVerificationPage.PressRetry | src/app/telebirr/page.tsx:432 | A manual response switches to manual entry with loading untouched; any other re-verifies the same form, leaving loading untouched when validation fails |
| TelebirrPage.TelebirrVerificationPage.HandleDrop | src/app/telebirr/page.tsx:291-303 | The first file is selected if accepted; otherwise a validation response is set |
| TelebirrPage.TelebirrVerificationPage.HandleCameraFailure | src/app/telebirr/page.tsx:184-191 | A validation response with the camera message |
| BoaPage.BoaRequest | src/app/boa/page.tsx:31-38 | Exactly `transaction_id` and the account's last five characters, whatever the tab |
| BoaPage.BoaVerificationPage.constructor | src/app/boa/page.tsx:12-18 | The initial state |
| BoaPage.BoaVerificationPage.HandleBoaVerify | src/app/boa/page.tsx:21-47 | A blank ID or account sets the non-retryable validation error and sends nothing. Otherwise exactly `BoaRequest` is sent. A body becomes the response with no error; a thrown value becomes `handle`'s error state, and the response is kept |
| BoaPage.BoaVerificationPage.CloseModal | src/app/boa/page.tsx:49-52 | Clears both the response and the error |
| BoaPage.BoaVerificationPage.RetryVisible | src/app/boa/page.tsx:391 | Retry shows iff there is an error and it is retryable |
| BoaPage.BoaVerificationPage.PressRetry | src/app/boa/page.tsx:391-401 | Clears the error and verifies again, with `HandleBoaVerify`'s outcome |
| BoaPage.BoaVerificationPage.HandleDrop | src/app/boa/page.tsx:188-199 | The first file is selected if accepted; otherwise the non-retryable drop error is set |
| BoaPage.BoaVerificationPage.HandleCameraFailure | src/app/boa/page.tsx:77-84 | Sets the non-retryable camera error |
| Layout.ValidationError | src/components/BankVerificationLayout.tsx:102-121 | No error iff every check passes (untrimmed). Otherwise the first failing check's message: the ID message, the text-mode account message, the file or capture message, then the image-verification account message, each pinned exactly |
| Layout.CapturedMimeType | src/components/BankVerificationLayout.tsx:123-130 | The media type exists iff the part before ',' contains ':' |
| Layout.DataUrlMediaType | src/components/BankVerificationLayout.tsx:123-130 | For `data:<type>[;params],<data>` the blob gets exactly `<type>` |
| Layout.HeaderWithoutColonThrows | src/components/BankVerificationLayout.tsx:123-130 | A header without ':' cannot become a blob |
| Layout.FileToUpload | src/components/BankVerificationLayout.tsx:123-130 | Image mode: the picked file or null. Otherwise a blob of a non-empty capture, the TypeError, or null |
| Layout.SubmitDisabled | src/components/BankVerificationLayout.tsx:377 | Holds iff the form is loading, or camera mode has no capture, or image or camera mode needs an account number and it is empty |
| Layout.EnabledCameraSubmitPasses | src/components/BankVerificationLayout.tsx:377 | In camera mode an enabled button implies the checks pass |
| Layout.EnabledSubmitCanFail | src/components/BankVerificationLayout.tsx:377 | In text and image modes the button can be enabled while a check fails |
| Layout.BankVerificationLayout.constructor | src/components/BankVerificationLayout.tsx:34-47 | The initial state |
| Layout.BankVerificationLayout.ResetForm | src/components/BankVerificationLayout.tsx:49-57 | Clears the inputs, the capture, the response, the error and the camera flag |
| Layout.BankVerificationLayout.HandleInputMethodSelect | src/components/BankVerificationLayout.tsx:59-62 | Sets the method and resets the form |
| Layout.BankVerificationLayout.Capture | src/components/BankVerificationLayout.tsx:81-93 | No webcam and no screenshot set different errors; a screenshot is stored and the error cleared |
| Layout.BankVerificationLayout.HandleSubmit | src/components/BankVerificationLayout.tsx:95-144 | Clears the response and error first. A failed check sets its message with loading false and no call. A capture that cannot become a blob leaves loading true with no call. Otherwise `onVerify` is called once with the four arguments, and its result or its rejection's message (or the fixed fallback) is stored |

## Left out

- Rendering (JSX, styles, animations), and the modals other than the decision part of `ResultModal`: display only. `ErrorModal`'s retry condition is `getErrorInfo`'s `showRetry`.
- The axios instance, interceptor registration, base URL and timeout settings, `FormData` and JSON encoding, and `healthCheck`: transport. A call's outcome is the `Reply` parameter, and a request is its path and field map.
- async/await: one submission is atomic. Loading is set before the call and cleared after, and nothing can interleave.
- Local storage I/O and JSON parsing: storage is a map, and a value that does not parse is `Unparsable`. A stored value that parses to something other than an array is not modelled.
- Generation of attempt ids and timestamps (`Date.now`, `Math.random`): they are inputs of `AddAttempt`.
- Camera access, react-webcam, `alert`, the file picker and drag-and-drop plumbing: device and browser I/O. Only their outcomes are modelled (`HandleCameraFailure`, `HandleDrop`, `Capture`'s parameters).
- `atob` and `Blob`: a capture becomes a `Captured(mediaType, dataUrl)` value. A failure of `atob` on malformed base64 is not modelled.
- The locale formatting of currency, dates and times (`Intl`, `toLocale*`, `toFixed`): only the 'N/A' guards are modelled.
- `HealthCheck` (a polling timer), the home page, and the success, failed, manual-verification and validation modals: no decision logic.
- `retryVerification` in the CBE and Telebirr pages: dead code that calls an undeclared setter. The `instanceof Error` branch of `ErrorHandler.handle` is unreachable behind the `'message' in error` test. `console.log` is left out too.
- `ErrorHandler.getErrorMessage` and `getErrorDetails`: plain field reads.
- The text and tab `onChange` setters, `handleFileChange`, `handleBrowseFile`, and `HistoryInput`'s focus and click-outside handlers: single state assignments from DOM events.
- `toLowerCase` is modelled on ASCII letters only. `trim` uses the JavaScript whitespace set.
- `amount` is an exact optional number; NaN is not modelled.
- The text of the TypeError thrown when a legacy body has no `data` is a fixed string; the real wording depends on the JavaScript engine.
- Fields of the backend records that the core never reads, and the top-level `debug_info` and `suggested_action` of a response.
- HistoryInputComponent.GroupByValue: the groups are a map, so the enumeration order of `Object.entries` is not modelled (integer-like keys come first in JavaScript). Values that name members of `Object.prototype`, such as "constructor", would make the reduce misbehave; this is not modelled either.
- Layout.BankVerificationLayout.HandleSubmit: when the captured data URL has no ':' in its header, the TypeError escapes `handleSubmit`. The model keeps loading true and makes no call, as written.
