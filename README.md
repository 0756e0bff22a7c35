# SwiftLoan receipt core, modelled in Dafny

This project models the receipt core of the SwiftLoan Kenya payment server
(`server.js`). A caller asks the server to start an M-Pesa STK push through a
payment aggregator (`POST /pay`). The server keeps one receipt per payment
reference in a dictionary persisted as `receipts.json`. It reconciles each
receipt against the aggregator's asynchronous notifications
(`POST /callback`). It shows the current receipt as JSON
(`GET /receipt/:reference`) or as a PDF (`GET /receipt/:reference/pdf`).

Modules, one per part of the core:

- `Wrappers`: `Option`.
- `JsValues`: the JavaScript values the handlers manipulate. These are JSON scalars (`Json`) and
  possibly-`undefined` properties (`Field`). The module also gives truthiness and `||` (`Truthy`, `Or`, `OrElse`),
  `String(x)` (`Text`, with `NatToString` for numbers) and ASCII `toLowerCase`/`toUpperCase`.
- `Phone`: `formatPhone`.
- `Receipts`: the receipt record and its lifecycle states. It also holds the status notes, kept as symbolic
  `Message`s whose exact wording is given by `MessageText`.
- `Initiation`: the `/pay` handler as a pure function of its inputs (`Initiate`).
- `Reconciliation`: the `/callback` state machine (`Reconcile`). This covers the customer-name chain,
  the success predicate (`Confirms`) and the result-code note table (`FailureNote`).
- `Projection`: the PDF's style table (`StyleFor`) and the content the document shows (`Render`).
- `Store`: the `receipts` dictionary as a class. Its methods `Pay`, `Callback`, `Lookup` and `Pdf`
  call the pure functions above and assign one key. The module also holds lemmas about sequences of handler calls.

A receipt is a record with one `Field` per property the handlers write (`None` when the property is
absent) and an `others` map for any further properties. The store is re-read from `receipts.json` on
every request. A property whose value is `undefined` is therefore absent from the stored record, as
`JSON.stringify` drops it. The success branch of `/callback` spreads the old record, so `others`
survives there. The failure branch builds a fresh literal, so `others` is dropped there.

Behaviour of the code that the model keeps as written:

- The success branch of `/callback` sets `transaction_id` to the notification's value even when the
  notification has none. A transaction id recorded by `/pay` is then lost, not kept stable.
- A failure notification after a success one turns a `processing` record into `cancelled`: the last
  write wins. No transition is refused.
- `timestamp` is the notification's own `timestamp` when it has one, so it can move backwards.
- `data.status?.toLowerCase()` throws when `status` is present but not a string or `null`. The
  handler then writes nothing and sends no acknowledgement (`Reconcile` returns `None`,
  `CallbackReply` is `None`). In every other case the acknowledgement `{ResultCode: 0, ResultDesc: "Success"}` is sent.
- The callback stores its record under `String(external_reference)`. That key is `"undefined"`
  when the reference is missing.
- In `/pay` the catch block computes `amount ? Math.round(amount) : null`. It is reached only after
  validation has passed, so the stored amount is always the number (`InitialReceiptContents`).
- No handler produces `success` or `loan_released`; only the document's style table knows them.
- The PDF route puts the reference into the `Content-Disposition` header unescaped. Node refuses a header value holding a character other than tab, `' '`..`'~'` or U+0080..U+00FF, so such a reference makes the route throw before any drawing (`Render` returns `None`, `HeaderSafe`).

## Model

| member | source | states |
|---|---|---|
| `Phone.Digits` | server.js:34 | the stripped string contains only digits and is no longer than the input; a single character is kept iff it is a digit |
| `Phone.DigitsAppend` | server.js:34 | stripping distributes over concatenation, so every digit of the input is kept, in order |
| `Phone.DigitsOfDigitString` | server.js:34 | stripping non-digits from an all-digit string leaves it unchanged |
| `Phone.FormatPhone` | server.js:33-40 | a non-null result has 12 digits and starts with `254`; its last nine digits are the last nine digits of the input |
| `Phone.FormatPhoneAccepts` | server.js:35-39 | a number is accepted iff its digits are 9 starting `7`, 10 starting `07`, or 12 starting `254`; the `07` form becomes `254` plus the digits after the `0` |
| `Phone.FormatPhoneIdempotent` | server.js:33-40 | normalising a normalised number returns it unchanged |
| `Phone.LocalNumberExample` | server.js:36-37 | `"0712345678"` becomes `"254712345678"` |
| `Phone.NoDigitsExample` | server.js:34-39 | `"abc"` is refused (`null`) |
| `JsValues.NatToString` | server.js:323 | the numeral printed for a number is non-empty, all digits, without a leading zero |
| `JsValues.NatToStringRoundTrip` | server.js:323 | reading back the printed numeral gives the number |
| `JsValues.TruthyTextNonEmpty` | server.js:177 | a truthy value never prints as the empty string |
| `Initiation.Initiate` | server.js:43-160 | rejected iff the phone does not normalise or the amount is absent or below 1 (phone checked first); otherwise `pending` iff the aggregator reports success, `stk_failed` iff it replies without success, `error` iff the call throws; the error receipt uses the catch block's reference |
| `Initiation.InitialReceiptContents` | server.js:76-152 | every stored initial receipt has the reference it is stored under, the matching status and note, the aggregator's transaction id or `null` (always `null` on the error path), transaction code `null`, customer name `"N/A"`, the loan amount or `"50000"`, the normalised phone, the amount and the time |
| `Initiation.RejectionPrecedesCall` | server.js:48-53 | a rejection does not depend on the aggregator's reply: it happens before the call |
| `Reconciliation.ReadStatus` | server.js:171 | `status?.toLowerCase()` throws exactly for a boolean or number status; a string status always reads as its lower-cased text; `null` and absent read as no status |
| `Reconciliation.ConfirmationIsStrict` | server.js:181 | without `success === true` and without the number 0 as result code, no notification confirms (a truthy `success` or a result code `"0"` does not) |
| `Reconciliation.CompletedConfirms` | server.js:171-181 | a status that lower-cases to `completed` confirms with `success === true`; without it, only result code 0 confirms |
| `Reconciliation.Truthies` | server.js:177 | `.filter(Boolean)` keeps only truthy parts, and keeps a single part iff it is truthy |
| `Reconciliation.TruthiesAppend` | server.js:177 | filtering distributes over concatenation, so every truthy part is kept, in order |
| `Reconciliation.JoinedEmpty` | server.js:177 | the joined name parts are empty iff every part is falsy |
| `Reconciliation.CustomerName` | server.js:175-179 | the customer name is `Name`, else the joined non-empty name parts, else the stored name, else `"N/A"`; it is never falsy |
| `Reconciliation.FailureNote` | server.js:201-220 | codes 1032, 1037 and 2001 give their own fixed notes (both directions); any other code gives `ResultDesc` if truthy, else the generic note |
| `Reconciliation.Reconcile` | server.js:166-234 | the handler throws iff the status is a non-string; otherwise the record becomes `processing` iff the success predicate holds, else `cancelled`. Reference and transaction id come from the notification. Amount and phone fall back to the stored values, and when both are falsy they are the stored value on success and `null` on failure. The loan amount is kept or defaulted. The customer name is `CustomerName`'s. The timestamp is the notification's, else the handler's time. On success the transaction code is the M-Pesa receipt number or `null` and the note is the funds-reserved note for the reference; on failure the transaction code is `null` and the note is `FailureNote`'s. The success path keeps other properties, the failure path drops them; a well-formed record stays well-formed |
| `Reconciliation.RedeliveryIsSingleDelivery` | server.js:182-233 | handling a notification again on the record it wrote gives the same record as one delivery at the later time |
| `Reconciliation.TimestampedNotificationIsDeterministic` | server.js:197-232 | a notification carrying a timestamp yields the same record whenever it is handled |
| `Projection.StyleFor` | server.js:273-302 | a watermark is drawn iff the status is one of the seven known states; `FAILED` iff cancelled, error or stk_failed; the header is red iff `FAILED`; `success` gives a blue header and `PAID` in green, `pending` an orange header and `PENDING` in gray, `processing` a blue header and `PROCESSING - FUNDS RESERVED` in blue, `loan_released` a green header and `RELEASED` in green, the failed states a red header and `FAILED` in red; unknown states keep the default style |
| `Projection.DispositionSafe` | server.js:268 | the `Content-Disposition` value is a valid header value iff the reference's text is |
| `Projection.Render` | server.js:266-342 | the document can be drawn iff the reference can be sent in the `Content-Disposition` header and the status is a string; the document uses `StyleFor`'s style for its status; the watermark is drawn iff the status is known; transaction id, transaction code and customer name show `"N/A"` when falsy and the stored value otherwise |
| `Store.ReceiptStore.constructor` | server.js:24-27 | the store starts from the persisted dictionary |
| `Store.ReceiptStore.Pay` | server.js:43-160 | the outcome is `Initiate`'s; the dictionary gains exactly the receipt under the reported reference, or is unchanged on rejection |
| `Store.CallbackReply` | server.js:171-238 | the reply is `{ResultCode: 0, ResultDesc: "Success"}` whenever there is one, and there is none exactly when the status is a boolean or a number |
| `Store.ReceiptStore.Callback` | server.js:163-239 | the dictionary becomes the reconciled one, except that a write under `"__proto__"` not already stored is lost; the reply is always the fixed acknowledgement unless the handler threw |
| `Store.ReceiptStore.Lookup` | server.js:242-251 | the stored record is returned iff the reference is present, otherwise not found |
| `Store.ReceiptStore.Pdf` | server.js:254-263 | not found iff the reference is absent, which is the same condition as the lookup; otherwise the rendered document, or a failure when it cannot be drawn |
| `Store.CallbackTouchesOnlyItsKey` | server.js:168-236 | a callback changes no entry but its own reference, and creates that entry when missing unless it throws or the reference is `"__proto__"` |
| `Store.ProtoReferenceIsLost` | server.js:182-236 | a notification for `"__proto__"`, never stored before, is acknowledged (unless the handler throws) and leaves the dictionary unchanged: the assignment sets the prototype and `JSON.stringify` drops it |
| `Store.PayTouchesOnlyItsKey` | server.js:91-152 | `/pay` changes no entry but the reported reference, and nothing on rejection |
| `Store.RedeliveredCallback` | server.js:163-239 | replaying a notification leaves the dictionary as one delivery at the later time |
| `Store.TimestampedCallbackIdempotent` | server.js:197-236 | replaying a timestamped notification leaves the dictionary exactly as after the first delivery |
| `Store.FailureAfterSuccessCancels` | server.js:181-233 | a failure after a success for the same reference (one whose writes persist, so not an unstored `"__proto__"`) ends `cancelled` with a null transaction code; it keeps the confirmed loan amount, and the confirmed amount and phone where the failure omits them |
| `Store.CancelledForUnknownReference` | server.js:169-233 | a 1032 notification that does not confirm, for a reference never stored (other than `"__proto__"`), is acknowledged whatever its string status and creates a `cancelled` record with the user-cancelled note and the default loan amount; a 1032 notification with status `completed` and `success === true` confirms instead |
| `Store.PayThenLookup` | server.js:76-93 | after a successful `/pay` the dictionary holds a `pending` record under the returned reference |
| `Store.WrittenRecordsRender` | server.js:278-327 | every record `/pay` or `/callback` writes has a known status, so its document draws with a watermark whenever its reference can be sent in a header |
| `Store.PayThenConfirm` | server.js:76-198 | paying 500 from `0712345678` stores a pending record; the completed notification makes it `processing` with transaction code `ABC123`, the same phone and amount 500 |

## Left out

- HTTP: Express routing, CORS, body parsing, status codes and response bodies. Only the outcome of each route is kept (rejected, stored receipt, not found, acknowledgement).
- The aggregator call (server.js:66-72) is an input: `Replied(success, transaction_id, error)` or `Threw(message)`.
- Reading and writing `receipts.json` is modelled as the dictionary in memory. The constructor's argument is what `readReceipts` returns, which is `map[]` for a missing file (server.js:25). Corrupt files and storage failures are not modelled.
- `Date.now()` and `new Date().toISOString()` are parameters: the try block's reference, the catch block's reference and the current time.
- `Math.round` and floating point are out of scope: numbers are modelled as whole numbers, and the `/pay` amount is given already rounded. `/callback` stores the notification's `Amount` unrounded, so a fractional callback amount is not modelled, nor is `String(n)`'s exponent form for numbers from 1e21. An amount that is not a number (such as a numeric string) is not modelled.
- A `phone` that is not a string makes `formatPhone` throw in the try block and again in the catch block. This case is not modelled: the phone is a string.
- Property values are JSON scalars. Objects or arrays stored in a receipt property are not modelled. Numbers print as whole numbers only.
- Store.ReceiptStore.Lookup and Store.ReceiptStore.Pdf: names inherited from `Object.prototype` (`constructor`, `toString`, `__proto__`, …) are found by `receipts[...]` in both GET routes although they are never stored. `GET /receipt/constructor` answers `{success: true}` where `Lookup` reports not found, and its PDF route throws where `Pdf` reports not found. The callback's `receipts[ref] || {}` reads such names too, but their values carry none of the receipt's properties, so the record written is the one built from `{}`. The model treats the dictionary as holding only stored keys.
- `/pay` writes under `"ORDER-"` followed by `Date.now()` (server.js:55, 133), never `"__proto__"`; `AfterPay` takes the reference as an input and does not apply the `"__proto__"` rule of `AfterCallback`.
- `toLowerCase`/`toUpperCase` are ASCII case mappings.
- The status notes are symbolic messages. Equal messages mean equal stored text; the converse is not claimed.
- PDF drawing: page geometry, fonts, rotation, opacity, streaming, and how PDFKit prints a non-string value. The "Time" line keeps the stored timestamp; `toLocaleString` formatting is locale- and clock-dependent and is left out.
- Console logging.
- Concurrency: each handler does an unlocked read-modify-write of the whole file. The handlers are modelled one at a time, and no atomicity is claimed.
