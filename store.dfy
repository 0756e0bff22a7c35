/**
 * The `receipts` dictionary that every handler reads from and writes back to
 * `receipts.json`, and the four routes over it: `/pay`, `/callback`,
 * `/receipt/:reference` and `/receipt/:reference/pdf`.
 */
module Store {
  import opened Wrappers
  import opened JsValues
  import opened Receipts
  import opened Phone
  import opened Initiation
  import opened Reconciliation
  import opened Projection

  /** The body `/callback` always answers with. */
  datatype Ack = Ack(resultCode: int, resultDesc: string)

  const Acknowledgement := Ack(0, "Success")

  /** `receipts[ref]` with `ref = data.external_reference`: the property key is `String(ref)`. */
  function CallbackKey(n: Notification): string {
    Text(n.externalReference)
  }

  /**
   * Assigning `receipts["__proto__"]` replaces the dictionary's prototype
   * instead of adding a property, so `JSON.stringify` drops the write, unless
   * the parsed file already holds an own `"__proto__"` property.
   */
  const ProtoKey := "__proto__"

  /** Whether writing under `key` adds a property that is written back to `receipts.json`. */
  predicate Persists(receipts: map<string, Receipt>, key: string) {
    key != ProtoKey || key in receipts
  }

  /** `receipts[key] || {}` */
  function Existing(receipts: map<string, Receipt>, key: string): Receipt {
    if key in receipts then receipts[key] else EmptyReceipt
  }

  /** The dictionary after a `/pay` request with outcome `out`. */
  function AfterPay(receipts: map<string, Receipt>, out: PayOutcome): map<string, Receipt> {
    if out.Rejected? then receipts else receipts[out.reference := out.receipt]
  }

  /** The dictionary after the `/callback` handler has handled `n`. */
  function AfterCallback(receipts: map<string, Receipt>, n: Notification, now: string): map<string, Receipt> {
    var key := CallbackKey(n);
    match Reconcile(Existing(receipts, key), n, now)
    case None => receipts
    case Some(r) => if Persists(receipts, key) then receipts[key := r] else receipts
  }

  /** The reply `/callback` sends: always the same acknowledgement, unless the handler threw. */
  function CallbackReply(n: Notification): (reply: Option<Ack>)
    ensures reply.Some? ==> reply.value.resultCode == 0 && reply.value.resultDesc == "Success"
    ensures reply.None? <==> n.status.Some? && (n.status.value.JBool? || n.status.value.JNum?)
  {
    if ReadStatus(n.status) == NotAString then None else Some(Acknowledgement)
  }

  /** The reply of `/receipt/:reference/pdf`. */
  datatype PdfReply = PdfNotFound | PdfFailed | PdfSent(document: Document)

  class ReceiptStore {
    var receipts: map<string, Receipt>

    /** The store as `readReceipts` finds it (`{}` when the file does not exist). */
    constructor(persisted: map<string, Receipt>)
      ensures receipts == persisted
    {
      receipts := persisted;
    }

    /** `POST /pay`: validate, call the aggregator (its reply is an input), store one receipt. */
    method Pay(phone: string, amount: Option<int>, loanAmount: Field, reference: string,
               errorReference: string, reply: AggregatorReply, now: string) returns (out: PayOutcome)
      modifies this
      ensures out == Initiate(phone, amount, loanAmount, reference, errorReference, reply, now)
      ensures receipts == AfterPay(old(receipts), out)
    {
      out := Initiate(phone, amount, loanAmount, reference, errorReference, reply, now);
      if !out.Rejected? {
        receipts := receipts[out.reference := out.receipt];
      }
    }

    /** `POST /callback`: read the stored record, compute its successor, write it under the reference. */
    method Callback(n: Notification, now: string) returns (reply: Option<Ack>)
      modifies this
      ensures receipts == AfterCallback(old(receipts), n, now)
      ensures reply == CallbackReply(n)
    {
      var key := CallbackKey(n);
      var existing := Existing(receipts, key);
      var next := Reconcile(existing, n, now);
      if next.Some? {
        if Persists(receipts, key) {
          receipts := receipts[key := next.value];
        }
        reply := Some(Acknowledgement);
      } else {
        reply := None;
      }
    }

    /** `GET /receipt/:reference`: the stored record, or not found. */
    method Lookup(reference: string) returns (found: Option<Receipt>)
      ensures found.Some? <==> reference in receipts
      ensures found.Some? ==> found.value == receipts[reference]
    {
      if reference in receipts {
        found := Some(receipts[reference]);
      } else {
        found := None;
      }
    }

    /** `GET /receipt/:reference/pdf`: not found exactly when the lookup is; otherwise the drawn document. */
    method Pdf(reference: string) returns (reply: PdfReply)
      ensures reply.PdfNotFound? <==> reference !in receipts
      ensures reply.PdfFailed? <==> reference in receipts && Render(receipts[reference]).None?
      ensures reply.PdfSent? ==> reference in receipts && Render(receipts[reference]) == Some(reply.document)
    {
      if reference !in receipts {
        reply := PdfNotFound;
      } else {
        var d := Render(receipts[reference]);
        reply := if d.Some? then PdfSent(d.value) else PdfFailed;
      }
    }
  }

  // ---- properties of the handlers over the dictionary ----------------------

  /**
   * `/callback` changes at most the entry under its own reference, and creates
   * it when missing unless the handler throws or the reference is `"__proto__"`.
   */
  lemma CallbackTouchesOnlyItsKey(receipts: map<string, Receipt>, n: Notification, now: string)
    ensures var after := AfterCallback(receipts, n, now);
      && (forall k :: k != CallbackKey(n) ==> (k in after <==> k in receipts))
      && (forall k :: k != CallbackKey(n) && k in receipts ==> after[k] == receipts[k])
      && (CallbackKey(n) in after <==>
            CallbackKey(n) in receipts || (ReadStatus(n.status) != NotAString && CallbackKey(n) != ProtoKey))
  {
  }

  /** `/pay` changes at most the entry under the reference it reports. */
  lemma PayTouchesOnlyItsKey(receipts: map<string, Receipt>, out: PayOutcome)
    ensures out.Rejected? ==> AfterPay(receipts, out) == receipts
    ensures !out.Rejected? ==> AfterPay(receipts, out).Keys == receipts.Keys + {out.reference}
    ensures !out.Rejected? ==> forall k :: k in receipts && k != out.reference ==> AfterPay(receipts, out)[k] == receipts[k]
  {
  }

  /**
   * A notification for `"__proto__"` is acknowledged but leaves the
   * dictionary as it was, when no such key was stored before.
   */
  lemma ProtoReferenceIsLost(receipts: map<string, Receipt>, n: Notification, now: string)
    requires CallbackKey(n) == ProtoKey && ProtoKey !in receipts
    ensures AfterCallback(receipts, n, now) == receipts
    ensures CallbackReply(n) == Some(Acknowledgement) <==> ReadStatus(n.status) != NotAString
  {
  }

  /** Replaying a notification leaves the dictionary as a single delivery at the later time would. */
  lemma RedeliveredCallback(receipts: map<string, Receipt>, n: Notification, first: string, second: string)
    ensures AfterCallback(AfterCallback(receipts, n, first), n, second) == AfterCallback(receipts, n, second)
  {
    var key := CallbackKey(n);
    if Reconcile(Existing(receipts, key), n, first).Some? {
      RedeliveryIsSingleDelivery(Existing(receipts, key), n, first, second);
    }
  }

  /** A timestamped notification handled twice leaves the dictionary exactly as handling it once. */
  lemma TimestampedCallbackIdempotent(receipts: map<string, Receipt>, n: Notification, first: string, second: string)
    requires Truthy(n.timestamp)
    ensures AfterCallback(AfterCallback(receipts, n, first), n, second) == AfterCallback(receipts, n, first)
  {
    RedeliveredCallback(receipts, n, first, second);
    TimestampedNotificationIsDeterministic(Existing(receipts, CallbackKey(n)), n, first, second);
  }

  /**
   * Last write wins: a failure notification after a success notification for
   * the same reference leaves the record `cancelled`, with the amount, phone
   * and loan amount of the confirmed record kept where the failure omits them.
   */
  lemma FailureAfterSuccessCancels(receipts: map<string, Receipt>, ok: Notification, failed: Notification,
                                   first: string, second: string)
    requires CallbackKey(ok) == CallbackKey(failed)
    requires Persists(receipts, CallbackKey(ok))
    requires ReadStatus(ok.status) != NotAString && ReadStatus(failed.status) != NotAString
    requires Confirms(ok) && !Confirms(failed)
    ensures var key := CallbackKey(ok);
      var confirmed := AfterCallback(receipts, ok, first)[key];
      var final := AfterCallback(AfterCallback(receipts, ok, first), failed, second)[key];
      && confirmed.status == Some(JStr(Processing))
      && final.status == Some(JStr(Cancelled))
      && final.transactionCode == Some(JNull)
      && final.loanAmount == confirmed.loanAmount
      && (!Truthy(Result(failed).amount) && Truthy(confirmed.amount) ==> final.amount == confirmed.amount)
      && (!Truthy(Result(failed).phone) && Truthy(confirmed.phone) ==> final.phone == confirmed.phone)
  {
  }

  /** A user-cancelled notification for a reference never initiated creates a cancelled record, not an error. */
  lemma CancelledForUnknownReference(receipts: map<string, Receipt>, n: Notification, now: string)
    requires CallbackKey(n) !in receipts && CallbackKey(n) != ProtoKey
    requires Result(n).resultCode == Some(JNum(UserCancelledCode))
    requires ReadStatus(n.status) != NotAString && !Confirms(n)
    ensures CallbackReply(n) == Some(Acknowledgement)
    ensures var r := AfterCallback(receipts, n, now)[CallbackKey(n)];
      r.status == Some(JStr(Cancelled)) && r.statusNote == Some(Fixed(UserCancelled))
      && r.loanAmount == Some(JStr(DefaultLoanAmount)) && r.customerName.Some?
  {
  }

  /** A successful `/pay` followed by a lookup finds a `pending` record under the reference it returned. */
  lemma PayThenLookup(receipts: map<string, Receipt>, phone: string, amount: Option<int>, loanAmount: Field,
                      reference: string, errorReference: string, reply: AggregatorReply, now: string)
    requires Initiate(phone, amount, loanAmount, reference, errorReference, reply, now).Sent?
    ensures var out := Initiate(phone, amount, loanAmount, reference, errorReference, reply, now);
      var after := AfterPay(receipts, out);
      && out.reference == reference && reference in after
      && after[reference].status == Some(JStr(Pending))
      && after[reference].reference == Some(JStr(reference))
  {
    InitialReceiptContents(phone, amount, loanAmount, reference, errorReference, reply, now);
  }

  /**
   * Every record this core writes has a known status, so its document draws
   * with a watermark whenever its reference can be sent in a header.
   */
  lemma WrittenRecordsRender(receipts: map<string, Receipt>, out: PayOutcome, n: Notification, now: string,
                             phone: string, amount: Option<int>, loanAmount: Field, reference: string,
                             errorReference: string, reply: AggregatorReply)
    requires out == Initiate(phone, amount, loanAmount, reference, errorReference, reply, now)
    requires forall k :: k in receipts ==> HasKnownStatus(receipts[k])
    ensures forall k :: k in AfterPay(receipts, out) ==> HasKnownStatus(AfterPay(receipts, out)[k])
    ensures forall k :: k in AfterCallback(receipts, n, now) ==> HasKnownStatus(AfterCallback(receipts, n, now)[k])
    ensures forall k :: k in AfterCallback(receipts, n, now) && HeaderSafe(Text(AfterCallback(receipts, n, now)[k].reference)) ==>
      Render(AfterCallback(receipts, n, now)[k]).Some? && Render(AfterCallback(receipts, n, now)[k]).value.watermark
  {
    if !out.Rejected? {
      InitialReceiptContents(phone, amount, loanAmount, reference, errorReference, reply, now);
    }
  }

  /**
   * Example: paying 500 from a number that normalises to
   * "254712345678" (such as "0712345678", see `Phone.LocalNumberExample`) stores a pending record; the
   * completed notification for it turns that record into `processing`, with
   * the M-Pesa receipt number as its transaction code.
   */
  lemma PayThenConfirm(phone: string, reference: string, errorReference: string, now: string, later: string)
    requires FormatPhone(phone) == Some("254712345678")
    ensures var out := Initiate(phone, Some(500), None, reference, errorReference,
                                Replied(Some(JBool(true)), None, None), now);
      var paid := AfterPay(map[], out);
      var n := Notification(Some(JStr(reference)), Some(JStr("completed")), Some(JBool(true)), None, None,
        Some(ResultBody(Some(JNum(0)), None, Some(JNum(500)), None, None, None, None, None, Some(JStr("ABC123")))));
      var confirmed := AfterCallback(paid, n, later);
      && out.Sent?
      && paid[reference].status == Some(JStr(Pending))
      && paid[reference].phone == Some(JStr("254712345678"))
      && confirmed[reference].status == Some(JStr(Processing))
      && confirmed[reference].transactionCode == Some(JStr("ABC123"))
      && confirmed[reference].phone == Some(JStr("254712345678"))
      && confirmed[reference].amount == Some(JNum(500))
  {
    var reply := Replied(Some(JBool(true)), None, None);
    var out := Initiate(phone, Some(500), None, reference, errorReference, reply, now);
    InitialReceiptContents(phone, Some(500), None, reference, errorReference, reply, now);
    var paid := AfterPay(map[], out);
    var n := Notification(Some(JStr(reference)), Some(JStr("completed")), Some(JBool(true)), None, None,
      Some(ResultBody(Some(JNum(0)), None, Some(JNum(500)), None, None, None, None, None, Some(JStr("ABC123")))));
    assert Confirms(n);
    assert CallbackKey(n) == reference;
    assert AfterCallback(paid, n, later) == paid[reference := Confirmed(paid[reference], n, later)];
  }
}
