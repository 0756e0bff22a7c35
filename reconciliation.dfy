/**
 * The `/callback` handler's receipt state machine: given the stored record
 * (or `{}`) and the aggregator's notification, the record that replaces it.
 */
module Reconciliation {
  import opened Wrappers
  import opened JsValues
  import opened Receipts

  /** `data.result`: the nested result object of a notification. */
  datatype ResultBody = ResultBody(
    resultCode: Field,          // ResultCode
    resultDesc: Field,          // ResultDesc
    amount: Field,              // Amount
    phone: Field,               // Phone
    name: Field,                // Name
    firstName: Field,           // FirstName
    middleName: Field,          // MiddleName
    lastName: Field,            // LastName
    mpesaReceiptNumber: Field)  // MpesaReceiptNumber

  /**
   * The notification body, decoded tolerantly: every property may be absent.
   * `result` is `None` when `data.result` is missing, `null` or not an object,
   * since then every `data.result?.X` is `undefined`.
   */
  datatype Notification = Notification(
    externalReference: Field,   // external_reference
    status: Field,              // status
    success: Field,             // success
    transactionId: Field,       // transaction_id
    timestamp: Field,           // timestamp
    result: Option<ResultBody>) // result

  const NoResult := ResultBody(None, None, None, None, None, None, None, None, None)

  /** `data.result?.…` reads from this. */
  function Result(n: Notification): ResultBody {
    n.result.GetOr(NoResult)
  }

  /** The outcome of `data.status?.toLowerCase()`. */
  datatype StatusRead = NoStatus | Lowered(s: string) | NotAString

  function ReadStatus(status: Field): (r: StatusRead)
    ensures r == NotAString <==> status.Some? && (status.value.JBool? || status.value.JNum?)
    ensures r.Lowered? ==> status.Some? && status.value.JStr? && |r.s| == |status.value.s|
    ensures status.Some? && status.value.JStr? ==> r == Lowered(Lower(status.value.s))
  {
    match status
    case None => NoStatus
    case Some(JNull) => NoStatus
    case Some(JStr(s)) => Lowered(Lower(s))
    case Some(_) => NotAString  // `toLowerCase` is not a function: the handler throws
  }

  /** The strict-equality success test of the callback. */
  predicate Confirms(n: Notification) {
    (ReadStatus(n.status) == Lowered("completed") && n.success == Some(JBool(true)))
    || Result(n).resultCode == Some(JNum(0))
  }

  // ---- the customer name ----------------------------------------------------

  /** `.filter(Boolean)` */
  function Truthies(vs: seq<Field>): (ts: seq<Field>)
    ensures forall i :: 0 <= i < |ts| ==> Truthy(ts[i])
    ensures |vs| == 1 ==> ts == (if Truthy(vs[0]) then vs else [])
  {
    if vs == [] then []
    else (if Truthy(vs[0]) then [vs[0]] else []) + Truthies(vs[1..])
  }

  /** Filtering distributes over concatenation: every truthy part is kept, in order. */
  lemma {:induction false} TruthiesAppend(a: seq<Field>, b: seq<Field>)
    ensures Truthies(a + b) == Truthies(a) + Truthies(b)
  {
    if a != [] {
      assert (a + b)[1..] == a[1..] + b;
      TruthiesAppend(a[1..], b);
    } else {
      assert a + b == b;
    }
  }

  /**
   * `.join(sep)` over truthy parts. JavaScript prints `null` and `undefined`
   * elements as `""`, which `Text` does not; `Join` is only applied to the
   * output of `Truthies`, which has neither.
   */
  function Join(vs: seq<Field>, sep: string): string {
    if vs == [] then ""
    else if |vs| == 1 then Text(vs[0])
    else Text(vs[0]) + sep + Join(vs[1..], sep)
  }

  /** `[FirstName, MiddleName, LastName].filter(Boolean).join(" ")` */
  function JoinedNames(n: Notification): string {
    var r := Result(n);
    Join(Truthies([r.firstName, r.middleName, r.lastName]), " ")
  }

  /** The joined parts are empty exactly when every part is falsy. */
  lemma {:induction false} JoinedEmpty(vs: seq<Field>)
    ensures Join(Truthies(vs), " ") == "" <==> forall i :: 0 <= i < |vs| ==> !Truthy(vs[i])
  {
    if vs != [] {
      JoinedEmpty(vs[1..]);
      var ts := Truthies(vs);
      if Truthy(vs[0]) {
        TruthyTextNonEmpty(vs[0]);
        assert ts[0] == vs[0];
        assert |Join(ts, " ")| >= |Text(vs[0])|;
      } else {
        assert ts == Truthies(vs[1..]);
        assert forall i :: 1 <= i < |vs| ==> vs[i] == vs[1..][i - 1];
      }
    }
  }

  /**
   * `Name || joined names || existingReceipt.customer_name || "N/A"`: the
   * full name, else the non-empty name parts, else the name already on
   * record, else "N/A". The result is never falsy.
   */
  function CustomerName(n: Notification, existing: Receipt): (name: Json)
    ensures var r := Result(n);
      && Truthy(Some(name))
      && (Truthy(r.name) ==> name == r.name.value)
      && (!Truthy(r.name) && (Truthy(r.firstName) || Truthy(r.middleName) || Truthy(r.lastName))
          ==> name == JStr(JoinedNames(n)))
      && (!Truthy(r.name) && !Truthy(r.firstName) && !Truthy(r.middleName) && !Truthy(r.lastName)
          ==> name == OrElse(existing.customerName, JStr(NotAvailable)))
  {
    var r := Result(n);
    var parts := [r.firstName, r.middleName, r.lastName];
    JoinedEmpty(parts);
    assert parts[0] == r.firstName && parts[1] == r.middleName && parts[2] == r.lastName;
    OrElse(Or(Or(r.name, Some(JStr(JoinedNames(n)))), existing.customerName), JStr(NotAvailable))
  }

  // ---- the failure note -----------------------------------------------------

  /**
   * `ResultDesc || "Payment failed or was cancelled."`, replaced for the
   * three known codes: each of them gives its own fixed note, and any other
   * code gives the aggregator's description, or the generic note when there
   * is none.
   */
  function FailureNote(n: Notification): (note: Note)
    ensures var code := Result(n).resultCode;
      && (code == Some(JNum(1032)) <==> note == Fixed(UserCancelled))
      && (code == Some(JNum(1037)) <==> note == Fixed(PinTimeout))
      && (code == Some(JNum(2001)) <==> note == Fixed(InsufficientBalance))
      && (code !in {Some(JNum(1032)), Some(JNum(1037)), Some(JNum(2001))} ==>
            note == if Truthy(Result(n).resultDesc) then Described(Result(n).resultDesc.value) else Fixed(PaymentFailed))
  {
    var code := Result(n).resultCode;
    if code == Some(JNum(UserCancelledCode)) then Fixed(UserCancelled)
    else if code == Some(JNum(TimeoutCode)) then Fixed(PinTimeout)
    else if code == Some(JNum(InsufficientBalanceCode)) then Fixed(InsufficientBalance)
    else if Truthy(Result(n).resultDesc) then Described(Result(n).resultDesc.value)
    else Fixed(PaymentFailed)
  }

  // ---- the transition -------------------------------------------------------

  /** The record the success branch writes: `{...existingReceipt, …}`. */
  function Confirmed(existing: Receipt, n: Notification, now: string): Receipt {
    var r := Result(n);
    Receipt(
      reference := n.externalReference,
      transactionId := n.transactionId,
      transactionCode := Or(r.mpesaReceiptNumber, Some(JNull)),
      amount := Or(r.amount, existing.amount),
      loanAmount := Some(OrElse(existing.loanAmount, JStr(DefaultLoanAmount))),
      phone := Or(r.phone, existing.phone),
      customerName := Some(CustomerName(n, existing)),
      status := Some(JStr(Processing)),
      statusNote := Some(Fixed(FundsReserved(Text(n.externalReference)))),
      timestamp := Or(n.timestamp, Some(JStr(now))),
      others := existing.others)
  }

  /** The record the failure branch writes: a fresh object literal. */
  function Refused(existing: Receipt, n: Notification, now: string): Receipt {
    var r := Result(n);
    Receipt(
      reference := n.externalReference,
      transactionId := n.transactionId,
      transactionCode := Some(JNull),
      amount := Or(Or(r.amount, existing.amount), Some(JNull)),
      loanAmount := Some(OrElse(existing.loanAmount, JStr(DefaultLoanAmount))),
      phone := Or(Or(r.phone, existing.phone), Some(JNull)),
      customerName := Some(CustomerName(n, existing)),
      status := Some(JStr(Cancelled)),
      statusNote := Some(FailureNote(n)),
      timestamp := Or(n.timestamp, Some(JStr(now))),
      others := map[])
  }

  /**
   * The record `/callback` writes over `existing` (the stored record, or
   * `EmptyReceipt` for none), or `None` when the handler throws before writing.
   * `now` is `new Date().toISOString()`.
   */
  function Reconcile(existing: Receipt, n: Notification, now: string): (r: Option<Receipt>)
    // the only failure is a status that is neither a string nor null/undefined
    ensures r.None? <==> ReadStatus(n.status) == NotAString
    // which state results
    ensures r.Some? ==> r.value.status == Some(JStr(if Confirms(n) then Processing else Cancelled))
    // always recorded under the notification's reference, with its transaction id
    ensures r.Some? ==> r.value.reference == n.externalReference && r.value.transactionId == n.transactionId
    // the loan amount is kept, or defaulted
    ensures r.Some? ==> r.value.loanAmount == Some(OrElse(existing.loanAmount, JStr(DefaultLoanAmount)))
    // the success path keeps unknown properties; the failure path drops them and the transaction code
    ensures r.Some? && Confirms(n) ==> r.value.others == existing.others
    ensures r.Some? && !Confirms(n) ==> r.value.others == map[] && r.value.transactionCode == Some(JNull)
    // amount and phone fall back to the stored ones
    ensures r.Some? && Truthy(Result(n).amount) ==> r.value.amount == Result(n).amount
    ensures r.Some? && !Truthy(Result(n).amount) && Truthy(existing.amount) ==> r.value.amount == existing.amount
    ensures r.Some? && Truthy(Result(n).phone) ==> r.value.phone == Result(n).phone
    ensures r.Some? && !Truthy(Result(n).phone) && Truthy(existing.phone) ==> r.value.phone == existing.phone
    // when neither value is truthy: the stored one on success, `null` on failure
    ensures r.Some? && !Truthy(Result(n).amount) && !Truthy(existing.amount) ==>
      r.value.amount == if Confirms(n) then existing.amount else Some(JNull)
    ensures r.Some? && !Truthy(Result(n).phone) && !Truthy(existing.phone) ==>
      r.value.phone == if Confirms(n) then existing.phone else Some(JNull)
    // the customer name chain, and the notification's time or the handler's
    ensures r.Some? ==> r.value.customerName == Some(CustomerName(n, existing))
    ensures r.Some? ==> r.value.timestamp == Or(n.timestamp, Some(JStr(now)))
    // the confirmation code and the notes
    ensures r.Some? && Confirms(n) ==> r.value.transactionCode == Or(Result(n).mpesaReceiptNumber, Some(JNull))
    ensures r.Some? && Confirms(n) ==> r.value.statusNote == Some(Fixed(FundsReserved(Text(n.externalReference))))
    ensures r.Some? && !Confirms(n) ==> r.value.statusNote == Some(FailureNote(n))
    // no property is held twice
    ensures r.Some? && WellFormed(existing) ==> WellFormed(r.value)
  {
    if ReadStatus(n.status) == NotAString then None
    else if Confirms(n) then Some(Confirmed(existing, n, now))
    else Some(Refused(existing, n, now))
  }

  /**
   * Redelivery: handling a notification a second time, on the record the
   * first delivery wrote, gives what a single delivery at the later time
   * gives. Nothing accumulates across deliveries.
   */
  lemma RedeliveryIsSingleDelivery(existing: Receipt, n: Notification, first: string, second: string)
    requires Reconcile(existing, n, first).Some?
    ensures Reconcile(Reconcile(existing, n, first).value, n, second) == Reconcile(existing, n, second)
  {
    var once := Reconcile(existing, n, first).value;
    assert CustomerName(n, once) == CustomerName(n, existing);
  }

  /** A notification that carries its own timestamp writes the same record whenever it is handled. */
  lemma TimestampedNotificationIsDeterministic(existing: Receipt, n: Notification, first: string, second: string)
    requires Truthy(n.timestamp)
    ensures Reconcile(existing, n, first) == Reconcile(existing, n, second)
  {
  }

  /**
   * The success test compares strictly: a `success` that is merely truthy,
   * or a result code that is the string "0", does not confirm a payment.
   */
  lemma ConfirmationIsStrict(n: Notification)
    requires n.success != Some(JBool(true))
    requires Result(n).resultCode != Some(JNum(0))
    ensures !Confirms(n)
  {
  }

  /** A completed status, in any letter case, confirms only together with `success === true` or result code 0. */
  lemma CompletedConfirms(n: Notification)
    requires n.status.Some? && n.status.value.JStr? && Lower(n.status.value.s) == "completed"
    ensures n.success == Some(JBool(true)) ==> Confirms(n)
    ensures n.success != Some(JBool(true)) ==> (Confirms(n) <==> Result(n).resultCode == Some(JNum(0)))
  {
  }
}
