/**
 * The `/pay` handler without its HTTP and I/O: validation, the initial
 * receipt, and which reference it is stored under.
 */
module Initiation {
  import opened Wrappers
  import opened JsValues
  import opened Receipts
  import opened Phone

  /** What the call to the aggregator produced. */
  datatype AggregatorReply =
    /** `resp.data`: its `success`, `transaction_id` and `error` properties */
    | Replied(success: Field, transactionId: Field, error: Field)
    /** The call threw; `message` is `err.response?.data?.error || err.message`. */
    | Threw(message: Field)

  datatype Rejection = InvalidPhone | InvalidAmount

  /** The handler's outcome: rejected before anything happens, or a receipt stored under `reference`. */
  datatype PayOutcome =
    | Rejected(reason: Rejection)
    | Sent(reference: string, receipt: Receipt)
    | StkRefused(reference: string, receipt: Receipt, error: Json)
    | Errored(reference: string, receipt: Receipt, error: Json)

  /** The amount as a JavaScript value; it arrives already rounded. */
  function AmountField(amount: Option<int>): Field {
    match amount
    case None => None
    case Some(a) => Some(JNum(a))
  }

  /** `!amount || amount < 1` */
  predicate AmountRejected(amount: Option<int>) {
    !Truthy(AmountField(amount)) || amount.value < 1
  }

  /** The ten-property object literal each branch of `/pay` stores; every value is defined. */
  function InitialReceipt(reference: string, transactionId: Json, amount: Json, loanAmount: Field,
                          phone: Json, status: string, note: Message, now: string): Receipt
  {
    Receipt(
      reference := Some(JStr(reference)),
      transactionId := Some(transactionId),
      transactionCode := Some(JNull),
      amount := Some(amount),
      loanAmount := Some(OrElse(loanAmount, JStr(DefaultLoanAmount))),
      phone := Some(phone),
      customerName := Some(JStr(NotAvailable)),
      status := Some(JStr(status)),
      statusNote := Some(Fixed(note)),
      timestamp := Some(JStr(now)),
      others := map[])
  }

  /** `formattedPhone` as a JavaScript value: the string, or `null`. */
  function PhoneValue(formatted: Option<string>): Json {
    match formatted
    case Some(p) => JStr(p)
    case None => JNull
  }

  /**
   * One `/pay` request. `reference` and `errorReference` are the two
   * `"ORDER-" + Date.now()` values the try and catch blocks generate, and
   * `now` is `new Date().toISOString()`.
   */
  function Initiate(phone: string, amount: Option<int>, loanAmount: Field, reference: string,
                    errorReference: string, reply: AggregatorReply, now: string): (out: PayOutcome)
    // validation happens before the aggregator is called
    ensures out.Rejected? <==> FormatPhone(phone).None? || amount.None? || amount.value < 1
    ensures out == Rejected(InvalidPhone) <==> FormatPhone(phone).None?
    // which initial state
    ensures out.Sent? <==> !out.Rejected? && reply.Replied? && Truthy(reply.success)
    ensures out.StkRefused? <==> !out.Rejected? && reply.Replied? && !Truthy(reply.success)
    ensures out.Errored? <==> !out.Rejected? && reply.Threw?
    ensures out.Errored? ==> out.reference == errorReference
    ensures out.Sent? || out.StkRefused? ==> out.reference == reference
  {
    var formatted := FormatPhone(phone);
    if formatted.None? then
      Rejected(InvalidPhone)
    else if AmountRejected(amount) then
      Rejected(InvalidAmount)
    else
      match reply
      case Replied(success, transactionId, error) =>
        var tid := OrElse(transactionId, JNull);
        if Truthy(success) then
          Sent(reference, InitialReceipt(reference, tid, JNum(amount.value), loanAmount,
                                         JStr(formatted.value), Pending, StkSent(formatted.value), now))
        else
          StkRefused(reference, InitialReceipt(reference, tid, JNum(amount.value), loanAmount,
                                               JStr(formatted.value), StkFailed, StkNotSent, now),
                     OrElse(error, JStr("Failed to initiate payment")))
      case Threw(message) =>
        // the catch block recomputes the phone and guards the amount again
        var errorAmount := if Truthy(AmountField(amount)) then JNum(amount.value) else JNull;
        Errored(errorReference, InitialReceipt(errorReference, JNull, errorAmount, loanAmount,
                                               PhoneValue(FormatPhone(phone)), Error, SystemError, now),
                OrElse(message, JStr("Server error")))
  }

  /**
   * Every stored initial receipt carries all ten properties: the
   * aggregator's transaction id (`null` if none, and always on the error
   * path), no transaction code yet, no customer name, the supplied loan
   * amount or the default, the normalised phone, the amount, and the state
   * matching the outcome.
   */
  lemma InitialReceiptContents(phone: string, amount: Option<int>, loanAmount: Field, reference: string,
                               errorReference: string, reply: AggregatorReply, now: string)
    requires !Initiate(phone, amount, loanAmount, reference, errorReference, reply, now).Rejected?
    ensures var out := Initiate(phone, amount, loanAmount, reference, errorReference, reply, now);
      var r := out.receipt;
      && r.reference == Some(JStr(out.reference))
      && r.status == Some(JStr(if out.Sent? then Pending else if out.StkRefused? then StkFailed else Error))
      && r.transactionCode == Some(JNull)
      && r.customerName == Some(JStr(NotAvailable))
      && r.loanAmount == Some(if Truthy(loanAmount) then loanAmount.value else JStr(DefaultLoanAmount))
      && r.phone == Some(JStr(FormatPhone(phone).value))
      && r.amount == Some(JNum(amount.value))
      && r.timestamp == Some(JStr(now))
      && r.others == map[]
      && r.statusNote == Some(Fixed(if out.Sent? then StkSent(FormatPhone(phone).value)
                                    else if out.StkRefused? then StkNotSent else SystemError))
      && (out.Errored? ==> r.transactionId == Some(JNull))
      && (out.Sent? || out.StkRefused? ==> r.transactionId == Some(OrElse(reply.transactionId, JNull)))
  {
  }

  /** Whether `/pay` is rejected does not depend on the aggregator: it is decided before the call. */
  lemma RejectionPrecedesCall(phone: string, amount: Option<int>, loanAmount: Field, reference: string,
                              errorReference: string, reply: AggregatorReply, other: AggregatorReply, now: string)
    requires Initiate(phone, amount, loanAmount, reference, errorReference, reply, now).Rejected?
    ensures Initiate(phone, amount, loanAmount, reference, errorReference, other, now)
         == Initiate(phone, amount, loanAmount, reference, errorReference, reply, now)
  {
  }
}
