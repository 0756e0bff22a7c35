/**
 * The read-only view of a receipt that `generateReceiptPDF` draws: the
 * header and watermark style picked by status, and the detail lines with
 * their "N/A" fallbacks. Page geometry, fonts and streaming are not modelled.
 */
module Projection {
  import opened Wrappers
  import opened JsValues
  import opened Receipts

  /** The colours and watermark the document uses. */
  datatype Style = Style(headerColor: string, watermarkText: string, watermarkColor: string)

  const Blue := "#2196F3"
  const Red := "#f44336"
  const Orange := "#ff9800"
  const Green := "#4caf50"

  /** The initial values of the three style variables, kept for an unknown status. */
  const DefaultStyle := Style(Blue, "", "green")

  /** A status that the document marks as failed. */
  predicate IsFailedStatus(s: string) {
    s in {Cancelled, Error, StkFailed}
  }

  /** The `if … else if` chain over `receipt.status`. */
  function StyleFor(status: Field): (st: Style)
    ensures st.watermarkText != "" <==> status.Some? && status.value.JStr? && KnownStatus(status.value.s)
    ensures st.watermarkText == "FAILED" <==> status.Some? && status.value.JStr? && IsFailedStatus(status.value.s)
    ensures st.headerColor == Red <==> st.watermarkText == "FAILED"
    ensures st.watermarkText == "" ==> st == DefaultStyle
    ensures status == Some(JStr(Success)) ==> st == Style(Blue, "PAID", "green")
    ensures status.Some? && status.value.JStr? && IsFailedStatus(status.value.s) ==> st == Style(Red, "FAILED", "red")
    ensures status == Some(JStr(Pending)) ==> st == Style(Orange, "PENDING", "gray")
    ensures status == Some(JStr(Processing)) ==> st == Style(Blue, "PROCESSING - FUNDS RESERVED", "blue")
    ensures status == Some(JStr(LoanReleased)) ==> st == Style(Green, "RELEASED", "green")
  {
    if status == Some(JStr(Success)) then Style(Blue, "PAID", "green")
    else if status.Some? && status.value.JStr? && IsFailedStatus(status.value.s) then Style(Red, "FAILED", "red")
    else if status == Some(JStr(Pending)) then Style(Orange, "PENDING", "gray")
    else if status == Some(JStr(Processing)) then Style(Blue, "PROCESSING - FUNDS RESERVED", "blue")
    else if status == Some(JStr(LoanReleased)) then Style(Green, "RELEASED", "green")
    else DefaultStyle
  }

  /** One `[key, value]` line of the details table. */
  datatype Detail = Detail(key: string, value: Field)

  /**
   * Whether Node accepts `s` inside a header value: tab, the printable ASCII
   * characters and 0x80-0xFF. Any other character makes `setHeader` throw.
   */
  predicate HeaderSafe(s: string) {
    forall i :: 0 <= i < |s| ==> HeaderChar(s[i])
  }

  predicate HeaderChar(c: char) {
    c == '\t' || (' ' <= c <= '~') || ('\U{80}' <= c <= '\U{FF}')
  }

  /** The `Content-Disposition` value set before anything is drawn. */
  function Disposition(r: Receipt): string {
    "attachment; filename=receipt-" + Text(r.reference) + ".pdf"
  }

  /** The fixed parts of the header are safe, so only the reference can make it throw. */
  lemma DispositionSafe(r: Receipt)
    ensures HeaderSafe(Disposition(r)) <==> HeaderSafe(Text(r.reference))
  {
    var prefix, ref, suffix := "attachment; filename=receipt-", Text(r.reference), ".pdf";
    var d := prefix + ref + suffix;
    assert HeaderSafe(prefix) && HeaderSafe(suffix);
    if HeaderSafe(ref) {
      forall i | 0 <= i < |d|
        ensures HeaderChar(d[i])
      {
        if i < |prefix| {
          assert d[i] == prefix[i];
        } else if i < |prefix| + |ref| {
          assert d[i] == ref[i - |prefix|];
        } else {
          assert d[i] == suffix[i - |prefix| - |ref|];
        }
      }
    } else {
      var j :| 0 <= j < |ref| && !HeaderChar(ref[j]);
      assert d[|prefix| + j] == ref[j];
    }
  }

  /** What the document shows for one receipt. */
  datatype Document = Document(
    disposition: string,
    style: Style,
    details: seq<Detail>,
    note: Option<Json>,
    watermark: bool)

  /**
   * The document for a stored receipt, or `None` when drawing it throws:
   * `setHeader` fails on a file name with a character a header cannot carry,
   * and `receipt.status.toUpperCase()` fails on a status that is not a string.
   * The "Time" line carries the stored timestamp unformatted.
   */
  function Render(r: Receipt): (d: Option<Document>)
    ensures d.Some? <==> HeaderSafe(Text(r.reference)) && r.status.Some? && r.status.value.JStr?
    ensures d.Some? ==> |d.value.details| == 9
    ensures d.Some? ==> d.value.style == StyleFor(r.status)
    ensures d.Some? ==> (d.value.watermark <==> HasKnownStatus(r))
    ensures d.Some? ==> d.value.details[1].value == (if Truthy(r.transactionId) then r.transactionId else Some(JStr(NotAvailable)))
    ensures d.Some? ==> d.value.details[2].value == (if Truthy(r.transactionCode) then r.transactionCode else Some(JStr(NotAvailable)))
    ensures d.Some? ==> d.value.details[6].value == (if Truthy(r.customerName) then r.customerName else Some(JStr(NotAvailable)))
  {
    DispositionSafe(r);
    if !HeaderSafe(Disposition(r)) || r.status.None? || !r.status.value.JStr? then None
    else
      var style := StyleFor(r.status);
      Some(Document(
        disposition := Disposition(r),
        style := style,
        details := [
          Detail("Reference", r.reference),
          Detail("Transaction ID", Some(OrElse(r.transactionId, JStr(NotAvailable)))),
          Detail("Transaction Code", Some(OrElse(r.transactionCode, JStr(NotAvailable)))),
          Detail("Fee Amount", Some(JStr("KSH " + Text(r.amount)))),
          Detail("Loan Amount", Some(JStr("KSH " + Text(r.loanAmount)))),
          Detail("Phone", r.phone),
          Detail("Customer Name", Some(OrElse(r.customerName, JStr(NotAvailable)))),
          Detail("Status", Some(JStr(Upper(r.status.value.s)))),
          Detail("Time", r.timestamp)
        ],
        // `if (receipt.status_note)`
        note := if r.statusNote.Some? && Truthy(Some(NoteJson(r.statusNote.value))) then Some(NoteJson(r.statusNote.value)) else None,
        watermark := style.watermarkText != ""))
  }
}
