/**
 * The JavaScript values the receipt core manipulates: JSON scalars, the
 * truthiness that `||` and `if (x)` test, the `String(x)` conversion that
 * template literals and `Array.prototype.join` apply, and ASCII case mapping.
 */
module JsValues {
  import opened Wrappers

  /**
   * A JSON scalar. Numbers are modelled as whole numbers; fractional numbers
   * (such as an unrounded callback `Amount`) and numbers large enough for
   * `String(n)` to use exponent form are out of scope.
   */
  datatype Json = JNull | JBool(b: bool) | JNum(n: int) | JStr(s: string)

  /** A property read from a JavaScript object: `None` is `undefined`. */
  type Field = Option<Json>

  /** JavaScript truthiness: `undefined`, `null`, `false`, `0` and `""` are falsy. */
  predicate Truthy(v: Field) {
    match v
    case None => false
    case Some(JNull) => false
    case Some(JBool(b)) => b
    case Some(JNum(n)) => n != 0
    case Some(JStr(s)) => s != ""
  }

  /** `a || b` */
  function Or(a: Field, b: Field): Field {
    if Truthy(a) then a else b
  }

  /** `a || d` where the fallback `d` is a definite value. */
  function OrElse(a: Field, d: Json): Json {
    if Truthy(a) then a.value else d
  }

  // ---- String(x) -------------------------------------------------------

  predicate IsDigit(c: char) {
    '0' <= c <= '9'
  }

  predicate AllDigits(s: string) {
    forall i :: 0 <= i < |s| ==> IsDigit(s[i])
  }

  function DigitChar(d: nat): (c: char)
    requires d < 10
    ensures IsDigit(c)
  {
    "0123456789"[d]
  }

  function DigitValue(c: char): (d: nat)
    requires IsDigit(c)
    ensures d < 10 && DigitChar(d) == c
  {
    (c as int) - ('0' as int)
  }

  /** The number a string of decimal digits denotes. */
  function DecimalValue(s: string): nat
    requires AllDigits(s)
  {
    if s == [] then 0 else 10 * DecimalValue(s[..|s| - 1]) + DigitValue(s[|s| - 1])
  }

  /** The decimal numeral JavaScript prints for a non-negative whole number. */
  function NatToString(n: nat): (s: string)
    ensures |s| > 0 && AllDigits(s)
    ensures |s| > 1 ==> s[0] != '0'
  {
    if n < 10 then [DigitChar(n)] else NatToString(n / 10) + [DigitChar(n % 10)]
  }

  /** Printing a number and reading it back gives the number. */
  lemma {:induction false} NatToStringRoundTrip(n: nat)
    ensures DecimalValue(NatToString(n)) == n
  {
    var s := NatToString(n);
    if n >= 10 {
      NatToStringRoundTrip(n / 10);
      assert s[..|s| - 1] == NatToString(n / 10);
    }
  }

  /** `String(n)` for a whole number. */
  function IntToString(n: int): string {
    if n < 0 then "-" + NatToString(-n) else NatToString(n)
  }

  /** `String(v)`, which template literals and `join` apply to each value. */
  function Text(v: Field): string {
    match v
    case None => "undefined"
    case Some(JNull) => "null"
    case Some(JBool(b)) => if b then "true" else "false"
    case Some(JNum(n)) => IntToString(n)
    case Some(JStr(s)) => s
  }

  /** A truthy value never prints as the empty string. */
  lemma TruthyTextNonEmpty(v: Field)
    requires Truthy(v)
    ensures Text(v) != ""
  {
    match v
    case Some(JNum(n)) =>
      assert |IntToString(n)| > 0;
    case _ =>
  }

  // ---- ASCII case mapping -------------------------------------------------

  function LowerChar(c: char): char {
    if 'A' <= c <= 'Z' then (c as int + 32) as char else c
  }

  function UpperChar(c: char): char {
    if 'a' <= c <= 'z' then (c as int - 32) as char else c
  }

  /** `s.toLowerCase()`, on ASCII letters. */
  function Lower(s: string): string {
    seq(|s|, i requires 0 <= i < |s| => LowerChar(s[i]))
  }

  /** `s.toUpperCase()`, on ASCII letters. */
  function Upper(s: string): string {
    seq(|s|, i requires 0 <= i < |s| => UpperChar(s[i]))
  }
}
