/** The Kenyan phone-number normaliser `formatPhone`. */
module Phone {
  import opened Wrappers
  import opened JsValues

  /** `phone.replace(/\D/g, "")`: the digits of `s`, in order. */
  function Digits(s: string): (d: string)
    ensures AllDigits(d)
    ensures |d| <= |s|
    ensures |s| == 1 ==> d == (if IsDigit(s[0]) then s else [])
  {
    if s == [] then [] else (if IsDigit(s[0]) then [s[0]] else []) + Digits(s[1..])
  }

  /** Stripping works character by character: every digit is kept, in order. */
  lemma {:induction false} DigitsAppend(s: string, t: string)
    ensures Digits(s + t) == Digits(s) + Digits(t)
  {
    if s != [] {
      calc {
        Digits(s + t);
        (if IsDigit(s[0]) then [s[0]] else []) + Digits((s + t)[1..]);
        { assert (s + t)[1..] == s[1..] + t; DigitsAppend(s[1..], t); }
        (if IsDigit(s[0]) then [s[0]] else []) + (Digits(s[1..]) + Digits(t));
        Digits(s) + Digits(t);
      }
    } else {
      assert s + t == t;
    }
  }

  /** A string made only of digits is left as it is. */
  lemma {:induction false} DigitsOfDigitString(s: string)
    requires AllDigits(s)
    ensures Digits(s) == s
  {
    if s != [] {
      DigitsOfDigitString(s[1..]);
    }
  }

  /**
   * Maps the three accepted forms (`7XXXXXXXX`, `07XXXXXXXX`, `2547XXXXXXXX`
   * and the like) to the canonical twelve-digit `254…` form, or `None` (`null`).
   * Every result is twelve digits starting with the country code, and its last
   * nine digits are the last nine digits of the input.
   */
  function FormatPhone(phone: string): (r: Option<string>)
    ensures r.Some? ==> |r.value| == 12 && AllDigits(r.value) && "254" <= r.value
    ensures r.Some? ==> |Digits(phone)| >= 9 && r.value[3..] == Digits(phone)[|Digits(phone)| - 9..]
  {
    var digits := Digits(phone);
    if |digits| == 9 && "7" <= digits then Some("254" + digits)
    else if |digits| == 10 && "07" <= digits then Some("254" + digits[1..])
    else if |digits| == 12 && "254" <= digits then Some(digits)
    else None
  }

  /** Which inputs are accepted, and what each accepted form becomes. */
  lemma FormatPhoneAccepts(phone: string)
    ensures var d := Digits(phone);
      FormatPhone(phone).Some? <==>
        (|d| == 9 && d[0] == '7') || (|d| == 10 && d[..2] == "07") || (|d| == 12 && d[..3] == "254")
    ensures var d := Digits(phone);
      |d| == 10 && d[..2] == "07" ==> FormatPhone(phone) == Some("254" + d[1..])
  {
    var d := Digits(phone);
    assert |d| >= 1 ==> ("7" <= d <==> d[0] == '7');
    assert |d| >= 2 ==> ("07" <= d <==> d[..2] == "07");
    assert |d| >= 3 ==> ("254" <= d <==> d[..3] == "254");
  }

  /** Normalising an already normalised number changes nothing. */
  lemma FormatPhoneIdempotent(phone: string)
    requires FormatPhone(phone).Some?
    ensures FormatPhone(FormatPhone(phone).value) == FormatPhone(phone)
  {
    DigitsOfDigitString(FormatPhone(phone).value);
  }

  /** Example: the local number `0712345678` gains the country code and loses its leading `0`. */
  lemma LocalNumberExample(local: string)
    requires local == "0712345678"
    ensures FormatPhone(local) == Some("254712345678")
  {
    assert AllDigits(local) by {
      forall i | 0 <= i < |local| ensures IsDigit(local[i]) {
      }
    }
    DigitsOfDigitString(local);
    assert local[..2] == "07";
    assert "254" + local[1..] == "254712345678";
  }

  /** Example: `abc` has no digits and is refused. */
  lemma NoDigitsExample(text: string)
    requires text == "abc"
    ensures FormatPhone(text) == None
  {
    assert Digits(text[2..]) == [];
    assert Digits(text[1..]) == [];
  }
}
