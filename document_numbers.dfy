/**
 * The random document numbers of the quotation creator ("QT...") and the
 * receipt builder ("RC..."), with the random draw passed in.
 */
module DocumentNumbers {
  /** The number a string of decimal digits denotes, read left to right. */
  function DigitsValue(s: string): nat
    requires forall k :: 0 <= k < |s| ==> '0' <= s[k] <= '9'
  {
    if s == [] then 0
    else 10 * DigitsValue(s[..|s| - 1]) + (s[|s| - 1] as int - '0' as int)
  }

  /** The decimal numeral of `n`, most significant digit first: a non-empty
      string of digits that denotes `n`. */
  function DecimalDigits(n: nat): (r: string)
    ensures |r| >= 1
    ensures forall k :: 0 <= k < |r| ==> '0' <= r[k] <= '9'
    ensures DigitsValue(r) == n
  {
    if n < 10 then
      var r := [('0' as int + n) as char];
      assert r[..0] == [];
      r
    else
      var front := DecimalDigits(n / 10);
      var r := front + [('0' as int + n % 10) as char];
      assert r[..|r| - 1] == front;
      r
  }

  function Power10(w: nat): (p: nat)
    ensures p >= 1
  {
    if w == 0 then 1 else 10 * Power10(w - 1)
  }

  /** A number with w + 1 digits is written with w + 1 characters. */
  lemma {:induction false} DecimalDigitsLength(n: nat, w: nat)
    requires Power10(w) <= n < 10 * Power10(w)
    ensures |DecimalDigits(n)| == w + 1
  {
    if w > 0 {
      var p := Power10(w - 1);
      assert 10 * p <= n < 100 * p;
      assert p <= n / 10 < 10 * p;
      DecimalDigitsLength(n / 10, w - 1);
    }
  }

  /** A document number drawn with `random` from [0, 1): `prefix` followed
      by the six digits of `floor(100000 + random * 900000)`, a number from
      100000 to 999999. */
  function DocumentNumber(prefix: string, random: real): (r: string)
    requires 0.0 <= random < 1.0
    ensures |r| == |prefix| + 6 && r[..|prefix|] == prefix
    ensures forall k :: |prefix| <= k < |r| ==> '0' <= r[k] <= '9'
    ensures r[|prefix|] != '0'
    ensures DigitsValue(r[|prefix|..]) == (100000.0 + random * 900000.0).Floor
  {
    var n := (100000.0 + random * 900000.0).Floor;
    assert 100000 <= n < 1000000;
    assert Power10(5) == 100000;
    DecimalDigitsLength(n, 5);
    LeadingDigitNonZero(n);
    var r := prefix + DecimalDigits(n);
    assert r[|prefix|..] == DecimalDigits(n);
    r
  }

  /** A positive number's numeral does not start with 0. */
  lemma {:induction false} LeadingDigitNonZero(n: nat)
    requires n > 0
    ensures DecimalDigits(n)[0] != '0'
  {
    if n >= 10 {
      LeadingDigitNonZero(n / 10);
    }
  }

  /** `generateReceiptNumber`. */
  function ReceiptNumber(random: real): (r: string)
    requires 0.0 <= random < 1.0
    ensures |r| == 8 && r[..2] == "RC"
  {
    DocumentNumber("RC", random)
  }

  /** `generateReferenceNumber` of the quotation creator. */
  function QuotationNumber(random: real): (r: string)
    requires 0.0 <= random < 1.0
    ensures |r| == 8 && r[..2] == "QT"
  {
    DocumentNumber("QT", random)
  }
}
