/** Python's `int()` applied to the text of a `-?\d+` capture: an optional minus
    sign and a non-empty run of ASCII decimal digits, leading zeros allowed. */
module PyInt {
  import opened PyRegex

  function DigitValue(c: char): (v: nat)
    requires IsDigit(c)
    ensures v < 10
  {
    (c as int) - ('0' as int)
  }

  function DigitChar(v: nat): (c: char)
    requires v < 10
    ensures IsDigit(c) && DigitValue(c) == v
  {
    (('0' as int) + v) as char
  }

  /** The base-10 value of a run of digits, most significant digit first. */
  function DecimalValue(d: string): nat
    requires AllDigits(d)
  {
    if d == [] then 0 else 10 * DecimalValue(d[..|d| - 1]) + DigitValue(d[|d| - 1])
  }

  /** A run of digits has value 0 exactly when every digit is '0'. */
  lemma {:induction false} DecimalZero(d: string)
    requires AllDigits(d)
    ensures DecimalValue(d) == 0 <==> forall i :: 0 <= i < |d| ==> d[i] == '0'
  {
    if d != [] {
      var init := d[..|d| - 1];
      DecimalZero(init);
      assert forall i :: 0 <= i < |init| ==> init[i] == d[i];
    }
  }

  /** `int(w)` for a string that `-?\d+` matches: a minus sign makes the value
      non-positive, its absence non-negative, and the value is 0 exactly when
      every digit is '0' (so "-0" and "000" both read as 0). */
  function IntOf(w: string): (r: int)
    requires Accepts(Integer, w)
    ensures w[0] == '-' ==> r <= 0
    ensures w[0] != '-' ==> r >= 0
    ensures r == 0 <==> forall i :: 0 <= i < |Magnitude(w)| ==> Magnitude(w)[i] == '0'
  {
    var m: int := DecimalValue(Magnitude(w));
    DecimalZero(Magnitude(w));
    if w[0] == '-' then -m else m
  }

  /** The shortest decimal numeral of `n`. */
  function Decimal(n: nat): (d: string)
    ensures |d| >= 1 && AllDigits(d)
  {
    if n < 10 then [DigitChar(n)] else Decimal(n / 10) + [DigitChar(n % 10)]
  }

  /** The numeral Python's `str` prints for an integer. */
  function Numeral(n: int): (w: string)
    ensures Accepts(Integer, w)
  {
    if n < 0 then "-" + Decimal(-n) else Decimal(n)
  }

  lemma {:induction false} DecimalRoundTrip(n: nat)
    ensures DecimalValue(Decimal(n)) == n
  {
    var d := Decimal(n);
    if n >= 10 {
      DecimalRoundTrip(n / 10);
      assert d[..|d| - 1] == Decimal(n / 10);
    }
  }

  /** Every integer survives printing and reading back: the value `int()` reads
      from a capture is the integer its numeral denotes. */
  lemma NumeralRoundTrip(n: int)
    ensures IntOf(Numeral(n)) == n
  {
    if n < 0 {
      DecimalRoundTrip(-n);
      assert Numeral(n)[1..] == Decimal(-n);
    } else {
      DecimalRoundTrip(n);
    }
  }

  /** A leading zero does not change the value read, so "-007" reads as -7. */
  lemma {:induction false} LeadingZero(d: string)
    requires AllDigits(d)
    ensures DecimalValue("0" + d) == DecimalValue(d)
  {
    if d != [] {
      assert ("0" + d)[..|d|] == "0" + d[..|d| - 1];
      LeadingZero(d[..|d| - 1]);
    }
  }
}
