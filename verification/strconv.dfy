/** The parts of Go's `strconv` (and `fmt`'s `%d`) that the dashboard relies on:
    booleans as "true"/"false", decimal rendering of integers, and base-10 parsing
    with a bit-size range check. */
module Strconv {
  import opened Optionals

  /** Go's `int16`, the column type of a backup's retention days. */
  type Int16 = x: int | -0x8000 <= x < 0x8000

  /** `strconv.FormatBool`. */
  function FormatBool(b: bool): (s: string)
    ensures s == "true" || s == "false"
    ensures s == "true" <==> b
  {
    if b then "true" else "false"
  }

  predicate IsDigit(c: char) {
    '0' <= c <= '9'
  }

  predicate AllDigits(s: string) {
    forall i :: 0 <= i < |s| ==> IsDigit(s[i])
  }

  function DigitChar(d: nat): (c: char)
    requires d < 10
    ensures IsDigit(c) && DigitValue(c) == d
  {
    (('0' as int) + d) as char
  }

  function DigitValue(c: char): (d: nat)
    requires IsDigit(c)
    ensures d < 10
  {
    (c as int) - ('0' as int)
  }

  /** The decimal digits of `n`, most significant first, without leading zeros. */
  function FormatNat(n: nat): (s: string)
    ensures |s| >= 1 && AllDigits(s)
    ensures |s| > 1 ==> s[0] != '0'
    decreases n
  {
    if n < 10 then [DigitChar(n)] else FormatNat(n / 10) + [DigitChar(n % 10)]
  }

  /** `strconv.Itoa`, equally `fmt.Sprintf("%d", n)`: a minus sign for negatives, then the digits. */
  function Itoa(n: int): (s: string)
    ensures |s| >= 1
    ensures s[0] == '-' <==> n < 0
    ensures AllDigits(if n < 0 then s[1..] else s)
  {
    if n < 0 then "-" + FormatNat(-n) else FormatNat(n)
  }

  /** A number below ten renders as its single digit, as in the page numbers "1", "2", "3". */
  lemma ItoaDigit(n: int)
    requires 0 <= n < 10
    ensures Itoa(n) == [DigitChar(n)]
    ensures n == 1 ==> Itoa(n) == "1"
    ensures n == 2 ==> Itoa(n) == "2"
    ensures n == 3 ==> Itoa(n) == "3"
  {
  }

  /** The value of a string of decimal digits (the empty string reads as 0). */
  function DigitsValue(s: string): nat
    requires AllDigits(s)
  {
    if s == [] then 0 else DigitsValue(s[..|s| - 1]) * 10 + DigitValue(s[|s| - 1])
  }

  function Pow2(k: nat): (r: nat)
    ensures r >= 1
  {
    if k == 0 then 1 else 2 * Pow2(k - 1)
  }

  /** Success of `strconv.ParseInt(s, 10, bitSize)`: an optional sign, then at least one
      decimal digit and nothing else, whose value fits a signed `bitSize`-bit integer.
      Go reports a syntax or a range error otherwise; both become `None` here. */
  function ParseInt(s: string, bitSize: nat): (r: Option<int>)
    requires 1 <= bitSize <= 64
    ensures r.Some? ==> -(Pow2(bitSize - 1) as int) <= r.value < Pow2(bitSize - 1)
    ensures r.Some? ==> |s| >= 1 && (r.value < 0 ==> s[0] == '-')
  {
    var neg := |s| > 0 && s[0] == '-';
    var digits := if |s| > 0 && (s[0] == '+' || s[0] == '-') then s[1..] else s;
    if |digits| == 0 || !AllDigits(digits) then None
    else
      var v := if neg then -(DigitsValue(digits) as int) else DigitsValue(digits);
      if -(Pow2(bitSize - 1) as int) <= v < Pow2(bitSize - 1) then Some(v) else None
  }

  lemma {:induction false} DigitsValueOfFormatNat(n: nat)
    ensures DigitsValue(FormatNat(n)) == n
    decreases n
  {
    var s := FormatNat(n);
    if n >= 10 {
      DigitsValueOfFormatNat(n / 10);
      assert s[..|s| - 1] == FormatNat(n / 10);
    }
  }

  /** Parsing the decimal rendering of any value in range gives the value back. */
  lemma ParseIntItoa(n: int, bitSize: nat)
    requires 1 <= bitSize <= 64
    requires -(Pow2(bitSize - 1) as int) <= n < Pow2(bitSize - 1)
    ensures ParseInt(Itoa(n), bitSize) == Some(n)
  {
    var s := Itoa(n);
    if n < 0 {
      DigitsValueOfFormatNat(-n);
      assert s[1..] == FormatNat(-n);
    } else {
      DigitsValueOfFormatNat(n);
    }
  }

  lemma Int16Bounds()
    ensures Pow2(15) == 0x8000
  {
    calc {
      Pow2(15);
      == 2 * 2 * 2 * 2 * 2 * 2 * 2 * 2 * Pow2(7);
      == 256 * 128;
    }
  }

  /** The round trip at the width used for retention days. */
  lemma ParseInt16Itoa(n: Int16)
    ensures ParseInt(Itoa(n), 16) == Some(n)
  {
    Int16Bounds();
    ParseIntItoa(n, 16);
  }

  /** A successful 16-bit parse always yields a Go `int16`. */
  lemma ParseInt16InRange(s: string)
    ensures ParseInt(s, 16).Some? ==> -0x8000 <= ParseInt(s, 16).value < 0x8000
  {
    Int16Bounds();
  }
}
