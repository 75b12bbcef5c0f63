/**
 * JavaScript's `Number(x)` applied to what `localStorage.getItem` returns, restricted to integers:
 * `Number(null)` and `Number("")` are 0, an optionally signed run of decimal digits is its value,
 * and everything else is NaN.  `String(n)` of an integer below 10^21 in magnitude is
 * `DecimalString(n)`; larger ones are written with an exponent, which is not modelled.
 */
module Numbers {
  import opened Wrappers

  datatype Number = Finite(value: int) | NaN

  /** The JavaScript comparison `a > b`, which is false whenever either side is NaN. */
  predicate GreaterThan(a: Number, b: int) {
    a.Finite? && a.value > b
  }

  predicate IsDigit(c: char) {
    '0' <= c <= '9'
  }

  predicate AllDigits(s: string) {
    forall i :: 0 <= i < |s| ==> IsDigit(s[i])
  }

  function DigitValue(c: char): nat
    requires IsDigit(c)
  {
    (c as int) - ('0' as int)
  }

  function DigitChar(d: nat): (c: char)
    requires d < 10
    ensures IsDigit(c) && DigitValue(c) == d
  {
    (('0' as int) + d) as char
  }

  /** The value of a run of decimal digits, most significant first. */
  function ParseDigits(s: string): nat
    requires AllDigits(s)
  {
    if s == [] then 0 else 10 * ParseDigits(s[..|s| - 1]) + DigitValue(s[|s| - 1])
  }

  /** The shortest decimal spelling of a natural number. */
  function Digits(n: nat): (s: string)
    ensures |s| > 0 && AllDigits(s)
  {
    if n < 10 then [DigitChar(n)] else Digits(n / 10) + [DigitChar(n % 10)]
  }

  /** `String(n)` for an integer `n` with `|n| < 10^21`. */
  function DecimalString(n: int): string {
    if n < 0 then "-" + Digits(-n) else Digits(n)
  }

  /** `Number(x)` where `x` is the result of `localStorage.getItem`. */
  function NumberOf(x: Option<string>): (r: Number)
    ensures x.None? || x == Some("") ==> r == Finite(0)
    ensures x.Some? && AllDigits(x.value) ==> r.Finite? && r.value >= 0
    ensures x.Some? && |x.value| > 0 && x.value[0] == '-' && r.Finite? ==> r.value <= 0
    ensures x.Some? && |x.value| > 0 && !IsDigit(x.value[0]) && x.value[0] != '-' ==> r.NaN?
  {
    match x
    case None => Finite(0)
    case Some(s) =>
      if s == "" then Finite(0)
      else if AllDigits(s) then Finite(ParseDigits(s))
      else if s[0] == '-' && |s| > 1 && AllDigits(s[1..]) then Finite(-(ParseDigits(s[1..]) as int))
      else NaN
  }

  lemma {:induction false} ParseDigitsOfDigits(n: nat)
    ensures ParseDigits(Digits(n)) == n
  {
    if n >= 10 {
      var s := Digits(n);
      assert s[..|s| - 1] == Digits(n / 10);
      ParseDigitsOfDigits(n / 10);
    }
  }

  /** Reading back what `String(n)` stored gives `n` again. */
  lemma NumberOfDecimalString(n: int)
    ensures NumberOf(Some(DecimalString(n))) == Finite(n)
  {
    if n < 0 {
      var s := DecimalString(n);
      assert s[1..] == Digits(-n);
      assert !AllDigits(s) by { assert !IsDigit(s[0]); }
      ParseDigitsOfDigits(-n);
    } else {
      ParseDigitsOfDigits(n);
    }
  }
}
