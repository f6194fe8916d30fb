// Decimal rendering and parsing of natural numbers, as Rust's
// `usize::to_string` / `u64` Display and `str::parse::<usize>` do them.
module Decimal {
  import opened Wrappers

  predicate IsDigit(c: char)
  {
    '0' <= c <= '9'
  }

  function DigitValue(c: char): (d: nat)
    requires IsDigit(c)
    ensures d < 10
  {
    (c as int) - ('0' as int)
  }

  function DigitChar(d: nat): (c: char)
    requires d < 10
    ensures IsDigit(c) && DigitValue(c) == d
  {
    ('0' as int + d) as char
  }

  /** The shortest decimal text of `n` (no leading zero except for 0 itself). */
  function ToDecimal(n: nat): (s: string)
    ensures |s| >= 1
    ensures forall i :: 0 <= i < |s| ==> IsDigit(s[i])
    ensures |s| > 1 ==> s[0] != '0'
    ensures n < 10 <==> |s| == 1
    decreases n
  {
    if n < 10 then [DigitChar(n)] else ToDecimal(n / 10) + [DigitChar(n % 10)]
  }

  /** The value of a string of decimal digits. */
  function DigitsValue(s: string): (v: nat)
    requires forall i :: 0 <= i < |s| ==> IsDigit(s[i])
    decreases |s|
  {
    if s == [] then 0 else 10 * DigitsValue(s[..|s| - 1]) + DigitValue(s[|s| - 1])
  }

  predicate AllDigits(s: string)
  {
    forall i :: 0 <= i < |s| ==> IsDigit(s[i])
  }

  /** One more than the largest 64-bit `usize`. */
  const USIZE_LIMIT: nat := 0x1_0000_0000_0000_0000

  /**
   * `str::parse::<usize>()`: an optional leading '+', then at least one
   * digit; a value that does not fit in 64 bits is an error.
   */
  function Parse(s: string): (r: Option<nat>)
    ensures r.Some? ==> r.value < USIZE_LIMIT
    ensures AllDigits(s) && |s| > 0 && DigitsValue(s) < USIZE_LIMIT ==> r == Some(DigitsValue(s))
    ensures |s| == 0 || (!AllDigits(s) && s[0] != '+') ==> r == None
  {
    var body := if |s| > 0 && s[0] == '+' then s[1..] else s;
    if |body| > 0 && AllDigits(body) && DigitsValue(body) < USIZE_LIMIT then Some(DigitsValue(body)) else None
  }

  /** Rendering then reading back gives the number again. */
  lemma {:induction false} DigitsValueOfToDecimal(n: nat)
    ensures DigitsValue(ToDecimal(n)) == n
    decreases n
  {
    var s := ToDecimal(n);
    if n >= 10 {
      DigitsValueOfToDecimal(n / 10);
      assert s[..|s| - 1] == ToDecimal(n / 10);
    }
  }

  lemma ParseToDecimal(n: nat)
    requires n < USIZE_LIMIT
    ensures Parse(ToDecimal(n)) == Some(n)
  {
    DigitsValueOfToDecimal(n);
  }
}
