/** Decimal numerals: JavaScript's number-to-string conversion for
    non-negative safe integers (below 2^53, where `String` prints plain
    digits), and the digit-string reading that `parseInt` performs on a
    plain numeral. */
module Decimal {

  import opened Optional

  predicate IsDigit(ch: char) {
    '0' <= ch <= '9'
  }

  predicate IsNumeral(s: string) {
    |s| > 0 && forall i :: 0 <= i < |s| ==> IsDigit(s[i])
  }

  function DigitChar(d: nat): (ch: char)
    requires d < 10
    ensures IsDigit(ch)
  {
    "0123456789"[d]
  }

  function DigitValue(ch: char): nat
    requires IsDigit(ch)
  {
    ch as int - '0' as int
  }

  /** The value of a string of decimal digits, most significant first. */
  function ValueOf(s: string): nat
    requires forall i :: 0 <= i < |s| ==> IsDigit(s[i])
  {
    if s == [] then 0 else ValueOf(s[..|s| - 1]) * 10 + DigitValue(s[|s| - 1])
  }

  /** `String(n)` for a non-negative safe integer `n`: no sign, no leading
      zero. */
  function ToString(n: nat): (s: string)
    ensures IsNumeral(s)
    ensures |s| > 1 ==> s[0] != '0'
  {
    if n < 10 then [DigitChar(n)] else ToString(n / 10) + [DigitChar(n % 10)]
  }

  /** `parseInt` on a numeral; `None` stands for `NaN`. */
  function ParseNumeral(s: string): (r: Option<nat>)
    ensures r.Some? <==> IsNumeral(s)
  {
    if IsNumeral(s) then Some(ValueOf(s)) else None
  }

  lemma {:induction false} ValueOfToString(n: nat)
    ensures ValueOf(ToString(n)) == n
  {
    if n >= 10 {
      var s := ToString(n);
      assert s[..|s| - 1] == ToString(n / 10);
      ValueOfToString(n / 10);
      assert DigitValue(DigitChar(n % 10)) == n % 10;
    } else {
      assert DigitValue(DigitChar(n)) == n;
    }
  }

  /** Reading back a printed number gives the number. */
  lemma ParseToString(n: nat)
    ensures ParseNumeral(ToString(n)) == Some(n)
  {
    ValueOfToString(n);
  }

  /** Printing is injective, so equal printed ids are equal numbers. */
  lemma ToStringInjective(m: nat, n: nat)
    ensures ToString(m) == ToString(n) <==> m == n
  {
    if ToString(m) == ToString(n) {
      ValueOfToString(m);
      ValueOfToString(n);
    }
  }
}
