/**
 * JavaScript's rendering of an integer as text (`String(n)`, template
 * literals, `Buffer.from(n.toString())`) and its reading back with
 * `parseInt`. The node writes heights into file names and into the
 * LevelDB head record this way, and reads them back with `parseInt`.
 */
module Decimal {
  import opened Common

  predicate IsDigit(c: char) {
    '0' <= c <= '9'
  }

  function DigitValue(c: char): (d: nat)
    requires IsDigit(c)
    ensures d < 10
  {
    c as int - '0' as int
  }

  function DigitChar(d: nat): (c: char)
    requires d < 10
    ensures IsDigit(c) && DigitValue(c) == d
  {
    ('0' as int + d) as char
  }

  predicate AllDigits(s: string) {
    forall i :: 0 <= i < |s| ==> IsDigit(s[i])
  }

  /** Decimal digits of a natural number, most significant first, no leading zeros. */
  function ShowNat(n: nat): (s: string)
    ensures |s| > 0 && AllDigits(s)
  {
    if n < 10 then [DigitChar(n)] else ShowNat(n / 10) + [DigitChar(n % 10)]
  }

  /** `String(n)` for an integer `n`: a minus sign for negatives, then the digits. */
  function Show(n: int): (s: string)
    ensures |s| > 0 && (s[0] == '-' || IsDigit(s[0]))
  {
    if n < 0 then "-" + ShowNat(-n) else ShowNat(n)
  }

  /** Length of the run of digits at the start of `s`. */
  function DigitRun(s: string): (k: nat)
    ensures k <= |s| && AllDigits(s[..k])
    ensures k < |s| ==> !IsDigit(s[k])
  {
    if |s| == 0 || !IsDigit(s[0]) then 0
    else
      var k := 1 + DigitRun(s[1..]);
      assert s[..k] == [s[0]] + s[1..][..k - 1];
      k
  }

  /** Value of a string of digits read left to right. */
  function DigitsValue(s: string): nat
    requires AllDigits(s)
  {
    if |s| == 0 then 0 else DigitsValue(s[..|s| - 1]) * 10 + DigitValue(s[|s| - 1])
  }

  /**
   * `parseInt(s)` in base 10: an optional sign, then the longest run of
   * digits; trailing text is ignored. `None` stands for `NaN` (no digit
   * after the sign).
   */
  function ParseInt(s: string): Option<int> {
    var negative := |s| > 0 && s[0] == '-';
    var rest := if |s| > 0 && (s[0] == '-' || s[0] == '+') then s[1..] else s;
    var k := DigitRun(rest);
    if k == 0 then None
    else
      var v: int := DigitsValue(rest[..k]);
      Some(if negative then -v else v)
  }

  lemma {:induction false} DigitsValueOfShowNat(n: nat)
    ensures DigitsValue(ShowNat(n)) == n
  {
    if n >= 10 {
      var s := ShowNat(n / 10);
      var t := ShowNat(n);
      assert t == s + [DigitChar(n % 10)];
      assert t[..|t| - 1] == s;
      DigitsValueOfShowNat(n / 10);
    }
  }

  lemma {:induction false} DigitRunOfDigits(s: string)
    requires AllDigits(s)
    ensures DigitRun(s) == |s|
  {
    if |s| > 0 {
      DigitRunOfDigits(s[1..]);
    }
  }

  /** Reading back what `String(n)` wrote gives `n`. */
  lemma ParseShow(n: int)
    ensures ParseInt(Show(n)) == Some(n)
  {
    var m: nat := if n < 0 then -n else n;
    var digits := ShowNat(m);
    DigitRunOfDigits(digits);
    DigitsValueOfShowNat(m);
    assert digits[..|digits|] == digits;
    if n < 0 {
      assert Show(n)[1..] == digits;
    }
  }

  /** Distinct integers are rendered as distinct strings. */
  lemma ShowInjective(a: int, b: int)
    ensures Show(a) == Show(b) ==> a == b
  {
    ParseShow(a);
    ParseShow(b);
  }
}
