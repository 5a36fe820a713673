/**
 * Decimal text of integers, as the Rust standard library reads and writes it:
 * `i64::from_str` (used for the target angle) and the `{}` rendering of an
 * integer (used for the bumped angle and for the probed file names).
 */
module IntText {
  import opened Optional

  const I64Min: int := -0x8000_0000_0000_0000
  const I64Max: int := 0x7FFF_FFFF_FFFF_FFFF

  predicate IsDigit(c: char) {
    '0' <= c <= '9'
  }

  predicate AllDigits(s: string) {
    forall i :: 0 <= i < |s| ==> IsDigit(s[i])
  }

  function DigitValue(c: char): (d: nat)
    requires IsDigit(c)
    ensures d < 10
  {
    c as int - '0' as int
  }

  function DigitChar(d: nat): (c: char)
    requires d < 10
    ensures IsDigit(c) && DigitValue(c) == d
  {
    ('0' as int + d) as char
  }

  /** The value of a run of decimal digits, most significant digit first. */
  function DigitsValue(s: string): nat
    requires AllDigits(s)
    decreases |s|
  {
    if |s| == 0 then 0 else 10 * DigitsValue(s[..|s| - 1]) + DigitValue(s[|s| - 1])
  }

  /** The shortest decimal digits of `n`: no leading zero, "0" for zero. */
  function NatDigits(n: nat): (s: string)
    ensures |s| > 0 && AllDigits(s)
    ensures n > 0 ==> s[0] != '0'
    decreases n
  {
    if n < 10 then [DigitChar(n)] else NatDigits(n / 10) + [DigitChar(n % 10)]
  }

  /** `n.to_string()`: a minus sign for negative values, then the digits. */
  function Render(n: int): (r: string)
    ensures n >= 0 ==> |r| > 0 && AllDigits(r)
    ensures n < 0 ==> |r| > 1 && r[0] == '-' && AllDigits(r[1..])
  {
    if n < 0 then "-" + NatDigits(-n) else NatDigits(n)
  }

  /**
   * `i64::from_str(s).ok()`: an optional sign, then one or more ASCII digits, and
   * the value must fit in 64 bits. The empty string and a lone sign are errors.
   */
  function ParseI64(s: string): (r: Option<int>)
    ensures r.Some? ==> I64Min <= r.value <= I64Max
    ensures r.Some? ==> |s| > 0 && IsDigit(s[|s| - 1])
  {
    if |s| == 0 || (|s| == 1 && (s[0] == '+' || s[0] == '-')) then None
    else
      var negative := s[0] == '-';
      var digits := if s[0] == '+' || s[0] == '-' then s[1..] else s;
      if !AllDigits(digits) then None
      else
        var n: int := if negative then -(DigitsValue(digits) as int) else DigitsValue(digits);
        if I64Min <= n <= I64Max then Some(n) else None
  }

  lemma {:induction false} NatDigitsValue(n: nat)
    ensures DigitsValue(NatDigits(n)) == n
    decreases n
  {
    if n >= 10 {
      var s := NatDigits(n);
      assert s[..|s| - 1] == NatDigits(n / 10);
      NatDigitsValue(n / 10);
    }
  }

  /** Reading back what `to_string` wrote gives the same 64-bit integer. */
  lemma ParseRender(n: int)
    requires I64Min <= n <= I64Max
    ensures ParseI64(Render(n)) == Some(n)
  {
    var s := Render(n);
    if n < 0 {
      var digits := NatDigits(-n);
      assert s[0] == '-' && s[1..] == digits;
      NatDigitsValue(-n);
      assert DigitsValue(digits) == -n;
    } else {
      assert s == NatDigits(n) && IsDigit(s[0]);
      NatDigitsValue(n);
    }
  }

  /** Distinct integers have distinct renderings. */
  lemma RenderInjective(a: int, b: int)
    requires Render(a) == Render(b)
    ensures a == b
  {
    if a < 0 && b < 0 {
      assert NatDigits(-a) == Render(a)[1..] == Render(b)[1..] == NatDigits(-b);
      NatDigitsValue(-a);
      NatDigitsValue(-b);
    } else if a >= 0 && b >= 0 {
      NatDigitsValue(a);
      NatDigitsValue(b);
    }
  }
}
