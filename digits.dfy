/**
 * Digit strings: the ECMAScript digit alphabet (`0`-`9`, then letters for
 * radices above ten), the value of a digit string in a radix, and the decimal
 * text of a non-negative integer, as `Number.prototype.toString()` writes it.
 */
module Digits {

  /** The value of a character as a digit of any radix up to 36; 36 for a non-digit. */
  function DigitValue(c: char): (v: nat)
    ensures v <= 36
    ensures v < 10 <==> '0' <= c <= '9'
  {
    if '0' <= c <= '9' then (c as int - '0' as int) as nat
    else if 'a' <= c <= 'z' then (c as int - 'a' as int + 10) as nat
    else if 'A' <= c <= 'Z' then (c as int - 'A' as int + 10) as nat
    else 36
  }

  predicate IsDigitIn(c: char, radix: nat)
  {
    DigitValue(c) < radix
  }

  /** The longest prefix of `s` made of digits of `radix`. */
  function DigitPrefix(s: string, radix: nat): (z: string)
    ensures |z| <= |s| && z == s[..|z|]
    ensures forall i :: 0 <= i < |z| ==> IsDigitIn(z[i], radix)
    ensures |z| < |s| ==> !IsDigitIn(s[|z|], radix)
  {
    if s != [] && IsDigitIn(s[0], radix) then [s[0]] + DigitPrefix(s[1..], radix) else []
  }

  /** The number a digit string denotes in `radix`, most significant digit first. */
  function Value(z: string, radix: nat): nat
  {
    if z == [] then 0 else Value(z[..|z| - 1], radix) * radix + DigitValue(z[|z| - 1])
  }

  function DigitChar(d: nat): (c: char)
    requires d < 10
    ensures '0' <= c <= '9' && DigitValue(c) == d
  {
    ('0' as int + d) as char
  }

  /** Decimal text of `n`, without leading zeros. */
  function Show(n: nat): (s: string)
    ensures |s| >= 1
    ensures forall i :: 0 <= i < |s| ==> '0' <= s[i] <= '9'
    ensures n < 10 <==> |s| == 1
    ensures n < 100 ==> |s| <= 2
  {
    if n < 10 then [DigitChar(n)] else Show(n / 10) + [DigitChar(n % 10)]
  }

  /** Reading back the decimal text of `n` gives `n`. */
  lemma {:induction false} ValueOfShow(n: nat)
    ensures Value(Show(n), 10) == n
  {
    if n >= 10 {
      ValueOfShow(n / 10);
      var s := Show(n);
      assert s[..|s| - 1] == Show(n / 10);
    }
  }

  /** Every character of a decimal text is a decimal digit, so a digit prefix takes all of it. */
  lemma DigitPrefixOfShow(n: nat)
    ensures DigitPrefix(Show(n), 10) == Show(n)
  {
  }
}
