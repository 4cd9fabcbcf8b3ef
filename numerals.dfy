/** Rendering of natural numbers as the backend's error messages print them:
    `{}` on a length gives decimal digits, `{:X}` on an address gives upper-case
    hexadecimal digits. Both are one positional numeral in a given base. */
module Numerals {

  /** The character for digit `d` (0-9, then A-F). */
  function DigitChar(d: nat): char
    requires d < 16
  {
    if d < 10 then ('0' as int + d) as char else ('A' as int + d - 10) as char
  }

  /** The value of a digit character; characters that are not digits read as 0. */
  function DigitValue(c: char): nat
  {
    if '0' <= c <= '9' then c as int - '0' as int
    else if 'A' <= c <= 'F' then c as int - 'A' as int + 10
    else 0
  }

  /** `n` written in `base` with no leading zeros (zero itself is "0"). */
  function Numeral(n: nat, base: nat): (s: string)
    requires 2 <= base <= 16
    ensures |s| >= 1
    decreases n
  {
    if n < base then [DigitChar(n)] else Numeral(n / base, base) + [DigitChar(n % base)]
  }

  /** The number a string of digits denotes in `base`, most significant digit first. */
  function ValueOf(s: string, base: nat): nat
    decreases |s|
  {
    if s == [] then 0 else ValueOf(s[..|s| - 1], base) * base + DigitValue(s[|s| - 1])
  }

  lemma DigitRoundTrip(d: nat)
    requires d < 16
    ensures DigitValue(DigitChar(d)) == d
  {
  }

  /** Dividing by the base moves to a strictly smaller number and loses
      only the last digit. */
  lemma DivisionStep(n: nat, base: nat)
    requires 2 <= base <= n
    ensures 1 <= n / base < n
    ensures n == (n / base) * base + n % base && n % base < base
  {
  }

  /** Reading back a rendered numeral gives the number: the rendering loses nothing. */
  lemma {:induction false} NumeralRoundTrip(n: nat, base: nat)
    requires 2 <= base <= 16
    ensures ValueOf(Numeral(n, base), base) == n
    decreases n
  {
    if n < base {
      DigitRoundTrip(n);
      var s := [DigitChar(n)];
      assert s[..0] == [];
      assert ValueOf(s, base) == ValueOf([], base) * base + DigitValue(s[0]);
    } else {
      var q, d := n / base, n % base;
      DivisionStep(n, base);
      DigitRoundTrip(d);
      var high := Numeral(q, base);
      var s := high + [DigitChar(d)];
      assert s[..|s| - 1] == high;
      NumeralRoundTrip(q, base);
      calc {
        ValueOf(Numeral(n, base), base);
        ValueOf(s, base);
        ValueOf(high, base) * base + DigitValue(DigitChar(d));
        q * base + d;
      }
    }
  }

  /** Every character of a rendered numeral is one of the digit characters
      0-9 and A-F, stands for a digit below the base, and is the character
      `DigitChar` writes for that digit; the first one is not a zero unless
      the number is zero. */
  lemma {:induction false} NumeralDigits(n: nat, base: nat)
    requires 2 <= base <= 16
    ensures var s := Numeral(n, base);
      forall k :: 0 <= k < |s| ==>
        ('0' <= s[k] <= '9' || 'A' <= s[k] <= 'F') && DigitValue(s[k]) < base
        && s[k] == DigitChar(DigitValue(s[k]))
    ensures n > 0 ==> Numeral(n, base)[0] != '0'
    decreases n
  {
    if n < base {
      DigitRoundTrip(n);
    } else {
      var q, d := n / base, n % base;
      DivisionStep(n, base);
      DigitRoundTrip(d);
      NumeralDigits(q, base);
      var s := Numeral(q, base) + [DigitChar(d)];
      assert Numeral(n, base) == s;
    }
  }
}
