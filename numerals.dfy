/**
 * Positional numerals: the decimal rendering of numbers (as Qt's QString::number
 * produces it) and a hexadecimal rendering (lower-case digits, no zero padding) for
 * generated labels, together with the parsers that read them back.
 */
module Numerals {
  import opened Wrappers

  /** The value of a digit character; 16 for a character that is no digit in any radix up to 16. */
  function DigitValue(c: char): (d: nat)
    ensures d <= 16
  {
    if '0' <= c <= '9' then c as int - '0' as int
    else if 'a' <= c <= 'f' then c as int - 'a' as int + 10
    else 16
  }

  /** The lower-case character of digit `d`. */
  function DigitChar(d: nat): (c: char)
    requires d < 16
    ensures DigitValue(c) == d
  {
    if d < 10 then ('0' as int + d) as char else ('a' as int + d - 10) as char
  }

  predicate IsDigit(c: char, base: nat) {
    DigitValue(c) < base
  }

  predicate AllDigits(s: string, base: nat) {
    forall i :: 0 <= i < |s| ==> IsDigit(s[i], base)
  }

  /** The shortest numeral of `n` in radix `base` (no leading zeros, "0" for zero). */
  function ToRadix(n: nat, base: nat): (s: string)
    requires 2 <= base <= 16
    ensures |s| >= 1 && AllDigits(s, base)
    decreases n
  {
    if n < base then [DigitChar(n)] else ToRadix(n / base, base) + [DigitChar(n % base)]
  }

  /** The number a string of digits denotes in radix `base`. */
  function FromRadix(s: string, base: nat): nat
    decreases |s|
  {
    if s == [] then 0 else FromRadix(s[..|s| - 1], base) * base + DigitValue(s[|s| - 1])
  }

  lemma {:induction false} FromToRadix(n: nat, base: nat)
    requires 2 <= base <= 16
    ensures FromRadix(ToRadix(n, base), base) == n
    decreases n
  {
    if n >= base {
      var s := ToRadix(n, base);
      var q, d := n / base, n % base;
      DivShrinks(n, base);
      FromToRadix(q, base);
      assert s[..|s| - 1] == ToRadix(q, base);
      assert DigitValue(s[|s| - 1]) == d;
      FromRadixLast(s, base);
      DivMod(n, base);
    }
  }

  lemma FromRadixLast(s: string, base: nat)
    requires s != []
    ensures FromRadix(s, base) == FromRadix(s[..|s| - 1], base) * base + DigitValue(s[|s| - 1])
  {
  }

  lemma DivShrinks(n: nat, base: nat)
    requires base >= 2 && n >= 1
    ensures n / base < n
  {
  }

  lemma DivMod(n: nat, base: nat)
    requires base > 0
    ensures (n / base) * base + n % base == n
  {
  }

  /** Hexadecimal rendering of an address: lower-case digits, no leading zeros. */
  function Hex(n: nat): string {
    ToRadix(n, 16)
  }

  /** Two addresses with the same hexadecimal rendering are the same address. */
  lemma HexInjective(a: nat, b: nat)
    ensures Hex(a) == Hex(b) ==> a == b
  {
    FromToRadix(a, 16);
    FromToRadix(b, 16);
  }

  /** Decimal rendering of a signed integer, with a leading '-' for negative values. */
  function SignedDecimal(i: int): (s: string)
    ensures |s| >= 1
    ensures forall k :: 0 <= k < |s| ==> s[k] == '-' || IsDigit(s[k], 10)
  {
    if i < 0 then "-" + ToRadix(-i, 10) else ToRadix(i, 10)
  }

  /** Reads back a signed decimal numeral; None for anything else. */
  function ParseSigned(s: string): Option<int> {
    if |s| > 1 && s[0] == '-' && AllDigits(s[1..], 10) then Some(-(FromRadix(s[1..], 10) as int))
    else if |s| > 0 && AllDigits(s, 10) then Some(FromRadix(s, 10))
    else None
  }

  lemma SignedDecimalRoundTrip(i: int)
    ensures ParseSigned(SignedDecimal(i)) == Some(i)
  {
    var s := SignedDecimal(i);
    if i < 0 {
      assert s[1..] == ToRadix(-i, 10);
      FromToRadix(-i, 10);
    } else {
      assert IsDigit(s[0], 10);
      FromToRadix(i, 10);
    }
  }
}
