/**
 * Rendering of unsigned integers the way Rust's formatter does it: `{}`
 * gives decimal digits and a pointer's `{:?}` gives "0x" followed by
 * lower-case hexadecimal digits, in both cases without leading zeros.
 * The parser is the partner that shows the rendering loses nothing.
 */
module Numerals {

  predicate ValidBase(base: nat) { 2 <= base <= 16 }

  /** The character for digit `d`: '0'..'9' then 'a'..'f'. */
  function DigitChar(d: nat): (c: char)
    requires d < 16
  {
    if d < 10 then ('0' as int + d) as char else ('a' as int + d - 10) as char
  }

  /** The value of a digit character, or 16 for any other character. */
  function DigitValue(c: char): (v: nat)
    ensures v <= 16
  {
    if '0' <= c <= '9' then c as int - '0' as int
    else if 'a' <= c <= 'f' then c as int - 'a' as int + 10
    else 16
  }

  predicate IsDigit(c: char, base: nat) { DigitValue(c) < base }

  lemma DigitValueOfDigitChar(d: nat)
    requires d < 16
    ensures DigitValue(DigitChar(d)) == d
  {
  }

  /** `n` written in `base` with no leading zeros ("0" for zero). */
  function Numeral(n: nat, base: nat): (s: string)
    requires ValidBase(base)
    ensures 1 <= |s|
    ensures forall i :: 0 <= i < |s| ==> IsDigit(s[i], base)
    ensures |s| > 1 ==> s[0] != '0'
    decreases n
  {
    if n < base then [DigitChar(n)]
    else
      DivMod(n, base);
      Numeral(n / base, base) + [DigitChar(n % base)]
  }

  /** Reads a string of digits back as a number (most significant first). */
  function ParseNumeral(s: string, base: nat): nat
    requires ValidBase(base)
  {
    if s == [] then 0
    else ParseNumeral(s[..|s| - 1], base) * base + DigitValue(s[|s| - 1])
  }

  lemma {:induction false} ParseNumeralInverts(n: nat, base: nat)
    requires ValidBase(base)
    ensures ParseNumeral(Numeral(n, base), base) == n
    decreases n
  {
    var s := Numeral(n, base);
    if n < base {
      DigitValueOfDigitChar(n);
      assert s[..|s| - 1] == [];
    } else {
      DivMod(n, base);
      var q, d := n / base, n % base;
      var p := Numeral(q, base);
      assert s == p + [DigitChar(d)];
      LastAndInit(p, DigitChar(d));
      ParseNumeralInverts(q, base);
      DigitValueOfDigitChar(d);
    }
  }

  lemma DivMod(n: nat, base: nat)
    requires 2 <= base
    ensures n / base < n || n == 0
    ensures base <= n ==> 1 <= n / base
    ensures n % base < base
    ensures (n / base) * base + n % base == n
  {
  }

  lemma LastAndInit(p: string, c: char)
    ensures (p + [c])[..|p|] == p && (p + [c])[|p|] == c
  {
  }

  /** Different numbers have different renderings. */
  lemma NumeralInjective(m: nat, n: nat, base: nat)
    requires ValidBase(base)
    requires Numeral(m, base) == Numeral(n, base)
    ensures m == n
  {
    ParseNumeralInverts(m, base);
    ParseNumeralInverts(n, base);
  }

  lemma DigitCharOfDigitValue(c: char)
    requires DigitValue(c) < 16
    ensures DigitChar(DigitValue(c)) == c
  {
  }

  lemma MulMonotone(a: nat, b: nat, c: nat)
    requires a <= b
    ensures a * c <= b * c
  {
  }

  lemma DivModOfDigit(q: nat, v: nat, base: nat)
    requires 2 <= base && v < base
    ensures (q * base + v) / base == q && (q * base + v) % base == v
  {
    var n := q * base + v;
    var d, m := n / base, n % base;
    assert d * base + m == n && 0 <= m < base;
    if d > q {
      MulMonotone(q + 1, d, base);
      assert false;
    } else if d < q {
      MulMonotone(d + 1, q, base);
      assert false;
    }
  }

  /** A digit string without a leading zero denotes a positive number. */
  lemma {:induction false} ParseNumeralPositive(s: string, base: nat)
    requires ValidBase(base)
    requires 1 <= |s| && s[0] != '0'
    requires forall i :: 0 <= i < |s| ==> IsDigit(s[i], base)
    ensures ParseNumeral(s, base) >= 1
    decreases |s|
  {
    if |s| > 1 {
      ParseNumeralPositive(s[..|s| - 1], base);
    }
  }

  /**
   * A digit string without leading zeros is the rendering of the number it
   * denotes: digits, no leading zero and reading back pin the text.
   */
  lemma {:induction false} NumeralUnique(s: string, base: nat)
    requires ValidBase(base)
    requires 1 <= |s| && (|s| > 1 ==> s[0] != '0')
    requires forall i :: 0 <= i < |s| ==> IsDigit(s[i], base)
    ensures Numeral(ParseNumeral(s, base), base) == s
    decreases |s|
  {
    var c := s[|s| - 1];
    var v := DigitValue(c);
    var p := s[..|s| - 1];
    var q := ParseNumeral(p, base);
    var n := ParseNumeral(s, base);
    assert n == q * base + v;
    DigitCharOfDigitValue(c);
    if |s| == 1 {
      assert q == 0;
      assert Numeral(n, base) == [DigitChar(v)];
    } else {
      NumeralUnique(p, base);
      ParseNumeralPositive(p, base);
      MulMonotone(1, q, base);
      DivModOfDigit(q, v, base);
      assert Numeral(n, base) == Numeral(q, base) + [DigitChar(v)];
      assert s == p + [c];
    }
  }

  /** Decimal rendering, as `format!("{}", n)` gives it. */
  function Decimal(n: nat): (s: string)
    ensures 1 <= |s|
    ensures forall i :: 0 <= i < |s| ==> '0' <= s[i] <= '9'
    ensures |s| > 1 ==> s[0] != '0'
    ensures ParseNumeral(s, 10) == n
  {
    ParseNumeralInverts(n, 10);
    Numeral(n, 10)
  }

  /** A pointer's Debug rendering, as `format!("{:?}", p)` gives it. */
  function PointerDebug(addr: nat): (s: string)
    ensures 3 <= |s| && s[..2] == "0x"
    ensures forall i :: 2 <= i < |s| ==> IsDigit(s[i], 16)
    ensures |s| > 3 ==> s[2] != '0'
    ensures ParseNumeral(s[2..], 16) == addr
  {
    ParseNumeralInverts(addr, 16);
    var h := Numeral(addr, 16);
    assert ("0x" + h)[2..] == h;
    "0x" + h
  }
}
