/**
 * Rendering of natural numbers as digit strings in a base up to 16, with
 * lowercase letters, and the parser that reads them back. Decimal rendering
 * is Python's `str(n)` and Go's `%d`; hexadecimal with zero padding is
 * Python's `format(n, '032x')` used for trace and span identifiers.
 */
module Digits {

  const Alphabet: string := "0123456789abcdef"

  predicate ValidBase(base: nat) {
    2 <= base <= 16
  }

  function DigitChar(d: nat): (c: char)
    requires d < 16
    ensures c in Alphabet
  {
    Alphabet[d]
  }

  /** The value of one digit character, or 16 for a character that is not a lowercase digit. */
  function DigitValue(c: char): (d: nat)
    ensures d <= 16
    ensures d < 16 <==> c in Alphabet
    ensures d < 16 ==> Alphabet[d] == c
  {
    if '0' <= c <= '9' then (c as int - '0' as int)
    else if 'a' <= c <= 'f' then (c as int - 'a' as int + 10)
    else 16
  }

  lemma DigitRoundTrip(d: nat)
    requires d < 16
    ensures DigitValue(DigitChar(d)) == d
  {
  }

  function Pow(base: nat, k: nat): (p: nat)
    ensures base >= 1 ==> p >= 1
  {
    if k == 0 then 1 else base * Pow(base, k - 1)
  }

  /** Minimal digits of `n` in `base`; zero is the single digit "0". */
  function ToDigits(n: nat, base: nat): (s: string)
    requires ValidBase(base)
    ensures |s| >= 1
    decreases n
  {
    if n < base then [DigitChar(n)]
    else ToDigits(n / base, base) + [DigitChar(n % base)]
  }

  /** Reads a string of digits of `base` back as a number (most significant first). */
  function FromDigits(s: string, base: nat): nat
    requires ValidBase(base)
  {
    if |s| == 0 then 0
    else
      var high := FromDigits(s[..|s| - 1], base);
      var d := DigitValue(s[|s| - 1]);
      MulNonneg(high, base);
      high * base + (if d < base then d else 0)
  }

  lemma MulNonneg(a: nat, b: nat)
    ensures a * b >= 0
  {
  }

  predicate AllDigits(s: string, base: nat)
    requires ValidBase(base)
  {
    forall i :: 0 <= i < |s| ==> DigitValue(s[i]) < base
  }

  /** `s` left-padded with `c` to at least `width` characters. */
  function PadLeft(s: string, width: nat, c: char): (r: string)
    ensures |r| == if |s| >= width then |s| else width
    ensures r[|r| - |s|..] == s
    ensures forall i :: 0 <= i < |r| - |s| ==> r[i] == c
  {
    if |s| >= width then s else seq(width - |s|, _ => c) + s
  }

  /** Python's `format(n, '0<width>x')`. */
  function Hex(n: nat, width: nat): string {
    PadLeft(ToDigits(n, 16), width, '0')
  }

  /** Python's `str(n)` and Go's `%d` for an integer. */
  function Decimal(n: int): string {
    if n < 0 then "-" + ToDigits(-n, 10) else ToDigits(n, 10)
  }

  lemma FromDigitsSnoc(t: string, c: char, base: nat)
    requires ValidBase(base) && DigitValue(c) < base
    ensures FromDigits(t + [c], base) == FromDigits(t, base) * base + DigitValue(c)
  {
    assert (t + [c])[..|t|] == t;
  }

  lemma {:induction false} ToDigitsValid(n: nat, base: nat)
    requires ValidBase(base)
    ensures AllDigits(ToDigits(n, base), base)
    decreases n
  {
    if n < base {
      DigitRoundTrip(n);
    } else {
      ToDigitsValid(n / base, base);
      DigitRoundTrip(n % base);
      AllDigitsConcat(ToDigits(n / base, base), [DigitChar(n % base)], base);
    }
  }

  lemma {:induction false} ToDigitsRoundTrip(n: nat, base: nat)
    requires ValidBase(base)
    ensures FromDigits(ToDigits(n, base), base) == n
    decreases n
  {
    if n < base {
      assert ToDigits(n, base) == [DigitChar(n)];
      SingleDigit(n, base);
    } else {
      ToDigitsRoundTrip(n / base, base);
      ToDigitsStep(n, base);
    }
  }

  lemma SingleDigit(n: nat, base: nat)
    requires ValidBase(base) && n < base
    ensures FromDigits([DigitChar(n)], base) == n
  {
    var ch := DigitChar(n);
    DigitRoundTrip(n);
    assert [ch][..0] == [];
    assert FromDigits([ch], base) == FromDigits([], base) * base + DigitValue(ch);
  }

  lemma ToDigitsStep(n: nat, base: nat)
    requires ValidBase(base) && n >= base
    requires FromDigits(ToDigits(n / base, base), base) == n / base
    ensures FromDigits(ToDigits(n, base), base) == n
  {
    var q, r := n / base, n % base;
    DigitRoundTrip(r);
    FromDigitsSnoc(ToDigits(q, base), DigitChar(r), base);
    DivMod(n, base);
  }

  lemma {:induction false} ToDigitsLength(n: nat, base: nat, width: nat)
    requires ValidBase(base) && width >= 1 && n < Pow(base, width)
    ensures |ToDigits(n, base)| <= width
    decreases width
  {
    if n >= base {
      var p := Pow(base, width - 1);
      assert Pow(base, width) == base * p;
      DivBelow(n, base, p);
      assert width - 1 >= 1 by {
        assert n / base >= 1;
        assert Pow(base, 0) == 1;
      }
      ToDigitsLength(n / base, base, width - 1);
    }
  }

  lemma DivMod(n: nat, base: nat)
    requires base >= 1
    ensures n == (n / base) * base + n % base
  {
  }

  lemma DivBelow(n: nat, base: nat, p: nat)
    requires base >= 1 && n < base * p
    ensures n / base < p
  {
  }

  lemma {:induction false} LeadingZeros(k: nat, s: string, base: nat)
    requires ValidBase(base)
    ensures FromDigits(seq(k, _ => '0') + s, base) == FromDigits(s, base)
    decreases |s|
  {
    var z := seq(k, _ => '0');
    if s == [] {
      assert z + s == z;
      AllZeros(k, base);
    } else {
      var t := z + s;
      assert t[..|t| - 1] == z + s[..|s| - 1];
      LeadingZeros(k, s[..|s| - 1], base);
    }
  }

  lemma {:induction false} AllZeros(k: nat, base: nat)
    requires ValidBase(base)
    ensures FromDigits(seq(k, _ => '0'), base) == 0
  {
    if k > 0 {
      var z := seq(k, _ => '0');
      assert z[..k - 1] == seq(k - 1, _ => '0');
      AllZeros(k - 1, base);
    }
  }

  lemma AllDigitsConcat(a: string, b: string, base: nat)
    requires ValidBase(base) && AllDigits(a, base) && AllDigits(b, base)
    ensures AllDigits(a + b, base)
  {
    assert forall i :: |a| <= i < |a + b| ==> (a + b)[i] == b[i - |a|];
  }

  /**
   * A fixed-width lowercase hexadecimal identifier: exactly `width` digits
   * when the value fits, and it reads back to the value whatever the width.
   */
  lemma HexRoundTrip(n: nat, width: nat)
    ensures AllDigits(Hex(n, width), 16)
    ensures FromDigits(Hex(n, width), 16) == n
    ensures width >= 1 && n < Pow(16, width) ==> |Hex(n, width)| == width
  {
    ToDigitsValid(n, 16);
    ToDigitsRoundTrip(n, 16);
    ZeroPadded(ToDigits(n, 16), width, 16);
    if width >= 1 && n < Pow(16, width) {
      ToDigitsLength(n, 16, width);
    }
  }

  /** Padding a digit string with leading zeros keeps it a digit string of the same value. */
  lemma ZeroPadded(d: string, width: nat, base: nat)
    requires ValidBase(base) && AllDigits(d, base)
    ensures AllDigits(PadLeft(d, width, '0'), base)
    ensures FromDigits(PadLeft(d, width, '0'), base) == FromDigits(d, base)
  {
    if |d| < width {
      var z := seq(width - |d|, _ => '0');
      LeadingZeros(width - |d|, d, base);
      assert AllDigits(z, base);
      AllDigitsConcat(z, d, base);
    }
  }

  /** Decimal rendering of a natural number reads back to the number. */
  lemma DecimalRoundTrip(n: nat)
    ensures AllDigits(Decimal(n), 10)
    ensures FromDigits(Decimal(n), 10) == n
  {
    ToDigitsValid(n, 10);
    ToDigitsRoundTrip(n, 10);
  }
}
