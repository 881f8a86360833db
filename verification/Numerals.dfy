/** Numbers as the format verbs %d, %012d and %x write them. */
module Numerals {

  predicate IsBase(base: nat) {
    base == 10 || base == 16
  }

  function Digit(d: nat): char
    requires d < 16
  {
    "0123456789abcdef"[d]
  }

  function DigitValue(c: char): nat {
    if '0' <= c <= '9' then (c - '0') as int
    else if 'a' <= c <= 'f' then (c - 'a') as int + 10
    else 99
  }

  lemma DigitRoundTrip(d: nat)
    requires d < 16
    ensures DigitValue(Digit(d)) == d
  {
  }

  /** Without leading zeros; zero is "0". */
  function Numeral(n: nat, base: nat): string
    requires IsBase(base)
  {
    if n < base then [Digit(n)] else Numeral(n / base, base) + [Digit(n % base)]
  }

  predicate IsNumeral(s: string, base: nat) {
    s != "" && forall i :: 0 <= i < |s| ==> DigitValue(s[i]) < base
  }

  function Value(s: string, base: nat): nat {
    if s == "" then 0 else Value(s[..|s| - 1], base) * base + DigitValue(s[|s| - 1])
  }

  /** Reading a numeral back gives the number. */
  lemma {:induction false} NumeralRoundTrip(n: nat, base: nat)
    requires IsBase(base)
    ensures IsNumeral(Numeral(n, base), base) && Value(Numeral(n, base), base) == n
    decreases n
  {
    if n < base {
      DigitRoundTrip(n);
      assert Numeral(n, base)[..0] == "";
    } else {
      NumeralRoundTrip(n / base, base);
      DigitRoundTrip(n % base);
      var s := Numeral(n, base);
      assert s[..|s| - 1] == Numeral(n / base, base);
    }
  }

  lemma NumeralInjective(m: nat, n: nat, base: nat)
    requires IsBase(base) && Numeral(m, base) == Numeral(n, base)
    ensures m == n
  {
    NumeralRoundTrip(m, base);
    NumeralRoundTrip(n, base);
  }

  lemma DigitOf(c: char)
    requires DigitValue(c) < 16
    ensures Digit(DigitValue(c)) == c && (DigitValue(c) == 0 <==> c == '0')
  {
  }

  lemma Split(high: nat, low: nat, base: nat)
    requires IsBase(base) && low < base
    ensures (high * base + low) / base == high && (high * base + low) % base == low
    ensures high > 0 ==> high * base + low >= base
  {
  }

  lemma NumeralOf(high: nat, low: nat, base: nat)
    requires IsBase(base) && low < base && high > 0
    ensures Numeral(high * base + low, base) == Numeral(high, base) + [Digit(low)]
  {
    Split(high, low, base);
  }

  lemma OneDigit(c: char, base: nat)
    requires IsBase(base) && DigitValue(c) < base
    ensures Numeral(DigitValue(c), base) == [c] && Value([c], base) == DigitValue(c)
  {
    DigitOf(c);
    assert [c][..0] == "";
  }

  /** A numeral without a leading zero is the one that is written for its value. */
  lemma {:induction false} NumeralUnique(s: string, base: nat)
    requires IsBase(base) && IsNumeral(s, base) && (|s| > 1 ==> s[0] != '0')
    ensures s == Numeral(Value(s, base), base) && (s[0] != '0' ==> Value(s, base) > 0)
    decreases |s|
  {
    hide Numeral, Digit, DigitValue;
    var k := |s| - 1;
    DigitOf(s[k]);
    assert s == s[..k] + [s[k]];
    if k == 0 {
      OneDigit(s[0], base);
    } else {
      NumeralUnique(s[..k], base);
      NumeralOf(Value(s[..k], base), DigitValue(s[k]), base);
    }
  }

  /** No numeral but "0" starts with a zero. */
  lemma {:induction false} NoLeadingZero(n: nat, base: nat)
    requires IsBase(base)
    ensures Numeral(n, base) != "" && (n > 0 ==> Numeral(n, base)[0] != '0')
    decreases n
  {
    if n < base {
      DigitRoundTrip(n);
    } else {
      NoLeadingZero(n / base, base);
    }
  }

  function Zeros(n: nat): string {
    seq(n, i => '0')
  }

  /** Leading zeros do not change the value. */
  lemma {:induction false} LeadingZeros(n: nat, s: string, base: nat)
    ensures Value(Zeros(n) + s, base) == Value(s, base)
    decreases |s|, n
  {
    if s != "" {
      var t := Zeros(n) + s;
      assert t[..|t| - 1] == Zeros(n) + s[..|s| - 1];
      LeadingZeros(n, s[..|s| - 1], base);
    } else if n > 0 {
      assert (Zeros(n) + "")[..n - 1] == Zeros(n - 1) + "";
      LeadingZeros(n - 1, "", base);
    }
  }

  /** The decimal numeral padded with zeros to a width, as %012d does for width 12. */
  function Padded(n: nat, width: nat): string {
    var s := Numeral(n, 10);
    if |s| < width then Zeros(width - |s|) + s else s
  }

  lemma PaddedInjective(m: nat, n: nat, width: nat)
    requires Padded(m, width) == Padded(n, width)
    ensures m == n
  {
    PaddedValue(m, width);
    PaddedValue(n, width);
  }

  lemma PaddedValue(n: nat, width: nat)
    ensures IsNumeral(Padded(n, width), 10) && Value(Padded(n, width), 10) == n
  {
    hide Numeral, Value;
    NumeralRoundTrip(n, 10);
    var s := Numeral(n, 10);
    if |s| < width {
      LeadingZeros(width - |s|, s, 10);
    }
  }

  /** At least so many digits, and a leading zero only to reach them. */
  lemma PaddedWidth(n: nat, width: nat)
    requires width > 0
    ensures |Padded(n, width)| >= width && (|Padded(n, width)| > width ==> Padded(n, width)[0] != '0')
  {
    NoLeadingZero(n, 10);
    if |Numeral(n, 10)| > width {
      assert n > 0 by { assert Numeral(0, 10) == "0"; }
    }
  }
}
