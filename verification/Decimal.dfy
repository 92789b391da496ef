/** Decimal numerals: the text form of a natural number, its value, and zero padding. */
module Decimal {

  predicate IsDigit(c: char) { '0' <= c <= '9' }

  predicate AllDigits(s: string) { forall i :: 0 <= i < |s| ==> IsDigit(s[i]) }

  function DigitValue(c: char): (d: nat)
    requires IsDigit(c)
    ensures d < 10
  {
    c as int - '0' as int
  }

  function DigitChar(d: nat): (c: char)
    requires d < 10
    ensures IsDigit(c) && DigitValue(c) == d
  {
    (d + '0' as int) as char
  }

  function Pow10(k: nat): (p: nat)
    ensures p > 0
  {
    if k == 0 then 1 else 10 * Pow10(k - 1)
  }

  /** The number a digit string denotes; leading zeros are allowed. */
  function Value(s: string): nat
    requires AllDigits(s)
  {
    if s == "" then 0 else 10 * Value(s[..|s| - 1]) + DigitValue(s[|s| - 1])
  }

  /** The numeral of n with no leading zero, as strconv.FormatInt and ::text write it. */
  function Text(n: nat): string {
    if n < 10 then [DigitChar(n)] else Text(n / 10) + [DigitChar(n % 10)]
  }

  function Zeros(k: nat): string { seq(k, _ => '0') }

  /** Left-pads the numeral of n with zeros to at least `width` digits. */
  function Padded(n: nat, width: nat): string {
    if |Text(n)| < width then Zeros(width - |Text(n)|) + Text(n) else Text(n)
  }

  /** A digit string with no superfluous leading zero. */
  predicate Canonical(s: string) {
    s != "" && AllDigits(s) && (|s| > 1 ==> s[0] != '0')
  }

  lemma {:induction false} ValueBound(s: string)
    requires AllDigits(s)
    ensures Value(s) < Pow10(|s|)
  {
    if s != "" {
      ValueBound(s[..|s| - 1]);
    }
  }

  lemma {:induction false} ValueConcat(a: string, b: string)
    requires AllDigits(a) && AllDigits(b)
    ensures AllDigits(a + b)
    ensures Value(a + b) == Value(a) * Pow10(|b|) + Value(b)
  {
    if b == "" {
      assert a + b == a;
    } else {
      var c, d := b[..|b| - 1], b[|b| - 1];
      ValueConcat(a, c);
      assert (a + b)[..|a + b| - 1] == a + c;
      Shift(Value(a), Pow10(|c|), Value(c));
    }
  }

  lemma Shift(a: nat, p: nat, c: nat)
    ensures 10 * (a * p + c) == a * (10 * p) + 10 * c
  {}

  lemma {:induction false} ZerosAreZero(k: nat)
    ensures AllDigits(Zeros(k)) && Value(Zeros(k)) == 0
  {
    if k > 0 {
      ZerosAreZero(k - 1);
      assert Zeros(k)[..k - 1] == Zeros(k - 1);
    }
  }

  /** The numeral of n denotes n and is canonical. */
  lemma {:induction false} TextDenotes(n: nat)
    ensures Canonical(Text(n)) && Value(Text(n)) == n
    ensures n > 0 ==> Text(n)[0] != '0'
  {
    if n >= 10 {
      TextDenotes(n / 10);
      var h := Text(n / 10);
      assert Text(n)[..|Text(n)| - 1] == h;
    } else {
      assert Text(n)[..0] == "";
    }
  }

  /** A canonical digit string is the numeral of its value, so two of them with one value are equal. */
  lemma {:induction false} CanonicalIsText(s: string)
    requires Canonical(s)
    ensures Text(Value(s)) == s
  {
    var h := s[..|s| - 1];
    if |s| == 1 {
      assert Value(h) == 0;
    } else {
      CanonicalIsText(h);
      CanonicalPositive(h);
      assert s == h + [s[|s| - 1]];
    }
  }

  lemma {:induction false} CanonicalPositive(s: string)
    requires Canonical(s) && s[0] != '0'
    ensures Value(s) > 0
  {
    if |s| > 1 {
      CanonicalPositive(s[..|s| - 1]);
    } else {
      assert s[..0] == "";
    }
  }

  /** Padding changes no value: two padded numerals of one width are equal only for equal numbers. */
  lemma PaddedDenotes(n: nat, width: nat)
    ensures AllDigits(Padded(n, width)) && Value(Padded(n, width)) == n
    ensures |Padded(n, width)| >= width
  {
    TextDenotes(n);
    if |Text(n)| < width {
      var z := Zeros(width - |Text(n)|);
      ZerosAreZero(width - |Text(n)|);
      ValueConcat(z, Text(n));
    }
  }

  /** Equal digit strings of equal length are determined by their value. */
  lemma {:induction false} SameLengthSameValue(a: string, b: string)
    requires AllDigits(a) && AllDigits(b) && |a| == |b| && Value(a) == Value(b)
    ensures a == b
  {
    if a != "" {
      SameLengthSameValue(a[..|a| - 1], b[..|b| - 1]);
      assert a == a[..|a| - 1] + [a[|a| - 1]];
      assert b == b[..|b| - 1] + [b[|b| - 1]];
    }
  }

  /** The numeral is the shortest digit string with its value. */
  lemma {:induction false} TextIsShortest(s: string)
    requires AllDigits(s) && s != ""
    ensures |Text(Value(s))| <= |s|
    ensures |Text(Value(s))| == |s| ==> Text(Value(s)) == s
  {
    if Canonical(s) {
      CanonicalIsText(s);
    } else {
      var t := s[1..];
      assert s == [s[0]] + t;
      ValueConcat([s[0]], t);
      assert Value([s[0]]) == 0 by { assert [s[0]][..0] == ""; }
      TextIsShortest(t);
    }
  }

  /** A number below ten to the width has at most that many digits. */
  lemma {:induction false} TextFits(n: nat, width: nat)
    requires n < Pow10(width) && width > 0
    ensures |Text(n)| <= width
  {
    if n >= 10 {
      TextFits(n / 10, width - 1);
    }
  }
}
