/**
 Order quantities: decimal strings with three fractional digits at most, held as thousandths.
 Parse is the request side, Format the response side, NumericText what the NUMERIC(12,3)
 column prints in between.
 */
module Quantity {
  import opened Outcome
  import opened Decimal

  /** A numeral the API accepts: whole digits and, optionally, a dot and fraction digits. */
  datatype Numeral = Numeral(whole: string, fraction: Option<string>)

  ghost predicate WellFormed(n: Numeral) {
    && 1 <= |n.whole| <= 9 && AllDigits(n.whole)
    && (n.fraction.Some? ==> 1 <= |n.fraction.value| <= 3 && AllDigits(n.fraction.value))
  }

  ghost function Spell(n: Numeral): string {
    n.whole + if n.fraction.Some? then "." + n.fraction.value else ""
  }

  /** Thousandths denoted by a numeral. */
  ghost function Thousandths(n: Numeral): nat
    requires WellFormed(n)
  {
    1000 * Value(n.whole) +
    if n.fraction.Some? then Value(n.fraction.value) * Pow10(3 - |n.fraction.value|) else 0
  }

  ghost predicate Denotes(text: string, milli: nat) {
    exists n: Numeral :: WellFormed(n) && Spell(n) == text && Thousandths(n) == milli && milli > 0
  }

  /** What a quantity text means, if anything. */
  ghost function Reading(text: string): Option<nat> {
    if exists m: nat :: Denotes(text, m) then var m: nat :| Denotes(text, m); Some(m) else None
  }

  method DigitsOnly(s: string) returns (ok: bool)
    ensures ok <==> AllDigits(s)
  {
    for i := 0 to |s|
      invariant forall j :: 0 <= j < i ==> IsDigit(s[j])
    {
      if s[i] < '0' || s[i] > '9' {
        return false;
      }
    }
    return true;
  }

  /** k is the position of the first dot, or the length of a text without one. */
  ghost predicate FirstDotAt(text: string, k: nat) {
    && k <= |text|
    && (forall i :: 0 <= i < k ==> text[i] != '.')
    && (k < |text| ==> text[k] == '.')
  }

  method FirstDot(s: string) returns (k: nat)
    ensures FirstDotAt(s, k)
  {
    k := 0;
    while k < |s| && s[k] != '.'
      invariant k <= |s|
      invariant forall i :: 0 <= i < k ==> s[i] != '.'
    {
      k := k + 1;
    }
  }

  ghost function Split(text: string, k: nat): Numeral
    requires k <= |text|
  {
    Numeral(text[..k], if k < |text| then Some(text[k + 1..]) else None)
  }

  /** A text spells at most one numeral, and its first dot is where the whole part ends. */
  lemma SpellingSplits(n: Numeral, text: string, k: nat)
    requires WellFormed(n) && Spell(n) == text
    requires FirstDotAt(text, k)
    ensures n == Split(text, k)
  {
    var w := |n.whole|;
    forall i | 0 <= i < w ensures text[i] != '.' {
      assert IsDigit(n.whole[i]);
    }
    assert n.fraction.Some? ==> text[w] == '.';
    assert w == k;
    assert text[..w] == n.whole;
    if n.fraction.Some? {
      assert text[w + 1..] == n.fraction.value;
    }
  }

  lemma DenotesOnly(text: string, k: nat)
    requires FirstDotAt(text, k)
    ensures WellFormed(Split(text, k)) ==>
              forall m: nat :: Denotes(text, m) <==> m > 0 && Thousandths(Split(text, k)) == m
    ensures !WellFormed(Split(text, k)) ==> forall m: nat :: !Denotes(text, m)
  {
    forall m: nat | Denotes(text, m)
      ensures WellFormed(Split(text, k)) && Thousandths(Split(text, k)) == m
    {
      var n: Numeral :| WellFormed(n) && Spell(n) == text && Thousandths(n) == m && m > 0;
      SpellingSplits(n, text, k);
    }
    assert Spell(Split(text, k)) == text;
  }

  /** The whole part fits nine digits and a padded fraction three. */
  lemma PartBounds(n: Numeral)
    requires WellFormed(n)
    ensures Value(n.whole) < 1000000000
    ensures n.fraction.Some? ==>
              var padded := n.fraction.value + Zeros(3 - |n.fraction.value|);
              && AllDigits(padded) && Value(padded) < 1000
              && Thousandths(n) == 1000 * Value(n.whole) + Value(padded)
  {
    Powers();
    ValueBound(n.whole);
    PowerGrows(|n.whole|, 9);
    if n.fraction.Some? {
      var f := n.fraction.value;
      ZerosAreZero(3 - |f|);
      ValueConcat(f, Zeros(3 - |f|));
      ValueBound(f + Zeros(3 - |f|));
    }
  }

  /** The request parser accepts exactly the positive numerals and returns their thousandths. */
  method Parse(value: string) returns (r: Option<nat>)
    ensures r.Some? ==> Denotes(value, r.value) && 1 <= r.value <= 999999999999
    ensures r.None? ==> forall m: nat :: !Denotes(value, m)
    ensures r == Reading(value)
  {
    var k := FirstDot(value);
    DenotesOnly(value, k);
    var whole := value[..k];
    if |whole| == 0 || |whole| > 9 {
      return None;
    }
    var ok := DigitsOnly(whole);
    if !ok {
      return None;
    }
    var milli := 1000 * Value(whole);
    if k < |value| {
      var fraction := value[k + 1..];
      if |fraction| == 0 || |fraction| > 3 {
        return None;
      }
      ok := DigitsOnly(fraction);
      if !ok {
        return None;
      }
      PartBounds(Split(value, k));
      milli := milli + Value(fraction + Zeros(3 - |fraction|));
    } else {
      PartBounds(Split(value, k));
    }
    if milli <= 0 || milli > 999999999999 {
      return None;
    }
    return Some(milli);
  }

  lemma Powers()
    ensures Pow10(0) == 1 && Pow10(1) == 10 && Pow10(2) == 100 && Pow10(3) == 1000
    ensures Pow10(9) == 1000000000
  {
    assert Pow10(5) == 100000;
    assert Pow10(7) == 10000000;
  }

  lemma {:induction false} PowerGrows(a: nat, b: nat)
    requires a <= b
    ensures Pow10(a) <= Pow10(b)
  {
    if a < b {
      PowerGrows(a, b - 1);
    }
  }

  /** Text of the stored column: whole part, dot, exactly three fraction digits. */
  function NumericText(milli: nat): string {
    Text(milli / 1000) + "." + Padded(milli % 1000, 3)
  }

  function TrimRight(s: string, c: char): string {
    if s != "" && s[|s| - 1] == c then TrimRight(s[..|s| - 1], c) else s
  }

  /** Drops insignificant trailing zeros, and the dot when nothing follows it. */
  function Format(value: string): string {
    if '.' !in value then value else TrimRight(TrimRight(value, '0'), '.')
  }

  /** A text has at most one meaning. */
  lemma MeaningIsUnique(text: string, m: nat)
    requires Denotes(text, m)
    ensures Reading(text) == Some(m)
  {
    var n: Numeral :| WellFormed(n) && Spell(n) == text && Thousandths(n) == m;
    forall i | 0 <= i < |n.whole| ensures text[i] != '.' {
      assert IsDigit(n.whole[i]);
    }
    DenotesOnly(text, |n.whole|);
  }

  lemma {:induction false} TrimStops(a: string, b: string, c: char)
    requires a != "" && a[|a| - 1] != c
    ensures TrimRight(a + b, c) == a + TrimRight(b, c)
  {
    if b == "" {
      assert a + b == a;
    } else if b[|b| - 1] == c {
      assert (a + b)[..|a + b| - 1] == a + b[..|b| - 1];
      TrimStops(a, b[..|b| - 1], c);
    }
  }

  /** Trimming zeros cuts exactly the trailing zeros of a digit string. */
  lemma {:induction false} TrimZeros(f: string)
    requires AllDigits(f)
    ensures var t := TrimRight(f, '0');
            && |t| <= |f| && f == t + Zeros(|f| - |t|) && AllDigits(t)
            && (t != "" ==> t[|t| - 1] != '0')
            && (t == "" <==> Value(f) == 0)
            && Value(f) == Value(t) * Pow10(|f| - |t|)
  {
    if f != "" && f[|f| - 1] == '0' {
      var g := f[..|f| - 1];
      TrimZeros(g);
      var t := TrimRight(g, '0');
      assert Zeros(|f| - |t|) == Zeros(|g| - |t|) + "0";
      ScaleTen(Value(t), Pow10(|g| - |t|));
    }
  }

  lemma ScaleTen(v: nat, p: nat)
    ensures 10 * (v * p) == v * (10 * p)
  {}

  ghost function Shortened(milli: nat): Numeral {
    var f := TrimRight(Padded(milli % 1000, 3), '0');
    Numeral(Text(milli / 1000), if f == "" then None else Some(f))
  }

  lemma ThousandthDigits(r: nat)
    requires r < 1000
    ensures |Padded(r, 3)| == 3
  {
    TextDenotes(r);
    PaddedDenotes(r, 3);
    Powers();
    TextFits(r, 3);
  }

  lemma ShortenedDenotes(milli: nat)
    requires 1 <= milli <= 999999999999
    ensures WellFormed(Shortened(milli)) && Thousandths(Shortened(milli)) == milli
  {
    TextDenotes(milli / 1000);
    PaddedDenotes(milli % 1000, 3);
    ThousandthDigits(milli % 1000);
    TrimZeros(Padded(milli % 1000, 3));
    Powers();
    TextFits(milli / 1000, 9);
  }

  /** Trimming a numeral's zeros never crosses its dot. */
  lemma TrimKeepsWhole(w: string, p: string)
    requires w != "" && AllDigits(w) && AllDigits(p)
    ensures var f := TrimRight(p, '0');
            TrimRight(TrimRight(w + "." + p, '0'), '.') == if f == "" then w else w + "." + f
  {
    var d, f := w + ".", TrimRight(p, '0');
    TrimZeros(p);
    TrimStops(d, p, '0');
    if f == "" {
      assert d + f == d;
      TrimStops(w, ".", '.');
      assert "."[..0] == "" && TrimRight(".", '.') == "" && w + "" == w;
    }
  }

  lemma FormatTrims(w: string, p: string)
    ensures Format(w + "." + p) == TrimRight(TrimRight(w + "." + p, '0'), '.')
  {
    assert (w + "." + p)[|w|] == '.';
  }

  lemma SpellShortened(w: string, f: string)
    ensures Spell(Numeral(w, if f == "" then None else Some(f))) == if f == "" then w else w + "." + f
  {
    assert w + "" == w && w + ("." + f) == w + "." + f;
  }

  /** Formatting the stored text of m gives the numeral without leading or trailing zeros. */
  lemma FormatSpells(milli: nat)
    requires 1 <= milli <= 999999999999
    ensures WellFormed(Shortened(milli)) && Thousandths(Shortened(milli)) == milli
    ensures Format(NumericText(milli)) == Spell(Shortened(milli))
  {
    var w, p := Text(milli / 1000), Padded(milli % 1000, 3);
    ShortenedDenotes(milli);
    TextDenotes(milli / 1000);
    PaddedDenotes(milli % 1000, 3);
    FormatTrims(w, p);
    TrimKeepsWhole(w, p);
    SpellShortened(w, TrimRight(p, '0'));
  }

  /** Reading back what the API prints for a stored quantity returns that quantity. */
  lemma RoundTrip(milli: nat)
    requires 1 <= milli <= 999999999999
    ensures Reading(Format(NumericText(milli))) == Some(milli)
    ensures '.' in Format(NumericText(milli)) <==> milli % 1000 != 0
  {
    FormatSpells(milli);
    MeaningIsUnique(Format(NumericText(milli)), milli);
    var n := Shortened(milli);
    PaddedDenotes(milli % 1000, 3);
    TrimZeros(Padded(milli % 1000, 3));
    forall i | 0 <= i < |n.whole| ensures n.whole[i] != '.' {
      assert IsDigit(n.whole[i]);
    }
    assert n.fraction.Some? ==> Spell(n)[|n.whole|] == '.';
  }

  lemma Decompose(w: nat, q: nat, milli: nat)
    requires 1000 * w + q == milli && q < 1000
    ensures w == milli / 1000 && q == milli % 1000
  {}

  /** Its whole part and its fraction padded to three digits are those of the stored text. */
  lemma NumeralParts(n: Numeral, milli: nat)
    requires WellFormed(n) && Thousandths(n) == milli
    ensures Value(n.whole) == milli / 1000
    ensures match n.fraction
            case Some(g) => Padded(milli % 1000, 3) == g + Zeros(3 - |g|)
            case None => milli % 1000 == 0
  {
    PartBounds(n);
    PaddedDenotes(milli % 1000, 3);
    ThousandthDigits(milli % 1000);
    if n.fraction.Some? {
      var q := n.fraction.value + Zeros(3 - |n.fraction.value|);
      Decompose(Value(n.whole), Value(q), milli);
      SameLengthSameValue(Padded(milli % 1000, 3), q);
    } else {
      Decompose(Value(n.whole), 0, milli);
    }
  }

  /** The printed form is the one shortest text with its meaning. */
  lemma PrintedFormIsShortest(text: string, milli: nat)
    requires Denotes(text, milli) && milli <= 999999999999
    ensures |Format(NumericText(milli))| <= |text|
    ensures |Format(NumericText(milli))| == |text| ==> Format(NumericText(milli)) == text
  {
    var n: Numeral :| WellFormed(n) && Spell(n) == text && Thousandths(n) == milli;
    FormatSpells(milli);
    NumeralParts(n, milli);
    ShortestNumeral(n, milli);
  }

  lemma ShortestNumeral(n: Numeral, milli: nat)
    requires WellFormed(n) && Thousandths(n) == milli >= 1
    requires Value(n.whole) == milli / 1000
    requires n.fraction.Some? ==> Padded(milli % 1000, 3) == n.fraction.value + Zeros(3 - |n.fraction.value|)
    requires n.fraction.None? ==> milli % 1000 == 0
    ensures |Spell(Shortened(milli))| <= |Spell(n)|
    ensures |Spell(Shortened(milli))| == |Spell(n)| ==> Spell(Shortened(milli)) == Spell(n)
  {
    var p := Padded(milli % 1000, 3);
    PaddedDenotes(milli % 1000, 3);
    ThousandthDigits(milli % 1000);
    TrimZeros(p);
    TextIsShortest(n.whole);
    if n.fraction.Some? {
      CutsNoMore(TrimRight(p, '0'), n.fraction.value);
    }
  }

  /** Two digit strings that agree after zero padding: the one without trailing zero is the shorter. */
  lemma CutsNoMore(t: string, g: string)
    requires |t| <= 3 && |g| <= 3 && t + Zeros(3 - |t|) == g + Zeros(3 - |g|)
    requires t != "" ==> t[|t| - 1] != '0'
    ensures |t| <= |g| && (|t| == |g| ==> t == g)
  {
    var s := t + Zeros(3 - |t|);
    assert forall i :: |g| <= i < 3 ==> s[i] == '0';
    if t != "" {
      assert s[|t| - 1] == t[|t| - 1];
    }
    assert t == s[..|t|] && g == s[..|g|];
  }
}
