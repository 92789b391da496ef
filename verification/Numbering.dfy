/** Outlet codes and invoice numbers as text, and why different numbers never print alike. */
module Numbering {
  import opened Decimal

  datatype Date = Date(year: nat, month: nat, day: nat) {
    predicate Valid() { year <= 9999 && 1 <= month <= 12 && 1 <= day <= 31 }
  }

  /** The n-th outlet of a business: at least three digits. */
  function OutletCode(n: nat): string { Padded(n, 3) }

  function DateText(d: Date): string { Padded(d.year, 4) + Padded(d.month, 2) + Padded(d.day, 2) }

  /** An invoice number before it is printed: outlet, day, position within that outlet and day. */
  datatype Invoice = Invoice(outletNumber: nat, date: Date, sequence: nat)

  function InvoiceText(i: Invoice): string {
    OutletCode(i.outletNumber) + "-" + DateText(i.date) + "-" + Padded(i.sequence, 6)
  }

  lemma OutletCodeInjective(m: nat, n: nat)
    requires OutletCode(m) == OutletCode(n)
    ensures m == n
  {
    PaddedDenotes(m, 3);
    PaddedDenotes(n, 3);
  }

  lemma PaddedWidth(n: nat, width: nat)
    requires n < Pow10(width) && width > 0
    ensures |Padded(n, width)| == width && AllDigits(Padded(n, width))
  {
    TextFits(n, width);
    PaddedDenotes(n, width);
  }

  lemma DateTextIsDigits(d: Date)
    requires d.Valid()
    ensures |Padded(d.year, 4)| == 4 && |Padded(d.month, 2)| == 2 && |Padded(d.day, 2)| == 2
    ensures AllDigits(DateText(d))
  {
    assert Pow10(2) == 100;
    assert Pow10(4) == 10000;
    PaddedWidth(d.year, 4);
    PaddedWidth(d.month, 2);
    PaddedWidth(d.day, 2);
  }

  lemma DateTextInjective(d: Date, e: Date)
    requires d.Valid() && e.Valid() && DateText(d) == DateText(e)
    ensures d == e
  {
    DateTextIsDigits(d);
    DateTextIsDigits(e);
    var s := DateText(d);
    assert s[..4] == Padded(d.year, 4) && DateText(e)[..4] == Padded(e.year, 4);
    assert s[4..6] == Padded(d.month, 2) && DateText(e)[4..6] == Padded(e.month, 2);
    assert s[6..] == Padded(d.day, 2) && DateText(e)[6..] == Padded(e.day, 2);
    PaddedDenotes(d.year, 4);
    PaddedDenotes(e.year, 4);
    PaddedDenotes(d.month, 2);
    PaddedDenotes(e.month, 2);
    PaddedDenotes(d.day, 2);
    PaddedDenotes(e.day, 2);
  }

  /** A text splits at its first separator in one way. */
  lemma SplitAtDash(a: string, b: string, c: string, d: string)
    requires AllDigits(a) && AllDigits(c) && a + "-" + b == c + "-" + d
    ensures a == c && b == d
  {
    var s, u := a + "-" + b, c + "-" + d;
    assert s[|a|] == '-' && u[|c|] == '-';
    assert forall i :: 0 <= i < |a| ==> s[i] == a[i] && IsDigit(s[i]);
    assert forall i :: 0 <= i < |c| ==> u[i] == c[i] && IsDigit(u[i]);
    assert a == s[..|a|] && c == u[..|c|];
    assert b == s[|a| + 1..] && d == u[|c| + 1..];
  }

  /** Two invoice numbers that print the same are the same: outlet, day and sequence. */
  lemma InvoiceTextInjective(i: Invoice, j: Invoice)
    requires i.date.Valid() && j.date.Valid() && InvoiceText(i) == InvoiceText(j)
    ensures i == j
  {
    PaddedDenotes(i.outletNumber, 3);
    PaddedDenotes(j.outletNumber, 3);
    DateTextIsDigits(i.date);
    DateTextIsDigits(j.date);
    var ri := DateText(i.date) + "-" + Padded(i.sequence, 6);
    var rj := DateText(j.date) + "-" + Padded(j.sequence, 6);
    assert InvoiceText(i) == OutletCode(i.outletNumber) + "-" + ri;
    assert InvoiceText(j) == OutletCode(j.outletNumber) + "-" + rj;
    SplitAtDash(OutletCode(i.outletNumber), ri, OutletCode(j.outletNumber), rj);
    SplitAtDash(DateText(i.date), Padded(i.sequence, 6), DateText(j.date), Padded(j.sequence, 6));
    DateTextInjective(i.date, j.date);
    PaddedDenotes(i.sequence, 6);
    PaddedDenotes(j.sequence, 6);
  }

  /** The numeral of n, filled with zeros up to the width and never beyond it. */
  ghost predicate ReadsAs(text: string, n: nat, width: nat) {
    && AllDigits(text) && Value(text) == n && |text| >= width && (|text| > width && |text| > 1 ==> text[0] != '0')
  }

  lemma PaddedReads(n: nat, width: nat)
    ensures ReadsAs(Padded(n, width), n, width)
  {
    PaddedDenotes(n, width);
    TextDenotes(n);
  }

  lemma OutletCodeReads(n: nat)
    ensures ReadsAs(OutletCode(n), n, 3)
  {
    PaddedReads(n, 3);
  }

  /** An invoice number is outlet code, eight-digit date and six-digit sequence, joined by dashes. */
  lemma InvoiceTextReads(i: Invoice)
    requires i.date.Valid()
    ensures exists code, day, number :: InvoiceText(i) == code + "-" + day + "-" + number && Reads(i, code, day, number)
  {
    PaddedReads(i.outletNumber, 3);
    PaddedReads(i.sequence, 6);
    DateTextIsDigits(i.date);
    PaddedDenotes(i.date.year, 4);
    PaddedDenotes(i.date.month, 2);
    PaddedDenotes(i.date.day, 2);
    var day := DateText(i.date);
    assert day[..4] == Padded(i.date.year, 4) && day[4..6] == Padded(i.date.month, 2);
    assert day[6..] == Padded(i.date.day, 2);
    assert Reads(i, OutletCode(i.outletNumber), day, Padded(i.sequence, 6));
  }

  ghost predicate Reads(i: Invoice, code: string, day: string, number: string) {
    && ReadsAs(code, i.outletNumber, 3) && ReadsAs(number, i.sequence, 6)
    && |day| == 8 && AllDigits(day)
    && Value(day[..4]) == i.date.year && Value(day[4..6]) == i.date.month && Value(day[6..]) == i.date.day
  }
}
