/**
 Exact order totals: every requested line is priced from the catalog, rounded to whole rupiah
 on its own, and added to a total that must fit a signed 64-bit column.
 */
module Pricing {
  import opened Outcome
  import opened Quantity

  const MAX_INT64: int := 0x7fff_ffff_ffff_ffff

  datatype Service = Service(name: string, unit: string, price: nat)

  datatype Item = Item(service: int, quantity: string)

  datatype Line = Line(service: int, name: string, unit: string, price: nat, milli: nat, total: nat)

  datatype PricingError = ServiceNotFound | BadQuantity | TotalOverflow

  type Catalog = map<int, Service>

  function LineTotal(milli: nat, price: nat): nat { (milli * price + 500) / 1000 }

  /** The line a valid item becomes, before any overflow check. */
  ghost function PriceItem(catalog: Catalog, item: Item): Result<Line, PricingError> {
    if item.service !in catalog then Err(ServiceNotFound)
    else
      var s := catalog[item.service];
      match Reading(item.quantity)
      case None => Err(BadQuantity)
      case Some(milli) =>
        if s.unit == "pcs" && milli % 1000 != 0 then Err(BadQuantity)
        else Ok(Line(item.service, s.name, s.unit, s.price, milli, LineTotal(milli, s.price)))
  }

  function Total(lines: seq<Line>): nat {
    if lines == [] then 0 else Total(lines[..|lines| - 1]) + lines[|lines| - 1].total
  }

  /** Lines of a request taken in order; the first item that fails decides the error. */
  ghost function Priced(catalog: Catalog, items: seq<Item>): Result<seq<Line>, PricingError> {
    if items == [] then Ok([])
    else
      match Priced(catalog, items[..|items| - 1])
      case Err(e) => Err(e)
      case Ok(lines) =>
        match PriceItem(catalog, items[|items| - 1])
        case Err(e) => Err(e)
        case Ok(line) =>
          if Total(lines) + line.total > MAX_INT64 then Err(TotalOverflow) else Ok(lines + [line])
  }

  method PriceLines(catalog: Catalog, items: seq<Item>)
    returns (r: Result<(seq<Line>, nat), PricingError>)
    ensures r.Ok? <==> Priced(catalog, items).Ok?
    ensures r.Ok? ==> r.value.0 == Priced(catalog, items).value && r.value.1 == Total(r.value.0)
    ensures r.Err? ==> r.error == Priced(catalog, items).error
  {
    var lines, total := [], 0;
    for i := 0 to |items|
      invariant Priced(catalog, items[..i]) == Ok(lines)
      invariant total == Total(lines) <= MAX_INT64
    {
      var item := items[i];
      assert items[..i + 1][..i] == items[..i];
      ErrorsStay(catalog, items, i + 1);
      if item.service !in catalog {
        return Err(ServiceNotFound);
      }
      var s := catalog[item.service];
      var milli := Parse(item.quantity);
      if milli.None? || (s.unit == "pcs" && milli.value % 1000 != 0) {
        return Err(BadQuantity);
      }
      var lineTotal := LineTotal(milli.value, s.price);
      if lineTotal > MAX_INT64 {
        return Err(TotalOverflow);
      }
      if total + lineTotal > MAX_INT64 {
        return Err(TotalOverflow);
      }
      var line := Line(item.service, s.name, s.unit, s.price, milli.value, lineTotal);
      assert (lines + [line])[..|lines|] == lines;
      lines, total := lines + [line], total + lineTotal;
    }
    assert items[..|items|] == items;
    return Ok((lines, total));
  }

  /** An item that fails decides the outcome of every longer request. */
  lemma {:induction false} ErrorsStay(catalog: Catalog, items: seq<Item>, k: nat)
    requires k <= |items|
    ensures Priced(catalog, items[..k]).Err? ==> Priced(catalog, items) == Priced(catalog, items[..k])
  {
    if k < |items| {
      ErrorsStay(catalog, items[..|items| - 1], k);
      assert items[..|items| - 1][..k] == items[..k];
    } else {
      assert items[..k] == items;
    }
  }

  /** LineTotal is the product rounded to the nearest thousand, halves upward. */
  lemma RoundsHalfUp(milli: nat, price: nat)
    ensures 1000 * LineTotal(milli, price) - 500 <= milli * price < 1000 * LineTotal(milli, price) + 500
  {}

  // ------------------------------------------------------------------ what a line charges

  /** The total is the price of the quantity to within half a rupiah, halves rounded up. */
  ghost predicate Rounded(line: Line) {
    1000 * line.total - 500 <= line.milli * line.price < 1000 * line.total + 500
  }

  /** The line bills the item: as the catalog has the service, for the quantity the text denotes, whole if in pieces. */
  ghost predicate Bills(catalog: Catalog, item: Item, line: Line) {
    && line.service == item.service && item.service in catalog
    && catalog[item.service] == Service(line.name, line.unit, line.price)
    && Denotes(item.quantity, line.milli) && (line.unit == "pcs" ==> line.milli % 1000 == 0) && Rounded(line)
  }

  ghost predicate BillsAll(catalog: Catalog, items: seq<Item>, lines: seq<Line>) {
    |lines| == |items| && forall i :: 0 <= i < |items| ==> Bills(catalog, items[i], lines[i])
  }

  /** Why an item cannot be billed, whatever else is in the request. */
  ghost predicate Unbillable(catalog: Catalog, item: Item, e: PricingError) {
    match e
    case ServiceNotFound => item.service !in catalog
    case BadQuantity =>
      && item.service in catalog
      && forall m: nat :: Denotes(item.quantity, m) ==> catalog[item.service].unit == "pcs" && m % 1000 != 0
    case TotalOverflow => false
  }

  /** After lines that fit, the next item cannot be billed, or the sum with it does not fit. */
  ghost predicate FailsNext(catalog: Catalog, lines: seq<Line>, item: Item, e: PricingError) {
    && Total(lines) <= MAX_INT64
    && (|| Unbillable(catalog, item, e)
        || (e.TotalOverflow? && exists line :: Bills(catalog, item, line) && Total(lines) + line.total > MAX_INT64))
  }

  /** Item k is the first that fails. */
  ghost predicate FailsAt(catalog: Catalog, items: seq<Item>, k: nat, e: PricingError) {
    k < |items| && exists lines :: BillsAll(catalog, items[..k], lines) && FailsNext(catalog, lines, items[k], e)
  }

  lemma ItemBilled(catalog: Catalog, item: Item)
    ensures PriceItem(catalog, item).Ok? ==> Bills(catalog, item, PriceItem(catalog, item).value)
    ensures PriceItem(catalog, item).Err? ==> Unbillable(catalog, item, PriceItem(catalog, item).error)
  {
    forall m: nat | Denotes(item.quantity, m) ensures Reading(item.quantity) == Some(m) {
      MeaningIsUnique(item.quantity, m);
    }
    if PriceItem(catalog, item).Ok? {
      RoundsHalfUp(PriceItem(catalog, item).value.milli, PriceItem(catalog, item).value.price);
    }
  }

  /** There is one way to bill an item, and none when it is unbillable. */
  lemma BilledOnce(catalog: Catalog, item: Item, line: Line)
    requires Bills(catalog, item, line)
    ensures PriceItem(catalog, item) == Ok(line)
    ensures forall e :: !Unbillable(catalog, item, e)
  {
    MeaningIsUnique(item.quantity, line.milli);
    RoundsHalfUp(line.milli, line.price);
  }

  lemma PricedNext(catalog: Catalog, items: seq<Item>, lines: seq<Line>, item: Item)
    requires Priced(catalog, items) == Ok(lines)
    ensures PriceItem(catalog, item).Err? ==> Priced(catalog, items + [item]) == Err(PriceItem(catalog, item).error)
    ensures PriceItem(catalog, item).Ok? ==>
              Priced(catalog, items + [item]) ==
              if Total(lines) + PriceItem(catalog, item).value.total > MAX_INT64 then Err(TotalOverflow)
              else Ok(lines + [PriceItem(catalog, item).value])
  {
    assert (items + [item])[..|items|] == items;
  }

  lemma TotalAppended(lines: seq<Line>, line: Line)
    ensures Total(lines + [line]) == Total(lines) + line.total
  {
    assert (lines + [line])[..|lines|] == lines;
  }

  lemma FailureStays(catalog: Catalog, items: seq<Item>, n: nat, k: nat, e: PricingError)
    requires n <= |items| && FailsAt(catalog, items[..n], k, e)
    ensures FailsAt(catalog, items, k, e)
  {
    assert items[..n][..k] == items[..k];
  }

  lemma {:induction false} AllBilled(catalog: Catalog, items: seq<Item>)
    ensures Priced(catalog, items).Ok? ==>
              BillsAll(catalog, items, Priced(catalog, items).value) && Total(Priced(catalog, items).value) <= MAX_INT64
    ensures Priced(catalog, items).Err? ==> exists k: nat :: FailsAt(catalog, items, k, Priced(catalog, items).error)
  {
    if items != [] {
      var n := |items| - 1;
      AllBilled(catalog, items[..n]);
      var head := Priced(catalog, items[..n]);
      if head.Err? {
        var k: nat :| FailsAt(catalog, items[..n], k, head.error);
        FailureStays(catalog, items, n, k, head.error);
      } else {
        LastItemBilled(catalog, items, items[..n], items[n], head.value);
      }
    }
  }

  lemma LastItemBilled(catalog: Catalog, items: seq<Item>, head: seq<Item>, item: Item, lines: seq<Line>)
    requires items == head + [item] && Priced(catalog, head) == Ok(lines)
    requires BillsAll(catalog, head, lines) && Total(lines) <= MAX_INT64
    ensures Priced(catalog, items).Ok? ==>
              BillsAll(catalog, items, Priced(catalog, items).value) && Total(Priced(catalog, items).value) <= MAX_INT64
    ensures Priced(catalog, items).Err? ==> FailsAt(catalog, items, |head|, Priced(catalog, items).error)
  {
    PricedNext(catalog, head, lines, item);
    ItemBilled(catalog, item);
    assert items[..|head|] == head;
    if Priced(catalog, items).Ok? {
      TotalAppended(lines, PriceItem(catalog, item).value);
    } else {
      assert FailsNext(catalog, lines, item, Priced(catalog, items).error);
    }
  }

  lemma {:induction false} BilledLinesArePriced(catalog: Catalog, items: seq<Item>, lines: seq<Line>)
    requires BillsAll(catalog, items, lines) && Total(lines) <= MAX_INT64
    ensures Priced(catalog, items) == Ok(lines)
  {
    if items != [] {
      var n := |items| - 1;
      BilledLinesArePriced(catalog, items[..n], lines[..n]);
      BilledOnce(catalog, items[n], lines[n]);
      assert lines == lines[..n] + [lines[n]];
    }
  }

  lemma NextFails(catalog: Catalog, items: seq<Item>, lines: seq<Line>, item: Item, e: PricingError)
    requires Priced(catalog, items) == Ok(lines) && FailsNext(catalog, lines, item, e)
    ensures Priced(catalog, items + [item]) == Err(e)
  {
    PricedNext(catalog, items, lines, item);
    if Unbillable(catalog, item, e) {
      UnbillableIsRefused(catalog, item, e);
    } else {
      var line :| Bills(catalog, item, line) && Total(lines) + line.total > MAX_INT64;
      BilledOnce(catalog, item, line);
    }
  }

  lemma PrefixFails(catalog: Catalog, items: seq<Item>, k: nat, lines: seq<Line>, e: PricingError)
    requires k < |items| && BillsAll(catalog, items[..k], lines) && FailsNext(catalog, lines, items[k], e)
    ensures Priced(catalog, items[..k + 1]) == Err(e)
  {
    BilledLinesArePriced(catalog, items[..k], lines);
    NextFails(catalog, items[..k], lines, items[k], e);
    assert items[..k] + [items[k]] == items[..k + 1];
  }

  lemma FirstFailureDecides(catalog: Catalog, items: seq<Item>, k: nat, e: PricingError)
    requires FailsAt(catalog, items, k, e)
    ensures Priced(catalog, items) == Err(e)
  {
    var lines :| BillsAll(catalog, items[..k], lines) && FailsNext(catalog, lines, items[k], e);
    PrefixFails(catalog, items, k, lines, e);
    ErrorsStay(catalog, items, k + 1);
  }

  lemma UnbillableIsRefused(catalog: Catalog, item: Item, e: PricingError)
    requires Unbillable(catalog, item, e)
    ensures PriceItem(catalog, item) == Err(e)
  {
    ItemBilled(catalog, item);
    if PriceItem(catalog, item).Ok? {
      BilledOnce(catalog, item, PriceItem(catalog, item).value);
    }
  }

  /**
   A request is priced to exactly the lines that bill its items, in order, when their sum fits the
   column, and fails exactly with the error of its first item that cannot be billed or does not fit.
   */
  lemma PricedBillsExactly(catalog: Catalog, items: seq<Item>)
    ensures forall lines :: Priced(catalog, items) == Ok(lines) <==>
                            BillsAll(catalog, items, lines) && Total(lines) <= MAX_INT64
    ensures forall e :: Priced(catalog, items) == Err(e) <==> exists k: nat :: FailsAt(catalog, items, k, e)
  {
    AllBilled(catalog, items);
    forall lines | BillsAll(catalog, items, lines) && Total(lines) <= MAX_INT64
      ensures Priced(catalog, items) == Ok(lines)
    {
      BilledLinesArePriced(catalog, items, lines);
    }
    forall e, k: nat | FailsAt(catalog, items, k, e) ensures Priced(catalog, items) == Err(e) {
      FirstFailureDecides(catalog, items, k, e);
    }
  }

  // ------------------------------------------------------------------ sums of lines

  /** The stored line satisfies the column check line_total = round(quantity * price). */
  lemma MatchesColumnCheck(milli: nat, price: nat)
    ensures LineTotal(milli, price) == (milli as real / 1000.0 * price as real + 0.5).Floor
  {
    var x, t := milli * price, LineTotal(milli, price);
    RealProduct(milli, price);
    assert t as real <= x as real / 1000.0 + 0.5 < (t + 1) as real;
  }

  lemma RealProduct(milli: nat, price: nat)
    ensures milli as real / 1000.0 * price as real == (milli * price) as real / 1000.0
  {
    assert (milli * price) as real == milli as real * price as real;
  }

  ghost predicate AllValid(catalog: Catalog, items: seq<Item>) {
    forall i :: 0 <= i < |items| ==> PriceItem(catalog, items[i]).Ok?
  }

  ghost function ExactLines(catalog: Catalog, items: seq<Item>): seq<Line>
    requires AllValid(catalog, items)
  {
    seq(|items|, i requires 0 <= i < |items| => PriceItem(catalog, items[i]).value)
  }

  /** The early exit on overflow fires exactly when the exact sum of all lines is too large. */
  lemma {:induction false} OverflowExactly(catalog: Catalog, items: seq<Item>)
    requires AllValid(catalog, items)
    ensures Priced(catalog, items) ==
            if Total(ExactLines(catalog, items)) <= MAX_INT64 then Ok(ExactLines(catalog, items))
            else Err(TotalOverflow)
  {
    if items != [] {
      var head := items[..|items| - 1];
      OverflowExactly(catalog, head);
      var lines := ExactLines(catalog, items);
      assert lines[..|lines| - 1] == ExactLines(catalog, head);
      assert lines == ExactLines(catalog, head) + [PriceItem(catalog, items[|items| - 1]).value];
    }
  }

  /** A request is priced exactly when every item is valid and the exact sum fits. */
  lemma {:induction false} PricedExactly(catalog: Catalog, items: seq<Item>)
    ensures Priced(catalog, items).Ok? <==>
            AllValid(catalog, items) && Total(ExactLines(catalog, items)) <= MAX_INT64
  {
    if items != [] {
      var head := items[..|items| - 1];
      PricedExactly(catalog, head);
      assert AllValid(catalog, items) <==>
             AllValid(catalog, head) && PriceItem(catalog, items[|items| - 1]).Ok? by {
        assert forall i :: 0 <= i < |head| ==> head[i] == items[i];
      }
      if AllValid(catalog, items) {
        OverflowExactly(catalog, items);
      }
    }
  }

  ghost function ExactSum(lines: seq<Line>): nat {
    if lines == [] then 0
    else ExactSum(lines[..|lines| - 1]) + lines[|lines| - 1].milli * lines[|lines| - 1].price
  }

  /** Rounding line by line never moves an order by more than half a rupiah per line. */
  lemma {:induction false} RoundingDrift(lines: seq<Line>)
    requires forall i :: 0 <= i < |lines| ==> Rounded(lines[i])
    ensures -500 * |lines| <= 1000 * Total(lines) - ExactSum(lines) <= 500 * |lines|
  {
    if lines != [] {
      RoundingDrift(lines[..|lines| - 1]);
    }
  }

  lemma {:induction false} TotalWithout(lines: seq<Line>, k: nat)
    requires k < |lines|
    ensures Total(lines) == Total(lines[..k] + lines[k + 1..]) + lines[k].total
  {
    var n := |lines| - 1;
    if k < n {
      TotalWithout(lines[..n], k);
      assert (lines[..k] + lines[k + 1..])[..n - 1] == lines[..n][..k] + lines[..n][k + 1..];
    } else {
      assert lines[..k] + lines[k + 1..] == lines[..n];
    }
  }

  lemma WithoutItem(catalog: Catalog, items: seq<Item>, k: nat)
    requires k < |items| && AllValid(catalog, items)
    ensures AllValid(catalog, items[..k] + items[k + 1..])
    ensures Total(ExactLines(catalog, items)) ==
            Total(ExactLines(catalog, items[..k] + items[k + 1..])) + PriceItem(catalog, items[k]).value.total
  {
    var lines := ExactLines(catalog, items);
    TotalWithout(lines, k);
    assert lines[..k] + lines[k + 1..] == ExactLines(catalog, items[..k] + items[k + 1..]);
  }

  lemma SameItemsSameValidity(catalog: Catalog, a: seq<Item>, b: seq<Item>)
    requires multiset(a) == multiset(b) && AllValid(catalog, a)
    ensures AllValid(catalog, b)
  {
    forall i | 0 <= i < |b| ensures PriceItem(catalog, b[i]).Ok? {
      assert b[i] in multiset(a);
      assert b[i] in a;
    }
  }

  /** The last item of one list sits somewhere in any rearrangement of it. */
  lemma FindLast<T>(a: seq<T>, b: seq<T>) returns (k: nat)
    requires multiset(a) == multiset(b) && a != []
    ensures k < |b| && b[k] == a[|a| - 1]
    ensures multiset(a[..|a| - 1]) == multiset(b[..k] + b[k + 1..])
  {
    var n := |a| - 1;
    assert a[n] in multiset(b);
    assert a[n] in b;
    k :| 0 <= k < |b| && b[k] == a[n];
    assert a == a[..n] + [a[n]];
    assert b == b[..k] + [b[k]] + b[k + 1..];
    assert multiset(a) == multiset(a[..n]) + multiset{a[n]};
    assert multiset(b) == multiset(b[..k]) + multiset{b[k]} + multiset(b[k + 1..]);
    assert multiset(b[..k] + b[k + 1..]) == multiset(b[..k]) + multiset(b[k + 1..]);
    assert multiset(a[..n]) == multiset(a) - multiset{a[n]};
    assert multiset(b[..k]) + multiset(b[k + 1..]) == multiset(b) - multiset{b[k]};
  }

  lemma {:induction false} SameItemsSameTotal(catalog: Catalog, a: seq<Item>, b: seq<Item>)
    requires multiset(a) == multiset(b) && AllValid(catalog, a) && AllValid(catalog, b)
    ensures Total(ExactLines(catalog, a)) == Total(ExactLines(catalog, b))
  {
    if a == [] {
      assert |multiset(b)| == 0;
    } else {
      var n := |a| - 1;
      var k := FindLast(a, b);
      WithoutItem(catalog, b, k);
      WithoutItem(catalog, a, n);
      assert a[..n] + a[n + 1..] == a[..n];
      SameItemsSameTotal(catalog, a[..n], b[..k] + b[k + 1..]);
    }
  }

  /** Reordering a request changes neither whether it is accepted nor its total. */
  lemma OrderOfItemsIsIrrelevant(catalog: Catalog, a: seq<Item>, b: seq<Item>)
    requires multiset(a) == multiset(b)
    ensures Priced(catalog, a).Ok? == Priced(catalog, b).Ok?
    ensures Priced(catalog, a).Ok? ==> Total(Priced(catalog, a).value) == Total(Priced(catalog, b).value)
  {
    PricedExactly(catalog, a);
    PricedExactly(catalog, b);
    if AllValid(catalog, a) {
      SameItemsSameValidity(catalog, a, b);
      SameItemsSameTotal(catalog, a, b);
      OverflowExactly(catalog, a);
      OverflowExactly(catalog, b);
    } else if AllValid(catalog, b) {
      SameItemsSameValidity(catalog, b, a);
    }
  }
}
