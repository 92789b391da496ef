/**
 Orders as they are created: one per idempotency key, priced by their stored lines, and numbered
 without gaps or repetition; outlet codes likewise.
 */
module Numbers {
  import opened Outcome
  import opened Places
  import opened Tables
  import opened Pricing
  import opened Numbering
  import opened Plans
  import opened Shapes

  // ------------------------------------------------------------------ one order per key

  ghost predicate KeyDistinct(orders: map<int, Order>, a: int, b: int) {
    a in orders && b in orders && a != b ==>
      !(orders[a].place == orders[b].place && orders[a].key == orders[b].key)
  }

  ghost predicate KeysOk(t: Tables) { forall a, b :: KeyDistinct(t.orders, a, b) }

  lemma KeyIsFree(orders: map<int, Order>, place: Place, key: string, id: int)
    requires OrderWithKey(orders, place, key).None? && id in orders
    ensures !(orders[id].place == place && orders[id].key == key)
  {
    assert !HasKey(orders[id], place, key);
  }

  lemma ChangeKeepsKeys(t: Tables, env: Env, w: WriteSet)
    requires KeysOk(t) && FreshIds(t, env.ids) && Shaped(t, env, w)
    ensures KeysOk(Apply(t, w))
  {
    var u := Apply(t, w);
    forall a, b ensures KeyDistinct(u.orders, a, b) {
      assert KeyDistinct(t.orders, a, b);
      if Inserts(t, env, w) {
        var row := w.order.value.row;
        if a in t.orders {
          KeyIsFree(t.orders, row.place, row.key, a);
        }
        if b in t.orders {
          KeyIsFree(t.orders, row.place, row.key, b);
        }
      }
    }
  }

  /** The key finds exactly the order that holds it. */
  lemma KeyFinds(t: Tables, id: int)
    requires KeysOk(t) && id in t.orders
    ensures OrderWithKey(t.orders, t.orders[id].place, t.orders[id].key) == Some(id)
  {
    var o := t.orders[id];
    assert HasKey(o, o.place, o.key);
    var found := OrderWithKey(t.orders, o.place, o.key).value;
    assert HasKey(t.orders[found], o.place, o.key);
    assert KeyDistinct(t.orders, id, found);
  }

  // ------------------------------------------------------------------ lines and totals

  ghost predicate LinesSound(orders: map<int, Order>, items: seq<OrderItem>, id: int) {
    if id in orders then Total(ItemsOf(items, id)) == orders[id].total else ItemsOf(items, id) == []
  }

  ghost predicate LinesOk(t: Tables) { forall id :: LinesSound(t.orders, t.items, id) }

  lemma {:induction false} ItemsJoined(rows: seq<OrderItem>, more: seq<OrderItem>, id: int)
    ensures ItemsOf(rows + more, id) == ItemsOf(rows, id) + ItemsOf(more, id)
  {
    if more == [] {
      assert rows + more == rows;
    } else {
      var n := |more| - 1;
      ItemsJoined(rows, more[..n], id);
      assert (rows + more)[..|rows + more| - 1] == rows + more[..n];
    }
  }

  lemma {:induction false} NewItemsOf(id: int, lines: seq<Line>, perfume: Option<int>, x: int)
    ensures ItemsOf(NewItems(id, lines, perfume), x) == if x == id then lines else []
  {
    if lines != [] {
      var n := |lines| - 1;
      NewItemsOf(id, lines[..n], perfume, x);
      assert NewItems(id, lines, perfume)[..n] == NewItems(id, lines[..n], perfume);
    }
  }

  lemma InsertedLines(t: Tables, env: Env, w: WriteSet, id: int)
    requires LinesOk(t) && FreshIds(t, env.ids) && Inserts(t, env, w)
    ensures LinesSound(Apply(t, w).orders, Apply(t, w).items, id)
  {
    assert LinesSound(t.orders, t.items, id);
    ItemsJoined(t.items, w.items, id);
    var lines, perfume :| w.order.value.row.total == Total(lines) && w.items == NewItems(env.ids.order, lines, perfume);
    NewItemsOf(env.ids.order, lines, perfume, id);
    assert [] + lines == lines && ItemsOf(t.items, id) + [] == ItemsOf(t.items, id);
  }

  lemma ChangeKeepsLines(t: Tables, env: Env, w: WriteSet)
    requires LinesOk(t) && FreshIds(t, env.ids) && Shaped(t, env, w)
    ensures LinesOk(Apply(t, w))
  {
    var u := Apply(t, w);
    forall id ensures LinesSound(u.orders, u.items, id) {
      if Inserts(t, env, w) {
        InsertedLines(t, env, w, id);
      } else {
        assert LinesSound(t.orders, t.items, id);
        assert u.items == t.items;
      }
    }
  }

  // ------------------------------------------------------------------ invoice numbers

  ghost predicate Numbered(o: Order, c: CounterRef, k: nat) {
    o.place == c.place && o.invoice.date == c.date && o.invoice.sequence == k
  }

  ghost predicate Issued(orders: map<int, Order>, c: CounterRef, k: nat) {
    exists id :: id in orders && Numbered(orders[id], c, k)
  }

  /** A counter has issued exactly the numbers below it, from one. */
  ghost predicate CounterSound(orders: map<int, Order>, counters: map<CounterRef, nat>, c: CounterRef, k: nat) {
    && NextNumber(counters, c) >= 1
    && (Issued(orders, c, k) <==> 1 <= k < NextNumber(counters, c))
  }

  ghost predicate NumberDistinct(orders: map<int, Order>, a: int, b: int) {
    a in orders && b in orders && a != b && orders[a].place == orders[b].place
      && orders[a].invoice.date == orders[b].invoice.date ==>
      orders[a].invoice.sequence != orders[b].invoice.sequence
  }

  ghost predicate InvoicePrinted(orders: map<int, Order>, outlets: map<Place, nat>, id: int) {
    id in orders ==>
      && orders[id].place in outlets && orders[id].invoice.outletNumber == outlets[orders[id].place]
      && orders[id].invoice.date.Valid()
  }

  ghost predicate InvoicesOk(t: Tables) {
    && (forall c, k: nat :: CounterSound(t.orders, t.counters, c, k))
    && (forall a, b :: NumberDistinct(t.orders, a, b))
    && (forall id :: InvoicePrinted(t.orders, t.outlets, id))
  }

  lemma InsertIssues(t: Tables, env: Env, w: WriteSet, c: CounterRef, k: nat)
    requires InvoicesOk(t) && FreshIds(t, env.ids) && Inserts(t, env, w)
    ensures CounterSound(Apply(t, w).orders, Apply(t, w).counters, c, k)
  {
    var u, row := Apply(t, w), w.order.value.row;
    assert CounterSound(t.orders, t.counters, c, k);
    if Issued(u.orders, c, k) {
      var id :| id in u.orders && Numbered(u.orders[id], c, k);
      assert id in t.orders ==> Numbered(t.orders[id], c, k);
    }
    if Issued(t.orders, c, k) {
      var id :| id in t.orders && Numbered(t.orders[id], c, k);
      assert Numbered(u.orders[id], c, k);
    }
    assert Numbered(row, CounterRef(row.place, env.today), row.invoice.sequence);
    assert u.orders[env.ids.order] == row;
  }

  lemma RewriteIssues(t: Tables, w: WriteSet, c: CounterRef, k: nat)
    requires InvoicesOk(t) && w.counter.None?
    requires w.order.Some? ==>
               w.order.value.key in t.orders && SameIdentity(t.orders[w.order.value.key], w.order.value.row)
    ensures CounterSound(Apply(t, w).orders, Apply(t, w).counters, c, k)
  {
    var u := Apply(t, w);
    assert CounterSound(t.orders, t.counters, c, k);
    if Issued(u.orders, c, k) {
      var id :| id in u.orders && Numbered(u.orders[id], c, k);
      assert Numbered(t.orders[id], c, k);
    }
    if Issued(t.orders, c, k) {
      var id :| id in t.orders && Numbered(t.orders[id], c, k);
      assert Numbered(u.orders[id], c, k);
    }
  }

  lemma ChangeKeepsInvoices(t: Tables, env: Env, w: WriteSet)
    requires InvoicesOk(t) && FreshIds(t, env.ids) && Shaped(t, env, w) && env.today.Valid()
    ensures InvoicesOk(Apply(t, w))
  {
    var u := Apply(t, w);
    forall c, k: nat ensures CounterSound(u.orders, u.counters, c, k) {
      if Inserts(t, env, w) {
        InsertIssues(t, env, w, c, k);
      } else {
        RewriteIssues(t, w, c, k);
      }
    }
    forall a, b ensures NumberDistinct(u.orders, a, b) {
      assert NumberDistinct(t.orders, a, b);
      if Inserts(t, env, w) {
        NewNumberIsNew(t, w, env, a);
        NewNumberIsNew(t, w, env, b);
      }
    }
    forall id ensures InvoicePrinted(u.orders, u.outlets, id) {
      assert InvoicePrinted(t.orders, t.outlets, id);
    }
  }

  lemma NewNumberIsNew(t: Tables, w: WriteSet, env: Env, id: int)
    requires InvoicesOk(t) && Inserts(t, env, w)
    ensures id in t.orders ==>
              !Numbered(t.orders[id], CounterRef(w.order.value.row.place, env.today),
                        w.order.value.row.invoice.sequence)
  {
    var row := w.order.value.row;
    assert CounterSound(t.orders, t.counters, CounterRef(row.place, env.today), row.invoice.sequence);
  }

  // ------------------------------------------------------------------ outlet codes

  ghost predicate CodeDistinct(outlets: map<Place, nat>, p: Place, q: Place) {
    p in outlets && q in outlets && p != q && p.business == q.business ==> outlets[p] != outlets[q]
  }

  ghost predicate CodeIssued(outlets: map<Place, nat>, business: int, n: nat) {
    exists p :: p in outlets && p.business == business && outlets[p] == n
  }

  /** The codes of a business are exactly 1 to its counter. */
  ghost predicate CodeSound(outlets: map<Place, nat>, counters: map<int, nat>, business: int, n: nat) {
    CodeIssued(outlets, business, n) <==> 1 <= n <= LastOutlet(counters, business)
  }

  ghost predicate OutletsOk(t: Tables) {
    && (forall p, q :: CodeDistinct(t.outlets, p, q))
    && (forall b, n: nat :: CodeSound(t.outlets, t.outletCounters, b, n))
  }

  lemma CodesFollow(t: Tables, env: Env, w: WriteSet, b: int, n: nat)
    requires OutletsOk(t) && FreshIds(t, env.ids) && Opens(t, env, w)
    ensures CodeSound(Apply(t, w).outlets, Apply(t, w).outletCounters, b, n)
  {
    var u, p := Apply(t, w), w.outlet.value.key;
    assert CodeSound(t.outlets, t.outletCounters, b, n);
    assert p in u.outlets && u.outlets[p] == w.outlet.value.row;
    if CodeIssued(t.outlets, b, n) {
      var q :| q in t.outlets && q.business == b && t.outlets[q] == n;
      assert q in u.outlets && u.outlets[q] == n;
    }
  }

  lemma ChangeKeepsOutlets(t: Tables, env: Env, w: WriteSet)
    requires OutletsOk(t) && FreshIds(t, env.ids) && Shaped(t, env, w)
    ensures OutletsOk(Apply(t, w))
  {
    var u := Apply(t, w);
    forall b, n: nat ensures CodeSound(u.outlets, u.outletCounters, b, n) {
      assert CodeSound(t.outlets, t.outletCounters, b, n);
      if Opens(t, env, w) {
        CodesFollow(t, env, w, b, n);
      }
    }
    forall p, q ensures CodeDistinct(u.outlets, p, q) {
      assert CodeDistinct(t.outlets, p, q);
      if Opens(t, env, w) {
        assert p in t.outlets ==> CodeIssued(t.outlets, p.business, t.outlets[p]);
        assert q in t.outlets ==> CodeIssued(t.outlets, q.business, t.outlets[q]);
        assert CodeSound(t.outlets, t.outletCounters, w.outlet.value.key.business, w.outlet.value.row);
      }
    }
  }

  // ------------------------------------------------------------------ whole runs

  ghost predicate NumbersOk(t: Tables) { KeysOk(t) && LinesOk(t) && InvoicesOk(t) && OutletsOk(t) }

  lemma ChangeKeepsNumbers(t: Tables, env: Env, w: WriteSet)
    requires NumbersOk(t) && FreshIds(t, env.ids) && env.today.Valid() && Shaped(t, env, w)
    ensures NumbersOk(Apply(t, w))
  {
    ChangeKeepsKeys(t, env, w);
    ChangeKeepsLines(t, env, w);
    ChangeKeepsInvoices(t, env, w);
    ChangeKeepsOutlets(t, env, w);
  }

  lemma {:induction false} NumbersAlways(t: Tables, log: seq<Entry>)
    requires NumbersOk(t) && FreshLog(t, log)
    ensures NumbersOk(Serial(t, log))
  {
    if log != [] {
      var last, mid := log[|log| - 1], Serial(t, log[..|log| - 1]);
      NumbersAlways(t, log[..|log| - 1]);
      var w := PlanOf(mid, last.env, last.request).writes;
      EveryPlanIsShaped(mid, last.env, last.request);
      ChangeKeepsNumbers(mid, last.env, w);
    }
  }

  /** No two orders of one business print the same invoice number. */
  lemma InvoiceTextsDistinct(t: Tables, a: int, b: int)
    requires InvoicesOk(t) && OutletsOk(t) && a in t.orders && b in t.orders && a != b
    requires t.orders[a].place.business == t.orders[b].place.business
    ensures InvoiceText(t.orders[a].invoice) != InvoiceText(t.orders[b].invoice)
  {
    var x, y := t.orders[a], t.orders[b];
    assert InvoicePrinted(t.orders, t.outlets, a) && InvoicePrinted(t.orders, t.outlets, b);
    assert CodeDistinct(t.outlets, x.place, y.place);
    assert NumberDistinct(t.orders, a, b);
    if InvoiceText(x.invoice) == InvoiceText(y.invoice) {
      InvoiceTextInjective(x.invoice, y.invoice);
    }
  }

  /** No two outlets of one business carry the same code text. */
  lemma OutletCodesDistinct(t: Tables, p: Place, q: Place)
    requires OutletsOk(t) && p in t.outlets && q in t.outlets && p != q && p.business == q.business
    ensures OutletCode(t.outlets[p]) != OutletCode(t.outlets[q])
  {
    assert CodeDistinct(t.outlets, p, q);
    if OutletCode(t.outlets[p]) == OutletCode(t.outlets[q]) {
      OutletCodeInjective(t.outlets[p], t.outlets[q]);
    }
  }

  /** The numbers of one outlet and day are exactly 1 to the counter, each on one order. */
  lemma SequenceIsGapless(t: Tables, c: CounterRef, k: nat)
    requires InvoicesOk(t)
    ensures 1 <= k < NextNumber(t.counters, c) <==> exists id :: id in t.orders && Numbered(t.orders[id], c, k)
    ensures forall a, b ::
              a in t.orders && b in t.orders && Numbered(t.orders[a], c, k) && Numbered(t.orders[b], c, k) ==> a == b
  {
    assert CounterSound(t.orders, t.counters, c, k);
    forall a, b | a in t.orders && b in t.orders && Numbered(t.orders[a], c, k) && Numbered(t.orders[b], c, k)
      ensures a == b
    {
      assert NumberDistinct(t.orders, a, b);
    }
  }
}
