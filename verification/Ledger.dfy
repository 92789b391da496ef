/**
 Money in every reachable state: what is confirmed against an order never exceeds its total, the
 stored payment status is the one that follows from the confirmed sum, and a cancelled order holds
 no confirmed payment.
 */
module Ledger {
  import opened Outcome
  import opened Places
  import opened Tables
  import opened Pricing
  import opened Plans
  import Text

  // ------------------------------------------------------------------ the invariant

  ghost function RowsOf(t: Tables, id: int): seq<Payment>
    requires id in t.orders
  {
    OfOrder(t.payments, t.orders[id].place, id)
  }

  ghost function PaidOf(t: Tables, id: int): int
    requires id in t.orders
  {
    PaidTotal(RowsOf(t, id))
  }

  /** Lifecycle columns agree with the status, as the table's own checks demand. */
  ghost predicate ColumnsAgree(o: Order) {
    && (o.status.Completed? <==> o.completedAt.Some?)
    && (o.status.Cancelled? <==> o.cancelledAt.Some?)
    && (o.status.Cancelled? <==> o.cancelledBy.Some?)
    && (o.status.Cancelled? <==> o.cancellationReason.Some?)
    && (o.status.Cancelled? <==> o.deletedAt.Some?)
  }

  ghost predicate OrderOk(o: Order, paid: int) {
    && 0 <= paid <= o.total <= MAX_INT64
    && o.paymentStatus == PaymentStatusFor(o.total, paid)
    && (o.status.Cancelled? ==> paid == 0)
    && ColumnsAgree(o)
  }

  ghost predicate PaymentColumns(p: Payment) {
    && p.amount > 0 && ValidMethod(p.means) && !p.state.Pending? && p.confirmedAt.Some?
    && (p.state.Voided? <==> p.voidedAt.Some?)
    && (p.state.Voided? <==> p.voidedBy.Some?)
    && (p.state.Voided? <==> p.voidReason.Some?)
  }

  ghost predicate PaymentOk(p: Payment, orders: map<int, Order>) {
    PaymentColumns(p) && p.order in orders && orders[p.order].place == p.place
  }

  // Each quantifier below ranges over one named predicate, which is what proofs mention to use it.

  ghost predicate OrderSound(orders: map<int, Order>, payments: seq<Payment>, id: int) {
    id in orders ==> OrderOk(orders[id], PaidTotal(OfOrder(payments, orders[id].place, id)))
  }

  ghost predicate OrdersOk(orders: map<int, Order>, payments: seq<Payment>) {
    forall id :: OrderSound(orders, payments, id)
  }

  ghost predicate PaymentSound(orders: map<int, Order>, payments: seq<Payment>, i: int) {
    0 <= i < |payments| ==> PaymentOk(payments[i], orders)
  }

  ghost predicate PaymentsOk(orders: map<int, Order>, payments: seq<Payment>) {
    forall i :: PaymentSound(orders, payments, i)
  }

  ghost predicate PairDistinct(rows: seq<Payment>, i: int, j: int) {
    0 <= i < j < |rows| ==>
      && rows[i].id != rows[j].id
      && (rows[i].order == rows[j].order ==> rows[i].key != rows[j].key)
  }

  ghost predicate DistinctPayments(rows: seq<Payment>) {
    forall i, j :: PairDistinct(rows, i, j)
  }

  ghost predicate MoneyOk(orders: map<int, Order>, payments: seq<Payment>) {
    OrdersOk(orders, payments) && PaymentsOk(orders, payments) && DistinctPayments(payments)
  }

  ghost predicate LedgerOk(t: Tables) { MoneyOk(t.orders, t.payments) }

  // ------------------------------------------------------------------ sums and selections

  lemma OfAppended(rows: seq<Payment>, p: Payment, place: Place, id: int)
    ensures OfOrder(rows + [p], place, id) ==
            if p.place == place && p.order == id then OfOrder(rows, place, id) + [p] else OfOrder(rows, place, id)
  {
    assert (rows + [p])[..|rows|] == rows;
  }

  lemma PaidAppended(rows: seq<Payment>, p: Payment)
    ensures PaidTotal(rows + [p]) == PaidTotal(rows) + if p.state.Confirmed? then p.amount else 0
  {
    assert (rows + [p])[..|rows|] == rows;
  }

  /** Striking commutes with selecting the rows of one order and leaves other orders alone. */
  lemma {:induction false} OfStruck(rows: seq<Payment>, s: Strike, place: Place, id: int)
    ensures OfOrder(StrikeRows(rows, s), place, id) ==
            if place == s.place && id == s.order then StrikeRows(OfOrder(rows, place, id), s)
            else OfOrder(rows, place, id)
  {
    if rows != [] {
      var n := |rows| - 1;
      OfStruck(rows[..n], s, place, id);
      assert StrikeRows(rows, s)[..n] == StrikeRows(rows[..n], s);
    }
  }

  ghost predicate AllPositive(rows: seq<Payment>) { forall i :: 0 <= i < |rows| ==> rows[i].amount > 0 }

  lemma {:induction false} PaidNotNegative(rows: seq<Payment>)
    requires AllPositive(rows)
    ensures PaidTotal(rows) >= 0
    ensures PaidTotal(rows) == 0 ==> forall i :: 0 <= i < |rows| ==> !rows[i].state.Confirmed?
  {
    if rows != [] {
      PaidNotNegative(rows[..|rows| - 1]);
    }
  }

  /** Striking can only lower the confirmed total, and never below zero. */
  lemma {:induction false} StrikeLowers(rows: seq<Payment>, s: Strike)
    requires AllPositive(rows)
    ensures 0 <= PaidTotal(StrikeRows(rows, s)) <= PaidTotal(rows)
  {
    if rows != [] {
      var n := |rows| - 1;
      StrikeLowers(rows[..n], s);
      assert StrikeRows(rows, s)[..n] == StrikeRows(rows[..n], s);
    }
  }

  /** Striking the one confirmed row with an id removes exactly its amount. */
  lemma {:induction false} StrikeRemovesAmount(rows: seq<Payment>, k: nat, s: Strike)
    requires k < |rows| && rows[k].state.Confirmed? && rows[k].id == s.target
    requires forall i :: 0 <= i < |rows| ==> rows[i].place == s.place && rows[i].order == s.order
    requires forall i, j :: 0 <= i < j < |rows| ==> rows[i].id != rows[j].id
    ensures PaidTotal(StrikeRows(rows, s)) == PaidTotal(rows) - rows[k].amount
  {
    var n := |rows| - 1;
    assert StrikeRows(rows, s)[..n] == StrikeRows(rows[..n], s);
    if k < n {
      StrikeRemovesAmount(rows[..n], k, s);
    } else {
      assert StrikeRows(rows[..n], s) == rows[..n];
    }
  }

  lemma {:induction false} OfOrderSelects(rows: seq<Payment>, place: Place, id: int)
    ensures forall p :: p in OfOrder(rows, place, id) <==> p in rows && p.place == place && p.order == id
  {
    if rows != [] {
      OfOrderSelects(rows[..|rows| - 1], place, id);
      assert rows == rows[..|rows| - 1] + [rows[|rows| - 1]];
    }
  }

  lemma {:induction false} OfOrderKeepsDistinct(rows: seq<Payment>, place: Place, id: int)
    requires DistinctPayments(rows)
    ensures DistinctPayments(OfOrder(rows, place, id))
  {
    if rows != [] {
      var n := |rows| - 1;
      var head := OfOrder(rows[..n], place, id);
      forall i, j ensures PairDistinct(rows[..n], i, j) {
        assert PairDistinct(rows, i, j);
      }
      OfOrderKeepsDistinct(rows[..n], place, id);
      OfOrderSelects(rows[..n], place, id);
      forall i, j ensures PairDistinct(OfOrder(rows, place, id), i, j) {
        assert PairDistinct(head, i, j);
        if 0 <= i < |head| {
          assert head[i] in rows[..n];
          var k :| 0 <= k < n && rows[k] == head[i];
          assert PairDistinct(rows, k, n);
        }
      }
    }
  }

  lemma {:induction false} WithKeyFinds(rows: seq<Payment>, key: string)
    ensures WithKey(rows, key).Some? ==> WithKey(rows, key).value in rows && WithKey(rows, key).value.key == key
    ensures WithKey(rows, key).None? ==> forall i :: 0 <= i < |rows| ==> rows[i].key != key
  {
    if rows != [] {
      WithKeyFinds(rows[..|rows| - 1], key);
    }
  }

  lemma {:induction false} WithIdFinds(rows: seq<Payment>, id: int)
    ensures WithId(rows, id).Some? ==> WithId(rows, id).value in rows && WithId(rows, id).value.id == id
    ensures WithId(rows, id).None? ==> forall i :: 0 <= i < |rows| ==> rows[i].id != id
  {
    if rows != [] {
      WithIdFinds(rows[..|rows| - 1], id);
    }
  }

  // ------------------------------------------------------------------ each transaction keeps it

  lemma RowsArePositive(orders: map<int, Order>, payments: seq<Payment>, place: Place, id: int)
    requires PaymentsOk(orders, payments)
    ensures AllPositive(OfOrder(payments, place, id))
  {
    var rows := OfOrder(payments, place, id);
    OfOrderSelects(payments, place, id);
    forall i | 0 <= i < |rows| ensures rows[i].amount > 0 {
      assert rows[i] in rows && rows[i] in payments;
      var k :| 0 <= k < |payments| && payments[k] == rows[i];
      assert PaymentSound(orders, payments, k);
    }
  }

  /** Replacing one order row, with the payments it needs, keeps every other order as it was. */
  lemma RowReplaced(orders: map<int, Order>, before: seq<Payment>, after: seq<Payment>, id: int, row: Order)
    requires OrdersOk(orders, before)
    requires forall x :: x in orders && x != id ==>
               OfOrder(after, orders[x].place, x) == OfOrder(before, orders[x].place, x)
    requires OrderOk(row, PaidTotal(OfOrder(after, row.place, id)))
    ensures OrdersOk(orders[id := row], after)
  {
    var changed := orders[id := row];
    forall x ensures OrderSound(changed, after, x) {
      assert OrderSound(orders, before, x);
    }
  }

  lemma PlacesKept(orders: map<int, Order>, payments: seq<Payment>, id: int, row: Order)
    requires PaymentsOk(orders, payments) && (id in orders ==> orders[id].place == row.place)
    ensures PaymentsOk(orders[id := row], payments)
  {
    var changed := orders[id := row];
    forall i ensures PaymentSound(changed, payments, i) {
      assert PaymentSound(orders, payments, i);
    }
  }

  lemma BalanceMoves(o: Order, paid: int, amount: int)
    requires OrderOk(o, paid) && !o.status.Cancelled? && 0 < amount <= o.total - paid
    ensures OrderOk(o.(paymentStatus := PaymentStatusFor(o.total, paid + amount)), paid + amount)
  {}

  /** A confirmed payment that fits the balance, with the status that follows from it. */
  ghost predicate Fits(orders: map<int, Order>, payments: seq<Payment>, p: Payment, s: PaymentStatus) {
    && p.order in orders && !orders[p.order].status.Cancelled? && p.place == orders[p.order].place
    && p.state.Confirmed? && PaymentColumns(p)
    && var o, paid := orders[p.order], PaidTotal(OfOrder(payments, p.place, p.order));
       p.amount <= o.total - paid && s == PaymentStatusFor(o.total, paid + p.amount)
  }

  lemma AddingBalances(orders: map<int, Order>, payments: seq<Payment>, p: Payment, s: PaymentStatus)
    requires OrdersOk(orders, payments) && Fits(orders, payments, p, s)
    ensures OrdersOk(orders[p.order := orders[p.order].(paymentStatus := s)], payments + [p])
  {
    var o, after := orders[p.order], payments + [p];
    assert OrderSound(orders, payments, p.order);
    OfAppended(payments, p, p.place, p.order);
    PaidAppended(OfOrder(payments, p.place, p.order), p);
    BalanceMoves(o, PaidTotal(OfOrder(payments, p.place, p.order)), p.amount);
    forall x | x in orders && x != p.order
      ensures OfOrder(after, orders[x].place, x) == OfOrder(payments, orders[x].place, x)
    {
      OfAppended(payments, p, orders[x].place, x);
    }
    RowReplaced(orders, payments, after, p.order, o.(paymentStatus := s));
  }

  lemma AddingKeeps(orders: map<int, Order>, payments: seq<Payment>, p: Payment, s: PaymentStatus)
    requires MoneyOk(orders, payments) && Fits(orders, payments, p, s)
    requires forall k :: 0 <= k < |payments| ==> payments[k].id != p.id
    requires forall k :: 0 <= k < |payments| && payments[k].order == p.order ==> payments[k].key != p.key
    ensures MoneyOk(orders[p.order := orders[p.order].(paymentStatus := s)], payments + [p])
  {
    var row, after := orders[p.order].(paymentStatus := s), payments + [p];
    AddingBalances(orders, payments, p, s);
    PlacesKept(orders, payments, p.order, row);
    var changed := orders[p.order := row];
    forall i ensures PaymentSound(changed, after, i) {
      assert PaymentSound(changed, payments, i);
    }
    forall i, j ensures PairDistinct(after, i, j) {
      assert PairDistinct(payments, i, j);
    }
  }

  /** No payment of the order carries a key its rows do not show. */
  lemma KeyIsNew(orders: map<int, Order>, payments: seq<Payment>, id: int, key: string)
    requires PaymentsOk(orders, payments) && id in orders
    requires WithKey(OfOrder(payments, orders[id].place, id), key).None?
    ensures forall k :: 0 <= k < |payments| && payments[k].order == id ==> payments[k].key != key
  {
    var rows := OfOrder(payments, orders[id].place, id);
    OfOrderSelects(payments, orders[id].place, id);
    WithKeyFinds(rows, key);
    forall k | 0 <= k < |payments| && payments[k].order == id ensures payments[k].key != key {
      assert PaymentSound(orders, payments, k);
      assert payments[k] in rows;
    }
  }

  lemma PayKeeps(t: Tables, env: Env, actor: Actor, id: int, i: PaymentInput)
    requires LedgerOk(t) && FreshIds(t, env.ids)
    requires id in t.orders && !t.orders[id].status.Cancelled?
    requires WithKey(RowsOf(t, id), i.key).None?
    ensures LedgerOk(Apply(t, PayPlan(env, actor, id, t.orders[id], i, PaidOf(t, id)).writes))
    ensures PayPlan(env, actor, id, t.orders[id], i, PaidOf(t, id)).reply != Failed(LedgerInvariant)
  {
    var o, paid := t.orders[id], PaidOf(t, id);
    assert OrderSound(t.orders, t.payments, id);
    var w := PayPlan(env, actor, id, o, i, paid).writes;
    if w.payment.Some? {
      KeyIsNew(t.orders, t.payments, id, i.key);
      AddingKeeps(t.orders, t.payments, w.payment.value, w.order.value.row.paymentStatus);
    }
  }

  lemma StrikingKeeps(orders: map<int, Order>, payments: seq<Payment>, s: Strike, status: PaymentStatus)
    requires MoneyOk(orders, payments) && s.order in orders && s.place == orders[s.order].place
    requires status == PaymentStatusFor(orders[s.order].total,
                                        PaidTotal(StrikeRows(OfOrder(payments, s.place, s.order), s)))
    ensures MoneyOk(orders[s.order := orders[s.order].(paymentStatus := status)], StrikeRows(payments, s))
  {
    var row, after := orders[s.order].(paymentStatus := status), StrikeRows(payments, s);
    assert OrderSound(orders, payments, s.order);
    RowsArePositive(orders, payments, s.place, s.order);
    StrikeLowers(OfOrder(payments, s.place, s.order), s);
    OfStruck(payments, s, s.place, s.order);
    forall x | x in orders && x != s.order
      ensures OfOrder(after, orders[x].place, x) == OfOrder(payments, orders[x].place, x)
    {
      OfStruck(payments, s, orders[x].place, x);
    }
    RowReplaced(orders, payments, after, s.order, row);
    forall j ensures PaymentSound(orders, after, j) {
      assert PaymentSound(orders, payments, j);
    }
    forall i, j ensures PairDistinct(after, i, j) {
      assert PairDistinct(payments, i, j);
    }
    PlacesKept(orders, after, s.order, row);
  }

  /** Voiding a confirmed payment returns exactly its amount to the balance. */
  lemma StrikeReturnsAmount(t: Tables, p: Payment, s: Strike)
    requires LedgerOk(t) && s.order in t.orders && s.place == t.orders[s.order].place
    requires p in RowsOf(t, s.order) && p.state.Confirmed? && p.id == s.target
    ensures PaidTotal(StrikeRows(RowsOf(t, s.order), s)) == PaidOf(t, s.order) - p.amount
  {
    var rows := RowsOf(t, s.order);
    OfOrderKeepsDistinct(t.payments, s.place, s.order);
    OfOrderSelects(t.payments, s.place, s.order);
    forall i | 0 <= i < |rows| ensures rows[i].place == s.place && rows[i].order == s.order {
      assert rows[i] in rows;
    }
    forall i, j | 0 <= i < j < |rows| ensures rows[i].id != rows[j].id {
      assert PairDistinct(rows, i, j);
    }
    var k :| 0 <= k < |rows| && rows[k] == p;
    StrikeRemovesAmount(rows, k, s);
  }

  lemma StrikeKeeps(t: Tables, env: Env, actor: Actor, id: int, p: Payment, reason: string)
    requires LedgerOk(t) && id in t.orders && p in RowsOf(t, id) && p.state.Confirmed?
    ensures var o, paid := t.orders[id], PaidOf(t, id) - p.amount;
            && PaidTotal(StrikeRows(RowsOf(t, id), StrikeOf(env, actor, id, o, p.id, reason))) == paid
            && LedgerOk(Apply(t, StrikePlan(env, actor, id, o, p, reason, paid).writes))
            && StrikePlan(env, actor, id, o, p, reason, paid).reply ==
               VoidDone(Struck(p, StrikeOf(env, actor, id, o, p.id, reason)), PaymentStatusFor(o.total, paid), paid)
  {
    var o, paid := t.orders[id], PaidOf(t, id) - p.amount;
    var s := StrikeOf(env, actor, id, o, p.id, reason);
    StrikeReturnsAmount(t, p, s);
    assert OrderSound(t.orders, t.payments, id);
    OfOrderSelects(t.payments, o.place, id);
    var k :| 0 <= k < |t.payments| && t.payments[k] == p;
    assert PaymentSound(t.orders, t.payments, k);
    StrikingKeeps(t.orders, t.payments, s, PaymentStatusFor(o.total, paid));
  }

  /** Replacing one order row by a row with the same place and sound money keeps the ledger. */
  lemma RowKeeps(orders: map<int, Order>, payments: seq<Payment>, id: int, row: Order)
    requires MoneyOk(orders, payments) && id in orders
    requires row.place == orders[id].place && OrderOk(row, PaidTotal(OfOrder(payments, row.place, id)))
    ensures MoneyOk(orders[id := row], payments)
  {
    RowReplaced(orders, payments, payments, id, row);
    PlacesKept(orders, payments, id, row);
  }

  lemma MoveKeeps(t: Tables, env: Env, actor: Actor, id: int, to: Status, notes: Option<string>)
    requires LedgerOk(t) && id in t.orders && !to.Cancelled?
    ensures LedgerOk(Apply(t, MovePlan(env, actor, id, t.orders[id], to, notes).writes))
  {
    assert OrderSound(t.orders, t.payments, id);
    var w := MovePlan(env, actor, id, t.orders[id], to, notes).writes;
    if w.order.Some? {
      RowKeeps(t.orders, t.payments, id, w.order.value.row);
    }
  }

  /** Only an order whose stored status is UNPAID is cancelled, and then nothing is confirmed on it. */
  lemma DropKeeps(t: Tables, env: Env, actor: Actor, id: int, reason: string)
    requires LedgerOk(t) && id in t.orders
    ensures LedgerOk(Apply(t, DropPlan(env, actor, id, t.orders[id], reason).writes))
  {
    assert OrderSound(t.orders, t.payments, id);
    var w := DropPlan(env, actor, id, t.orders[id], reason).writes;
    if w.order.Some? {
      RowKeeps(t.orders, t.payments, id, w.order.value.row);
    }
  }

  lemma {:induction false} NoPaymentsYet(rows: seq<Payment>, place: Place, id: int)
    requires forall i :: 0 <= i < |rows| ==> rows[i].order != id
    ensures OfOrder(rows, place, id) == []
  {
    if rows != [] {
      NoPaymentsYet(rows[..|rows| - 1], place, id);
    }
  }

  lemma InsertKeeps(t: Tables, env: Env, actor: Actor, i: OrderInput, number: nat, outletNumber: nat, lines: seq<Line>)
    requires LedgerOk(t) && FreshIds(t, env.ids) && Total(lines) <= MAX_INT64
    ensures var plan := InsertionPlan(env, actor, Place(actor.business, i.outlet), outletNumber, i, lines, number);
            LedgerOk(Apply(t, plan.writes))
  {
    var w := InsertionPlan(env, actor, Place(actor.business, i.outlet), outletNumber, i, lines, number).writes;
    forall k | 0 <= k < |t.payments| ensures t.payments[k].order != env.ids.order {
      assert PaymentSound(t.orders, t.payments, k);
    }
    NoPaymentsYet(t.payments, w.order.value.row.place, env.ids.order);
    RowReplaced(t.orders, t.payments, t.payments, env.ids.order, w.order.value.row);
    PlacesKept(t.orders, t.payments, env.ids.order, w.order.value.row);
  }

  lemma {:induction false} PricedFits(catalog: Catalog, items: seq<Item>)
    ensures Priced(catalog, items).Ok? ==> Total(Priced(catalog, items).value) <= MAX_INT64
  {
    if Priced(catalog, items).Ok? && items != [] {
      var lines := Priced(catalog, items).value;
      assert lines[..|lines| - 1] == Priced(catalog, items[..|items| - 1]).value;
    }
  }

  lemma RecordKeeps(t: Tables, env: Env, actor: Actor, id: int, i: PaymentInput)
    requires LedgerOk(t) && FreshIds(t, env.ids) && id in t.orders
    ensures LedgerOk(Apply(t, RecordLocked(t, env, actor, id, t.orders[id], i).writes))
    ensures RecordLocked(t, env, actor, id, t.orders[id], i).reply != Failed(LedgerInvariant)
  {
    NothingWritten(t);
    var plan := RecordLocked(t, env, actor, id, t.orders[id], i);
    if plan.writes != NOTHING {
      assert plan == PayPlan(env, actor, id, t.orders[id], i, PaidOf(t, id));
      PayKeeps(t, env, actor, id, i);
    } else {
      assert OrderSound(t.orders, t.payments, id);
    }
  }

  lemma VoidKeeps(t: Tables, env: Env, actor: Actor, id: int, target: int, reason: string)
    requires LedgerOk(t) && id in t.orders
    ensures LedgerOk(Apply(t, VoidLocked(t, env, actor, id, t.orders[id], target, reason).writes))
    ensures VoidLocked(t, env, actor, id, t.orders[id], target, reason).reply != Failed(LedgerInvariant)
  {
    NothingWritten(t);
    assert OrderSound(t.orders, t.payments, id);
    WithIdFinds(RowsOf(t, id), target);
    var p := WithId(RowsOf(t, id), target);
    if p.Some? && p.value.state.Confirmed? {
      StrikeKeeps(t, env, actor, id, p.value, reason);
    }
  }

  lemma TransitionKeeps(t: Tables, env: Env, actor: Actor, id: int, to: Target, notes: Option<string>)
    requires LedgerOk(t)
    ensures LedgerOk(Apply(t, TransitionPlan(t, env, actor, id, to, notes).writes))
    ensures TransitionPlan(t, env, actor, id, to, notes).reply != Failed(LedgerInvariant)
  {
    NothingWritten(t);
    if id in t.orders && ValidTarget(to) {
      MoveKeeps(t, env, actor, id, to.status, notes);
    }
  }

  lemma CancelKeeps(t: Tables, env: Env, actor: Actor, id: int, given: string)
    requires LedgerOk(t)
    ensures LedgerOk(Apply(t, CancelPlan(t, env, actor, id, given).writes))
    ensures CancelPlan(t, env, actor, id, given).reply != Failed(LedgerInvariant)
  {
    NothingWritten(t);
    if id in t.orders {
      DropKeeps(t, env, actor, id, Text.Trim(given));
    }
  }

  lemma CreateKeeps(t: Tables, env: Env, actor: Actor, i: OrderInput)
    requires LedgerOk(t) && FreshIds(t, env.ids) && Place(actor.business, i.outlet) in t.outlets
    ensures LedgerOk(Apply(t, CreateLocked(t, env, actor, Place(actor.business, i.outlet), i).writes))
    ensures CreateLocked(t, env, actor, Place(actor.business, i.outlet), i).reply != Failed(LedgerInvariant)
  {
    var place := Place(actor.business, i.outlet);
    NothingWritten(t);
    PricedFits(PriceOf(env.dir, actor.business), i.items);
    var plan := CreateLocked(t, env, actor, place, i);
    if plan.writes != NOTHING {
      var lines, number := Appraise(env, actor, i).value, NextNumber(t.counters, CounterRef(place, env.today));
      assert plan == InsertionPlan(env, actor, place, t.outlets[place], i, lines, number);
      InsertKeeps(t, env, actor, i, number, t.outlets[place], lines);
    }
  }

  lemma OutletKeeps(t: Tables, env: Env, actor: Actor)
    requires LedgerOk(t)
    ensures LedgerOk(Apply(t, OutletPlan(t, env, actor).writes))
    ensures OutletPlan(t, env, actor).reply != Failed(LedgerInvariant)
  {}

  /** Committing the plan keeps the ledger, and the plan does not report it broken. */
  ghost predicate KeepsLedger(t: Tables, plan: Plan) {
    LedgerOk(Apply(t, plan.writes)) && plan.reply != Failed(LedgerInvariant)
  }

  lemma RecordRequestKeeps(t: Tables, env: Env, actor: Actor, id: int, i: PaymentInput)
    requires LedgerOk(t) && FreshIds(t, env.ids)
    ensures KeepsLedger(t, RecordPlan(t, env, actor, id, i))
  {
    NothingWritten(t);
    if id in t.orders {
      RecordKeeps(t, env, actor, id, i);
    }
  }

  lemma VoidRequestKeeps(t: Tables, env: Env, actor: Actor, id: int, target: int, given: string)
    requires LedgerOk(t)
    ensures KeepsLedger(t, VoidPlan(t, env, actor, id, target, given))
  {
    NothingWritten(t);
    if id in t.orders {
      VoidKeeps(t, env, actor, id, target, Text.Trim(given));
    }
  }

  lemma CreateRequestKeeps(t: Tables, env: Env, actor: Actor, i: OrderInput)
    requires LedgerOk(t) && FreshIds(t, env.ids)
    ensures KeepsLedger(t, CreatePlan(t, env, actor, i))
  {
    NothingWritten(t);
    if Place(actor.business, i.outlet) in t.outlets {
      CreateKeeps(t, env, actor, i);
    }
  }

  /** Every transaction keeps the ledger and none ever finds it violated. */
  lemma TransactionKeepsLedger(t: Tables, env: Env, r: Request)
    requires LedgerOk(t) && FreshIds(t, env.ids)
    ensures KeepsLedger(t, PlanOf(t, env, r))
  {
    match r
    case Record(actor, id, i) => RecordRequestKeeps(t, env, actor, id, i);
    case Void(actor, id, target, given) => VoidRequestKeeps(t, env, actor, id, target, given);
    case Transition(actor, id, to, notes) => TransitionKeeps(t, env, actor, id, to, notes);
    case Cancel(actor, id, given) => CancelKeeps(t, env, actor, id, given);
    case Create(actor, i) => CreateRequestKeeps(t, env, actor, i);
    case OpenOutlet(actor) => OutletKeeps(t, env, actor);
  }

  /** The ledger holds after any number of transactions. */
  lemma {:induction false} LedgerAlways(t: Tables, log: seq<Entry>)
    requires LedgerOk(t) && FreshLog(t, log)
    ensures LedgerOk(Serial(t, log))
  {
    if log != [] {
      var last := log[|log| - 1];
      LedgerAlways(t, log[..|log| - 1]);
      TransactionKeepsLedger(Serial(t, log[..|log| - 1]), last.env, last.request);
    }
  }

  /** A cancelled order is unpaid and every payment it ever had is voided. */
  lemma CancelledHoldsNothing(t: Tables, id: int)
    requires LedgerOk(t) && id in t.orders && t.orders[id].status.Cancelled?
    ensures t.orders[id].paymentStatus == Unpaid
    ensures forall i :: 0 <= i < |t.payments| && t.payments[i].order == id ==> t.payments[i].state.Voided?
  {
    RowsArePositive(t.orders, t.payments, t.orders[id].place, id);
    PaidNotNegative(RowsOf(t, id));
    assert OrderSound(t.orders, t.payments, id);
    OfOrderSelects(t.payments, t.orders[id].place, id);
    forall i | 0 <= i < |t.payments| && t.payments[i].order == id ensures t.payments[i].state.Voided? {
      assert PaymentSound(t.orders, t.payments, i);
      assert t.payments[i] in RowsOf(t, id);
    }
  }
}
