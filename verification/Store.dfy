/**
 The order services as they work: statement by statement on tables they update in place, rolling
 back when a late check fails. Each service is proved to do exactly what its plan says.
 */
module Store {
  import opened Outcome
  import opened Places
  import opened Tables
  import opened Pricing
  import opened Numbering
  import opened Plans
  import opened Numbers
  import opened Soundness
  import Ledger
  import Text

  class Database {
    var orders: map<int, Order>
    var items: seq<OrderItem>
    var payments: seq<Payment>
    var refunds: set<int>
    var history: seq<HistoryRow>
    var audit: seq<AuditRow>
    var counters: map<CounterRef, nat>
    var outlets: map<Place, nat>
    var outletCounters: map<int, nat>

    function Snapshot(): Tables
      reads this
    {
      Tables(orders, items, payments, refunds, history, audit, counters, outlets, outletCounters)
    }

    ghost predicate Valid()
      reads this
    {
      SoundTables(Snapshot())
    }

    constructor ()
      ensures Valid() && Snapshot() == EMPTY
    {
      orders, items, payments, refunds, history := map[], [], [], {}, [];
      audit, counters, outlets, outletCounters := [], map[], map[], map[];
      new;
      EmptyIsSound();
    }

    // -------------------------------------------------------------- statements

    method Rollback(saved: Tables)
      modifies this
      ensures Snapshot() == saved
    {
      orders, items, payments := saved.orders, saved.items, saved.payments;
      refunds, history := saved.refunds, saved.history;
      audit, counters, outlets := saved.audit, saved.counters, saved.outlets;
      outletCounters := saved.outletCounters;
    }

    method InsertPayment(p: Payment)
      modifies this`payments
      ensures payments == old(payments) + [p]
    {
      payments := payments + [p];
    }

    method UpdatePaymentStatus(id: int, s: PaymentStatus)
      requires id in orders
      modifies this`orders
      ensures orders == old(orders)[id := old(orders)[id].(paymentStatus := s)]
    {
      orders := orders[id := orders[id].(paymentStatus := s)];
    }

    method VoidConfirmedPayment(s: Strike)
      modifies this`payments
      ensures payments == StrikeRows(old(payments), s)
    {
      payments := StrikeRows(payments, s);
    }

    method InsertHistory(h: HistoryRow)
      modifies this`history
      ensures history == old(history) + [h]
    {
      history := history + [h];
    }

    method InsertAudit(a: AuditRow)
      modifies this`audit
      ensures audit == old(audit) + [a]
    {
      audit := audit + [a];
    }

    /** The last two statements of a payment or void. */
    method StoreStatus(id: int, s: PaymentStatus, a: AuditRow)
      requires id in orders
      modifies this`orders, this`audit
      ensures orders == old(orders)[id := old(orders)[id].(paymentStatus := s)] && audit == old(audit) + [a]
    {
      UpdatePaymentStatus(id, s);
      InsertAudit(a);
    }

    /** INSERT ... ON CONFLICT DO UPDATE SET next_number = next_number + 1 RETURNING next_number - 1. */
    method AllocateInvoiceNumber(c: CounterRef) returns (number: nat)
      modifies this`counters
      ensures number == NextNumber(old(counters), c) && counters == old(counters)[c := number + 1]
    {
      counters := counters[c := if c in counters then counters[c] + 1 else 2];
      number := counters[c] - 1;
    }

    method FindByKey(place: Place, key: string) returns (found: Option<int>)
      requires KeysOk(Snapshot())
      ensures found == OrderWithKey(orders, place, key)
    {
      if id :| id in orders && HasKey(orders[id], place, key) {
        KeyFinds(Snapshot(), id);
        return Some(id);
      }
      return None;
    }

    // -------------------------------------------------------------- payments

    method Record(env: Env, actor: Actor, id: int, i: PaymentInput) returns (reply: Reply)
      requires Valid() && FreshIds(Snapshot(), env.ids) && env.today.Valid()
      modifies this
      ensures Valid()
      ensures Snapshot() == After(old(Snapshot()), env, Request.Record(actor, id, i))
      ensures reply == PlanOf(old(Snapshot()), env, Request.Record(actor, id, i)).reply
    {
      NothingWritten(Snapshot());
      TransactionKeepsSound(Snapshot(), env, Request.Record(actor, id, i));
      if !WellFormedPayment(actor, id, i) {
        return Failed(InvalidPayment);
      }
      var locked := Reachable(Snapshot(), env.dir, actor, id);
      if locked.None? {
        return Failed(PaymentNotFound);
      }
      reply := RecordOn(env, actor, id, locked.value, i);
    }

    method RecordOn(env: Env, actor: Actor, id: int, o: Order, i: PaymentInput) returns (reply: Reply)
      requires id in orders && orders[id] == o
      modifies this
      ensures Snapshot() == Apply(old(Snapshot()), RecordLocked(old(Snapshot()), env, actor, id, o, i).writes)
      ensures reply == RecordLocked(old(Snapshot()), env, actor, id, o, i).reply
    {
      NothingWritten(Snapshot());
      if o.status.Cancelled? || o.deletedAt.Some? {
        return Failed(PaymentOrderCancelled);
      }
      if id in refunds {
        return Failed(RefundsUnsupported);
      }
      var existing := WithKey(OfOrder(payments, o.place, id), i.key);
      if existing.Some? {
        if existing.value.hash != i.hash {
          return Failed(PaymentIdempotencyConflict);
        }
        var paid := PaidTotal(OfOrder(payments, o.place, id));
        if paid > o.total {
          return Failed(LedgerInvariant);
        }
        var change := ChangeFor(existing.value.means, i.tendered, existing.value.amount);
        return Recorded(existing.value, PaymentStatusFor(o.total, paid), paid, i.tendered, change, true);
      }
      var paid := PaidTotal(OfOrder(payments, o.place, id));
      reply := Pay(env, actor, id, o, i, paid);
    }

    method Pay(env: Env, actor: Actor, id: int, o: Order, i: PaymentInput, paid: int) returns (reply: Reply)
      requires id in orders && orders[id] == o
      modifies this
      ensures Snapshot() == Apply(old(Snapshot()), PayPlan(env, actor, id, o, i, paid).writes)
      ensures reply == PayPlan(env, actor, id, o, i, paid).reply
    {
      NothingWritten(Snapshot());
      if paid > o.total {
        return Failed(LedgerInvariant);
      }
      var outstanding := o.total - paid;
      if outstanding <= 0 {
        return Failed(NoBalance);
      }
      var amounts := PaymentAmounts(i.means, i.tendered, outstanding);
      if amounts.Err? {
        return Failed(amounts.error);
      }
      var (applied, change) := amounts.value;
      var created := NewPayment(env, actor, id, o.place, i, applied);
      InsertPayment(created);
      var status := PaymentStatusFor(o.total, paid + applied);
      StoreStatus(id, status, AuditRow(PaymentConfirmed, o.place, actor.user, created.id));
      assert items == items + [];
      return Recorded(created, status, paid + applied, i.tendered, change, false);
    }

    method Void(env: Env, actor: Actor, id: int, target: int, given: string) returns (reply: Reply)
      requires Valid() && FreshIds(Snapshot(), env.ids) && env.today.Valid()
      modifies this
      ensures Valid()
      ensures Snapshot() == After(old(Snapshot()), env, Request.Void(actor, id, target, given))
      ensures reply == PlanOf(old(Snapshot()), env, Request.Void(actor, id, target, given)).reply
    {
      NothingWritten(Snapshot());
      TransactionKeepsSound(Snapshot(), env, Request.Void(actor, id, target, given));
      var reason := Text.Trim(given);
      if !WellFormedVoid(actor, id, target, reason) {
        return Failed(InvalidVoid);
      }
      var locked := Reachable(Snapshot(), env.dir, actor, id);
      if locked.None? {
        return Failed(PaymentNotFound);
      }
      reply := VoidOn(env, actor, id, locked.value, target, reason);
    }

    method VoidOn(env: Env, actor: Actor, id: int, o: Order, target: int, reason: string) returns (reply: Reply)
      requires id in orders && orders[id] == o
      modifies this
      ensures Snapshot() ==
              Apply(old(Snapshot()), VoidLocked(old(Snapshot()), env, actor, id, o, target, reason).writes)
      ensures reply == VoidLocked(old(Snapshot()), env, actor, id, o, target, reason).reply
    {
      NothingWritten(Snapshot());
      if id in refunds {
        return Failed(RefundsUnsupported);
      }
      var found := WithId(OfOrder(payments, o.place, id), target);
      if found.None? {
        return Failed(PaymentNotFound);
      }
      var p := found.value;
      if SameVoid(p, actor, reason) {
        var paid := PaidTotal(OfOrder(payments, o.place, id));
        if paid > o.total {
          return Failed(LedgerInvariant);
        }
        return VoidDone(p, PaymentStatusFor(o.total, paid), paid);
      }
      if !p.state.Confirmed? {
        return Failed(NotVoidable);
      }
      reply := StrikePayment(env, actor, id, o, p, reason);
    }

    /** The total is read back after the update; a total above the order's rolls everything back. */
    method StrikePayment(env: Env, actor: Actor, id: int, o: Order, p: Payment, reason: string) returns (reply: Reply)
      requires id in orders && orders[id] == o
      modifies this
      ensures var s := StrikeOf(env, actor, id, o, p.id, reason);
              var plan := StrikePlan(env, actor, id, o, p, reason,
                                     PaidTotal(StrikeRows(OfOrder(old(payments), o.place, id), s)));
              Snapshot() == Apply(old(Snapshot()), plan.writes) && reply == plan.reply
    {
      var saved := Snapshot();
      NothingWritten(saved);
      var s := StrikeOf(env, actor, id, o, p.id, reason);
      Ledger.OfStruck(payments, s, o.place, id);
      VoidConfirmedPayment(s);
      var paid := PaidTotal(OfOrder(payments, o.place, id));
      if paid > o.total {
        Rollback(saved);
        return Failed(LedgerInvariant);
      }
      var status := PaymentStatusFor(o.total, paid);
      StoreStatus(id, status, AuditRow(PaymentVoided, o.place, actor.user, p.id));
      assert items == items + [];
      return VoidDone(Struck(p, s), status, paid);
    }

    // -------------------------------------------------------------- lifecycle

    method TransitionStatus(env: Env, actor: Actor, id: int, to: Target, notes: Option<string>) returns (reply: Reply)
      requires Valid() && FreshIds(Snapshot(), env.ids) && env.today.Valid()
      modifies this
      ensures Valid()
      ensures Snapshot() == After(old(Snapshot()), env, Request.Transition(actor, id, to, notes))
      ensures reply == PlanOf(old(Snapshot()), env, Request.Transition(actor, id, to, notes)).reply
    {
      NothingWritten(Snapshot());
      TransactionKeepsSound(Snapshot(), env, Request.Transition(actor, id, to, notes));
      if id < 1 || !Known(actor) || !ValidTarget(to) {
        return Failed(InvalidTransition);
      }
      var locked := Reachable(Snapshot(), env.dir, actor, id);
      if locked.None? {
        return Failed(OrderNotFound);
      }
      reply := Move(env, actor, id, locked.value, to.status, notes);
    }

    method Move(env: Env, actor: Actor, id: int, before: Order, to: Status, notes: Option<string>)
      returns (reply: Reply)
      requires id in orders && orders[id] == before
      modifies this
      ensures Snapshot() == Apply(old(Snapshot()), MovePlan(env, actor, id, before, to, notes).writes)
      ensures reply == MovePlan(env, actor, id, before, to, notes).reply
    {
      NothingWritten(Snapshot());
      if !AllowedTransition(before.status, to) {
        return Failed(InvalidTransition);
      }
      var completedAt := if to.Completed? then Some(env.now) else None;
      orders := orders[id := before.(status := to, completedAt := completedAt)];
      InsertHistory(HistoryRow(id, Some(before.status), to, actor.user, notes));
      InsertAudit(AuditRow(OrderStatusChanged, before.place, actor.user, id));
      assert items == items + [];
      return Moved(orders[id].status, orders[id].paymentStatus);
    }

    method Cancel(env: Env, actor: Actor, id: int, given: string) returns (reply: Reply)
      requires Valid() && FreshIds(Snapshot(), env.ids) && env.today.Valid()
      modifies this
      ensures Valid()
      ensures Snapshot() == After(old(Snapshot()), env, Request.Cancel(actor, id, given))
      ensures reply == PlanOf(old(Snapshot()), env, Request.Cancel(actor, id, given)).reply
    {
      NothingWritten(Snapshot());
      TransactionKeepsSound(Snapshot(), env, Request.Cancel(actor, id, given));
      var reason := Text.Trim(given);
      if !WellFormedCancellation(actor, id, reason) {
        return Failed(InvalidCancellation);
      }
      var locked := Reachable(Snapshot(), env.dir, actor, id);
      if locked.None? {
        return Failed(OrderNotFound);
      }
      var before := locked.value;
      if !AllowedTransition(before.status, Cancelled) {
        return Failed(InvalidTransition);
      }
      if before.paymentStatus != Unpaid {
        return Failed(RequiresRefund);
      }
      orders := orders[id := CancelledRow(before, actor.user, reason, env.now)];
      InsertHistory(HistoryRow(id, Some(before.status), Cancelled, actor.user, Some(reason)));
      InsertAudit(AuditRow(OrderCancelled, before.place, actor.user, id));
      assert items == items + [];
      return Moved(orders[id].status, orders[id].paymentStatus);
    }

    // -------------------------------------------------------------- creation

    method Create(env: Env, actor: Actor, i: OrderInput) returns (reply: Reply)
      requires Valid() && FreshIds(Snapshot(), env.ids) && env.today.Valid()
      modifies this
      ensures Valid()
      ensures Snapshot() == After(old(Snapshot()), env, Request.Create(actor, i))
      ensures reply == PlanOf(old(Snapshot()), env, Request.Create(actor, i)).reply
    {
      NothingWritten(Snapshot());
      TransactionKeepsSound(Snapshot(), env, Request.Create(actor, i));
      var refused := AdmitOrder(actor, i);
      if refused.Some? {
        return Failed(refused.value);
      }
      var place := Place(actor.business, i.outlet);
      refused := AdmitOutlet(Snapshot(), env.dir, actor, place);
      if refused.Some? {
        return Failed(refused.value);
      }
      reply := CreateAt(env, actor, place, i);
    }

    method CreateAt(env: Env, actor: Actor, place: Place, i: OrderInput) returns (reply: Reply)
      requires KeysOk(Snapshot()) && place in outlets
      modifies this
      ensures Snapshot() == Apply(old(Snapshot()), CreateLocked(old(Snapshot()), env, actor, place, i).writes)
      ensures reply == CreateLocked(old(Snapshot()), env, actor, place, i).reply
    {
      NothingWritten(Snapshot());
      var existing := FindByKey(place, i.key);
      if existing.Some? {
        if existing.value in orders && orders[existing.value].hash == i.hash {
          return Created(existing.value, true);
        }
        return Failed(OrderIdempotencyConflict);
      }
      if (actor.business, i.customer) !in env.dir.customers {
        return Failed(CustomerNotFound);
      }
      if i.perfume.Some? && (actor.business, i.perfume.value) !in env.dir.perfumes {
        return Failed(PerfumeNotFound);
      }
      var priced := PriceLines(PriceOf(env.dir, actor.business), i.items);
      if priced.Err? {
        return Failed(PricingFailure(priced.error));
      }
      if i.dueAt.Some? && i.dueAt.value < env.now {
        return Failed(DueBeforeReceive);
      }
      reply := InsertOrder(env, actor, place, i, priced.value.0, priced.value.1);
    }

    method InsertOrder(env: Env, actor: Actor, place: Place, i: OrderInput, lines: seq<Line>, total: nat)
      returns (reply: Reply)
      requires place in outlets && total == Total(lines)
      modifies this
      ensures var number := NextNumber(old(counters), CounterRef(place, env.today));
              var plan := InsertionPlan(env, actor, place, old(outlets)[place], i, lines, number);
              Snapshot() == Apply(old(Snapshot()), plan.writes) && reply == plan.reply
    {
      var number := AllocateInvoiceNumber(CounterRef(place, env.today));
      orders := orders[env.ids.order := NewOrder(env, actor, place, outlets[place], i, total, number)];
      InsertItems(env.ids.order, lines, i.perfume);
      InsertHistory(HistoryRow(env.ids.order, None, Received, actor.user, None));
      InsertAudit(AuditRow(OrderCreated, place, actor.user, env.ids.order));
      return Created(env.ids.order, false);
    }

    method InsertItems(id: int, lines: seq<Line>, perfume: Option<int>)
      modifies this`items
      ensures items == old(items) + NewItems(id, lines, perfume)
    {
      for k := 0 to |lines|
        invariant items == old(items) + NewItems(id, lines, perfume)[..k]
      {
        items := items + [OrderItem(id, lines[k], perfume)];
      }
    }

    method OpenOutlet(env: Env, actor: Actor) returns (reply: Reply)
      requires Valid() && FreshIds(Snapshot(), env.ids) && env.today.Valid()
      modifies this
      ensures Valid()
      ensures Snapshot() == After(old(Snapshot()), env, Request.OpenOutlet(actor))
      ensures reply == PlanOf(old(Snapshot()), env, Request.OpenOutlet(actor)).reply
    {
      NothingWritten(Snapshot());
      TransactionKeepsSound(Snapshot(), env, Request.OpenOutlet(actor));
      if (actor.business, actor.user) !in env.dir.users
         || env.dir.users[(actor.business, actor.user)] != User(true, true) {
        return Failed(Unauthorized);
      }
      var n := LastOutlet(outletCounters, actor.business) + 1;
      outletCounters := outletCounters[actor.business := n];
      outlets := outlets[Place(actor.business, env.ids.outlet) := n];
      InsertAudit(AuditRow(OutletCreated, Place(actor.business, env.ids.outlet), actor.user, env.ids.outlet));
      assert items == items + [];
      return OutletOpened(OutletCode(n));
    }
  }
}
