/**
 Retrying a request: whatever ran in between, a repeated payment, void or creation answers with
 what was stored the first time and changes nothing.
 */
module Retries {
  import opened Outcome
  import opened Places
  import opened Tables
  import opened Plans
  import opened Ledger
  import opened Shapes
  import opened Numbers
  import Text

  // ------------------------------------------------------------------ finding the stored payment

  /** p is a stored payment of the order. */
  ghost predicate Holds(t: Tables, id: int, p: Payment) {
    exists k :: 0 <= k < |t.payments| && t.payments[k] == p && p.order == id
  }

  lemma FoundByKeyAndId(t: Tables, id: int, p: Payment)
    requires LedgerOk(t) && id in t.orders && Holds(t, id, p)
    ensures WithKey(RowsOf(t, id), p.key) == Some(p) && WithId(RowsOf(t, id), p.id) == Some(p)
  {
    var place, rows := t.orders[id].place, RowsOf(t, id);
    var k :| 0 <= k < |t.payments| && t.payments[k] == p;
    assert PaymentSound(t.orders, t.payments, k);
    OfOrderSelects(t.payments, place, id);
    OfOrderKeepsDistinct(t.payments, place, id);
    WithKeyFinds(rows, p.key);
    WithIdFinds(rows, p.id);
    assert p in rows;
    var q, r := WithKey(rows, p.key).value, WithId(rows, p.id).value;
    SameKeySameRow(rows, p, q);
    SameKeySameRow(rows, p, r);
  }

  lemma SameKeySameRow(rows: seq<Payment>, p: Payment, q: Payment)
    requires DistinctPayments(rows) && p in rows && q in rows
    requires p.id == q.id || (p.order == q.order && p.key == q.key)
    ensures p == q
  {
    var i :| 0 <= i < |rows| && rows[i] == p;
    var j :| 0 <= j < |rows| && rows[j] == q;
    assert PairDistinct(rows, i, j) && PairDistinct(rows, j, i);
  }

  /** A stored payment is still there after any run, with the same receipt. */
  lemma StillHeld(t: Tables, log: seq<Entry>, id: int, p: Payment) returns (q: Payment)
    requires FreshLog(t, log) && id in t.orders && Holds(t, id, p)
    ensures id in Serial(t, log).orders && SameIdentity(t.orders[id], Serial(t, log).orders[id])
    ensures Holds(Serial(t, log), id, q) && Outlives(p, q)
  {
    var u := Serial(t, log);
    RunExtends(t, log);
    var k :| 0 <= k < |t.payments| && t.payments[k] == p;
    assert PaymentStays(t, u, k) && OrderStays(t, u, id);
    q := u.payments[k];
  }

  // ------------------------------------------------------------------ payments

  /** What a successful recording stored and said. */
  lemma RecordingStores(t: Tables, env: Env, actor: Actor, id: int, i: PaymentInput)
    requires LedgerOk(t) && RecordPlan(t, env, actor, id, i).reply.Recorded?
    ensures var plan, u := RecordPlan(t, env, actor, id, i), Apply(t, RecordPlan(t, env, actor, id, i).writes);
            && id in t.orders && id in u.orders && id !in t.refunds
            && Holds(u, id, plan.reply.payment) && plan.reply.payment.key == i.key && plan.reply.payment.hash == i.hash
            && plan.reply.tendered == i.tendered
            && plan.reply.change == ChangeFor(plan.reply.payment.means, i.tendered, plan.reply.payment.amount)
            && (plan.reply.payment.means.Cash? ==> plan.reply.payment.amount + plan.reply.change == i.tendered)
  {
    NothingWritten(t);
    var o := t.orders[id];
    var rows := OfOrder(t.payments, o.place, id);
    var plan := RecordLocked(t, env, actor, id, o, i);
    WithKeyFinds(rows, i.key);
    OfOrderSelects(t.payments, o.place, id);
    if plan.writes == NOTHING {
      assert plan.reply.payment in t.payments;
    } else {
      assert plan == PayPlan(env, actor, id, o, i, PaidTotal(rows));
      assert Apply(t, plan.writes).payments[|t.payments|] == plan.reply.payment;
    }
  }

  /** The answer to a payment whose key is already used on the order, decided by the stored row alone. */
  lemma UsedKeyAnswers(t: Tables, env: Env, actor: Actor, id: int, i: PaymentInput, p: Payment)
    requires LedgerOk(t) && id !in t.refunds && Reachable(t, env.dir, actor, id).Some?
    requires WellFormedPayment(actor, id, i) && Holds(t, id, p) && p.key == i.key
    ensures RecordPlan(t, env, actor, id, i) ==
            if t.orders[id].status.Cancelled? then Refuse(PaymentOrderCancelled)
            else if p.hash != i.hash then Refuse(PaymentIdempotencyConflict)
            else Plan(NOTHING, Recorded(p, t.orders[id].paymentStatus, PaidOf(t, id), i.tendered,
                                        ChangeFor(p.means, i.tendered, p.amount), true))
  {
    assert OrderSound(t.orders, t.payments, id);
    FoundByKeyAndId(t, id, p);
  }

  /**
   After any run, a retry of a recorded payment returns the same receipt and change and writes
   nothing, exactly when the order has not been cancelled meanwhile; otherwise it is refused.
   */
  lemma PaymentRetryIsStable(t: Tables, env: Env, actor: Actor, id: int, i: PaymentInput,
                             log: seq<Entry>, later: Env, again: Actor)
    requires LedgerOk(t) && FreshIds(t, env.ids) && RecordPlan(t, env, actor, id, i).reply.Recorded?
    requires FreshLog(Apply(t, RecordPlan(t, env, actor, id, i).writes), log) && Known(again)
    requires Reachable(Serial(Apply(t, RecordPlan(t, env, actor, id, i).writes), log), later.dir, again, id).Some?
    ensures var first := RecordPlan(t, env, actor, id, i).reply;
            var u := Serial(Apply(t, RecordPlan(t, env, actor, id, i).writes), log);
            var retry := RecordPlan(u, later, again, id, i);
            && retry.writes == NOTHING
            && (retry.reply.Recorded? <==> !u.orders[id].status.Cancelled?)
            && (retry.reply.Recorded? ==>
                  && retry.reply.replayed && SameReceipt(first.payment, retry.reply.payment)
                  && retry.reply.tendered == first.tendered && retry.reply.change == first.change
                  && retry.reply.paid == PaidOf(u, id))
            && (retry.reply.Failed? ==> retry.reply.error == PaymentOrderCancelled)
  {
    RecordingStores(t, env, actor, id, i);
    RecordKeeps(t, env, actor, id, i);
    var t1, p := Apply(t, RecordPlan(t, env, actor, id, i).writes), RecordPlan(t, env, actor, id, i).reply.payment;
    RecordPlanExtends(t, env, actor, id, i);
    RunExtends(t1, log);
    LedgerAlways(t1, log);
    var q := StillHeld(t1, log, id, p);
    UsedKeyAnswers(Serial(t1, log), later, again, id, i, q);
  }

  /**
   An order paid in full, voided and cancelled: the retry of that payment is refused, although key and
   payload are the ones it was recorded with.
   */
  lemma RetryAfterCancellationIsRefused(t: Tables, env: Env, actor: Actor, id: int, i: PaymentInput, reason: string)
    requires id in t.orders && t.orders[id].status.Received? && t.orders[id].paymentStatus.Unpaid?
    requires t.payments == [] && t.refunds == {} && t.orders[id].total == i.tendered && t.orders[id].deletedAt.None?
    requires Reachable(t, env.dir, actor, id).Some? && WellFormedPayment(actor, id, i) && env.ids.payment >= 1
    requires reason == Text.Trim(reason) && WellFormedVoid(actor, id, 1, reason)
    requires WellFormedCancellation(actor, id, reason)
    ensures var t1 := Apply(t, RecordPlan(t, env, actor, id, i).writes);
            var t2 := Apply(t1, VoidPlan(t1, env, actor, id, env.ids.payment, reason).writes);
            var t3 := Apply(t2, CancelPlan(t2, env, actor, id, reason).writes);
            && RecordPlan(t, env, actor, id, i).reply.Recorded?
            && RecordPlan(t3, env, actor, id, i) == Refuse(PaymentOrderCancelled)
  {
    var o := t.orders[id];
    var p := NewPayment(env, actor, id, o.place, i, i.tendered);
    assert RecordPlan(t, env, actor, id, i) == PayPlan(env, actor, id, o, i, 0);
    var t1 := Apply(t, RecordPlan(t, env, actor, id, i).writes);
    OfAppended([], p, o.place, id);
    assert [] + [p] == [p] && t1.payments == [p] && OfOrder([p], o.place, id) == [p];
    var s := StrikeOf(env, actor, id, o, p.id, reason);
    assert WithId([p], p.id) == Some(p);
    assert PaidTotal(StrikeRows([p], s)) == 0 by {
      PaidAppended([], Struck(p, s));
      assert StrikeRows([p], s) == [] + [Struck(p, s)];
    }
    var t2 := Apply(t1, VoidPlan(t1, env, actor, id, p.id, reason).writes);
    assert t2.orders[id].paymentStatus.Unpaid? && t2.orders[id].status.Received?;
  }

  lemma RecordPlanExtends(t: Tables, env: Env, actor: Actor, id: int, i: PaymentInput)
    ensures Apply(t, RecordPlan(t, env, actor, id, i).writes).refunds == t.refunds
  {}

  /** The same key with another payload is refused after any run, and writes nothing. */
  lemma PaymentConflictIsStable(t: Tables, id: int, p: Payment, log: seq<Entry>, later: Env, again: Actor,
                                i: PaymentInput)
    requires LedgerOk(t) && FreshLog(t, log) && id in t.orders && id !in t.refunds && Holds(t, id, p)
    requires Reachable(Serial(t, log), later.dir, again, id).Some? && WellFormedPayment(again, id, i)
    requires i.key == p.key && i.hash != p.hash
    ensures var retry := RecordPlan(Serial(t, log), later, again, id, i);
            retry == Refuse(PaymentIdempotencyConflict) || retry == Refuse(PaymentOrderCancelled)
  {
    RunExtends(t, log);
    LedgerAlways(t, log);
    var q := StillHeld(t, log, id, p);
    UsedKeyAnswers(Serial(t, log), later, again, id, i, q);
  }

  // ------------------------------------------------------------------ voids

  /** A voided payment answers its author's identical void after any run, cancelled order or not. */
  lemma VoidRetryIsStable(t: Tables, id: int, p: Payment, reason: string, log: seq<Entry>, later: Env, again: Actor)
    requires LedgerOk(t) && FreshLog(t, log) && id in t.orders && id !in t.refunds && Holds(t, id, p)
    requires SameVoid(p, again, reason) && reason == Text.Trim(reason)
    requires Reachable(Serial(t, log), later.dir, again, id).Some? && WellFormedVoid(again, id, p.id, reason)
    ensures var u := Serial(t, log);
            VoidPlan(u, later, again, id, p.id, reason) ==
            Plan(NOTHING, VoidDone(p, u.orders[id].paymentStatus, PaidOf(u, id)))
  {
    var u := Serial(t, log);
    RunExtends(t, log);
    LedgerAlways(t, log);
    var q := StillHeld(t, log, id, p);
    assert OrderSound(u.orders, u.payments, id);
    FoundByKeyAndId(u, id, p);
  }

  // ------------------------------------------------------------------ creations

  /** A retried creation, after any run, finds the order it made, or reports the conflict; it adds nothing. */
  lemma CreationRetryIsStable(t: Tables, id: int, log: seq<Entry>, later: Env, again: Actor, i: OrderInput)
    requires NumbersOk(t) && FreshLog(t, log) && id in t.orders
    requires t.orders[id].place == Place(again.business, i.outlet) && t.orders[id].key == i.key
    requires AdmitOrder(again, i).None?
    requires AdmitOutlet(Serial(t, log), later.dir, again, t.orders[id].place).None?
    ensures CreatePlan(Serial(t, log), later, again, i) ==
            if t.orders[id].hash == i.hash then Plan(NOTHING, Created(id, true)) else Refuse(OrderIdempotencyConflict)
  {
    var u := Serial(t, log);
    NumbersAlways(t, log);
    RunExtends(t, log);
    assert OrderStays(t, u, id);
    KeyFinds(u, id);
  }
}
