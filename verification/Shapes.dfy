/**
 The only five kinds of change a committed order transaction can make. Every invariant below the
 money is proved once per kind instead of once per service.
 */
module Shapes {
  import opened Outcome
  import opened Places
  import opened Tables
  import opened Pricing
  import opened Numbering
  import opened Plans
  import Text

  /** Everything about an order that no transaction changes after its creation. */
  predicate SameIdentity(a: Order, b: Order) {
    && a.place == b.place && a.customer == b.customer && a.invoice == b.invoice && a.total == b.total
    && a.receivedAt == b.receivedAt && a.dueAt == b.dueAt && a.createdBy == b.createdBy
    && a.key == b.key && a.hash == b.hash
  }

  /** The write set touches neither items, numbers nor outlets. */
  predicate OnlyOrderAndLedger(w: WriteSet) {
    w.items == [] && w.counter.None? && w.outlet.None? && w.outletCounter.None?
  }

  /** A new order with its priced lines, the next number of its outlet and day, and its first history row. */
  ghost predicate Inserts(t: Tables, env: Env, w: WriteSet) {
    && w.order.Some? && w.history.Some? && w.counter.Some? && w.audit.Some?
    && w.strike.None? && w.payment.None? && w.outlet.None? && w.outletCounter.None?
    && var row, c := w.order.value.row, CounterRef(w.order.value.row.place, env.today);
       && w.order.value.key == env.ids.order && row.place in t.outlets
       && OrderWithKey(t.orders, row.place, row.key).None?
       && row.status.Received? && row.paymentStatus.Unpaid?
       && row.invoice == Invoice(t.outlets[row.place], env.today, NextNumber(t.counters, c))
       && w.counter.value == Keyed(c, NextNumber(t.counters, c) + 1)
       && w.history.value.order == env.ids.order && w.history.value.from.None? && w.history.value.to.Received?
       && (exists lines, perfume :: row.total == Total(lines) && w.items == NewItems(env.ids.order, lines, perfume))
  }

  /** A payment is added or struck and the stored payment status follows. */
  ghost predicate Amends(t: Tables, env: Env, w: WriteSet) {
    && w.order.Some? && w.history.None? && w.audit.Some? && OnlyOrderAndLedger(w)
    && w.order.value.key in t.orders
    && w.order.value.row == t.orders[w.order.value.key].(paymentStatus := w.order.value.row.paymentStatus)
    && (w.strike.Some? ==> w.strike.value.order == w.order.value.key && w.strike.value.place == w.order.value.row.place)
    && (w.payment.Some? ==> w.payment.value.id == env.ids.payment && w.payment.value.order == w.order.value.key)
  }

  /** The order advances along one allowed link, recorded in its history. */
  ghost predicate Advances(t: Tables, w: WriteSet) {
    && w.order.Some? && w.history.Some? && w.audit.Some? && OnlyOrderAndLedger(w)
    && w.strike.None? && w.payment.None?
    && w.order.value.key in t.orders
    && var was, row, h := t.orders[w.order.value.key], w.order.value.row, w.history.value;
       && SameIdentity(was, row) && row.paymentStatus == was.paymentStatus
       && AllowedTransition(was.status, row.status)
       && h.order == w.order.value.key && h.from == Some(was.status) && h.to == row.status
  }

  /** A new outlet takes the next number of its business. */
  ghost predicate Opens(t: Tables, env: Env, w: WriteSet) {
    && w.order.None? && w.items == [] && w.strike.None? && w.payment.None? && w.history.None?
    && w.counter.None? && w.outlet.Some? && w.outletCounter.Some? && w.audit.Some?
    && var p, n := w.outlet.value.key, w.outlet.value.row;
       && p.outlet == env.ids.outlet && n == LastOutlet(t.outletCounters, p.business) + 1
       && w.outletCounter.value == Keyed(p.business, n)
  }

  ghost predicate Shaped(t: Tables, env: Env, w: WriteSet) {
    w == NOTHING || Inserts(t, env, w) || Amends(t, env, w) || Advances(t, w) || Opens(t, env, w)
  }

  // ------------------------------------------------------------------ each service has a shape

  lemma PaymentsAmend(t: Tables, env: Env, actor: Actor, id: int, i: PaymentInput)
    requires id in t.orders
    ensures var w := RecordLocked(t, env, actor, id, t.orders[id], i).writes; w == NOTHING || Amends(t, env, w)
  {
    var o := t.orders[id];
    var w := RecordLocked(t, env, actor, id, o, i).writes;
    if w != NOTHING {
      assert w == PayPlan(env, actor, id, o, i, PaidTotal(OfOrder(t.payments, o.place, id))).writes;
    }
  }

  lemma VoidsAmend(t: Tables, env: Env, actor: Actor, id: int, target: int, reason: string)
    requires id in t.orders
    ensures var w := VoidLocked(t, env, actor, id, t.orders[id], target, reason).writes;
            w == NOTHING || Amends(t, env, w)
  {}

  lemma MovesAdvance(t: Tables, env: Env, actor: Actor, id: int, to: Status, notes: Option<string>)
    requires id in t.orders
    ensures var w := MovePlan(env, actor, id, t.orders[id], to, notes).writes; w == NOTHING || Advances(t, w)
  {}

  lemma DropsAdvance(t: Tables, env: Env, actor: Actor, id: int, reason: string)
    requires id in t.orders
    ensures var w := DropPlan(env, actor, id, t.orders[id], reason).writes; w == NOTHING || Advances(t, w)
  {}

  lemma CreationsInsert(t: Tables, env: Env, actor: Actor, place: Place, i: OrderInput)
    requires place in t.outlets
    ensures var w := CreateLocked(t, env, actor, place, i).writes; w == NOTHING || Inserts(t, env, w)
  {
    var w := CreateLocked(t, env, actor, place, i).writes;
    if w != NOTHING {
      var lines := Appraise(env, actor, i).value;
      assert w == InsertionPlan(env, actor, place, t.outlets[place], i, lines,
                                NextNumber(t.counters, CounterRef(place, env.today))).writes;
      assert w.order.value.row.total == Total(lines) && w.items == NewItems(env.ids.order, lines, i.perfume);
    }
  }

  lemma EveryPlanIsShaped(t: Tables, env: Env, r: Request)
    ensures Shaped(t, env, PlanOf(t, env, r).writes)
  {
    match r
    case Record(actor, id, i) =>
      if id in t.orders {
        PaymentsAmend(t, env, actor, id, i);
      }
    case Void(actor, id, target, given) =>
      if id in t.orders {
        VoidsAmend(t, env, actor, id, target, Text.Trim(given));
      }
    case Transition(actor, id, to, notes) =>
      if id in t.orders && ValidTarget(to) {
        MovesAdvance(t, env, actor, id, to.status, notes);
      }
    case Cancel(actor, id, given) =>
      if id in t.orders {
        DropsAdvance(t, env, actor, id, Text.Trim(given));
      }
    case Create(actor, i) =>
      if Place(actor.business, i.outlet) in t.outlets {
        CreationsInsert(t, env, actor, Place(actor.business, i.outlet), i);
      }
    case OpenOutlet(_) =>
  }

  // ------------------------------------------------------------------ what a reply says about the tables

  /** The answer repeats or reports something without doing it. */
  predicate Repeats(r: Reply) {
    || r.Failed?
    || (r.Recorded? && r.replayed)
    || (r.Created? && r.replayed)
  }

  /** An id drawn by one transaction stays unused while others commit. */
  lemma DrawnIdsStayFresh(t: Tables, env: Env, w: WriteSet, ids: Ids)
    requires Shaped(t, env, w) && FreshIds(t, ids) && Separate(ids, env.ids)
    ensures FreshIds(Apply(t, w), ids)
  {}

  /** A refusal, a conflict or a replay leaves every table, counters and audit included, as it was. */
  lemma RefusalsChangeNothing(t: Tables, env: Env, r: Request)
    ensures Repeats(PlanOf(t, env, r).reply) ==> After(t, env, r) == t
  {
    NothingWritten(t);
    match r
    case Create(actor, i) =>
      if Repeats(PlanOf(t, env, r).reply) {
        assert CreatePlan(t, env, actor, i).writes == NOTHING;
      }
    case _ =>
  }

  /** A transaction that changes a table adds exactly one audit row; every other one adds none. */
  lemma EveryChangeIsAuditedOnce(t: Tables, env: Env, r: Request)
    ensures After(t, env, r) != t ==> |After(t, env, r).audit| == |t.audit| + 1
    ensures !PlanOf(t, env, r).reply.VoidDone? ==>
              (|After(t, env, r).audit| == |t.audit| + 1 <==> !Repeats(PlanOf(t, env, r).reply))
  {
    NothingWritten(t);
    EveryPlanIsShaped(t, env, r);
    RefusalsChangeNothing(t, env, r);
  }

  // ------------------------------------------------------------------ what survives

  predicate SameReceipt(p: Payment, q: Payment) {
    && p.id == q.id && p.place == q.place && p.order == q.order && p.amount == q.amount && p.means == q.means
    && p.reference == q.reference && p.notes == q.notes && p.confirmedAt == q.confirmedAt
    && p.createdBy == q.createdBy && p.key == q.key && p.hash == q.hash
  }

  /** A voided payment is never touched again; a confirmed one can only be voided. */
  predicate Outlives(p: Payment, q: Payment) { SameReceipt(p, q) && (p.state.Confirmed? || q == p) }

  ghost predicate OrderStays(t: Tables, u: Tables, id: int) {
    id in t.orders ==> id in u.orders && SameIdentity(t.orders[id], u.orders[id])
  }

  ghost predicate PaymentStays(t: Tables, u: Tables, k: int) {
    0 <= k < |t.payments| ==> k < |u.payments| && Outlives(t.payments[k], u.payments[k])
  }

  /** Orders and payments are never deleted, and what identifies them never changes. */
  ghost predicate Extends(t: Tables, u: Tables) {
    && (forall id :: OrderStays(t, u, id))
    && (forall k :: PaymentStays(t, u, k))
    && t.history <= u.history && t.audit <= u.audit && t.items <= u.items && t.refunds == u.refunds
  }

  lemma ChangeExtends(t: Tables, env: Env, w: WriteSet)
    requires FreshIds(t, env.ids) && Shaped(t, env, w)
    ensures Extends(t, Apply(t, w))
  {
    var u := Apply(t, w);
    forall id ensures OrderStays(t, u, id) {}
    forall k ensures PaymentStays(t, u, k) {}
  }

  lemma {:induction false} RunExtends(t: Tables, log: seq<Entry>)
    requires FreshLog(t, log)
    ensures Extends(t, Serial(t, log))
  {
    if log != [] {
      var last, mid, u := log[|log| - 1], Serial(t, log[..|log| - 1]), Serial(t, log);
      RunExtends(t, log[..|log| - 1]);
      EveryPlanIsShaped(mid, last.env, last.request);
      ChangeExtends(mid, last.env, PlanOf(mid, last.env, last.request).writes);
      forall id ensures OrderStays(t, u, id) {
        assert OrderStays(t, mid, id) && OrderStays(mid, u, id);
      }
      forall k ensures PaymentStays(t, u, k) {
        assert PaymentStays(t, mid, k) && PaymentStays(mid, u, k);
      }
    }
  }
}
