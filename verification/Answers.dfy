/**
 What a caller is told and whose rows a request can touch: every successful answer describes the
 committed tables, and no request changes anything of another business.
 */
module Answers {
  import opened Outcome
  import opened Places
  import opened Tables
  import opened Pricing
  import opened Plans
  import opened Ledger
  import opened Retries
  import opened Numbers
  import opened Shapes
  import opened Numbering
  import opened Effects
  import opened Interleaving
  import opened Serializability
  import Text

  // ------------------------------------------------------------------ payments

  /** The order's stored payment status and confirmed total are the ones reported, for a stored payment. */
  ghost predicate TellsBalance(u: Tables, id: int, p: Payment, status: PaymentStatus, paid: int) {
    && id in u.orders && id !in u.refunds && Holds(u, id, p)
    && u.orders[id].paymentStatus == status && PaidOf(u, id) == paid && 0 <= paid <= u.orders[id].total
  }

  lemma FirstPaymentAnswer(t: Tables, env: Env, actor: Actor, id: int, i: PaymentInput)
    requires LedgerOk(t) && FreshIds(t, env.ids) && id in t.orders && id !in t.refunds
    requires !t.orders[id].status.Cancelled?
    requires WithKey(RowsOf(t, id), i.key).None?
    requires PayPlan(env, actor, id, t.orders[id], i, PaidOf(t, id)).reply.Recorded?
    ensures var plan := PayPlan(env, actor, id, t.orders[id], i, PaidOf(t, id));
            && TellsBalance(Apply(t, plan.writes), id, plan.reply.payment, plan.reply.paymentStatus, plan.reply.paid)
            && plan.reply.payment.state.Confirmed? && plan.reply.paid == PaidOf(t, id) + plan.reply.payment.amount
  {
    var o, plan := t.orders[id], PayPlan(env, actor, id, t.orders[id], i, PaidOf(t, id));
    var u, p := Apply(t, plan.writes), plan.reply.payment;
    assert OrderSound(t.orders, t.payments, id);
    OfAppended(t.payments, p, o.place, id);
    PaidAppended(RowsOf(t, id), p);
    assert u.payments[|t.payments|] == p;
  }

  /** A successful payment, first or repeated, reports the balance the tables hold after it. */
  lemma PaymentAnswer(t: Tables, env: Env, actor: Actor, id: int, i: PaymentInput)
    requires LedgerOk(t) && FreshIds(t, env.ids) && RecordPlan(t, env, actor, id, i).reply.Recorded?
    ensures var plan := RecordPlan(t, env, actor, id, i);
            && Reachable(t, env.dir, actor, id).Some?
            && TellsBalance(Apply(t, plan.writes), id, plan.reply.payment, plan.reply.paymentStatus, plan.reply.paid)
            && (!plan.reply.replayed ==>
                  plan.reply.payment.state.Confirmed? && plan.reply.paid == PaidOf(t, id) + plan.reply.payment.amount)
  {
    var plan := RecordLocked(t, env, actor, id, t.orders[id], i);
    if plan.writes == NOTHING {
      NothingWritten(t);
      RecordingStores(t, env, actor, id, i);
      assert OrderSound(t.orders, t.payments, id);
    } else {
      assert plan == PayPlan(env, actor, id, t.orders[id], i, PaidOf(t, id));
      FirstPaymentAnswer(t, env, actor, id, i);
    }
  }

  lemma StruckIsHeld(t: Tables, id: int, p: Payment, s: Strike)
    requires id in t.orders && Holds(t, id, p)
    ensures exists k ::
              0 <= k < |t.payments| && StrikeRows(t.payments, s)[k] == Struck(p, s) && Struck(p, s).order == id
  {
    var k :| 0 <= k < |t.payments| && t.payments[k] == p;
    assert StrikeRows(t.payments, s)[k] == Struck(p, s);
  }

  lemma RowIsHeld(t: Tables, id: int, p: Payment)
    requires id in t.orders && p in RowsOf(t, id)
    ensures Holds(t, id, p)
  {
    OfOrderSelects(t.payments, t.orders[id].place, id);
  }

  lemma FirstVoidAnswer(t: Tables, env: Env, actor: Actor, id: int, p: Payment, reason: string)
    requires LedgerOk(t) && id in t.orders && id !in t.refunds && p in RowsOf(t, id) && p.state.Confirmed?
    ensures var o, paid := t.orders[id], PaidOf(t, id) - p.amount;
            var plan := StrikePlan(env, actor, id, o, p, reason, paid);
            && PaidTotal(StrikeRows(RowsOf(t, id), StrikeOf(env, actor, id, o, p.id, reason))) == paid
            && plan.reply.VoidDone? && plan.reply.paid == paid
            && TellsBalance(Apply(t, plan.writes), id, plan.reply.payment, plan.reply.paymentStatus, paid)
            && plan.reply.payment.id == p.id && plan.reply.payment.amount == p.amount
            && SameVoid(plan.reply.payment, actor, reason)
  {
    var o, paid := t.orders[id], PaidOf(t, id) - p.amount;
    var s := StrikeOf(env, actor, id, o, p.id, reason);
    var u := Apply(t, StrikePlan(env, actor, id, o, p, reason, paid).writes);
    StrikeKeeps(t, env, actor, id, p, reason);
    OfOrderSelects(t.payments, o.place, id);
    OfStruck(t.payments, s, o.place, id);
    RowIsHeld(t, id, p);
    StruckIsHeld(t, id, p, s);
    assert OrderSound(u.orders, u.payments, id);
  }

  /** A successful void leaves the payment voided by this caller for this reason, and the balance without it. */
  lemma VoidAnswer(t: Tables, env: Env, actor: Actor, id: int, target: int, given: string)
    requires LedgerOk(t) && VoidPlan(t, env, actor, id, target, given).reply.VoidDone?
    ensures var plan := VoidPlan(t, env, actor, id, target, given);
            && Reachable(t, env.dir, actor, id).Some?
            && TellsBalance(Apply(t, plan.writes), id, plan.reply.payment, plan.reply.paymentStatus, plan.reply.paid)
            && plan.reply.payment.id == target && SameVoid(plan.reply.payment, actor, Text.Trim(given))
            && (plan.writes != NOTHING ==> plan.reply.paid == PaidOf(t, id) - plan.reply.payment.amount)
  {
    var reason, p := Text.Trim(given), WithId(RowsOf(t, id), target).value;
    WithIdFinds(RowsOf(t, id), target);
    if SameVoid(p, actor, reason) {
      NothingWritten(t);
      RowIsHeld(t, id, p);
      assert OrderSound(t.orders, t.payments, id);
    } else {
      FirstVoidAnswer(t, env, actor, id, p, reason);
    }
  }

  // ------------------------------------------------------------------ lifecycle and creation

  predicate CancelledBy(o: Order, user: int, reason: string) {
    && o.status.Cancelled? && o.paymentStatus.Unpaid?
    && o.cancelledBy == Some(user) && o.cancellationReason == Some(reason)
  }

  /** A successful move or cancellation is stored as answered, on an order the caller may reach. */
  lemma LifecycleAnswer(t: Tables, env: Env, r: Request)
    requires (r.Transition? || r.Cancel?) && PlanOf(t, env, r).reply.Moved?
    ensures var u, reply := After(t, env, r), PlanOf(t, env, r).reply;
            && Reachable(t, env.dir, r.actor, r.order).Some? && r.order in u.orders
            && u.orders[r.order].status == reply.status && u.orders[r.order].paymentStatus == reply.paymentStatus
            && (r.Transition? ==> r.to == To(reply.status))
            && (r.Cancel? ==> CancelledBy(u.orders[r.order], r.actor.user, Text.Trim(r.reason)))
  {}

  /** A created order stores the requested lines at catalog prices, and a replay names the order of the key. */
  lemma CreationAnswer(t: Tables, env: Env, actor: Actor, i: OrderInput)
    requires NumbersOk(t) && FreshIds(t, env.ids) && CreatePlan(t, env, actor, i).reply.Created?
    ensures var plan := CreatePlan(t, env, actor, i);
            var u, id, place := Apply(t, plan.writes), plan.reply.order, Place(actor.business, i.outlet);
            && AdmitOutlet(t, env.dir, actor, place).None?
            && id in u.orders && u.orders[id].place == place && u.orders[id].key == i.key && u.orders[id].hash == i.hash
            && (plan.reply.replayed <==> id in t.orders)
            && (!plan.reply.replayed ==>
                  && Priced(PriceOf(env.dir, actor.business), i.items) == Ok(ItemsOf(u.items, id))
                  && u.orders[id].total == Total(ItemsOf(u.items, id)) && u.orders[id].customer == i.customer)
  {
    NothingWritten(t);
    var place := Place(actor.business, i.outlet);
    var plan := CreateLocked(t, env, actor, place, i);
    if plan.reply.replayed {
      assert HasKey(t.orders[plan.reply.order], place, i.key);
    } else {
      var lines := Appraise(env, actor, i).value;
      assert plan ==
             InsertionPlan(env, actor, place, t.outlets[place], i, lines,
                           NextNumber(t.counters, CounterRef(place, env.today)));
      assert LinesSound(t.orders, t.items, env.ids.order);
      ItemsJoined(t.items, plan.writes.items, env.ids.order);
      NewItemsOf(env.ids.order, lines, i.perfume, env.ids.order);
      assert [] + lines == lines;
    }
  }

  // ------------------------------------------------------------------ every answer

  /** The outlet just opened carries the announced code and the next number of its business. */
  ghost predicate TellsOutlet(t: Tables, u: Tables, place: Place, code: string) {
    && place in u.outlets && place !in t.outlets && code == OutletCode(u.outlets[place])
    && u.outlets[place] == LastOutlet(t.outletCounters, place.business) + 1
  }

  /** What an answer says is what the tables held before and hold after the transaction. */
  ghost predicate AnswerHolds(t: Tables, env: Env, u: Tables, r: Request, reply: Reply) {
    match reply
    case Failed(error) => u == t && error != LedgerInvariant
    case Recorded(p, status, paid, _, _, replayed) =>
      && r.Record? && r.order in t.orders && TellsBalance(u, r.order, p, status, paid)
      && p.key == r.payment.key && p.hash == r.payment.hash
      && (replayed ==> u == t)
      && (!replayed ==>
            && paid == PaidOf(t, r.order) + p.amount
            && ReceiptOf(p, env, r.actor, r.order, t.orders[r.order].place, r.payment,
                         t.orders[r.order].total - PaidOf(t, r.order)))
    case VoidDone(p, status, paid) =>
      && r.Void? && r.order in t.orders && TellsBalance(u, r.order, p, status, paid)
      && p.id == r.target && SameVoid(p, r.actor, Text.Trim(r.reason))
      && (u == t || paid == PaidOf(t, r.order) - p.amount)
    case Moved(status, paymentStatus) =>
      && (r.Transition? || r.Cancel?) && r.order in u.orders
      && u.orders[r.order].status == status && u.orders[r.order].paymentStatus == paymentStatus
      && if r.Transition? then r.to == To(status) else CancelledBy(u.orders[r.order], r.actor.user, Text.Trim(r.reason))
    case Created(id, replayed) =>
      && r.Create? && id in u.orders && u.orders[id].place == PlaceOf(r)
      && u.orders[id].key == r.input.key && u.orders[id].hash == r.input.hash
      && if replayed then u == t
         else && id !in t.orders && u.orders[id].customer == r.input.customer
              && u.orders[id].total == Total(ItemsOf(u.items, id))
    case OutletOpened(code) =>
      r.OpenOutlet? && exists place: Place :: place.business == r.actor.business && TellsOutlet(t, u, place, code)
  }

  /** The kind of an answer tells the kind of its request. */
  lemma AnswerFits(t: Tables, env: Env, r: Request)
    ensures match PlanOf(t, env, r).reply
            case Failed(_) => true
            case Recorded(_, _, _, _, _, _) => r.Record?
            case VoidDone(_, _, _) => r.Void?
            case Moved(_, _) => r.Transition? || r.Cancel?
            case Created(_, _) => r.Create?
            case OutletOpened(_) => r.OpenOutlet?
  {}

  lemma RecordedHolds(t: Tables, env: Env, r: Request)
    requires LedgerOk(t) && FreshIds(t, env.ids) && r.Record? && PlanOf(t, env, r).reply.Recorded?
    ensures AnswerHolds(t, env, After(t, env, r), r, PlanOf(t, env, r).reply)
  {
    RefusalsChangeNothing(t, env, r);
    PaymentAnswer(t, env, r.actor, r.order, r.payment);
    RecordingStores(t, env, r.actor, r.order, r.payment);
    RecordingHasItsEffect(t, env, r.actor, r.order, r.payment);
  }

  lemma VoidDoneHolds(t: Tables, env: Env, r: Request)
    requires LedgerOk(t) && FreshIds(t, env.ids) && r.Void? && PlanOf(t, env, r).reply.VoidDone?
    ensures AnswerHolds(t, env, After(t, env, r), r, PlanOf(t, env, r).reply)
  {
    NothingWritten(t);
    VoidAnswer(t, env, r.actor, r.order, r.target, r.reason);
  }

  lemma CreatedHolds(t: Tables, env: Env, r: Request)
    requires NumbersOk(t) && FreshIds(t, env.ids) && r.Create? && PlanOf(t, env, r).reply.Created?
    ensures AnswerHolds(t, env, After(t, env, r), r, PlanOf(t, env, r).reply)
  {
    RefusalsChangeNothing(t, env, r);
    CreationAnswer(t, env, r.actor, r.input);
  }

  lemma OutletHolds(t: Tables, env: Env, r: Request)
    requires FreshIds(t, env.ids) && r.OpenOutlet? && PlanOf(t, env, r).reply.OutletOpened?
    ensures AnswerHolds(t, env, After(t, env, r), r, PlanOf(t, env, r).reply)
  {
    assert TellsOutlet(t, After(t, env, r), Place(r.actor.business, env.ids.outlet), PlanOf(t, env, r).reply.code);
  }

  lemma FailureHolds(t: Tables, env: Env, r: Request)
    requires LedgerOk(t) && FreshIds(t, env.ids) && PlanOf(t, env, r).reply.Failed?
    ensures AnswerHolds(t, env, After(t, env, r), r, PlanOf(t, env, r).reply)
  {
    RefusalsChangeNothing(t, env, r);
    TransactionKeepsLedger(t, env, r);
  }

  /** Every answer of every request, refusals and repetitions included, is true of the tables. */
  lemma EveryAnswerHolds(t: Tables, env: Env, r: Request)
    requires LedgerOk(t) && NumbersOk(t) && FreshIds(t, env.ids)
    ensures AnswerHolds(t, env, After(t, env, r), r, PlanOf(t, env, r).reply)
  {
    AnswerFits(t, env, r);
    match PlanOf(t, env, r).reply {
      case Failed(_) => FailureHolds(t, env, r);
      case Recorded(_, _, _, _, _, _) => RecordedHolds(t, env, r);
      case VoidDone(_, _, _) => VoidDoneHolds(t, env, r);
      case Moved(_, _) => LifecycleAnswer(t, env, r);
      case Created(_, _) => CreatedHolds(t, env, r);
      case OutletOpened(_) => OutletHolds(t, env, r);
    }
  }

  // ------------------------------------------------------------------ tenants

  /** Everything of other businesses is as it was, and whatever was added belongs to this one. */
  ghost predicate TouchesOnly(t: Tables, u: Tables, business: int) {
    && (forall id :: id in t.orders && t.orders[id].place.business != business ==> OrderUntouched(t, u, id))
    && (forall id :: id in u.orders && id !in t.orders ==> u.orders[id].place.business == business)
    && (forall c: CounterRef :: c.place.business != business ==> NextNumber(u.counters, c) == NextNumber(t.counters, c))
    && (forall p :: p in t.outlets ==> p in u.outlets && u.outlets[p] == t.outlets[p])
    && (forall p :: p in u.outlets && p !in t.outlets ==> p.business == business)
  }

  lemma OrderRequestsNeedAccess(t: Tables, env: Env, r: Request)
    requires OnOrder(r)
    ensures PlanOf(t, env, r).writes != NOTHING ==>
              r.order in t.orders && t.orders[r.order].place.business == r.actor.business
              && MayReach(env.dir, r.actor, t.orders[r.order].place)
  {}

  lemma ConfinedTouchesOnly(t: Tables, env: Env, r: Request, w: WriteSet)
    requires Confined(t, env, r, w) && FreshIds(t, env.ids) && (w == NOTHING || Shaped(t, env, w))
    requires OnOrder(r) && w != NOTHING ==> r.order in t.orders && t.orders[r.order].place.business == r.actor.business
    ensures TouchesOnly(t, Apply(t, w), r.actor.business)
  {
    NothingWritten(t);
    forall id | id in t.orders && t.orders[id].place.business != r.actor.business
      ensures OrderUntouched(t, Apply(t, w), id)
    {
      if w != NOTHING {
        OtherOrdersUntouched(t, w, id);
      }
    }
  }

  /** No request changes a row of another business. */
  lemma RequestsStayInTheirBusiness(t: Tables, env: Env, r: Request)
    requires FreshIds(t, env.ids)
    ensures TouchesOnly(t, After(t, env, r), r.actor.business)
  {
    EveryPlanIsShaped(t, env, r);
    if OnOrder(r) {
      OrderPlansConfined(t, env, r);
      OrderRequestsNeedAccess(t, env, r);
    } else {
      OtherPlansConfined(t, env, r);
    }
    ConfinedTouchesOnly(t, env, r, PlanOf(t, env, r).writes);
  }
}
