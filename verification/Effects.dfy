/**
 What each order request does to the tables and what it answers, said of rows alone and without the
 plans: which requests succeed, which error every other one gets, and every column that is written.
 A request has exactly one such effect, and the plans have it.
 */
module Effects {
  import opened Outcome
  import opened Places
  import opened Tables
  import opened Pricing
  import opened Numbering
  import opened Plans
  import opened Ledger
  import opened Numbers
  import opened Retries
  import opened Shapes
  import Text

  // ------------------------------------------------------------------ who may act

  /** An active account of the business, in the role the caller claims, for an active outlet it is assigned to. */
  ghost predicate ActsAt(dir: Directory, actor: Actor, place: Place) {
    && place.business == actor.business && place in dir.activeOutlets
    && (actor.business, actor.user) in dir.users
    && var user := dir.users[(actor.business, actor.user)];
       user.active && user.admin == actor.admin && (user.admin || (actor.user, place) in dir.assignments)
  }

  ghost predicate ActsOn(t: Tables, dir: Directory, actor: Actor, id: int) {
    id in t.orders && ActsAt(dir, actor, t.orders[id].place)
  }

  lemma ReachableExactly(t: Tables, dir: Directory, actor: Actor, id: int)
    ensures Reachable(t, dir, actor, id) == if ActsOn(t, dir, actor, id) then Some(t.orders[id]) else None
  {}

  /** The status that says how much of the total is confirmed. */
  ghost predicate Says(s: PaymentStatus, paid: int, total: int) {
    match s
    case Unpaid => paid == 0
    case PartiallyPaid => paid != 0 && paid != total
    case Paid => paid != 0 && paid == total
    case Refunded => false
  }

  // ------------------------------------------------------------------ recording a payment

  ghost predicate ProperPayment(actor: Actor, id: int, i: PaymentInput) {
    && id >= 1 && actor.business >= 1 && actor.user >= 1
    && i.tendered > 0 && !i.means.OtherMethod? && 1 <= Text.ByteLength(i.key) <= 128 && |i.hash| == 32
    && (i.reference.Some? ==> |i.reference.value| <= 256) && (i.notes.Some? ==> |i.notes.value| <= 2000)
  }

  ghost predicate TakesPayments(t: Tables, env: Env, actor: Actor, id: int, i: PaymentInput) {
    && ProperPayment(actor, id, i) && ActsOn(t, env.dir, actor, id)
    && !t.orders[id].status.Cancelled? && id !in t.refunds
  }

  ghost predicate KeyFree(t: Tables, id: int, key: string) { forall p :: Holds(t, id, p) ==> p.key != key }

  ghost predicate PaymentFails(t: Tables, env: Env, actor: Actor, id: int, i: PaymentInput, e: Error) {
    match e
    case InvalidPayment => !ProperPayment(actor, id, i)
    case PaymentNotFound => ProperPayment(actor, id, i) && !ActsOn(t, env.dir, actor, id)
    case PaymentOrderCancelled =>
      ProperPayment(actor, id, i) && ActsOn(t, env.dir, actor, id) && t.orders[id].status.Cancelled?
    case RefundsUnsupported =>
      && ProperPayment(actor, id, i) && ActsOn(t, env.dir, actor, id)
      && !t.orders[id].status.Cancelled? && id in t.refunds
    case PaymentIdempotencyConflict =>
      TakesPayments(t, env, actor, id, i) && exists p :: Holds(t, id, p) && p.key == i.key && p.hash != i.hash
    case NoBalance =>
      TakesPayments(t, env, actor, id, i) && KeyFree(t, id, i.key) && PaidOf(t, id) == t.orders[id].total
    case Overpayment =>
      && TakesPayments(t, env, actor, id, i) && KeyFree(t, id, i.key) && !i.means.Cash?
      && PaidOf(t, id) < t.orders[id].total < PaidOf(t, id) + i.tendered
    case _ => false
  }

  /** The receipt of a first recording: as requested, confirmed now, for what the order can still take. */
  ghost predicate ReceiptOf(p: Payment, env: Env, actor: Actor, id: int, place: Place, i: PaymentInput, due: int) {
    && p.id == env.ids.payment && p.order == id && p.place == place
    && p.means == i.means && p.reference == i.reference && p.notes == i.notes
    && p.key == i.key && p.hash == i.hash && p.createdBy == actor.user
    && p.state.Confirmed? && p.confirmedAt == Some(env.now)
    && p.voidedAt.None? && p.voidedBy.None? && p.voidReason.None?
    && (i.tendered <= due ==> p.amount == i.tendered) && (i.tendered > due ==> i.means.Cash? && p.amount == due)
  }

  ghost predicate Pays(t: Tables, env: Env, actor: Actor, id: int, i: PaymentInput, u: Tables, reply: Reply)
    requires TakesPayments(t, env, actor, id, i) && reply.Recorded?
  {
    var o, p, paid := t.orders[id], reply.payment, PaidOf(t, id);
    && KeyFree(t, id, i.key) && paid < o.total && ReceiptOf(p, env, actor, id, o.place, i, o.total - paid)
    && u == t.(payments := t.payments + [p], orders := t.orders[id := o.(paymentStatus := reply.paymentStatus)],
               audit := t.audit + [AuditRow(PaymentConfirmed, o.place, actor.user, p.id)])
    && Says(reply.paymentStatus, paid + p.amount, o.total) && reply.paid == paid + p.amount
    && reply.tendered == i.tendered && reply.change == i.tendered - p.amount && !reply.replayed
  }

  ghost predicate RepeatsPayment(t: Tables, env: Env, actor: Actor, id: int, i: PaymentInput, u: Tables, reply: Reply)
    requires TakesPayments(t, env, actor, id, i) && reply.Recorded?
  {
    var p := reply.payment;
    && u == t && Holds(t, id, p) && p.key == i.key && p.hash == i.hash
    && reply.paymentStatus == t.orders[id].paymentStatus && reply.paid == PaidOf(t, id)
    && reply.tendered == i.tendered && reply.change == (if p.means.Cash? then i.tendered - p.amount else 0)
    && reply.replayed
  }

  ghost predicate PaymentEffect(t: Tables, env: Env, actor: Actor, id: int, i: PaymentInput, u: Tables, reply: Reply) {
    match reply
    case Failed(e) => u == t && PaymentFails(t, env, actor, id, i, e)
    case Recorded(_, _, _, _, _, _) =>
      && TakesPayments(t, env, actor, id, i)
      && (Pays(t, env, actor, id, i, u, reply) || RepeatsPayment(t, env, actor, id, i, u, reply))
    case _ => false
  }

  lemma KeyFreeExactly(t: Tables, id: int, key: string)
    requires LedgerOk(t) && id in t.orders
    ensures WithKey(RowsOf(t, id), key).None? <==> KeyFree(t, id, key)
    ensures WithKey(RowsOf(t, id), key).Some? ==>
              Holds(t, id, WithKey(RowsOf(t, id), key).value) && WithKey(RowsOf(t, id), key).value.key == key
  {
    OfOrderSelects(t.payments, t.orders[id].place, id);
    WithKeyFinds(RowsOf(t, id), key);
    if WithKey(RowsOf(t, id), key).Some? {
      HeldInTable(t, id, WithKey(RowsOf(t, id), key).value);
    } else {
      forall p | Holds(t, id, p) ensures p.key != key {
        FoundByKeyAndId(t, id, p);
      }
    }
  }

  lemma HeldInTable(t: Tables, id: int, p: Payment)
    requires id in t.orders && p in RowsOf(t, id)
    ensures Holds(t, id, p)
  {
    OfOrderSelects(t.payments, t.orders[id].place, id);
  }

  lemma SameKeySamePayment(t: Tables, id: int, p: Payment, q: Payment)
    requires LedgerOk(t) && id in t.orders && Holds(t, id, p) && Holds(t, id, q) && p.key == q.key
    ensures p == q
  {
    FoundByKeyAndId(t, id, p);
    FoundByKeyAndId(t, id, q);
  }

  lemma RefusedRecording(t: Tables, env: Env, actor: Actor, id: int, i: PaymentInput)
    requires LedgerOk(t) && !TakesPayments(t, env, actor, id, i)
    ensures var plan := RecordPlan(t, env, actor, id, i);
            plan.writes == NOTHING && plan.reply.Failed? && PaymentFails(t, env, actor, id, i, plan.reply.error)
  {
    ReachableExactly(t, env.dir, actor, id);
    assert OrderSound(t.orders, t.payments, id);
  }

  lemma UsedKeyHasItsEffect(t: Tables, env: Env, actor: Actor, id: int, i: PaymentInput, p: Payment)
    requires LedgerOk(t) && TakesPayments(t, env, actor, id, i) && Holds(t, id, p) && p.key == i.key
    ensures var plan := RecordPlan(t, env, actor, id, i);
            PaymentEffect(t, env, actor, id, i, Apply(t, plan.writes), plan.reply)
  {
    NothingWritten(t);
    ReachableExactly(t, env.dir, actor, id);
    UsedKeyAnswers(t, env, actor, id, i, p);
  }

  lemma FreeKeyIsPlanned(t: Tables, env: Env, actor: Actor, id: int, i: PaymentInput)
    requires LedgerOk(t) && TakesPayments(t, env, actor, id, i) && WithKey(RowsOf(t, id), i.key).None?
    ensures RecordPlan(t, env, actor, id, i) == PayPlan(env, actor, id, t.orders[id], i, PaidOf(t, id))
  {
    ReachableExactly(t, env.dir, actor, id);
    assert OrderSound(t.orders, t.payments, id);
  }

  /** Every recording has the effect described: success and each error exactly when said, every column as said. */
  lemma RecordingHasItsEffect(t: Tables, env: Env, actor: Actor, id: int, i: PaymentInput)
    requires LedgerOk(t) && FreshIds(t, env.ids)
    ensures var plan := RecordPlan(t, env, actor, id, i);
            PaymentEffect(t, env, actor, id, i, Apply(t, plan.writes), plan.reply)
  {
    if !TakesPayments(t, env, actor, id, i) {
      NothingWritten(t);
      RefusedRecording(t, env, actor, id, i);
    } else {
      KeyFreeExactly(t, id, i.key);
      var found := WithKey(RowsOf(t, id), i.key);
      if found.Some? {
        UsedKeyHasItsEffect(t, env, actor, id, i, found.value);
      } else {
        FreeKeyIsPlanned(t, env, actor, id, i);
        FirstRecordingPays(t, env, actor, id, i);
      }
    }
  }

  lemma FirstRecordingPays(t: Tables, env: Env, actor: Actor, id: int, i: PaymentInput)
    requires LedgerOk(t) && FreshIds(t, env.ids) && TakesPayments(t, env, actor, id, i) && KeyFree(t, id, i.key)
    ensures var plan := PayPlan(env, actor, id, t.orders[id], i, PaidOf(t, id));
            PaymentEffect(t, env, actor, id, i, Apply(t, plan.writes), plan.reply)
  {
    NothingWritten(t);
    assert OrderSound(t.orders, t.payments, id);
    assert t.items + [] == t.items;
  }

  lemma OneReceipt(t: Tables, env: Env, actor: Actor, id: int, i: PaymentInput, u: Tables, a: Reply, v: Tables,
                   b: Reply)
    requires TakesPayments(t, env, actor, id, i) && a.Recorded? && b.Recorded?
    requires Pays(t, env, actor, id, i, u, a) && Pays(t, env, actor, id, i, v, b)
    ensures u == v && a == b
  {
    assert a.payment == b.payment;
  }

  lemma OneRepetition(t: Tables, env: Env, actor: Actor, id: int, i: PaymentInput, u: Tables, a: Reply, v: Tables,
                      b: Reply)
    requires LedgerOk(t) && TakesPayments(t, env, actor, id, i) && a.Recorded? && b.Recorded?
    requires RepeatsPayment(t, env, actor, id, i, u, a) && RepeatsPayment(t, env, actor, id, i, v, b)
    ensures u == v && a == b
  {
    SameKeySamePayment(t, id, a.payment, b.payment);
  }

  lemma PaymentFailureExcludes(t: Tables, env: Env, actor: Actor, id: int, i: PaymentInput, e: Error, v: Tables,
                               b: Reply)
    requires LedgerOk(t) && PaymentFails(t, env, actor, id, i, e) && b.Recorded?
    ensures !PaymentEffect(t, env, actor, id, i, v, b)
  {
    if PaymentEffect(t, env, actor, id, i, v, b) {
      if e.PaymentIdempotencyConflict? {
        var p :| Holds(t, id, p) && p.key == i.key && p.hash != i.hash;
        if RepeatsPayment(t, env, actor, id, i, v, b) {
          SameKeySamePayment(t, id, p, b.payment);
        }
      }
    }
  }

  lemma PaymentEffectIsUnique(t: Tables, env: Env, actor: Actor, id: int, i: PaymentInput,
                              u: Tables, a: Reply, v: Tables, b: Reply)
    requires LedgerOk(t) && PaymentEffect(t, env, actor, id, i, u, a) && PaymentEffect(t, env, actor, id, i, v, b)
    ensures u == v && a == b
  {
    if a.Recorded? && b.Recorded? {
      if Pays(t, env, actor, id, i, u, a) && Pays(t, env, actor, id, i, v, b) {
        OneReceipt(t, env, actor, id, i, u, a, v, b);
      } else if RepeatsPayment(t, env, actor, id, i, u, a) && RepeatsPayment(t, env, actor, id, i, v, b) {
        OneRepetition(t, env, actor, id, i, u, a, v, b);
      }
    } else if a.Recorded? {
      PaymentFailureExcludes(t, env, actor, id, i, b.error, u, a);
    } else if b.Recorded? {
      PaymentFailureExcludes(t, env, actor, id, i, a.error, v, b);
    }
  }

  // ------------------------------------------------------------------ voiding a payment

  ghost predicate ProperVoid(actor: Actor, id: int, target: int, reason: string) {
    id >= 1 && target >= 1 && actor.business >= 1 && actor.user >= 1 && 1 <= |reason| <= 2000
  }

  ghost predicate MayVoid(t: Tables, env: Env, actor: Actor, id: int, target: int, reason: string) {
    ProperVoid(actor, id, target, reason) && ActsOn(t, env.dir, actor, id) && id !in t.refunds
  }

  /** The caller voided it before, for the same reason. */
  ghost predicate VoidedBy(p: Payment, user: int, reason: string) {
    p.state.Voided? && p.voidedBy == Some(user) && p.voidReason == Some(reason)
  }

  ghost predicate VoidFails(t: Tables, env: Env, actor: Actor, id: int, target: int, reason: string, e: Error) {
    match e
    case InvalidVoid => !ProperVoid(actor, id, target, reason)
    case RefundsUnsupported =>
      ProperVoid(actor, id, target, reason) && ActsOn(t, env.dir, actor, id) && id in t.refunds
    case PaymentNotFound =>
      && ProperVoid(actor, id, target, reason)
      && (|| !ActsOn(t, env.dir, actor, id)
          || (id !in t.refunds && forall p :: Holds(t, id, p) ==> p.id != target))
    case NotVoidable =>
      && MayVoid(t, env, actor, id, target, reason)
      && exists p :: Holds(t, id, p) && p.id == target && p.state.Voided? && !VoidedBy(p, actor.user, reason)
    case _ => false
  }

  /** Row k becomes voided, with who, when and why; everything else about it stays. */
  ghost predicate VoidsRow(t: Tables, env: Env, actor: Actor, id: int, target: int, reason: string, k: nat,
                           p: Payment)
  {
    && k < |t.payments| && t.payments[k].order == id && t.payments[k].id == target && t.payments[k].state.Confirmed?
    && SameReceipt(t.payments[k], p) && p.state.Voided?
    && p.voidedAt == Some(env.now) && p.voidedBy == Some(actor.user) && p.voidReason == Some(reason)
  }

  ghost predicate VoidsAt(t: Tables, env: Env, actor: Actor, id: int, target: int, reason: string, k: nat,
                          u: Tables, reply: Reply)
    requires id in t.orders && reply.VoidDone?
  {
    var o, p := t.orders[id], reply.payment;
    && VoidsRow(t, env, actor, id, target, reason, k, p)
    && u == t.(payments := t.payments[k := p], orders := t.orders[id := o.(paymentStatus := reply.paymentStatus)],
               audit := t.audit + [AuditRow(PaymentVoided, o.place, actor.user, target)])
    && reply.paid == PaidOf(t, id) - p.amount && Says(reply.paymentStatus, reply.paid, o.total)
  }

  ghost predicate RepeatsVoid(t: Tables, actor: Actor, id: int, target: int, reason: string, u: Tables, reply: Reply)
    requires id in t.orders && reply.VoidDone?
  {
    && u == t && Holds(t, id, reply.payment) && reply.payment.id == target
    && VoidedBy(reply.payment, actor.user, reason)
    && reply.paymentStatus == t.orders[id].paymentStatus && reply.paid == PaidOf(t, id)
  }

  ghost predicate VoidEffect(t: Tables, env: Env, actor: Actor, id: int, target: int, reason: string,
                             u: Tables, reply: Reply)
  {
    match reply
    case Failed(e) => u == t && VoidFails(t, env, actor, id, target, reason, e)
    case VoidDone(_, _, _) =>
      && MayVoid(t, env, actor, id, target, reason)
      && (|| (exists k: nat :: VoidsAt(t, env, actor, id, target, reason, k, u, reply))
          || RepeatsVoid(t, actor, id, target, reason, u, reply))
    case _ => false
  }

  lemma FoundExactly(t: Tables, id: int, target: int)
    requires LedgerOk(t) && id in t.orders
    ensures WithId(RowsOf(t, id), target).None? <==> forall p :: Holds(t, id, p) ==> p.id != target
    ensures WithId(RowsOf(t, id), target).Some? ==>
              Holds(t, id, WithId(RowsOf(t, id), target).value) && WithId(RowsOf(t, id), target).value.id == target
  {
    WithIdFinds(RowsOf(t, id), target);
    if WithId(RowsOf(t, id), target).Some? {
      HeldInTable(t, id, WithId(RowsOf(t, id), target).value);
    } else {
      forall p | Holds(t, id, p) ensures p.id != target {
        FoundByKeyAndId(t, id, p);
      }
    }
  }

  lemma SameIdSamePayment(t: Tables, id: int, p: Payment, q: Payment)
    requires LedgerOk(t) && id in t.orders && Holds(t, id, p) && Holds(t, id, q) && p.id == q.id
    ensures p == q
  {
    FoundByKeyAndId(t, id, p);
    FoundByKeyAndId(t, id, q);
  }

  /** The update strikes one row. */
  lemma StrikesOneRow(t: Tables, env: Env, actor: Actor, id: int, p: Payment, reason: string) returns (k: nat)
    requires LedgerOk(t) && id in t.orders && Holds(t, id, p) && p.state.Confirmed?
    ensures var s := StrikeOf(env, actor, id, t.orders[id], p.id, reason);
            && VoidsRow(t, env, actor, id, p.id, reason, k, Struck(p, s)) && t.payments[k] == p
            && StrikeRows(t.payments, s) == t.payments[k := Struck(p, s)]
  {
    var s := StrikeOf(env, actor, id, t.orders[id], p.id, reason);
    k :| 0 <= k < |t.payments| && t.payments[k] == p && p.order == id;
    assert PaymentSound(t.orders, t.payments, k);
    forall j | 0 <= j < |t.payments| && j != k ensures Struck(t.payments[j], s) == t.payments[j] {
      assert PairDistinct(t.payments, j, k) && PairDistinct(t.payments, k, j);
    }
  }

  /** The balance after the void, and the status that says so. */
  lemma VoidBalance(t: Tables, env: Env, actor: Actor, id: int, p: Payment, reason: string)
    requires LedgerOk(t) && id in t.orders && Holds(t, id, p) && p.state.Confirmed?
    ensures var o, s := t.orders[id], StrikeOf(env, actor, id, t.orders[id], p.id, reason);
            && PaidTotal(StrikeRows(RowsOf(t, id), s)) == PaidOf(t, id) - p.amount
            && 0 <= PaidOf(t, id) - p.amount <= o.total
            && Says(PaymentStatusFor(o.total, PaidOf(t, id) - p.amount), PaidOf(t, id) - p.amount, o.total)
  {
    assert OrderSound(t.orders, t.payments, id);
    FoundByKeyAndId(t, id, p);
    WithIdFinds(RowsOf(t, id), p.id);
    StrikeKeeps(t, env, actor, id, p, reason);
    RowsArePositive(t.orders, t.payments, t.orders[id].place, id);
    StrikeLowers(RowsOf(t, id), StrikeOf(env, actor, id, t.orders[id], p.id, reason));
    var k :| 0 <= k < |t.payments| && t.payments[k] == p;
    assert PaymentSound(t.orders, t.payments, k);
  }

  lemma FirstVoidVoids(t: Tables, env: Env, actor: Actor, id: int, p: Payment, reason: string)
    requires LedgerOk(t) && MayVoid(t, env, actor, id, p.id, reason) && Holds(t, id, p) && p.state.Confirmed?
    ensures var s := StrikeOf(env, actor, id, t.orders[id], p.id, reason);
            var plan := StrikePlan(env, actor, id, t.orders[id], p, reason, PaidTotal(StrikeRows(RowsOf(t, id), s)));
            VoidEffect(t, env, actor, id, p.id, reason, Apply(t, plan.writes), plan.reply)
  {
    VoidBalance(t, env, actor, id, p, reason);
    var k := StrikesOneRow(t, env, actor, id, p, reason);
    var plan := StrikePlan(env, actor, id, t.orders[id], p, reason, PaidOf(t, id) - p.amount);
    assert t.items + [] == t.items;
    assert VoidsAt(t, env, actor, id, p.id, reason, k, Apply(t, plan.writes), plan.reply);
  }

  /** Every void has the effect described. */
  lemma VoidHasItsEffect(t: Tables, env: Env, actor: Actor, id: int, target: int, given: string)
    requires LedgerOk(t) && FreshIds(t, env.ids)
    ensures var plan := VoidPlan(t, env, actor, id, target, given);
            VoidEffect(t, env, actor, id, target, Text.Trim(given), Apply(t, plan.writes), plan.reply)
  {
    var reason := Text.Trim(given);
    NothingWritten(t);
    ReachableExactly(t, env.dir, actor, id);
    if MayVoid(t, env, actor, id, target, reason) {
      assert OrderSound(t.orders, t.payments, id);
      FoundExactly(t, id, target);
      var found := WithId(RowsOf(t, id), target);
      if found.Some? {
        var k :| 0 <= k < |t.payments| && t.payments[k] == found.value;
        assert PaymentSound(t.orders, t.payments, k);
        if found.value.state.Confirmed? {
          FirstVoidVoids(t, env, actor, id, found.value, reason);
        }
      }
    }
  }

  lemma SameIdSameRow(t: Tables, j: nat, k: nat)
    requires LedgerOk(t) && j < |t.payments| && k < |t.payments| && t.payments[j].id == t.payments[k].id
    ensures j == k
  {
    assert PairDistinct(t.payments, j, k) && PairDistinct(t.payments, k, j);
  }

  /** A row just voided was confirmed, so it is no repetition and decides the rest. */
  lemma VoidedRowDecides(t: Tables, env: Env, actor: Actor, id: int, target: int, reason: string, k: nat,
                         u: Tables, a: Reply, v: Tables, b: Reply)
    requires LedgerOk(t) && MayVoid(t, env, actor, id, target, reason)
    requires a.VoidDone? && VoidsAt(t, env, actor, id, target, reason, k, u, a)
    requires VoidEffect(t, env, actor, id, target, reason, v, b)
    ensures u == v && a == b
  {
    assert Holds(t, id, t.payments[k]);
    if p :| Holds(t, id, p) && p.id == target && p.state.Voided? {
      SameIdSamePayment(t, id, p, t.payments[k]);
    }
    if j: nat :| b.VoidDone? && VoidsAt(t, env, actor, id, target, reason, j, v, b) {
      SameIdSameRow(t, j, k);
    }
  }

  lemma VoidEffectIsUnique(t: Tables, env: Env, actor: Actor, id: int, target: int, reason: string,
                           u: Tables, a: Reply, v: Tables, b: Reply)
    requires LedgerOk(t) && VoidEffect(t, env, actor, id, target, reason, u, a)
    requires VoidEffect(t, env, actor, id, target, reason, v, b)
    ensures u == v && a == b
  {
    if k: nat :| a.VoidDone? && VoidsAt(t, env, actor, id, target, reason, k, u, a) {
      VoidedRowDecides(t, env, actor, id, target, reason, k, u, a, v, b);
    } else if k: nat :| b.VoidDone? && VoidsAt(t, env, actor, id, target, reason, k, v, b) {
      VoidedRowDecides(t, env, actor, id, target, reason, k, v, b, u, a);
    } else if MayVoid(t, env, actor, id, target, reason) {
      forall p, q | Holds(t, id, p) && Holds(t, id, q) && p.id == q.id ensures p == q {
        SameIdSamePayment(t, id, p, q);
      }
    }
  }

  // ------------------------------------------------------------------ moving an order along

  ghost predicate ProperMove(actor: Actor, id: int, to: Target) {
    id >= 1 && actor.business >= 1 && actor.user >= 1 && to in {To(Processing), To(ReadyForPickup), To(Completed)}
  }

  /** The one status a status change may come from. */
  ghost predicate Precedes(was: Status, to: Status) {
    (was, to) in {(Received, Processing), (Processing, ReadyForPickup), (ReadyForPickup, Completed)}
  }

  ghost predicate MoveFails(t: Tables, env: Env, actor: Actor, id: int, to: Target, e: Error) {
    match e
    case InvalidTransition =>
      || !ProperMove(actor, id, to)
      || (ActsOn(t, env.dir, actor, id) && !Precedes(t.orders[id].status, to.status))
    case OrderNotFound => ProperMove(actor, id, to) && !ActsOn(t, env.dir, actor, id)
    case _ => false
  }

  ghost predicate MoveEffect(t: Tables, env: Env, actor: Actor, id: int, to: Target, notes: Option<string>,
                             u: Tables, reply: Reply)
  {
    match reply
    case Failed(e) => u == t && MoveFails(t, env, actor, id, to, e)
    case Moved(status, paymentStatus) =>
      && ProperMove(actor, id, to) && ActsOn(t, env.dir, actor, id) && Precedes(t.orders[id].status, to.status)
      && var o := t.orders[id];
         && status == to.status && paymentStatus == o.paymentStatus
         && var row := o.(status := status, completedAt := if status == Completed then Some(env.now) else None);
            u == t.(orders := t.orders[id := row],
                    history := t.history + [HistoryRow(id, Some(o.status), status, actor.user, notes)],
                    audit := t.audit + [AuditRow(OrderStatusChanged, o.place, actor.user, id)])
    case _ => false
  }

  lemma MoveHasItsEffect(t: Tables, env: Env, actor: Actor, id: int, to: Target, notes: Option<string>)
    ensures var plan := TransitionPlan(t, env, actor, id, to, notes);
            MoveEffect(t, env, actor, id, to, notes, Apply(t, plan.writes), plan.reply)
  {
    NothingWritten(t);
    ReachableExactly(t, env.dir, actor, id);
    assert t.items + [] == t.items;
  }

  // ------------------------------------------------------------------ cancelling an order

  ghost predicate ProperCancellation(actor: Actor, id: int, reason: string) {
    id >= 1 && actor.business >= 1 && actor.user >= 1 && reason != "" && Text.ByteLength(reason) <= 2000
  }

  ghost predicate MayCancel(t: Tables, env: Env, actor: Actor, id: int, reason: string) {
    ProperCancellation(actor, id, reason) && ActsOn(t, env.dir, actor, id)
  }

  ghost predicate CancellationFails(t: Tables, env: Env, actor: Actor, id: int, reason: string, e: Error) {
    match e
    case InvalidCancellation => !ProperCancellation(actor, id, reason)
    case OrderNotFound => ProperCancellation(actor, id, reason) && !ActsOn(t, env.dir, actor, id)
    case InvalidTransition => MayCancel(t, env, actor, id, reason) && t.orders[id].status in {Completed, Cancelled}
    case RequiresRefund =>
      MayCancel(t, env, actor, id, reason) && t.orders[id].status !in {Completed, Cancelled} && PaidOf(t, id) > 0
    case _ => false
  }

  ghost predicate CancellationEffect(t: Tables, env: Env, actor: Actor, id: int, reason: string, u: Tables,
                                     reply: Reply)
  {
    match reply
    case Failed(e) => u == t && CancellationFails(t, env, actor, id, reason, e)
    case Moved(status, paymentStatus) =>
      && MayCancel(t, env, actor, id, reason) && t.orders[id].status !in {Completed, Cancelled} && PaidOf(t, id) == 0
      && status == Cancelled && paymentStatus == Unpaid
      && var o := t.orders[id];
         var row := o.(status := Cancelled, cancelledAt := Some(env.now), cancelledBy := Some(actor.user),
                       cancellationReason := Some(reason), deletedAt := Some(env.now));
         u == t.(orders := t.orders[id := row],
                 history := t.history + [HistoryRow(id, Some(o.status), Cancelled, actor.user, Some(reason))],
                 audit := t.audit + [AuditRow(OrderCancelled, o.place, actor.user, id)])
    case _ => false
  }

  lemma CancellationHasItsEffect(t: Tables, env: Env, actor: Actor, id: int, given: string)
    requires LedgerOk(t)
    ensures var plan := CancelPlan(t, env, actor, id, given);
            CancellationEffect(t, env, actor, id, Text.Trim(given), Apply(t, plan.writes), plan.reply)
  {
    NothingWritten(t);
    ReachableExactly(t, env.dir, actor, id);
    assert OrderSound(t.orders, t.payments, id);
    assert t.items + [] == t.items;
  }

  // ------------------------------------------------------------------ creating an order

  ghost predicate ProperOrder(actor: Actor, i: OrderInput) {
    && i.outlet >= 1 && i.customer >= 1 && |i.items| > 0 && |i.key| > 0 && |i.hash| == 32
    && actor.business >= 1 && actor.user >= 1
  }

  ghost predicate ProperItems(i: OrderInput) {
    && (forall k :: 0 <= k < |i.items| ==> i.items[k].service >= 1)
    && (i.perfume.Some? ==> i.perfume.value >= 1)
  }

  /** The caller's own claims cover the outlet. */
  ghost predicate Claims(actor: Actor, i: OrderInput) { actor.admin || i.outlet in actor.outlets }

  ghost predicate Asks(actor: Actor, i: OrderInput) { ProperOrder(actor, i) && Claims(actor, i) && ProperItems(i) }

  ghost predicate OutletOpen(t: Tables, env: Env, place: Place) { place in env.dir.activeOutlets && place in t.outlets }

  ghost predicate Assigned(env: Env, actor: Actor, place: Place) {
    actor.admin || (actor.user, place) in env.dir.assignments
  }

  ghost predicate MayCreate(t: Tables, env: Env, actor: Actor, i: OrderInput) {
    && Asks(actor, i) && OutletOpen(t, env, Place(actor.business, i.outlet))
    && Assigned(env, actor, Place(actor.business, i.outlet))
  }

  /** An order of the outlet with the key. */
  ghost predicate HoldsKey(t: Tables, place: Place, key: string, id: int) {
    id in t.orders && t.orders[id].place == place && t.orders[id].key == key
  }

  ghost predicate Unordered(t: Tables, place: Place, key: string) { forall id :: !HoldsKey(t, place, key, id) }

  ghost predicate PartiesKnown(env: Env, actor: Actor, i: OrderInput) {
    && (actor.business, i.customer) in env.dir.customers
    && (i.perfume.Some? ==> (actor.business, i.perfume.value) in env.dir.perfumes)
  }

  /** The active services of the business, none when it has none. */
  ghost predicate CatalogIs(env: Env, business: int, catalog: Catalog) {
    if business in env.dir.services then catalog == env.dir.services[business] else catalog == map[]
  }

  ghost predicate Bill(env: Env, actor: Actor, i: OrderInput, lines: seq<Line>) {
    exists catalog :: CatalogIs(env, actor.business, catalog) && BillsAll(catalog, i.items, lines)
                      && Total(lines) <= MAX_INT64
  }

  ghost predicate BillFails(env: Env, actor: Actor, i: OrderInput, e: PricingError) {
    exists catalog, k: nat :: CatalogIs(env, actor.business, catalog) && FailsAt(catalog, i.items, k, e)
  }

  ghost predicate MayPrice(t: Tables, env: Env, actor: Actor, i: OrderInput) {
    && MayCreate(t, env, actor, i) && Unordered(t, Place(actor.business, i.outlet), i.key)
    && PartiesKnown(env, actor, i)
  }

  ghost predicate CreationFails(t: Tables, env: Env, actor: Actor, i: OrderInput, e: Error) {
    var place := Place(actor.business, i.outlet);
    match e
    case InvalidOrder => !ProperOrder(actor, i) || (Claims(actor, i) && !ProperItems(i))
    case OutletForbidden =>
      || (ProperOrder(actor, i) && !Claims(actor, i))
      || (Asks(actor, i) && OutletOpen(t, env, place) && !Assigned(env, actor, place))
    case OrderNotFound => Asks(actor, i) && !OutletOpen(t, env, place)
    case OrderIdempotencyConflict =>
      MayCreate(t, env, actor, i) && exists id :: HoldsKey(t, place, i.key, id) && t.orders[id].hash != i.hash
    case CustomerNotFound =>
      MayCreate(t, env, actor, i) && Unordered(t, place, i.key) && (actor.business, i.customer) !in env.dir.customers
    case PerfumeNotFound =>
      && MayCreate(t, env, actor, i) && Unordered(t, place, i.key) && (actor.business, i.customer) in env.dir.customers
      && i.perfume.Some? && (actor.business, i.perfume.value) !in env.dir.perfumes
    case ServiceMissing => MayPrice(t, env, actor, i) && BillFails(env, actor, i, ServiceNotFound)
    case InvalidQuantity => MayPrice(t, env, actor, i) && BillFails(env, actor, i, BadQuantity)
    case OrderTotalOverflow => MayPrice(t, env, actor, i) && BillFails(env, actor, i, TotalOverflow)
    case DueBeforeReceive =>
      && MayPrice(t, env, actor, i) && i.dueAt.Some? && i.dueAt.value < env.now
      && exists lines :: Bill(env, actor, i, lines)
    case _ => false
  }

  /** The number an outlet's next order of the day receives, one on a day without orders. */
  function Allocated(t: Tables, c: CounterRef): nat { if c !in t.counters then 1 else t.counters[c] }

  /** The new order: the request's parties, key and due time, received now, unpaid, numbered, and billed in all. */
  ghost predicate OrderOf(o: Order, t: Tables, env: Env, actor: Actor, i: OrderInput, lines: seq<Line>) {
    && o.place == Place(actor.business, i.outlet) && o.place in t.outlets
    && o.customer == i.customer && o.dueAt == i.dueAt && o.key == i.key && o.hash == i.hash
    && o.createdBy == actor.user && o.receivedAt == env.now && o.status == Received && o.paymentStatus == Unpaid
    && o.total == Total(lines) && o.invoice.outletNumber == t.outlets[o.place] && o.invoice.date == env.today
    && o.invoice.sequence == Allocated(t, CounterRef(o.place, env.today))
    && o.completedAt == o.cancelledAt == o.deletedAt == None && o.cancelledBy == None && o.cancellationReason == None
  }

  /** One row per line, in order, each with the order's perfume. */
  ghost predicate ItemsOfOrder(rows: seq<OrderItem>, id: int, lines: seq<Line>, perfume: Option<int>) {
    |rows| == |lines| && forall k :: 0 <= k < |lines| ==> rows[k] == OrderItem(id, lines[k], perfume)
  }

  ghost predicate CreatesAs(t: Tables, env: Env, actor: Actor, i: OrderInput, lines: seq<Line>, o: Order,
                            rows: seq<OrderItem>, u: Tables)
  {
    var id, c := env.ids.order, CounterRef(o.place, env.today);
    && Bill(env, actor, i, lines) && OrderOf(o, t, env, actor, i, lines) && ItemsOfOrder(rows, id, lines, i.perfume)
    && u == t.(orders := t.orders[id := o], items := t.items + rows,
               history := t.history + [HistoryRow(id, None, Received, actor.user, None)],
               audit := t.audit + [AuditRow(OrderCreated, o.place, actor.user, id)],
               counters := t.counters[c := o.invoice.sequence + 1])
  }

  ghost predicate CreationEffect(t: Tables, env: Env, actor: Actor, i: OrderInput, u: Tables, reply: Reply) {
    match reply
    case Failed(e) => u == t && CreationFails(t, env, actor, i, e)
    case Created(id, replayed) =>
      if replayed
      then && u == t && MayCreate(t, env, actor, i)
           && HoldsKey(t, Place(actor.business, i.outlet), i.key, id) && t.orders[id].hash == i.hash
      else && id == env.ids.order && MayPrice(t, env, actor, i) && (i.dueAt.Some? ==> i.dueAt.value >= env.now)
           && exists lines, o, rows :: CreatesAs(t, env, actor, i, lines, o, rows, u)
    case _ => false
  }

  lemma BillExactly(env: Env, actor: Actor, i: OrderInput)
    ensures forall lines :: Bill(env, actor, i, lines) <==>
              Priced(PriceOf(env.dir, actor.business), i.items) == Ok(lines)
    ensures forall e :: BillFails(env, actor, i, e) <==> Priced(PriceOf(env.dir, actor.business), i.items) == Err(e)
  {
    var catalog := PriceOf(env.dir, actor.business);
    PricedBillsExactly(catalog, i.items);
    assert CatalogIs(env, actor.business, catalog);
    forall other | CatalogIs(env, actor.business, other) ensures other == catalog {}
  }

  lemma CreationHasItsEffect(t: Tables, env: Env, actor: Actor, i: OrderInput)
    requires NumbersOk(t) && FreshIds(t, env.ids)
    ensures var plan := CreatePlan(t, env, actor, i);
            CreationEffect(t, env, actor, i, Apply(t, plan.writes), plan.reply)
  {
    NothingWritten(t);
    if MayCreate(t, env, actor, i) {
      LockedCreationHasItsEffect(t, env, actor, i);
    }
  }

  lemma LockedCreationHasItsEffect(t: Tables, env: Env, actor: Actor, i: OrderInput)
    requires NumbersOk(t) && FreshIds(t, env.ids) && MayCreate(t, env, actor, i)
    ensures var plan := CreateLocked(t, env, actor, Place(actor.business, i.outlet), i);
            CreationEffect(t, env, actor, i, Apply(t, plan.writes), plan.reply)
  {
    var place := Place(actor.business, i.outlet);
    NothingWritten(t);
    var owner := OrderWithKey(t.orders, place, i.key);
    if owner.Some? {
      assert HoldsKey(t, place, i.key, owner.value);
    } else {
      forall id ensures !HoldsKey(t, place, i.key, id) {
        if id in t.orders {
          KeyIsFree(t.orders, place, i.key, id);
        }
      }
      NewCreationHasItsEffect(t, env, actor, i);
    }
  }

  lemma UnbilledHasItsReason(t: Tables, env: Env, actor: Actor, i: OrderInput, e: PricingError)
    requires MayPrice(t, env, actor, i) && BillFails(env, actor, i, e)
    ensures CreationFails(t, env, actor, i, PricingFailure(e))
  {}

  lemma RefusalHasItsReason(t: Tables, env: Env, actor: Actor, i: OrderInput)
    requires MayCreate(t, env, actor, i) && Unordered(t, Place(actor.business, i.outlet), i.key)
    requires Appraise(env, actor, i).Err?
    ensures CreationFails(t, env, actor, i, Appraise(env, actor, i).error)
  {
    if PartiesKnown(env, actor, i) {
      var priced := Priced(PriceOf(env.dir, actor.business), i.items);
      BillExactly(env, actor, i);
      if priced.Err? {
        UnbilledHasItsReason(t, env, actor, i, priced.error);
      } else {
        assert Bill(env, actor, i, priced.value);
      }
    }
  }

  lemma NewCreationHasItsEffect(t: Tables, env: Env, actor: Actor, i: OrderInput)
    requires FreshIds(t, env.ids) && MayCreate(t, env, actor, i) && Unordered(t, Place(actor.business, i.outlet), i.key)
    requires OrderWithKey(t.orders, Place(actor.business, i.outlet), i.key).None?
    ensures var plan := CreateLocked(t, env, actor, Place(actor.business, i.outlet), i);
            CreationEffect(t, env, actor, i, Apply(t, plan.writes), plan.reply)
  {
    NothingWritten(t);
    if Appraise(env, actor, i).Err? {
      RefusalHasItsReason(t, env, actor, i);
    } else {
      BillExactly(env, actor, i);
      InsertionCreates(t, env, actor, i, Appraise(env, actor, i).value);
    }
  }

  lemma InsertionCreates(t: Tables, env: Env, actor: Actor, i: OrderInput, lines: seq<Line>)
    requires Place(actor.business, i.outlet) in t.outlets && Bill(env, actor, i, lines)
    ensures var place := Place(actor.business, i.outlet);
            var number := NextNumber(t.counters, CounterRef(place, env.today));
            var plan := InsertionPlan(env, actor, place, t.outlets[place], i, lines, number);
            exists o, rows :: CreatesAs(t, env, actor, i, lines, o, rows, Apply(t, plan.writes))
  {
    var place := Place(actor.business, i.outlet);
    var number := NextNumber(t.counters, CounterRef(place, env.today));
    var plan := InsertionPlan(env, actor, place, t.outlets[place], i, lines, number);
    assert CreatesAs(t, env, actor, i, lines, plan.writes.order.value.row, plan.writes.items, Apply(t, plan.writes));
  }

  lemma OneBill(env: Env, actor: Actor, i: OrderInput)
    ensures forall a, b :: Bill(env, actor, i, a) && Bill(env, actor, i, b) ==> a == b
    ensures forall a, e :: Bill(env, actor, i, a) ==> !BillFails(env, actor, i, e)
    ensures forall d, e :: BillFails(env, actor, i, d) && BillFails(env, actor, i, e) ==> d == e
  {
    BillExactly(env, actor, i);
  }

  lemma OneOrderHoldsKey(t: Tables, place: Place, key: string, a: int, b: int)
    requires KeysOk(t) && HoldsKey(t, place, key, a) && HoldsKey(t, place, key, b)
    ensures a == b
  {
    assert KeyDistinct(t.orders, a, b);
  }

  lemma CreatedOnce(t: Tables, env: Env, actor: Actor, i: OrderInput, lines: seq<Line>, o: Order, rows: seq<OrderItem>,
                    u: Tables, more: seq<Line>, p: Order, others: seq<OrderItem>, v: Tables)
    requires CreatesAs(t, env, actor, i, lines, o, rows, u) && CreatesAs(t, env, actor, i, more, p, others, v)
    ensures u == v
  {
    OneBill(env, actor, i);
  }

  lemma OneFailure(t: Tables, env: Env, actor: Actor, i: OrderInput, d: Error, e: Error)
    requires CreationFails(t, env, actor, i, d) && CreationFails(t, env, actor, i, e)
    ensures d == e
  {
    OneBill(env, actor, i);
  }

  lemma OneCreation(t: Tables, env: Env, actor: Actor, i: OrderInput, u: Tables, a: Reply, v: Tables, b: Reply)
    requires NumbersOk(t) && a.Created? && b.Created?
    requires CreationEffect(t, env, actor, i, u, a) && CreationEffect(t, env, actor, i, v, b)
    ensures u == v && a == b
  {
    var place := Place(actor.business, i.outlet);
    if a.replayed && b.replayed {
      OneOrderHoldsKey(t, place, i.key, a.order, b.order);
    } else if !a.replayed && !b.replayed {
      var lines, o, rows :| CreatesAs(t, env, actor, i, lines, o, rows, u);
      var more, p, others :| CreatesAs(t, env, actor, i, more, p, others, v);
      CreatedOnce(t, env, actor, i, lines, o, rows, u, more, p, others, v);
    }
  }

  lemma FailureExcludesCreation(t: Tables, env: Env, actor: Actor, i: OrderInput, e: Error, v: Tables, b: Reply)
    requires NumbersOk(t) && CreationFails(t, env, actor, i, e) && b.Created?
    ensures !CreationEffect(t, env, actor, i, v, b)
  {
    OneBill(env, actor, i);
    var place := Place(actor.business, i.outlet);
    if e.OrderIdempotencyConflict? && b.replayed {
      var id :| HoldsKey(t, place, i.key, id) && t.orders[id].hash != i.hash;
      if HoldsKey(t, place, i.key, b.order) {
        OneOrderHoldsKey(t, place, i.key, id, b.order);
      }
    }
  }

  lemma CreationEffectIsUnique(t: Tables, env: Env, actor: Actor, i: OrderInput, u: Tables, a: Reply, v: Tables,
                               b: Reply)
    requires NumbersOk(t) && CreationEffect(t, env, actor, i, u, a) && CreationEffect(t, env, actor, i, v, b)
    ensures u == v && a == b
  {
    if a.Failed? && b.Failed? {
      OneFailure(t, env, actor, i, a.error, b.error);
    } else if a.Failed? {
      FailureExcludesCreation(t, env, actor, i, a.error, v, b);
    } else if b.Failed? {
      FailureExcludesCreation(t, env, actor, i, b.error, u, a);
    } else {
      OneCreation(t, env, actor, i, u, a, v, b);
    }
  }

  // ------------------------------------------------------------------ opening an outlet

  ghost predicate Owns(env: Env, actor: Actor) {
    && (actor.business, actor.user) in env.dir.users
    && env.dir.users[(actor.business, actor.user)].admin && env.dir.users[(actor.business, actor.user)].active
  }

  ghost predicate OutletEffect(t: Tables, env: Env, actor: Actor, u: Tables, reply: Reply) {
    match reply
    case Failed(e) => u == t && e == Unauthorized && !Owns(env, actor)
    case OutletOpened(code) =>
      && Owns(env, actor)
      && var place := Place(actor.business, env.ids.outlet);
         var n := if actor.business in t.outletCounters then t.outletCounters[actor.business] + 1 else 1;
         && u == t.(outlets := t.outlets[place := n], outletCounters := t.outletCounters[actor.business := n],
                    audit := t.audit + [AuditRow(OutletCreated, place, actor.user, place.outlet)])
         && code == OutletCode(n)
    case _ => false
  }

  lemma OutletHasItsEffect(t: Tables, env: Env, actor: Actor)
    ensures OutletEffect(t, env, actor, Apply(t, OutletPlan(t, env, actor).writes), OutletPlan(t, env, actor).reply)
  {
    NothingWritten(t);
    assert t.items + [] == t.items;
  }

  // ------------------------------------------------------------------ every request

  ghost predicate Effect(t: Tables, env: Env, r: Request, u: Tables, reply: Reply) {
    match r
    case Record(actor, id, i) => PaymentEffect(t, env, actor, id, i, u, reply)
    case Void(actor, id, target, given) => VoidEffect(t, env, actor, id, target, Text.Trim(given), u, reply)
    case Transition(actor, id, to, notes) => MoveEffect(t, env, actor, id, to, notes, u, reply)
    case Cancel(actor, id, given) => CancellationEffect(t, env, actor, id, Text.Trim(given), u, reply)
    case Create(actor, i) => CreationEffect(t, env, actor, i, u, reply)
    case OpenOutlet(actor) => OutletEffect(t, env, actor, u, reply)
  }

  /** In a sound ledger every request has the effect described. */
  lemma EveryRequestHasItsEffect(t: Tables, env: Env, r: Request)
    requires LedgerOk(t) && NumbersOk(t) && FreshIds(t, env.ids)
    ensures Effect(t, env, r, After(t, env, r), PlanOf(t, env, r).reply)
  {
    match r
    case Record(actor, id, i) => RecordingHasItsEffect(t, env, actor, id, i);
    case Void(actor, id, target, given) => VoidHasItsEffect(t, env, actor, id, target, given);
    case Transition(actor, id, to, notes) => MoveHasItsEffect(t, env, actor, id, to, notes);
    case Cancel(actor, id, given) => CancellationHasItsEffect(t, env, actor, id, given);
    case Create(actor, i) => CreationHasItsEffect(t, env, actor, i);
    case OpenOutlet(actor) => OutletHasItsEffect(t, env, actor);
  }

  /** The description leaves nothing open: one effect, tables and answer, for each request. */
  lemma EffectIsUnique(t: Tables, env: Env, r: Request, u: Tables, a: Reply, v: Tables, b: Reply)
    requires LedgerOk(t) && NumbersOk(t) && Effect(t, env, r, u, a) && Effect(t, env, r, v, b)
    ensures u == v && a == b
  {
    match r
    case Record(actor, id, i) => PaymentEffectIsUnique(t, env, actor, id, i, u, a, v, b);
    case Void(actor, id, target, given) => VoidEffectIsUnique(t, env, actor, id, target, Text.Trim(given), u, a, v, b);
    case Create(actor, i) => CreationEffectIsUnique(t, env, actor, i, u, a, v, b);
    case Cancel(_, id, _) => assert OrderSound(t.orders, t.payments, id);
    case _ =>
  }

  /** In sound tables a request does and answers something exactly when that is its effect. */
  lemma EffectExactly(t: Tables, env: Env, r: Request, u: Tables, reply: Reply)
    requires LedgerOk(t) && NumbersOk(t) && FreshIds(t, env.ids)
    ensures Effect(t, env, r, u, reply) <==> u == After(t, env, r) && reply == PlanOf(t, env, r).reply
  {
    EveryRequestHasItsEffect(t, env, r);
    if Effect(t, env, r, u, reply) {
      EffectIsUnique(t, env, r, u, reply, After(t, env, r), PlanOf(t, env, r).reply);
    }
  }
}
