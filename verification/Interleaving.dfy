/**
 Transactions as they really run: statement by statement, many at once, each reading what is
 committed at that moment, keeping its row and key locks until it ends, and showing its writes to
 others only when it commits. Every behaviour has the tables and the answers of a serial one.
 */
module Interleaving {
  import opened Outcome
  import opened Places
  import opened Tables
  import opened Pricing
  import opened Plans
  import opened Ledger
  import Text

  // ------------------------------------------------------------------ one transaction

  /** What a transaction remembers between two statements. */
  datatype Local =
    | Begun
    | Row(o: Order)                                  // order row locked and read
    | Unrefunded(o: Order)                           // refunds counted, none found
    | Keyless(o: Order)                              // Record: the key is new on this order
    | Retry(o: Order, p: Payment)                    // Record: the key is used by an equal request
    | Balance(o: Order, paid: int)                   // Record: confirmed total read
    | Target(o: Order, p: Payment)                   // Void: payment row read
    | Striking(o: Order, p: Payment, s: Strike)       // Void: payment struck, not yet committed
    | KeyLocked | Admitted | NewKey                  // Create: key locked, outlet checked, key is new
    | Appraised(lines: seq<Line>)                    // Create: priced
    | Numbering(lines: seq<Line>, number: nat)       // Create: counter row locked and read
    | Decided(plan: Plan)                            // all statements done, about to commit

  datatype Tx = Tx(env: Env, request: Request, local: Local)

  predicate OnOrder(r: Request) { r.Record? || r.Void? || r.Transition? || r.Cancel? }

  function PlaceOf(r: Request): Place
    requires r.Create?
  {
    Place(r.actor.business, r.input.outlet)
  }

  /** Input checks made before the transaction opens. */
  predicate Valid(r: Request) {
    match r
    case Record(actor, id, i) => WellFormedPayment(actor, id, i)
    case Void(actor, id, target, given) => WellFormedVoid(actor, id, target, Text.Trim(given))
    case Transition(actor, id, to, _) => id >= 1 && Known(actor) && ValidTarget(to)
    case Cancel(actor, id, given) => WellFormedCancellation(actor, id, Text.Trim(given))
    case Create(actor, i) => AdmitOrder(actor, i).None?
    case OpenOutlet(_) => true
  }

  function Invalid(r: Request): Error {
    match r
    case Record(_, _, _) => InvalidPayment
    case Void(_, _, _, _) => InvalidVoid
    case Transition(_, _, _, _) => InvalidTransition
    case Cancel(_, _, _) => InvalidCancellation
    case Create(actor, i) => if AdmitOrder(actor, i).Some? then AdmitOrder(actor, i).value else InvalidOrder
    case OpenOutlet(_) => Unauthorized
  }

  /** The next statement of a request on an existing order. */
  ghost function OrderStep(db: Tables, env: Env, r: Request, l: Local): Local
    requires OnOrder(r)
  {
    var id := r.order;
    match l
    case Begun =>
      (match Reachable(db, env.dir, r.actor, id)
       case None => Decided(Refuse(if r.Record? || r.Void? then PaymentNotFound else OrderNotFound))
       case Some(o) => Row(o))
    case Row(o) =>
      (match r
       case Record(_, _, _) =>
         if o.status.Cancelled? || o.deletedAt.Some? then Decided(Refuse(PaymentOrderCancelled))
         else if id in db.refunds then Decided(Refuse(RefundsUnsupported)) else Unrefunded(o)
       case Void(_, _, _, _) => if id in db.refunds then Decided(Refuse(RefundsUnsupported)) else Unrefunded(o)
       case Transition(actor, _, to, notes) =>
         if to.To? then Decided(MovePlan(env, actor, id, o, to.status, notes)) else Decided(Refuse(InvalidTransition))
       case Cancel(actor, _, given) => Decided(DropPlan(env, actor, id, o, Text.Trim(given)))
       case _ => l)
    case Unrefunded(o) =>
      (match r
       case Record(_, _, i) =>
         (match WithKey(OfOrder(db.payments, o.place, id), i.key)
          case None => Keyless(o)
          case Some(p) => if p.hash != i.hash then Decided(Refuse(PaymentIdempotencyConflict)) else Retry(o, p))
       case Void(_, _, target, _) =>
         (match WithId(OfOrder(db.payments, o.place, id), target)
          case None => Decided(Refuse(PaymentNotFound))
          case Some(p) => Target(o, p))
       case _ => l)
    case Keyless(o) => Balance(o, PaidTotal(OfOrder(db.payments, o.place, id)))
    case Retry(o, p) =>
      if r.Record?
      then Decided(Plan(NOTHING, ReplayReply(o, p, r.payment, PaidTotal(OfOrder(db.payments, o.place, id))))) else l
    case Balance(o, paid) => if r.Record? then Decided(PayPlan(env, r.actor, id, o, r.payment, paid)) else l
    case Target(o, p) =>
      if !r.Void? then l
      else if SameVoid(p, r.actor, Text.Trim(r.reason)) then
        Decided(Plan(NOTHING, VoidReply(o, p, PaidTotal(OfOrder(db.payments, o.place, id)))))
      else if !p.state.Confirmed? then Decided(Refuse(NotVoidable))
      else Striking(o, p, StrikeOf(env, r.actor, id, o, p.id, Text.Trim(r.reason)))
    case Striking(o, p, s) =>
      // The total is read back through the transaction's own uncommitted update.
      if r.Void? then Decided(StrikePlan(env, r.actor, id, o, p, Text.Trim(r.reason),
                                         PaidTotal(OfOrder(StrikeRows(db.payments, s), o.place, id))))
      else l
    case _ => l
  }

  ghost function CreateStep(db: Tables, env: Env, r: Request, l: Local): Local
    requires r.Create?
  {
    var place := PlaceOf(r);
    match l
    case Begun => KeyLocked
    case KeyLocked =>
      (match AdmitOutlet(db, env.dir, r.actor, place)
       case Some(e) => Decided(Refuse(e))
       case None => Admitted)
    case Admitted =>
      (match OrderWithKey(db.orders, place, r.input.key)
       case Some(id) =>
         if id in db.orders && db.orders[id].hash == r.input.hash then Decided(Plan(NOTHING, Created(id, true)))
         else Decided(Refuse(OrderIdempotencyConflict))
       case None => NewKey)
    case NewKey =>
      (match Appraise(env, r.actor, r.input)
       case Err(e) => Decided(Refuse(e))
       case Ok(lines) => Appraised(lines))
    case Appraised(lines) => Numbering(lines, NextNumber(db.counters, CounterRef(place, env.today)))
    case Numbering(lines, number) =>
      if place in db.outlets
      then Decided(InsertionPlan(env, r.actor, place, db.outlets[place], r.input, lines, number)) else l
    case _ => l
  }

  ghost function Advance(db: Tables, env: Env, r: Request, l: Local): Local {
    if l.Begun? && !Valid(r) then Decided(Refuse(Invalid(r)))
    else if OnOrder(r) then OrderStep(db, env, r, l)
    else if r.Create? then CreateStep(db, env, r, l)
    else if l.Begun? then Decided(OutletPlan(db, env, r.actor)) else l
  }

  // ------------------------------------------------------------------ locks

  datatype Lock =
    | OrderLock(id: int)
    | KeyLock(place: Place, key: string)
    | CounterLock(counter: CounterRef)
    | CodeLock(business: int)

  /** The locks a transaction in this state keeps until it ends. */
  ghost function Held(tx: Tx): set<Lock> {
    var r, l := tx.request, tx.local;
    if l.Begun? then {}
    else if OnOrder(r) then {OrderLock(r.order)}
    else if r.Create? then
      {KeyLock(PlaceOf(r), r.input.key)} +
      if l.Numbering? || (l.Decided? && l.plan.writes.counter.Some?)
      then {CounterLock(CounterRef(PlaceOf(r), tx.env.today))}
      else {}
    else {CodeLock(r.actor.business)}
  }

  // ------------------------------------------------------------------ the system

  datatype World = World(db: Tables, txs: map<int, Tx>, log: seq<Entry>, replies: seq<Reply>)

  datatype Step =
    | Begin(n: int, env: Env, request: Request)
    | Run(n: int)
    | Commit(n: int)
    | Abort(n: int)

  /** Everyone else leaves the locks of this transaction alone. */
  ghost predicate Alone(txs: map<int, Tx>, n: int, tx: Tx) {
    forall m :: m in txs && m != n ==> Held(txs[m]) !! Held(tx)
  }

  ghost function Stepped(w: World, n: int): Tx
    requires n in w.txs
  {
    var tx := w.txs[n];
    tx.(local := Advance(w.db, tx.env, tx.request, tx.local))
  }

  /** A refusal ends the transaction at the statement that decided it. */
  predicate Refused(tx: Tx) { tx.local.Decided? && tx.local.plan.reply.Failed? }

  ghost predicate Enabled(w: World, s: Step) {
    match s
    case Begin(n, env, _) =>
      && n !in w.txs && FreshIds(w.db, env.ids) && env.today.Valid()
      && forall m :: m in w.txs ==> Separate(w.txs[m].env.ids, env.ids)
    case Run(n) => n in w.txs && !w.txs[n].local.Decided? && (Refused(Stepped(w, n)) || Alone(w.txs, n, Stepped(w, n)))
    case Commit(n) => n in w.txs && w.txs[n].local.Decided?
    case Abort(n) => n in w.txs
  }

  /** The transaction ends: its writes become visible and its answer is given. */
  ghost function Ended(w: World, n: int, tx: Tx, plan: Plan): World {
    World(Apply(w.db, plan.writes), w.txs - {n}, w.log + [Entry(tx.env, tx.request)], w.replies + [plan.reply])
  }

  ghost function Do(w: World, s: Step): World
    requires Enabled(w, s)
  {
    match s
    case Begin(n, env, r) => w.(txs := w.txs[n := Tx(env, r, Begun)])
    case Run(n) =>
      var tx := Stepped(w, n);
      if Refused(tx) then Ended(w, n, tx, tx.local.plan) else w.(txs := w.txs[n := tx])
    case Commit(n) => Ended(w, n, w.txs[n], w.txs[n].local.plan)
    case Abort(n) => w.(txs := w.txs - {n})
  }

  // ------------------------------------------------------------------ what a transaction knows stays true

  /** Everything a transaction has read is still what the committed tables say. */
  ghost predicate Current(db: Tables, tx: Tx) {
    var env, r, l := tx.env, tx.request, tx.local;
    l.Begun? ||
    (Valid(r) &&
     if OnOrder(r) then OrderCurrent(db, env, r, l)
     else if r.Create? then CreateCurrent(db, env, r, l)
     else l.Decided? && l.plan == PlanOf(db, env, r))
  }

  ghost predicate OrderCurrent(db: Tables, env: Env, r: Request, l: Local)
    requires OnOrder(r)
  {
    var id, at := r.order, Reachable(db, env.dir, r.actor, r.order);
    && at.Some?
    && var o := at.value;
       var rows := OfOrder(db.payments, o.place, id);
       match l
       case Row(x) => x == o
       case Unrefunded(x) => x == o && Payable(db, r, o)
       case Keyless(x) => x == o && Payable(db, r, o) && r.Record? && WithKey(rows, r.payment.key).None?
       case Retry(x, p) =>
         x == o && Payable(db, r, o) && r.Record? && WithKey(rows, r.payment.key) == Some(p) && p.hash == r.payment.hash
       case Balance(x, paid) =>
         x == o && Payable(db, r, o) && r.Record? && WithKey(rows, r.payment.key).None? && paid == PaidTotal(rows)
       case Target(x, p) => x == o && Payable(db, r, o) && r.Void? && WithId(rows, r.target) == Some(p)
       case Striking(x, p, s) =>
         && x == o && Payable(db, r, o) && r.Void? && WithId(rows, r.target) == Some(p) && p.state.Confirmed?
         && s == StrikeOf(env, r.actor, id, o, p.id, Text.Trim(r.reason))
         && !SameVoid(p, r.actor, Text.Trim(r.reason))
       case Decided(plan) => plan == PlanOf(db, env, r)
       case _ => false
  }

  /** Refunds were counted, and a payment is only taken on an order that is not cancelled. */
  ghost predicate Payable(db: Tables, r: Request, o: Order)
    requires OnOrder(r)
  {
    && (r.Record? || r.Void?) && r.order !in db.refunds
    && (r.Record? ==> !o.status.Cancelled? && o.deletedAt.None?)
  }

  ghost predicate CreateCurrent(db: Tables, env: Env, r: Request, l: Local)
    requires r.Create?
  {
    var place := PlaceOf(r);
    l.KeyLocked? ||
    (&& AdmitOutlet(db, env.dir, r.actor, place).None?
     && match l
        case Admitted => true
        case NewKey => OrderWithKey(db.orders, place, r.input.key).None?
        case Appraised(lines) =>
          OrderWithKey(db.orders, place, r.input.key).None? && Appraise(env, r.actor, r.input) == Ok(lines)
        case Numbering(lines, number) =>
          && OrderWithKey(db.orders, place, r.input.key).None? && Appraise(env, r.actor, r.input) == Ok(lines)
          && number == NextNumber(db.counters, CounterRef(place, env.today))
        case Decided(plan) => plan == PlanOf(db, env, r)
        case _ => false)
  }

  /** The next statement keeps everything read true, or decides exactly as a transaction running alone would. */
  ghost predicate Sound(db: Tables, tx: Tx) {
    if Refused(tx) then tx.local.plan == PlanOf(db, tx.env, tx.request) else Current(db, tx)
  }

  lemma RecordStepSound(db: Tables, tx: Tx)
    requires Current(db, tx) && tx.request.Record? && !tx.local.Decided? && (tx.local.Begun? ==> Valid(tx.request))
    ensures Sound(db, tx.(local := OrderStep(db, tx.env, tx.request, tx.local)))
  {}

  /** Striking and reading the total back through the own update is what the serial plan computes. */
  lemma StrikeStepSound(db: Tables, tx: Tx)
    requires Current(db, tx) && tx.request.Void? && tx.local.Striking?
    ensures OrderStep(db, tx.env, tx.request, tx.local) == Decided(PlanOf(db, tx.env, tx.request))
  {
    var l := tx.local;
    OfStruck(db.payments, l.s, l.o.place, tx.request.order);
  }

  lemma VoidStepSound(db: Tables, tx: Tx)
    requires Current(db, tx) && tx.request.Void? && !tx.local.Decided? && (tx.local.Begun? ==> Valid(tx.request))
    ensures Sound(db, tx.(local := OrderStep(db, tx.env, tx.request, tx.local)))
  {
    if tx.local.Striking? {
      StrikeStepSound(db, tx);
    }
  }

  lemma LifecycleStepSound(db: Tables, tx: Tx)
    requires Current(db, tx) && (tx.request.Transition? || tx.request.Cancel?)
    requires !tx.local.Decided? && (tx.local.Begun? ==> Valid(tx.request))
    ensures Sound(db, tx.(local := OrderStep(db, tx.env, tx.request, tx.local)))
  {}

  lemma CreateStepSound(db: Tables, tx: Tx)
    requires Current(db, tx) && tx.request.Create? && !tx.local.Decided? && (tx.local.Begun? ==> Valid(tx.request))
    ensures Sound(db, tx.(local := CreateStep(db, tx.env, tx.request, tx.local)))
  {}

  lemma AdvanceSound(db: Tables, tx: Tx)
    requires Current(db, tx) && !tx.local.Decided?
    ensures Sound(db, tx.(local := Advance(db, tx.env, tx.request, tx.local)))
  {
    if !(tx.local.Begun? && !Valid(tx.request)) {
      match tx.request
      case Record(_, _, _) => RecordStepSound(db, tx);
      case Void(_, _, _, _) => VoidStepSound(db, tx);
      case Transition(_, _, _, _) => LifecycleStepSound(db, tx);
      case Cancel(_, _, _) => LifecycleStepSound(db, tx);
      case Create(_, _) => CreateStepSound(db, tx);
      case OpenOutlet(_) =>
    }
  }
}
