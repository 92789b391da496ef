/**
 What each order transaction decides when it runs alone: the rows it writes and what it answers.
 Everything the database or the clock supplies is in Env; a failed transaction writes nothing.
 */
module Plans {
  import opened Outcome
  import opened Places
  import opened Tables
  import opened Pricing
  import opened Numbering
  import Text

  datatype Error =
    | InvalidPayment | PaymentNotFound | Overpayment | NoBalance | PaymentOrderCancelled
    | PaymentIdempotencyConflict | NotVoidable | InvalidVoid | LedgerInvariant | RefundsUnsupported
    | InvalidTransition | OrderNotFound | RequiresRefund | InvalidCancellation
    | InvalidOrder | OutletForbidden | CustomerNotFound | PerfumeNotFound | ServiceMissing
    | InvalidQuantity | OrderTotalOverflow | DueBeforeReceive | OrderIdempotencyConflict | Unauthorized

  datatype PaymentInput = PaymentInput(
    tendered: int, means: Method, reference: Option<string>, notes: Option<string>, key: string, hash: Hash)

  datatype OrderInput = OrderInput(
    outlet: int, customer: int, perfume: Option<int>, dueAt: Option<int>, items: seq<Item>, key: string, hash: Hash)

  /** Statuses a client may ask for; anything else it may send is Unknown. */
  datatype Target = To(status: Status) | Unknown(text: string)

  datatype Request =
    | Record(actor: Actor, order: int, payment: PaymentInput)
    | Void(actor: Actor, order: int, target: int, reason: string)
    | Transition(actor: Actor, order: int, to: Target, notes: Option<string>)
    | Cancel(actor: Actor, order: int, reason: string)
    | Create(actor: Actor, input: OrderInput)
    | OpenOutlet(actor: Actor)

  /** Ids a transaction may draw from the sequences of the tables it inserts into. */
  datatype Ids = Ids(order: int, payment: int, outlet: int)

  /** Locked directory rows, transaction time and date, and drawn ids. */
  datatype Env = Env(dir: Directory, now: int, today: Date, ids: Ids)

  datatype Reply =
    | Failed(error: Error)
    | Recorded(payment: Payment, paymentStatus: PaymentStatus, paid: int, tendered: int, change: int, replayed: bool)
    | VoidDone(payment: Payment, paymentStatus: PaymentStatus, paid: int)
    | Moved(status: Status, paymentStatus: PaymentStatus)
    | Created(order: int, replayed: bool)
    | OutletOpened(code: string)

  datatype Plan = Plan(writes: WriteSet, reply: Reply)

  function Refuse(e: Error): Plan { Plan(NOTHING, Failed(e)) }

  // ------------------------------------------------------------------ pure rules

  predicate ValidMethod(m: Method) { !m.OtherMethod? }

  /** What a receipt credits to the order and what goes back as change. */
  function PaymentAmounts(m: Method, tendered: int, outstanding: int): (r: Result<(int, int), Error>)
    ensures r.Ok? ==> 0 < r.value.0 <= outstanding && 0 <= r.value.1 && r.value.0 + r.value.1 == tendered
    ensures r.Ok? && r.value.1 > 0 ==> m.Cash? && r.value.0 == outstanding
  {
    if !ValidMethod(m) || tendered <= 0 then Err(InvalidPayment)
    else if outstanding <= 0 then Err(NoBalance)
    else if m.Cash? then
      var applied := if tendered > outstanding then outstanding else tendered;
      Ok((applied, tendered - applied))
    else if tendered > outstanding then Err(Overpayment)
    else Ok((tendered, 0))
  }

  function PaymentStatusFor(total: int, paid: int): PaymentStatus {
    if paid == 0 then Unpaid else if paid == total then Paid else PartiallyPaid
  }

  function ChangeFor(m: Method, tendered: int, applied: int): int {
    if m.Cash? then tendered - applied else 0
  }

  predicate AllowedTransition(from: Status, to: Status) {
    match from
    case Received => to.Processing? || to.Cancelled?
    case Processing => to.ReadyForPickup? || to.Cancelled?
    case ReadyForPickup => to.Completed? || to.Cancelled?
    case _ => false
  }

  predicate ValidTarget(to: Target) {
    to.To? && (to.status.Processing? || to.status.ReadyForPickup? || to.status.Completed?)
  }

  predicate TooLong(s: Option<string>, max: nat) { s.Some? && |s.value| > max }

  predicate Known(actor: Actor) { actor.business >= 1 && actor.user >= 1 }

  // ------------------------------------------------------------------ payments

  predicate WellFormedPayment(actor: Actor, order: int, i: PaymentInput) {
    && order >= 1 && Known(actor) && i.tendered > 0 && ValidMethod(i.means)
    && 1 <= Text.ByteLength(i.key) <= 128 && |i.hash| == 32
    && !TooLong(i.reference, 256) && !TooLong(i.notes, 2000)
  }

  function NewPayment(env: Env, actor: Actor, order: int, place: Place, i: PaymentInput, applied: int): Payment {
    Payment(env.ids.payment, place, order, applied, i.means, Confirmed, i.reference, i.notes,
            Some(env.now), None, None, None, actor.user, i.key, i.hash)
  }

  /** The answer to a retry, given the stored payment and the confirmed total. */
  function ReplayReply(o: Order, p: Payment, i: PaymentInput, paid: int): Reply {
    if paid > o.total then Failed(LedgerInvariant)
    else Recorded(p, PaymentStatusFor(o.total, paid), paid, i.tendered, ChangeFor(p.means, i.tendered, p.amount), true)
  }

  /** The plan of a first attempt, given the confirmed total before it. */
  function PayPlan(env: Env, actor: Actor, id: int, o: Order, i: PaymentInput, paid: int): Plan {
    if paid > o.total then Refuse(LedgerInvariant)
    else if o.total - paid <= 0 then Refuse(NoBalance)
    else
      match PaymentAmounts(i.means, i.tendered, o.total - paid)
      case Err(e) => Refuse(e)
      case Ok((applied, change)) =>
        var p := NewPayment(env, actor, id, o.place, i, applied);
        var s := PaymentStatusFor(o.total, paid + applied);
        Plan(NOTHING.(payment := Some(p), order := Some(Keyed(id, o.(paymentStatus := s))),
                      audit := Some(AuditRow(PaymentConfirmed, o.place, actor.user, p.id))),
             Recorded(p, s, paid + applied, i.tendered, change, false))
  }

  /** Recording once the order row is locked and read. */
  function RecordLocked(t: Tables, env: Env, actor: Actor, id: int, o: Order, i: PaymentInput): Plan {
    if o.status.Cancelled? || o.deletedAt.Some? then Refuse(PaymentOrderCancelled)
    else if id in t.refunds then Refuse(RefundsUnsupported)
    else
      var rows := OfOrder(t.payments, o.place, id);
      match WithKey(rows, i.key)
      case Some(p) =>
        if p.hash != i.hash then Refuse(PaymentIdempotencyConflict)
        else Plan(NOTHING, ReplayReply(o, p, i, PaidTotal(rows)))
      case None => PayPlan(env, actor, id, o, i, PaidTotal(rows))
  }

  function RecordPlan(t: Tables, env: Env, actor: Actor, id: int, i: PaymentInput): Plan {
    if !WellFormedPayment(actor, id, i) then Refuse(InvalidPayment)
    else
      match Reachable(t, env.dir, actor, id)
      case None => Refuse(PaymentNotFound)
      case Some(o) => RecordLocked(t, env, actor, id, o, i)
  }

  /** The same actor already voided this payment for the same reason. */
  predicate SameVoid(p: Payment, actor: Actor, reason: string) {
    p.state.Voided? && p.voidedBy == Some(actor.user) && p.voidReason == Some(reason)
  }

  function VoidReply(o: Order, p: Payment, paid: int): Reply {
    if paid > o.total then Failed(LedgerInvariant) else VoidDone(p, PaymentStatusFor(o.total, paid), paid)
  }

  function StrikeOf(env: Env, actor: Actor, id: int, o: Order, target: int, reason: string): Strike {
    Strike(o.place, id, target, actor.user, reason, env.now)
  }

  /** The plan of a first void, given the confirmed total after the payment was struck. */
  function StrikePlan(env: Env, actor: Actor, id: int, o: Order, p: Payment, reason: string, paid: int): Plan {
    var s := StrikeOf(env, actor, id, o, p.id, reason);
    if paid > o.total then Refuse(LedgerInvariant)
    else Plan(NOTHING.(strike := Some(s),
                       order := Some(Keyed(id, o.(paymentStatus := PaymentStatusFor(o.total, paid)))),
                       audit := Some(AuditRow(PaymentVoided, o.place, actor.user, p.id))),
              VoidReply(o, Struck(p, s), paid))
  }

  /** Voiding once the order row is locked and read. */
  function VoidLocked(t: Tables, env: Env, actor: Actor, id: int, o: Order, target: int, reason: string): Plan {
    if id in t.refunds then Refuse(RefundsUnsupported)
    else
      var rows := OfOrder(t.payments, o.place, id);
      match WithId(rows, target)
      case None => Refuse(PaymentNotFound)
      case Some(p) =>
        if SameVoid(p, actor, reason) then Plan(NOTHING, VoidReply(o, p, PaidTotal(rows)))
        else if !p.state.Confirmed? then Refuse(NotVoidable)
        else
          var after := StrikeRows(rows, StrikeOf(env, actor, id, o, p.id, reason));
          StrikePlan(env, actor, id, o, p, reason, PaidTotal(after))
  }

  predicate WellFormedVoid(actor: Actor, id: int, target: int, reason: string) {
    id >= 1 && target >= 1 && Known(actor) && reason != "" && |reason| <= 2000
  }

  function VoidPlan(t: Tables, env: Env, actor: Actor, id: int, target: int, given: string): Plan {
    var reason := Text.Trim(given);
    if !WellFormedVoid(actor, id, target, reason) then Refuse(InvalidVoid)
    else
      match Reachable(t, env.dir, actor, id)
      case None => Refuse(PaymentNotFound)
      case Some(o) => VoidLocked(t, env, actor, id, o, target, reason)
  }

  // ------------------------------------------------------------------ lifecycle

  function MovePlan(env: Env, actor: Actor, id: int, o: Order, to: Status, notes: Option<string>): Plan {
    if !AllowedTransition(o.status, to) then Refuse(InvalidTransition)
    else
      var done := if to.Completed? then Some(env.now) else None;
      Plan(NOTHING.(order := Some(Keyed(id, o.(status := to, completedAt := done))),
                       history := Some(HistoryRow(id, Some(o.status), to, actor.user, notes)),
                       audit := Some(AuditRow(OrderStatusChanged, o.place, actor.user, id))),
              Moved(to, o.paymentStatus))
  }

  function TransitionPlan(t: Tables, env: Env, actor: Actor, id: int, to: Target, notes: Option<string>): Plan {
    if id < 1 || !Known(actor) || !ValidTarget(to) then Refuse(InvalidTransition)
    else
      match Reachable(t, env.dir, actor, id)
      case None => Refuse(OrderNotFound)
      case Some(o) => MovePlan(env, actor, id, o, to.status, notes)
  }

  function DropPlan(env: Env, actor: Actor, id: int, o: Order, reason: string): Plan {
    if !AllowedTransition(o.status, Cancelled) then Refuse(InvalidTransition)
    else if o.paymentStatus != Unpaid then Refuse(RequiresRefund)
    else Plan(NOTHING.(order := Some(Keyed(id, CancelledRow(o, actor.user, reason, env.now))),
                       history := Some(HistoryRow(id, Some(o.status), Cancelled, actor.user, Some(reason))),
                       audit := Some(AuditRow(OrderCancelled, o.place, actor.user, id))),
              Moved(Cancelled, o.paymentStatus))
  }

  /** The reason of a cancellation is limited in bytes, that of a void in characters. */
  predicate WellFormedCancellation(actor: Actor, id: int, reason: string) {
    id >= 1 && Known(actor) && reason != "" && Text.ByteLength(reason) <= 2000
  }

  function CancelPlan(t: Tables, env: Env, actor: Actor, id: int, given: string): Plan {
    var reason := Text.Trim(given);
    if !WellFormedCancellation(actor, id, reason) then Refuse(InvalidCancellation)
    else
      match Reachable(t, env.dir, actor, id)
      case None => Refuse(OrderNotFound)
      case Some(o) => DropPlan(env, actor, id, o, reason)
  }

  // ------------------------------------------------------------------ creation

  predicate WellFormedOrder(actor: Actor, i: OrderInput) {
    && i.outlet >= 1 && i.customer >= 1 && i.items != [] && i.key != "" && |i.hash| == 32 && Known(actor)
  }

  predicate WellFormedItems(i: OrderInput) {
    && (forall k :: 0 <= k < |i.items| ==> i.items[k].service >= 1)
    && (i.perfume.Some? ==> i.perfume.value >= 1)
  }

  function PriceOf(dir: Directory, business: int): Catalog {
    if business in dir.services then dir.services[business] else map[]
  }

  function PricingFailure(e: PricingError): Error {
    match e
    case ServiceNotFound => ServiceMissing
    case BadQuantity => InvalidQuantity
    case TotalOverflow => OrderTotalOverflow
  }

  /** Checks before the transaction begins. */
  function AdmitOrder(actor: Actor, i: OrderInput): Option<Error> {
    if !WellFormedOrder(actor, i) then Some(InvalidOrder)
    else if !actor.admin && i.outlet !in actor.outlets then Some(OutletForbidden)
    else if !WellFormedItems(i) then Some(InvalidOrder)
    else None
  }

  /** Checks under the key lock, before the key is looked up. */
  function AdmitOutlet(t: Tables, dir: Directory, actor: Actor, place: Place): Option<Error> {
    if place !in dir.activeOutlets || place !in t.outlets then Some(OrderNotFound)
    else if !actor.admin && (actor.user, place) !in dir.assignments then Some(OutletForbidden)
    else None
  }

  /** Everything that is decided once the key is known to be new: the priced lines or the error. */
  ghost function Appraise(env: Env, actor: Actor, i: OrderInput): Result<seq<Line>, Error> {
    if (actor.business, i.customer) !in env.dir.customers then Err(CustomerNotFound)
    else if i.perfume.Some? && (actor.business, i.perfume.value) !in env.dir.perfumes then Err(PerfumeNotFound)
    else
      match Priced(PriceOf(env.dir, actor.business), i.items)
      case Err(e) => Err(PricingFailure(e))
      case Ok(lines) => if i.dueAt.Some? && i.dueAt.value < env.now then Err(DueBeforeReceive) else Ok(lines)
  }

  function NewOrder(env: Env, actor: Actor, place: Place, outletNumber: nat, i: OrderInput, total: int, number: nat)
    : Order
  {
    Order(place, i.customer, Invoice(outletNumber, env.today, number), Received, Unpaid, total,
          env.now, i.dueAt, None, None, None, None, None, actor.user, i.key, i.hash)
  }

  function NewItems(id: int, lines: seq<Line>, perfume: Option<int>): (r: seq<OrderItem>) {
    seq(|lines|, k requires 0 <= k < |lines| => OrderItem(id, lines[k], perfume))
  }

  /** The rows of a new order that receives the given invoice number. */
  function InsertionPlan(env: Env, actor: Actor, place: Place, outletNumber: nat, i: OrderInput, lines: seq<Line>,
                         number: nat): Plan
  {
    Plan(NOTHING.(counter := Some(Keyed(CounterRef(place, env.today), number + 1)),
                  order := Some(Keyed(env.ids.order,
                                      NewOrder(env, actor, place, outletNumber, i, Total(lines), number))),
                  items := NewItems(env.ids.order, lines, i.perfume),
                  history := Some(HistoryRow(env.ids.order, None, Received, actor.user, None)),
                  audit := Some(AuditRow(OrderCreated, place, actor.user, env.ids.order))),
         Created(env.ids.order, false))
  }

  /** Creation once the key is locked and the outlet admitted. */
  ghost function CreateLocked(t: Tables, env: Env, actor: Actor, place: Place, i: OrderInput): Plan
    requires place in t.outlets
  {
    match OrderWithKey(t.orders, place, i.key)
    case Some(id) =>
      if id in t.orders && t.orders[id].hash == i.hash then Plan(NOTHING, Created(id, true))
      else Refuse(OrderIdempotencyConflict)
    case None =>
      match Appraise(env, actor, i)
      case Err(e) => Refuse(e)
      case Ok(lines) =>
        InsertionPlan(env, actor, place, t.outlets[place], i, lines,
                      NextNumber(t.counters, CounterRef(place, env.today)))
  }

  ghost function CreatePlan(t: Tables, env: Env, actor: Actor, i: OrderInput): Plan {
    var place := Place(actor.business, i.outlet);
    match AdmitOrder(actor, i)
    case Some(e) => Refuse(e)
    case None =>
      match AdmitOutlet(t, env.dir, actor, place)
      case Some(e) => Refuse(e)
      case None => CreateLocked(t, env, actor, place, i)
  }

  /** Allocating an outlet code; the caller is an active administrator of an active business. */
  function OutletPlan(t: Tables, env: Env, actor: Actor): Plan {
    if (actor.business, actor.user) !in env.dir.users || env.dir.users[(actor.business, actor.user)] != User(true, true)
    then Refuse(Unauthorized)
    else
      var n := LastOutlet(t.outletCounters, actor.business) + 1;
      var place := Place(actor.business, env.ids.outlet);
      Plan(NOTHING.(outletCounter := Some(Keyed(actor.business, n)), outlet := Some(Keyed(place, n)),
                    audit := Some(AuditRow(OutletCreated, place, actor.user, env.ids.outlet))),
           OutletOpened(OutletCode(n)))
  }

  // ------------------------------------------------------------------ serial execution

  ghost function PlanOf(t: Tables, env: Env, r: Request): Plan {
    match r
    case Record(actor, id, i) => RecordPlan(t, env, actor, id, i)
    case Void(actor, id, target, reason) => VoidPlan(t, env, actor, id, target, reason)
    case Transition(actor, id, to, notes) => TransitionPlan(t, env, actor, id, to, notes)
    case Cancel(actor, id, reason) => CancelPlan(t, env, actor, id, reason)
    case Create(actor, i) => CreatePlan(t, env, actor, i)
    case OpenOutlet(actor) => OutletPlan(t, env, actor)
  }

  /** The tables after one transaction that ran alone. */
  ghost function After(t: Tables, env: Env, r: Request): Tables { Apply(t, PlanOf(t, env, r).writes) }

  datatype Entry = Entry(env: Env, request: Request)

  ghost function Serial(t: Tables, log: seq<Entry>): Tables {
    if log == [] then t
    else
      var last := log[|log| - 1];
      After(Serial(t, log[..|log| - 1]), last.env, last.request)
  }

  /** Ids come from sequences: a drawn id names no existing row of its table. */
  ghost predicate FreshIds(t: Tables, ids: Ids) {
    && ids.order !in t.orders
    && (forall i :: 0 <= i < |t.payments| ==> t.payments[i].id != ids.payment)
    && (forall p :: p in t.outlets ==> p.outlet != ids.outlet)
  }

  /** Two transactions never draw the same id. */
  predicate Separate(a: Ids, b: Ids) { a.order != b.order && a.payment != b.payment && a.outlet != b.outlet }

  ghost predicate FreshLog(t: Tables, log: seq<Entry>) {
    log == [] ||
    (var last := log[|log| - 1];
     FreshLog(t, log[..|log| - 1]) && FreshIds(Serial(t, log[..|log| - 1]), last.env.ids) && last.env.today.Valid())
  }
}
