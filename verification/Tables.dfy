/**
 The database the order services share: rows, the directory that authorizes actors, the SELECTs
 the services run, and one constructor of Write for every INSERT and UPDATE they issue.
 */
module Tables {
  import opened Outcome
  import opened Places
  import opened Pricing
  import opened Numbering

  newtype byte = x: int | 0 <= x < 256

  type Hash = seq<byte>

  datatype Status = Received | Processing | ReadyForPickup | Completed | Cancelled

  datatype PaymentStatus = Unpaid | PartiallyPaid | Paid | Refunded

  datatype Method = Cash | BcaTransfer | Qris | OtherMethod(text: string)

  datatype PaymentState = Pending | Confirmed | Voided

  datatype Order = Order(
    place: Place, customer: int, invoice: Invoice, status: Status, paymentStatus: PaymentStatus, total: int,
    receivedAt: int, dueAt: Option<int>, completedAt: Option<int>, cancelledAt: Option<int>,
    cancelledBy: Option<int>, cancellationReason: Option<string>, deletedAt: Option<int>,
    createdBy: int, key: string, hash: Hash)

  datatype OrderItem = OrderItem(order: int, line: Line, perfume: Option<int>)

  datatype Payment = Payment(
    id: int, place: Place, order: int, amount: int, means: Method, state: PaymentState,
    reference: Option<string>, notes: Option<string>, confirmedAt: Option<int>, voidedAt: Option<int>,
    voidedBy: Option<int>, voidReason: Option<string>, createdBy: int, key: string, hash: Hash)

  datatype HistoryRow = HistoryRow(
    order: int, from: Option<Status>, to: Status, changedBy: int, notes: Option<string>)

  datatype Action =
    | PaymentConfirmed | PaymentVoided | OrderStatusChanged | OrderCancelled | OrderCreated | OutletCreated

  datatype AuditRow = AuditRow(action: Action, place: Place, actor: int, entity: int)

  datatype CounterRef = CounterRef(place: Place, date: Date)

  datatype Tables = Tables(
    orders: map<int, Order>, items: seq<OrderItem>, payments: seq<Payment>, refunds: set<int>,
    history: seq<HistoryRow>, audit: seq<AuditRow>, counters: map<CounterRef, nat>,
    outlets: map<Place, nat>, outletCounters: map<int, nat>)

  // ------------------------------------------------------------------ who may act

  datatype User = User(admin: bool, active: bool)

  /** Rows of other tables a service reads and keeps locked until it commits. */
  datatype Directory = Directory(
    activeOutlets: set<Place>, users: map<(int, int), User>, assignments: set<(int, Place)>,
    customers: set<(int, int)>, perfumes: set<(int, int)>, services: map<int, Catalog>)

  datatype Actor = Actor(user: int, business: int, admin: bool, outlets: seq<int>)

  /** The joins of the order-row lock: active outlet, active actor in the claimed role, assignment. */
  predicate MayReach(dir: Directory, actor: Actor, place: Place) {
    && place in dir.activeOutlets
    && (actor.business, actor.user) in dir.users
    && dir.users[(actor.business, actor.user)] == User(actor.admin, true)
    && (actor.admin || (actor.user, place) in dir.assignments)
  }

  /** SELECT ... FROM orders ... FOR UPDATE: the row an actor may lock. */
  function Reachable(t: Tables, dir: Directory, actor: Actor, id: int): Option<Order> {
    if id in t.orders && t.orders[id].place.business == actor.business && MayReach(dir, actor, t.orders[id].place)
    then Some(t.orders[id]) else None
  }

  // ------------------------------------------------------------------ queries

  /** Payments WHERE business, outlet and order match. */
  function OfOrder(rows: seq<Payment>, place: Place, id: int): seq<Payment> {
    if rows == [] then []
    else
      var last := rows[|rows| - 1];
      var r := OfOrder(rows[..|rows| - 1], place, id);
      if last.place == place && last.order == id then r + [last] else r
  }

  /** COALESCE(sum(amount), 0) over the CONFIRMED rows. */
  function PaidTotal(rows: seq<Payment>): int {
    if rows == [] then 0
    else PaidTotal(rows[..|rows| - 1]) +
         if rows[|rows| - 1].state.Confirmed? then rows[|rows| - 1].amount else 0
  }

  function WithKey(rows: seq<Payment>, key: string): Option<Payment> {
    if rows == [] then None
    else if rows[|rows| - 1].key == key then Some(rows[|rows| - 1])
    else WithKey(rows[..|rows| - 1], key)
  }

  function WithId(rows: seq<Payment>, id: int): Option<Payment> {
    if rows == [] then None
    else if rows[|rows| - 1].id == id then Some(rows[|rows| - 1])
    else WithId(rows[..|rows| - 1], id)
  }

  /** An order holds this idempotency key at this outlet. */
  predicate HasKey(o: Order, place: Place, key: string) { o.place == place && o.key == key }

  ghost function OrderWithKey(orders: map<int, Order>, place: Place, key: string): Option<int> {
    if exists id :: id in orders && HasKey(orders[id], place, key)
    then var id :| id in orders && HasKey(orders[id], place, key); Some(id)
    else None
  }

  function ItemsOf(rows: seq<OrderItem>, id: int): seq<Line> {
    if rows == [] then []
    else
      var r := ItemsOf(rows[..|rows| - 1], id);
      if rows[|rows| - 1].order == id then r + [rows[|rows| - 1].line] else r
  }

  function HistoryOf(rows: seq<HistoryRow>, id: int): seq<HistoryRow> {
    if rows == [] then []
    else
      var r := HistoryOf(rows[..|rows| - 1], id);
      if rows[|rows| - 1].order == id then r + [rows[|rows| - 1]] else r
  }

  /** invoice_counters: the number the next order of that outlet and day receives. */
  function NextNumber(counters: map<CounterRef, nat>, c: CounterRef): nat {
    if c in counters then counters[c] else 1
  }

  function LastOutlet(counters: map<int, nat>, business: int): nat {
    if business in counters then counters[business] else 0
  }

  // ------------------------------------------------------------------ writes

  /** UPDATE payments SET status='VOIDED' ... WHERE id matches AND status='CONFIRMED'. */
  datatype Strike = Strike(place: Place, order: int, target: int, actor: int, reason: string, at: int)

  function Struck(p: Payment, s: Strike): Payment {
    if p.place == s.place && p.order == s.order && p.id == s.target && p.state.Confirmed?
    then p.(state := Voided, voidedAt := Some(s.at), voidedBy := Some(s.actor), voidReason := Some(s.reason))
    else p
  }

  function StrikeRows(rows: seq<Payment>, s: Strike): (r: seq<Payment>)
    ensures |r| == |rows| && forall i :: 0 <= i < |r| ==> r[i] == Struck(rows[i], s)
  {
    seq(|rows|, i requires 0 <= i < |rows| => Struck(rows[i], s))
  }

  function CancelledRow(o: Order, who: int, reason: string, at: int): Order {
    o.(status := Cancelled, cancelledAt := Some(at), cancelledBy := Some(who),
       cancellationReason := Some(reason), deletedAt := Some(at))
  }

  datatype Keyed<K, V> = Keyed(key: K, row: V)

  /** The uncommitted rows of one transaction; no service writes more than these in one go. */
  datatype WriteSet = WriteSet(
    order: Option<Keyed<int, Order>>, items: seq<OrderItem>, strike: Option<Strike>, payment: Option<Payment>,
    history: Option<HistoryRow>, audit: Option<AuditRow>, counter: Option<Keyed<CounterRef, nat>>,
    outlet: Option<Keyed<Place, nat>>, outletCounter: Option<Keyed<int, nat>>)

  const NOTHING := WriteSet(None, [], None, None, None, None, None, None, None)

  function Put<K, V>(m: map<K, V>, w: Option<Keyed<K, V>>): map<K, V> {
    if w.Some? then m[w.value.key := w.value.row] else m
  }

  function Append<T>(rows: seq<T>, w: Option<T>): seq<T> { if w.Some? then rows + [w.value] else rows }

  function PutPayment(rows: seq<Payment>, strike: Option<Strike>, added: Option<Payment>): seq<Payment> {
    Append(if strike.Some? then StrikeRows(rows, strike.value) else rows, added)
  }

  /** The tables as the writing transaction sees them, and as everyone does once it commits. */
  function Apply(t: Tables, w: WriteSet): Tables {
    Tables(Put(t.orders, w.order), t.items + w.items, PutPayment(t.payments, w.strike, w.payment), t.refunds,
           Append(t.history, w.history), Append(t.audit, w.audit), Put(t.counters, w.counter),
           Put(t.outlets, w.outlet), Put(t.outletCounters, w.outletCounter))
  }

  lemma NothingWritten(t: Tables)
    ensures Apply(t, NOTHING) == t
  {
    assert t.items + [] == t.items;
  }
}
