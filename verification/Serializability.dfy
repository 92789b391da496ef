/** Any interleaving of the order transactions is equal to running them one at a time as they end. */
module Serializability {
  import opened Places
  import opened Tables
  import opened Plans
  import opened Ledger
  import opened Lifecycle
  import opened Numbers
  import opened Shapes
  import opened Soundness
  import opened Interleaving

  // ------------------------------------------------------------------ a commit stays inside its locks

  /** The writes of a request touch only what its locks cover. */
  ghost predicate Confined(t: Tables, env: Env, r: Request, w: WriteSet) {
    && (w.order.Some? ==> !r.OpenOutlet? && w.order.value.key == if OnOrder(r) then r.order else env.ids.order)
    && (w.order.Some? && OnOrder(r) ==>
          w.order.value.key in t.orders && SameIdentity(t.orders[w.order.value.key], w.order.value.row))
    && (w.order.Some? && r.Create? ==> w.order.value.row.place == PlaceOf(r) && w.order.value.row.key == r.input.key)
    && (w.payment.Some? ==> OnOrder(r) && w.payment.value.order == r.order)
    && (w.strike.Some? ==> OnOrder(r) && w.strike.value.order == r.order)
    && (w.counter.Some? ==> r.Create? && w.counter.value.key == CounterRef(PlaceOf(r), env.today))
    && (w.outlet.Some? ==>
        r.OpenOutlet? && w.outlet.value.key.business == r.actor.business && w.outlet.value.key !in t.outlets)
    && (w.outletCounter.Some? ==> r.OpenOutlet? && w.outletCounter.value.key == r.actor.business)
  }

  lemma OrderPlansStayOnOrder(t: Tables, env: Env, r: Request)
    requires OnOrder(r)
    ensures var w := PlanOf(t, env, r).writes;
            w == NOTHING || (w.order.Some? && w.order.value.key == r.order && w.counter.None? && w.outlet.None?)
  {}

  lemma OrderPlansConfined(t: Tables, env: Env, r: Request)
    requires OnOrder(r)
    ensures Confined(t, env, r, PlanOf(t, env, r).writes)
  {
    EveryPlanIsShaped(t, env, r);
    OrderPlansStayOnOrder(t, env, r);
  }

  lemma OtherPlansConfined(t: Tables, env: Env, r: Request)
    requires FreshIds(t, env.ids) && !OnOrder(r)
    ensures Confined(t, env, r, PlanOf(t, env, r).writes)
  {
    if r.Create? && CreatePlan(t, env, r.actor, r.input).writes != NOTHING {
      assert PlanOf(t, env, r) == CreateLocked(t, env, r.actor, PlaceOf(r), r.input);
    }
  }

  /** A commit elsewhere leaves the locked order, its payments and its refunds alone. */
  ghost predicate OrderUntouched(t: Tables, u: Tables, id: int) {
    && id in t.orders && id in u.orders && u.orders[id] == t.orders[id] && u.refunds == t.refunds
    && OfOrder(u.payments, u.orders[id].place, id) == OfOrder(t.payments, t.orders[id].place, id)
  }

  lemma OtherOrdersUntouched(t: Tables, w: WriteSet, id: int)
    requires id in t.orders
    requires w.order.Some? ==> w.order.value.key != id
    requires w.payment.Some? ==> w.payment.value.order != id
    requires w.strike.Some? ==> w.strike.value.order != id
    ensures OrderUntouched(t, Apply(t, w), id)
  {
    var place := t.orders[id].place;
    var struck := if w.strike.Some? then StrikeRows(t.payments, w.strike.value) else t.payments;
    if w.strike.Some? {
      OfStruck(t.payments, w.strike.value, place, id);
    }
    if w.payment.Some? {
      OfAppended(struck, w.payment.value, place, id);
    }
  }

  /** A commit elsewhere leaves the outlet and the owner of a locked key alone. */
  ghost predicate KeyUntouched(t: Tables, u: Tables, place: Place, key: string) {
    && place in t.outlets && place in u.outlets && u.outlets[place] == t.outlets[place]
    && OrderWithKey(u.orders, place, key) == OrderWithKey(t.orders, place, key)
    && var owner := OrderWithKey(t.orders, place, key);
       owner.Some? && owner.value in t.orders ==>
         owner.value in u.orders && u.orders[owner.value].hash == t.orders[owner.value].hash
  }

  lemma SameOwner(t: Tables, u: Tables, place: Place, key: string)
    requires KeysOk(t) && KeysOk(u) && Extends(t, u)
    requires forall id :: id in u.orders && HasKey(u.orders[id], place, key) ==> id in t.orders
    ensures OrderWithKey(u.orders, place, key) == OrderWithKey(t.orders, place, key)
  {
    var before, after := OrderWithKey(t.orders, place, key), OrderWithKey(u.orders, place, key);
    if before.Some? {
      assert OrderStays(t, u, before.value);
      assert HasKey(u.orders[before.value], place, key);
      KeyFinds(u, before.value);
    } else if after.Some? {
      assert OrderStays(t, u, after.value);
      KeyIsFree(t.orders, place, key, after.value);
    }
  }

  lemma OtherKeysUntouched(t: Tables, env: Env, r: Request, w: WriteSet, place: Place, key: string)
    requires Confined(t, env, r, w) && NumbersOk(t) && NumbersOk(Apply(t, w)) && Extends(t, Apply(t, w))
    requires place in t.outlets && !(r.Create? && PlaceOf(r) == place && r.input.key == key)
    ensures KeyUntouched(t, Apply(t, w), place, key)
  {
    var u, owner := Apply(t, w), OrderWithKey(t.orders, place, key);
    SameOwner(t, u, place, key);
    if owner.Some? {
      assert OrderStays(t, u, owner.value);
    }
  }

  // ------------------------------------------------------------------ so what others have read stays true

  lemma OrderReadsStay(t: Tables, u: Tables, tx: Tx)
    requires OnOrder(tx.request) && !tx.local.Begun? && Current(t, tx) && OrderUntouched(t, u, tx.request.order)
    ensures Current(u, tx)
  {
    if tx.local.Decided? {
      assert PlanOf(u, tx.env, tx.request) == PlanOf(t, tx.env, tx.request);
    }
  }

  lemma CreateReadsStay(t: Tables, u: Tables, tx: Tx)
    requires tx.request.Create? && !tx.local.Begun? && Current(t, tx)
    requires !tx.local.KeyLocked? ==> KeyUntouched(t, u, PlaceOf(tx.request), tx.request.input.key)
    requires CounterLock(CounterRef(PlaceOf(tx.request), tx.env.today)) in Held(tx) ==>
               var c := CounterRef(PlaceOf(tx.request), tx.env.today);
               NextNumber(u.counters, c) == NextNumber(t.counters, c)
    ensures Current(u, tx)
  {
    if tx.local.Decided? {
      var place, actor, i := PlaceOf(tx.request), tx.request.actor, tx.request.input;
      assert tx.local.plan == CreateLocked(t, tx.env, actor, place, i);
      assert CreateLocked(t, tx.env, actor, place, i) == CreateLocked(u, tx.env, actor, place, i);
    }
  }

  /** A commit breaks nothing that another transaction has read. */
  lemma CommitKeepsReads(t: Tables, a: Tx, b: Tx)
    requires NumbersOk(t) && FreshIds(t, a.env.ids) && a.env.today.Valid()
    requires Current(t, b) && (PlanOf(t, a.env, a.request).writes != NOTHING ==> a.local.Decided? && Held(a) !! Held(b))
    requires a.local.Decided? ==> a.local.plan == PlanOf(t, a.env, a.request)
    ensures Current(After(t, a.env, a.request), b)
  {
    NothingWritten(t);
    var w := PlanOf(t, a.env, a.request).writes;
    if w != NOTHING && !b.local.Begun? {
      EveryPlanIsShaped(t, a.env, a.request);
      ChangeKeepsNumbers(t, a.env, w);
      ChangeExtends(t, a.env, w);
      if OnOrder(a.request) {
        OrderPlansConfined(t, a.env, a.request);
      } else {
        OtherPlansConfined(t, a.env, a.request);
      }
      ConfinedKeepsReads(t, a, b, w);
    }
  }

  lemma ConfinedKeepsReads(t: Tables, a: Tx, b: Tx, w: WriteSet)
    requires NumbersOk(t) && NumbersOk(Apply(t, w)) && Extends(t, Apply(t, w)) && FreshIds(t, a.env.ids)
    requires Confined(t, a.env, a.request, w) && a.local.Decided? && a.local.plan.writes == w && Held(a) !! Held(b)
    requires Current(t, b) && !b.local.Begun?
    ensures Current(Apply(t, w), b)
  {
    var u, r := Apply(t, w), b.request;
    if OnOrder(r) {
      assert OrderLock(r.order) in Held(b);
      assert OnOrder(a.request) ==> OrderLock(a.request.order) in Held(a);
      OtherOrdersUntouched(t, w, r.order);
      OrderReadsStay(t, u, b);
    } else if r.Create? {
      var place, key := PlaceOf(r), r.input.key;
      assert KeyLock(place, key) in Held(b);
      assert a.request.Create? ==> KeyLock(PlaceOf(a.request), a.request.input.key) in Held(a);
      assert w.counter.Some? ==> CounterLock(w.counter.value.key) in Held(a);
      if !b.local.KeyLocked? {
        OtherKeysUntouched(t, a.env, a.request, w, place, key);
      }
      CreateReadsStay(t, u, b);
    } else {
      assert CodeLock(r.actor.business) in Held(b);
      assert a.request.OpenOutlet? ==> CodeLock(a.request.actor.business) in Held(a);
    }
  }

  // ------------------------------------------------------------------ whole behaviours

  /** The answers are those of the serial execution of the log. */
  ghost predicate AnswersSerial(init: Tables, log: seq<Entry>, replies: seq<Reply>) {
    |replies| == |log| &&
    (log == [] ||
     (var n := |log| - 1;
      && AnswersSerial(init, log[..n], replies[..n])
      && replies[n] == PlanOf(Serial(init, log[..n]), log[n].env, log[n].request).reply))
  }

  ghost predicate TxSound(w: World, n: int) {
    n in w.txs ==>
      && Current(w.db, w.txs[n]) && FreshIds(w.db, w.txs[n].env.ids) && w.txs[n].env.today.Valid()
      && (w.txs[n].local.Decided? ==> w.txs[n].local.plan == PlanOf(w.db, w.txs[n].env, w.txs[n].request))
  }

  ghost predicate Apart(w: World, m: int, n: int) {
    m in w.txs && n in w.txs && m != n ==>
      Separate(w.txs[m].env.ids, w.txs[n].env.ids) && Held(w.txs[m]) !! Held(w.txs[n])
  }

  ghost predicate Serialized(init: Tables, w: World) {
    && FreshLog(init, w.log) && w.db == Serial(init, w.log) && AnswersSerial(init, w.log, w.replies)
    && (forall n :: TxSound(w, n)) && (forall m, n :: Apart(w, m, n))
  }

  lemma DecidedIsSerial(db: Tables, tx: Tx)
    requires Current(db, tx) && tx.local.Decided?
    ensures tx.local.plan == PlanOf(db, tx.env, tx.request)
  {}

  /** Ending a transaction appends exactly its serial execution. */
  lemma EndSerialized(init: Tables, w: World, n: int, tx: Tx, plan: Plan)
    requires Serialized(init, w) && NumbersOk(w.db) && n in w.txs
    requires tx.env == w.txs[n].env && tx.request == w.txs[n].request
    requires tx.local.Decided? && tx.local.plan == plan == PlanOf(w.db, tx.env, tx.request)
    requires plan.writes == NOTHING || tx == w.txs[n]
    ensures Serialized(init, Ended(w, n, tx, plan))
  {
    var v := Ended(w, n, tx, plan);
    assert TxSound(w, n);
    assert v.log[..|w.log|] == w.log && v.replies[..|w.log|] == w.replies;
    assert v.db == After(w.db, tx.env, tx.request);
    EveryPlanIsShaped(w.db, tx.env, tx.request);
    forall m ensures TxSound(v, m) {
      assert TxSound(w, m) && Apart(w, n, m);
      if m in v.txs {
        CommitKeepsReads(w.db, tx, w.txs[m]);
        DrawnIdsStayFresh(w.db, tx.env, plan.writes, w.txs[m].env.ids);
        if w.txs[m].local.Decided? {
          DecidedIsSerial(v.db, w.txs[m]);
        }
      }
    }
    forall m, k ensures Apart(v, m, k) {
      assert Apart(w, m, k);
    }
  }

  lemma RunSerialized(init: Tables, w: World, n: int)
    requires Serialized(init, w) && NumbersOk(w.db) && Enabled(w, Run(n))
    ensures Serialized(init, Do(w, Run(n)))
  {
    var v, tx := Do(w, Run(n)), Stepped(w, n);
    assert TxSound(w, n);
    AdvanceSound(w.db, w.txs[n]);
    if Refused(tx) {
      RefusalWritesNothing(w.db, tx.env, tx.request);
      EndSerialized(init, w, n, tx, tx.local.plan);
    } else {
      if tx.local.Decided? {
        DecidedIsSerial(w.db, tx);
      }
      forall m ensures TxSound(v, m) {
        assert TxSound(w, m);
      }
      forall m, k ensures Apart(v, m, k) {
        assert Apart(w, m, k);
      }
    }
  }

  lemma RefusalWritesNothing(t: Tables, env: Env, r: Request)
    ensures PlanOf(t, env, r).reply.Failed? ==> PlanOf(t, env, r).writes == NOTHING
  {
    match r
    case Create(actor, i) =>
      assert CreatePlan(t, env, actor, i).reply.Failed? ==> CreatePlan(t, env, actor, i).writes == NOTHING;
    case _ =>
  }

  lemma StepSerialized(init: Tables, w: World, s: Step)
    requires Serialized(init, w) && NumbersOk(w.db) && Enabled(w, s)
    ensures Serialized(init, Do(w, s))
  {
    match s
    case Run(n) => RunSerialized(init, w, n);
    case Commit(n) =>
      assert TxSound(w, n);
      EndSerialized(init, w, n, w.txs[n], w.txs[n].local.plan);
    case _ =>
      var v := Do(w, s);
      forall m ensures TxSound(v, m) {
        assert TxSound(w, m);
      }
      forall m, k ensures Apart(v, m, k) {
        assert Apart(w, m, k);
      }
  }

  /** The worlds an execution passes through. */
  ghost predicate Behaviour(init: Tables, ws: seq<World>) {
    && ws != [] && ws[0] == World(init, map[], [], [])
    && forall k :: 0 < k < |ws| ==> Follows(ws[k - 1], ws[k])
  }

  ghost predicate Follows(w: World, v: World) { exists s: Step :: Enabled(w, s) && v == Do(w, s) }

  /**
   Every interleaving of order transactions has, at every moment, the tables of running the ended
   ones one at a time in the order they ended, and gave the same answers.
   */
  lemma {:induction false} EveryInterleavingIsSerial(init: Tables, ws: seq<World>)
    requires NumbersOk(init) && Behaviour(init, ws)
    ensures Serialized(init, ws[|ws| - 1])
    ensures NumbersOk(ws[|ws| - 1].db)
  {
    var n := |ws| - 1;
    if n > 0 {
      EveryInterleavingIsSerial(init, ws[..n]);
      assert Follows(ws[n - 1], ws[n]);
      var s: Step :| Enabled(ws[n - 1], s) && ws[n] == Do(ws[n - 1], s);
      StepSerialized(init, ws[n - 1], s);
    }
    NumbersAlways(init, ws[n].log);
  }

  // ------------------------------------------------------------------ what interleaved runs guarantee

  lemma LastAnswerSound(t: Tables, e: Entry, reply: Reply)
    requires LedgerOk(t) && FreshIds(t, e.env.ids) && reply == PlanOf(t, e.env, e.request).reply
    ensures reply != Failed(LedgerInvariant)
  {
    TransactionKeepsLedger(t, e.env, e.request);
  }

  lemma {:induction false} NoAnswerReportsBrokenLedger(init: Tables, log: seq<Entry>, replies: seq<Reply>)
    requires LedgerOk(init) && FreshLog(init, log) && AnswersSerial(init, log, replies)
    ensures Failed(LedgerInvariant) !in replies
  {
    if log != [] {
      var n := |log| - 1;
      NoAnswerReportsBrokenLedger(init, log[..n], replies[..n]);
      LedgerAlways(init, log[..n]);
      LastAnswerSound(Serial(init, log[..n]), log[n], replies[n]);
      NotAmong(replies, Failed(LedgerInvariant));
    }
  }

  lemma NotAmong<T>(s: seq<T>, x: T)
    requires s != [] && x !in s[..|s| - 1] && s[|s| - 1] != x
    ensures x !in s
  {
    assert s == s[..|s| - 1] + [s[|s| - 1]];
  }

  /**
   From sound tables, whatever interleaves: money, histories, keys and numbers stay sound, and no
   caller is ever told that the payment ledger is broken.
   */
  lemma EveryInterleavingIsSound(init: Tables, ws: seq<World>)
    requires SoundTables(init) && Behaviour(init, ws)
    ensures SoundTables(ws[|ws| - 1].db)
    ensures Failed(LedgerInvariant) !in ws[|ws| - 1].replies
  {
    var w := ws[|ws| - 1];
    EveryInterleavingIsSerial(init, ws);
    LedgerAlways(init, w.log);
    HistoriesAlways(init, w.log);
    NoAnswerReportsBrokenLedger(init, w.log, w.replies);
  }

  /** The paid total a transaction has read stays the committed confirmed total until it writes. */
  lemma PaidTotalStaysCommitted(init: Tables, ws: seq<World>, n: int)
    requires NumbersOk(init) && Behaviour(init, ws)
    requires n in ws[|ws| - 1].txs && ws[|ws| - 1].txs[n].local.Balance? && OnOrder(ws[|ws| - 1].txs[n].request)
    ensures var w := ws[|ws| - 1];
            var id := w.txs[n].request.order;
            id in w.db.orders && w.txs[n].local.o == w.db.orders[id] && w.txs[n].local.paid == PaidOf(w.db, id)
  {
    EveryInterleavingIsSerial(init, ws);
    assert TxSound(ws[|ws| - 1], n);
  }
}
