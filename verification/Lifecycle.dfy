/**
 The life of an order: its stored history is a chain of allowed links from its creation to its
 current status, so it is short, and its ends are final.
 */
module Lifecycle {
  import opened Outcome
  import opened Tables
  import opened Plans
  import opened Shapes
  import Text

  /** Rows that lead from creation to `current`, each link an allowed transition. */
  ghost predicate Chain(rows: seq<HistoryRow>, current: Status) {
    && rows != [] && rows[|rows| - 1].to == current
    && match rows[|rows| - 1].from
       case None => |rows| == 1 && current.Received?
       case Some(before) => AllowedTransition(before, current) && Chain(rows[..|rows| - 1], before)
  }

  /** Steps an order can still take. */
  function Rank(s: Status): nat {
    match s
    case Received => 3
    case Processing => 2
    case ReadyForPickup => 1
    case _ => 0
  }

  lemma StepsDescend(from: Status, to: Status)
    ensures AllowedTransition(from, to) ==> Rank(to) < Rank(from) && (to.Cancelled? || Rank(to) == Rank(from) - 1)
  {}

  /** A history never has more than four rows, and fewer while steps remain. */
  lemma {:induction false} ChainIsShort(rows: seq<HistoryRow>, current: Status)
    requires Chain(rows, current)
    ensures |rows| + Rank(current) <= 4
  {
    var last := rows[|rows| - 1];
    if last.from.Some? {
      ChainIsShort(rows[..|rows| - 1], last.from.value);
      StepsDescend(last.from.value, current);
    }
  }

  /** Only the last row of a history can reach a final status. */
  lemma {:induction false} OnlyTheEndIsFinal(rows: seq<HistoryRow>, current: Status, k: nat)
    requires Chain(rows, current) && k < |rows| - 1
    ensures !rows[k].to.Cancelled? && !rows[k].to.Completed?
  {
    var n := |rows| - 1;
    if k == n - 1 {
      assert rows[..n][n - 1] == rows[k];
    } else {
      OnlyTheEndIsFinal(rows[..n], rows[n].from.value, k);
    }
  }

  ghost predicate HistorySound(orders: map<int, Order>, history: seq<HistoryRow>, id: int) {
    if id in orders then Chain(HistoryOf(history, id), orders[id].status) else HistoryOf(history, id) == []
  }

  ghost predicate HistoriesOk(t: Tables) { forall id :: HistorySound(t.orders, t.history, id) }

  lemma HistoryAppended(rows: seq<HistoryRow>, h: HistoryRow, id: int)
    ensures HistoryOf(rows + [h], id) == if h.order == id then HistoryOf(rows, id) + [h] else HistoryOf(rows, id)
  {
    assert (rows + [h])[..|rows|] == rows;
  }

  lemma ChainExtends(rows: seq<HistoryRow>, before: Status, h: HistoryRow)
    requires h.from.Some? ==> Chain(rows, before) && h.from.value == before && AllowedTransition(before, h.to)
    requires h.from.None? ==> rows == [] && h.to.Received?
    ensures Chain(rows + [h], h.to)
  {
    assert (rows + [h])[..|rows|] == rows;
  }

  lemma ChangeKeepsHistories(t: Tables, env: Env, w: WriteSet)
    requires HistoriesOk(t) && FreshIds(t, env.ids) && Shaped(t, env, w)
    ensures HistoriesOk(Apply(t, w))
  {
    var u := Apply(t, w);
    forall id ensures HistorySound(u.orders, u.history, id) {
      assert HistorySound(t.orders, t.history, id);
      if w.history.Some? {
        HistoryAppended(t.history, w.history.value, id);
        if w.history.value.order == id {
          var before := if id in t.orders then t.orders[id].status else Received;
          ChainExtends(HistoryOf(t.history, id), before, w.history.value);
        }
      }
    }
  }

  lemma {:induction false} HistoriesAlways(t: Tables, log: seq<Entry>)
    requires HistoriesOk(t) && FreshLog(t, log)
    ensures HistoriesOk(Serial(t, log))
  {
    if log != [] {
      var last, mid := log[|log| - 1], Serial(t, log[..|log| - 1]);
      HistoriesAlways(t, log[..|log| - 1]);
      EveryPlanIsShaped(mid, last.env, last.request);
      ChangeKeepsHistories(mid, last.env, PlanOf(mid, last.env, last.request).writes);
    }
  }

  // ------------------------------------------------------------------ what a transaction does to a status

  predicate Final(s: Status) { s.Completed? || s.Cancelled? }

  /** A status either stays or follows one allowed link, and only Cancel reaches CANCELLED. */
  lemma StatusFollowsLinks(t: Tables, env: Env, r: Request, id: int)
    requires FreshIds(t, env.ids) && id in t.orders
    ensures id in After(t, env, r).orders
    ensures var was, now := t.orders[id].status, After(t, env, r).orders[id].status;
            was != now ==> AllowedTransition(was, now) && (now.Cancelled? <==> r.Cancel?)
  {
    EveryPlanIsShaped(t, env, r);
  }

  lemma ChangeKeepsFinal(t: Tables, env: Env, w: WriteSet, id: int)
    requires FreshIds(t, env.ids) && Shaped(t, env, w) && id in t.orders && Final(t.orders[id].status)
    ensures id in Apply(t, w).orders && Apply(t, w).orders[id].status == t.orders[id].status
    ensures HistoryOf(Apply(t, w).history, id) == HistoryOf(t.history, id)
  {
    if w.history.Some? {
      HistoryAppended(t.history, w.history.value, id);
    }
  }

  /** COMPLETED and CANCELLED are final in every continuation, and no later row joins the history. */
  lemma {:induction false} FinalStaysFinal(t: Tables, log: seq<Entry>, id: int)
    requires FreshLog(t, log) && id in t.orders && Final(t.orders[id].status)
    ensures id in Serial(t, log).orders && Serial(t, log).orders[id].status == t.orders[id].status
    ensures HistoryOf(Serial(t, log).history, id) == HistoryOf(t.history, id)
  {
    if log != [] {
      var last, mid := log[|log| - 1], Serial(t, log[..|log| - 1]);
      FinalStaysFinal(t, log[..|log| - 1], id);
      EveryPlanIsShaped(mid, last.env, last.request);
      ChangeKeepsFinal(mid, last.env, PlanOf(mid, last.env, last.request).writes, id);
    }
  }

  /** The plan stores the order one step further down. */
  ghost predicate StepsDown(plan: Plan, id: int, o: Order) {
    && plan.writes.order.Some? && plan.writes.order.value.key == id
    && Rank(plan.writes.order.value.row.status) < Rank(o.status)
  }

  lemma MoveStepsDown(env: Env, actor: Actor, id: int, o: Order, to: Status, notes: Option<string>)
    ensures MovePlan(env, actor, id, o, to, notes).reply.Moved? ==>
              StepsDown(MovePlan(env, actor, id, o, to, notes), id, o)
  {
    StepsDescend(o.status, to);
  }

  lemma DropStepsDown(env: Env, actor: Actor, id: int, o: Order, reason: string)
    ensures DropPlan(env, actor, id, o, reason).reply.Moved? ==> StepsDown(DropPlan(env, actor, id, o, reason), id, o)
  {
    StepsDescend(o.status, Cancelled);
  }

  lemma OnlyLifecycleMoves(t: Tables, env: Env, r: Request)
    requires PlanOf(t, env, r).reply.Moved?
    ensures (r.Transition? || r.Cancel?) && r.order in t.orders
    ensures StepsDown(PlanOf(t, env, r), r.order, t.orders[r.order])
  {
    match r
    case Transition(actor, id, to, notes) =>
      var o := t.orders[id];
      assert PlanOf(t, env, r) == MovePlan(env, actor, id, o, to.status, notes);
      MoveStepsDown(env, actor, id, o, to.status, notes);
    case Cancel(actor, id, given) =>
      var o := t.orders[id];
      assert PlanOf(t, env, r) == DropPlan(env, actor, id, o, Text.Trim(given));
      DropStepsDown(env, actor, id, o, Text.Trim(given));
    case _ =>
  }

  /** Every successful step, a status change or a cancellation, strictly lowers the rank of its order. */
  lemma StepsLowerRank(t: Tables, env: Env, r: Request)
    requires PlanOf(t, env, r).reply.Moved?
    ensures (r.Transition? || r.Cancel?) && r.order in t.orders && r.order in After(t, env, r).orders
    ensures Rank(After(t, env, r).orders[r.order].status) < Rank(t.orders[r.order].status)
  {
    OnlyLifecycleMoves(t, env, r);
  }

  /** Across any run an order's rank never rises. */
  lemma {:induction false} RankNeverRises(t: Tables, log: seq<Entry>, id: int)
    requires FreshLog(t, log) && id in t.orders
    ensures id in Serial(t, log).orders && Rank(Serial(t, log).orders[id].status) <= Rank(t.orders[id].status)
  {
    if log != [] {
      var last, mid := log[|log| - 1], Serial(t, log[..|log| - 1]);
      RankNeverRises(t, log[..|log| - 1], id);
      StatusFollowsLinks(mid, last.env, last.request, id);
      StepsDescend(mid.orders[id].status, After(mid, last.env, last.request).orders[id].status);
    }
  }
}
