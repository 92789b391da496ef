/** The invariants of the order tables taken together: money, histories, keys, lines and numbers. */
module Soundness {
  import opened Tables
  import opened Plans
  import opened Ledger
  import opened Lifecycle
  import opened Numbers
  import opened Shapes

  ghost predicate SoundTables(t: Tables) { LedgerOk(t) && HistoriesOk(t) && NumbersOk(t) }

  const EMPTY := Tables(map[], [], [], {}, [], [], map[], map[], map[])

  lemma EmptyIsSound()
    ensures SoundTables(EMPTY)
  {
    forall id ensures OrderSound(EMPTY.orders, EMPTY.payments, id) {}
    forall id ensures HistorySound(EMPTY.orders, EMPTY.history, id) {}
    forall id ensures LinesSound(EMPTY.orders, EMPTY.items, id) {}
    forall c, k: nat ensures CounterSound(EMPTY.orders, EMPTY.counters, c, k) {}
  }

  /** Every transaction of the order services keeps the tables sound. */
  lemma TransactionKeepsSound(t: Tables, env: Env, r: Request)
    requires SoundTables(t) && FreshIds(t, env.ids) && env.today.Valid()
    ensures SoundTables(After(t, env, r))
  {
    TransactionKeepsLedger(t, env, r);
    EveryPlanIsShaped(t, env, r);
    ChangeKeepsHistories(t, env, PlanOf(t, env, r).writes);
    ChangeKeepsNumbers(t, env, PlanOf(t, env, r).writes);
  }

  /** From empty tables every run of the order services stays sound. */
  lemma EveryRunIsSound(log: seq<Entry>)
    requires FreshLog(EMPTY, log)
    ensures SoundTables(Serial(EMPTY, log))
  {
    EmptyIsSound();
    LedgerAlways(EMPTY, log);
    HistoriesAlways(EMPTY, log);
    NumbersAlways(EMPTY, log);
  }
}
