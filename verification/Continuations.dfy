/**
 What callers may rely on while transactions interleave: a later moment is a serial continuation of an
 earlier one, every answer given was true of the tables, and a key is never served twice.
 */
module Continuations {
  import opened Places
  import opened Tables
  import opened Plans
  import opened Ledger
  import opened Lifecycle
  import opened Numbers
  import opened Shapes
  import opened Soundness
  import opened Retries
  import opened Interleaving
  import opened Serializability
  import opened Effects
  import opened Answers

  // ------------------------------------------------------------------ later is a continuation

  lemma {:induction false} SerialSplits(t: Tables, a: seq<Entry>, b: seq<Entry>)
    requires FreshLog(t, a + b)
    ensures FreshLog(t, a) && FreshLog(Serial(t, a), b) && Serial(t, a + b) == Serial(Serial(t, a), b)
    decreases |b|
  {
    if b == [] {
      assert a + b == a;
    } else {
      var n := |b| - 1;
      assert (a + b)[..|a| + n] == a + b[..n];
      SerialSplits(t, a, b[..n]);
    }
  }

  lemma StepAppends(w: World, s: Step)
    requires Enabled(w, s)
    ensures w.log <= Do(w, s).log && w.replies <= Do(w, s).replies
  {}

  /** Whoever ended stays ended, with the answer given. */
  lemma {:induction false} LogGrows(init: Tables, ws: seq<World>, k: nat)
    requires Behaviour(init, ws) && k < |ws|
    ensures ws[k].log <= ws[|ws| - 1].log && ws[k].replies <= ws[|ws| - 1].replies
  {
    var n := |ws| - 1;
    if k < n {
      LogGrows(init, ws[..n], k);
      assert Follows(ws[n - 1], ws[n]);
      var s: Step :| Enabled(ws[n - 1], s) && ws[n] == Do(ws[n - 1], s);
      StepAppends(ws[n - 1], s);
    }
  }

  lemma Resumes(t: Tables, log: seq<Entry>, n: nat)
    requires FreshLog(t, log) && n <= |log|
    ensures FreshLog(Serial(t, log[..n]), log[n..]) && Serial(t, log) == Serial(Serial(t, log[..n]), log[n..])
  {
    assert log == log[..n] + log[n..];
    SerialSplits(t, log[..n], log[n..]);
  }

  lemma SerialAt(init: Tables, ws: seq<World>, k: nat)
    requires NumbersOk(init) && Behaviour(init, ws) && k < |ws|
    ensures FreshLog(init, ws[k].log) && ws[k].db == Serial(init, ws[k].log)
  {
    EveryInterleavingIsSerial(init, ws[..k + 1]);
  }

  /** The tables at any later moment are those of an earlier one after running some transactions one at a time. */
  lemma LaterIsContinuation(init: Tables, ws: seq<World>, k: nat) returns (log: seq<Entry>)
    requires NumbersOk(init) && Behaviour(init, ws) && k < |ws|
    ensures ws[|ws| - 1].log == ws[k].log + log && FreshLog(ws[k].db, log)
    ensures ws[|ws| - 1].db == Serial(ws[k].db, log)
  {
    var n, last := |ws[k].log|, ws[|ws| - 1].log;
    LogGrows(init, ws, k);
    assert ws[k].log == last[..n] && last == last[..n] + last[n..];
    SerialAt(init, ws, k);
    SerialAt(init, ws, |ws| - 1);
    Resumes(init, last, n);
    log := last[n..];
  }

  /** An order that is COMPLETED or CANCELLED at some moment is so at every later one, with the same history. */
  lemma FinalInBehaviour(init: Tables, ws: seq<World>, k: nat, id: int)
    requires NumbersOk(init) && Behaviour(init, ws) && k < |ws|
    requires id in ws[k].db.orders && Final(ws[k].db.orders[id].status)
    ensures var d, e := ws[k].db, ws[|ws| - 1].db;
            && id in e.orders && e.orders[id].status == d.orders[id].status
            && HistoryOf(e.history, id) == HistoryOf(d.history, id)
  {
    var log := LaterIsContinuation(init, ws, k);
    FinalStaysFinal(ws[k].db, log, id);
  }

  // ------------------------------------------------------------------ answers given

  /** The tables just before and just after the k-th ended transaction. */
  ghost function Before(init: Tables, w: World, k: nat): Tables
    requires k < |w.log|
  {
    Serial(init, w.log[..k])
  }

  ghost function Afterwards(init: Tables, w: World, k: nat): Tables
    requires k < |w.log|
  {
    Serial(init, w.log[..k + 1])
  }

  lemma OneMore(t: Tables, log: seq<Entry>, k: nat)
    requires k < |log|
    ensures Serial(t, log[..k + 1]) == After(Serial(t, log[..k]), log[k].env, log[k].request)
  {
    assert log[..k + 1][..k] == log[..k];
  }

  lemma FreshAt(init: Tables, log: seq<Entry>, k: nat)
    requires FreshLog(init, log) && k < |log|
    ensures FreshLog(init, log[..k]) && FreshIds(Serial(init, log[..k]), log[k].env.ids) && log[k].env.today.Valid()
  {
    assert log == log[..k + 1] + log[k + 1..] && log[..k + 1][..k] == log[..k];
    SerialSplits(init, log[..k + 1], log[k + 1..]);
  }

  lemma {:induction false} AnswerAt(init: Tables, log: seq<Entry>, replies: seq<Reply>, k: nat)
    requires AnswersSerial(init, log, replies) && k < |log|
    ensures replies[k] == PlanOf(Serial(init, log[..k]), log[k].env, log[k].request).reply
  {
    var n := |log| - 1;
    if k < n {
      assert log[..n][..k] == log[..k] && log[..n][k] == log[k] && replies[..n][k] == replies[k];
      AnswerAt(init, log[..n], replies[..n], k);
    } else {
      assert log[..k] == log[..n];
    }
  }

  lemma EndedAt(init: Tables, ws: seq<World>, k: nat)
    requires SoundTables(init) && Behaviour(init, ws) && k < |ws[|ws| - 1].log|
    ensures var w := ws[|ws| - 1];
            var t, e := Before(init, w, k), w.log[k];
            && |w.replies| == |w.log| && LedgerOk(t) && NumbersOk(t) && FreshIds(t, e.env.ids)
            && w.replies[k] == PlanOf(t, e.env, e.request).reply && Afterwards(init, w, k) == After(t, e.env, e.request)
  {
    var w := ws[|ws| - 1];
    EveryInterleavingIsSerial(init, ws);
    FreshAt(init, w.log, k);
    AnswerAt(init, w.log, w.replies, k);
    OneMore(init, w.log, k);
    LedgerAlways(init, w.log[..k]);
    NumbersAlways(init, w.log[..k]);
  }

  /** Every answer given in any interleaving is true of the tables before and after its transaction. */
  lemma EveryAnswerGivenHolds(init: Tables, ws: seq<World>, k: nat)
    requires SoundTables(init) && Behaviour(init, ws) && k < |ws[|ws| - 1].log|
    ensures var w := ws[|ws| - 1];
            && |w.replies| == |w.log|
            && AnswerHolds(Before(init, w, k), w.log[k].env, Afterwards(init, w, k), w.log[k].request, w.replies[k])
  {
    EndedAt(init, ws, k);
    EveryAnswerHolds(Before(init, ws[|ws| - 1], k), ws[|ws| - 1].log[k].env, ws[|ws| - 1].log[k].request);
  }

  /** In any interleaving each ended transaction did and answered exactly what its request's effect says. */
  lemma EveryEndedHasItsEffect(init: Tables, ws: seq<World>, k: nat)
    requires SoundTables(init) && Behaviour(init, ws) && k < |ws[|ws| - 1].log|
    ensures var w := ws[|ws| - 1];
            && |w.replies| == |w.log|
            && Effect(Before(init, w, k), w.log[k].env, w.log[k].request, Afterwards(init, w, k), w.replies[k])
  {
    EndedAt(init, ws, k);
    EveryRequestHasItsEffect(Before(init, ws[|ws| - 1], k), ws[|ws| - 1].log[k].env, ws[|ws| - 1].log[k].request);
  }

  // ------------------------------------------------------------------ one key, one effect

  /** From just after transaction i to just before transaction j. */
  lemma Between(init: Tables, log: seq<Entry>, i: nat, j: nat)
    requires FreshLog(init, log) && i < j < |log|
    ensures FreshLog(Serial(init, log[..i + 1]), log[i + 1..j])
    ensures Serial(init, log[..j]) == Serial(Serial(init, log[..i + 1]), log[i + 1..j])
  {
    assert log == log[..j] + log[j..] && log[..j] == log[..i + 1] + log[i + 1..j];
    SerialSplits(init, log[..j], log[j..]);
    SerialSplits(init, log[..i + 1], log[i + 1..j]);
  }

  /** Two answered payments of one order under one key. */
  predicate PaymentsUnderOneKey(w: World, i: nat, j: nat) {
    && i < j < |w.log| == |w.replies| && w.log[i].request.Record? && w.log[j].request.Record?
    && w.log[i].request.order == w.log[j].request.order && w.log[i].request.payment.key == w.log[j].request.payment.key
  }

  /**
   However they interleave, of two successful payments of an order under one key the later one repeats
   the earlier: same payload, same receipt, nothing written.
   */
  lemma OneKeyPaysOnce(init: Tables, ws: seq<World>, i: nat, j: nat)
    requires SoundTables(init) && Behaviour(init, ws) && PaymentsUnderOneKey(ws[|ws| - 1], i, j)
    requires ws[|ws| - 1].replies[i].Recorded? && ws[|ws| - 1].replies[j].Recorded?
    ensures var w := ws[|ws| - 1];
            && w.log[i].request.payment.hash == w.log[j].request.payment.hash
            && w.replies[j].replayed && SameReceipt(w.replies[i].payment, w.replies[j].payment)
            && Afterwards(init, w, j) == Before(init, w, j)
  {
    var w := ws[|ws| - 1];
    EveryInterleavingIsSerial(init, ws);
    FreshAt(init, w.log, i);
    AnswerAt(init, w.log, w.replies, i);
    FreshAt(init, w.log, j);
    AnswerAt(init, w.log, w.replies, j);
    OneMore(init, w.log, i);
    OneMore(init, w.log, j);
    Between(init, w.log, i, j);
    LedgerAlways(init, w.log[..i]);
    LedgerAlways(init, w.log[..j]);
    SecondPaymentRepeats(Before(init, w, i), w.log[i], w.log[i + 1..j], w.log[j]);
    NothingWritten(Before(init, w, j));
  }

  /** In any interleaving the retry of a successful payment fails exactly when the order was cancelled in between. */
  lemma RetryFailsExactlyWhenCancelled(init: Tables, ws: seq<World>, i: nat, j: nat)
    requires SoundTables(init) && Behaviour(init, ws) && PaymentsUnderOneKey(ws[|ws| - 1], i, j)
    requires ws[|ws| - 1].replies[i].Recorded?
    requires ws[|ws| - 1].log[i].request.payment == ws[|ws| - 1].log[j].request.payment
    requires Reaches(Before(init, ws[|ws| - 1], j), ws[|ws| - 1].log[j])
    ensures var w := ws[|ws| - 1];
            && (w.replies[j].Recorded? <==> !Before(init, w, j).orders[w.log[j].request.order].status.Cancelled?)
            && (!w.replies[j].Recorded? ==> w.replies[j] == Failed(PaymentOrderCancelled))
  {
    var w := ws[|ws| - 1];
    EveryInterleavingIsSerial(init, ws);
    FreshAt(init, w.log, i);
    AnswerAt(init, w.log, w.replies, i);
    FreshAt(init, w.log, j);
    AnswerAt(init, w.log, w.replies, j);
    OneMore(init, w.log, i);
    Between(init, w.log, i, j);
    LedgerAlways(init, w.log[..i]);
    RetryAnswers(Before(init, w, i), w.log[i], w.log[i + 1..j], w.log[j]);
  }

  lemma RetryAnswers(t: Tables, first: Entry, mid: seq<Entry>, second: Entry)
    requires LedgerOk(t) && FreshIds(t, first.env.ids) && first.request.Record? && second.request.Record?
    requires first.request.order == second.request.order && first.request.payment == second.request.payment
    requires PlanOf(t, first.env, first.request).reply.Recorded? && FreshLog(After(t, first.env, first.request), mid)
    requires Reaches(Serial(After(t, first.env, first.request), mid), second)
    ensures var u := Serial(After(t, first.env, first.request), mid);
            var reply := PlanOf(u, second.env, second.request).reply;
            && (reply.Recorded? <==> !u.orders[second.request.order].status.Cancelled?)
            && (!reply.Recorded? ==> reply == Failed(PaymentOrderCancelled))
  {
    var r := first.request;
    var u := Serial(After(t, first.env, r), mid);
    PaymentRetryIsStable(t, first.env, r.actor, r.order, r.payment, mid, second.env, second.request.actor);
    assert PlanOf(u, second.env, second.request) == RecordPlan(u, second.env, second.request.actor, r.order, r.payment);
  }

  /** The caller of a payment is known and may reach its order. */
  predicate Reaches(t: Tables, e: Entry) {
    e.request.Record? && Known(e.request.actor) && Reachable(t, e.env.dir, e.request.actor, e.request.order).Some?
  }

  lemma SecondPaymentRepeats(t: Tables, first: Entry, mid: seq<Entry>, second: Entry)
    requires LedgerOk(t) && first.request.Record? && second.request.Record?
    requires first.request.order == second.request.order
    requires first.request.payment.key == second.request.payment.key
    requires PlanOf(t, first.env, first.request).reply.Recorded?
    requires FreshLog(After(t, first.env, first.request), mid)
    requires LedgerOk(Serial(After(t, first.env, first.request), mid))
    requires PlanOf(Serial(After(t, first.env, first.request), mid), second.env, second.request).reply.Recorded?
    ensures var one := PlanOf(t, first.env, first.request).reply;
            var two := PlanOf(Serial(After(t, first.env, first.request), mid), second.env, second.request);
            && first.request.payment.hash == second.request.payment.hash
            && two.writes == NOTHING && two.reply.replayed && SameReceipt(one.payment, two.reply.payment)
  {
    var r, s, u := first.request, second.request, After(t, first.env, first.request);
    RecordingStores(t, first.env, r.actor, r.order, r.payment);
    RecordPlanExtends(t, first.env, r.actor, r.order, r.payment);
    RunExtends(u, mid);
    var q := StillHeld(u, mid, r.order, PlanOf(t, first.env, r).reply.payment);
    UsedKeyAnswers(Serial(u, mid), second.env, s.actor, s.order, s.payment, q);
  }

  /** Two answered creations at one outlet under one key. */
  predicate CreationsUnderOneKey(w: World, i: nat, j: nat) {
    && i < j < |w.log| == |w.replies| && w.log[i].request.Create? && w.log[j].request.Create?
    && PlaceOf(w.log[i].request) == PlaceOf(w.log[j].request)
    && w.log[i].request.input.key == w.log[j].request.input.key
  }

  /** However they interleave, of two successful creations under one key the later names the earlier one's order. */
  lemma OneKeyCreatesOnce(init: Tables, ws: seq<World>, i: nat, j: nat)
    requires SoundTables(init) && Behaviour(init, ws) && CreationsUnderOneKey(ws[|ws| - 1], i, j)
    requires ws[|ws| - 1].replies[i].Created? && ws[|ws| - 1].replies[j].Created?
    ensures var w := ws[|ws| - 1];
            && w.log[i].request.input.hash == w.log[j].request.input.hash
            && w.replies[j] == Created(w.replies[i].order, true) && Afterwards(init, w, j) == Before(init, w, j)
  {
    var w := ws[|ws| - 1];
    EveryInterleavingIsSerial(init, ws);
    FreshAt(init, w.log, i);
    AnswerAt(init, w.log, w.replies, i);
    FreshAt(init, w.log, j);
    AnswerAt(init, w.log, w.replies, j);
    OneMore(init, w.log, i);
    OneMore(init, w.log, j);
    Between(init, w.log, i, j);
    NumbersAlways(init, w.log[..i]);
    SecondCreationRepeats(Before(init, w, i), w.log[i], w.log[i + 1..j], w.log[j]);
    NothingWritten(Before(init, w, j));
  }

  lemma SecondCreationRepeats(t: Tables, first: Entry, mid: seq<Entry>, second: Entry)
    requires NumbersOk(t) && FreshIds(t, first.env.ids) && first.env.today.Valid()
    requires first.request.Create? && second.request.Create? && PlaceOf(first.request) == PlaceOf(second.request)
    requires first.request.input.key == second.request.input.key && PlanOf(t, first.env, first.request).reply.Created?
    requires FreshLog(After(t, first.env, first.request), mid)
    requires PlanOf(Serial(After(t, first.env, first.request), mid), second.env, second.request).reply.Created?
    ensures var id := PlanOf(t, first.env, first.request).reply.order;
            && first.request.input.hash == second.request.input.hash
            && PlanOf(Serial(After(t, first.env, first.request), mid), second.env, second.request) ==
               Plan(NOTHING, Created(id, true))
  {
    var r, s, u := first.request, second.request, After(t, first.env, first.request);
    EveryPlanIsShaped(t, first.env, r);
    ChangeKeepsNumbers(t, first.env, PlanOf(t, first.env, r).writes);
    CreationAnswer(t, first.env, r.actor, r.input);
    CreationRetryIsStable(u, PlanOf(t, first.env, r).reply.order, mid, second.env, s.actor, s.input);
  }
}
