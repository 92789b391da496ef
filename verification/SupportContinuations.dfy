/**
 What holds from one moment of interleaved support work to any later one: closed stays closed, a version
 is written once, and what an operation read was committed when it read it.
 */
module SupportContinuations {
  import opened Support
  import opened SupportEffects
  import opened SupportRaces

  // ------------------------------------------------------------------ later is a continuation

  lemma {:induction false} SerialSplits(d: Desk, a: seq<Request>, b: seq<Request>)
    requires FreshLog(d, a + b)
    ensures FreshLog(d, a) && FreshLog(Serial(d, a), b) && Serial(d, a + b) == Serial(Serial(d, a), b)
    decreases |b|
  {
    if b == [] {
      assert a + b == a;
    } else {
      var n := |b| - 1;
      assert (a + b)[..|a| + n] == a + b[..n];
      SerialSplits(d, a, b[..n]);
    }
  }

  lemma StepAppends(w: World, s: Step)
    requires Enabled(w, s)
    ensures w.log <= Do(w, s).log && w.replies <= Do(w, s).replies
  {}

  lemma {:induction false} LogGrows(init: Desk, ws: seq<World>, k: nat)
    requires Behaviour(init, ws) && k < |ws|
    ensures ws[k].log <= ws[|ws| - 1].log && ws[k].replies <= ws[|ws| - 1].replies
  {
    var n := |ws| - 1;
    if k < n {
      LogGrows(init, ws[..n], k);
      assert Follows(ws[n - 1], ws[n]);
      var s: Step :| Enabled(ws[n - 1], s) && ws[n] == Do(ws[n - 1], s);
      StepAppends(ws[n - 1], s);
    }
  }

  lemma Resumes(d: Desk, log: seq<Request>, n: nat)
    requires FreshLog(d, log) && n <= |log|
    ensures FreshLog(Serial(d, log[..n]), log[n..]) && Serial(d, log) == Serial(Serial(d, log[..n]), log[n..])
  {
    assert log == log[..n] + log[n..];
    SerialSplits(d, log[..n], log[n..]);
  }

  lemma SerialAt(init: Desk, ws: seq<World>, k: nat)
    requires DeskOk(init) && Behaviour(init, ws) && k < |ws|
    ensures FreshLog(init, ws[k].log) && ws[k].db == Serial(init, ws[k].log)
  {
    EveryInterleavingIsSerial(init, ws[..k + 1]);
  }

  /** The rows at any later moment are those of an earlier one after running some requests one at a time. */
  lemma LaterIsContinuation(init: Desk, ws: seq<World>, k: nat) returns (log: seq<Request>)
    requires DeskOk(init) && Behaviour(init, ws) && k < |ws|
    ensures ws[|ws| - 1].log == ws[k].log + log && FreshLog(ws[k].db, log)
    ensures ws[|ws| - 1].db == Serial(ws[k].db, log)
  {
    var n, last := |ws[k].log|, ws[|ws| - 1].log;
    LogGrows(init, ws, k);
    assert ws[k].log == last[..n] && last == last[..n] + last[n..];
    SerialAt(init, ws, k);
    SerialAt(init, ws, |ws| - 1);
    Resumes(init, last, n);
    log := last[n..];
  }

  lemma OneMore(init: Desk, log: seq<Request>, k: nat)
    requires k < |log|
    ensures Serial(init, log[..k + 1]) == After(Serial(init, log[..k]), log[k])
  {
    assert log[..k + 1][..k] == log[..k];
  }

  lemma {:induction false} AnswerAt(init: Desk, log: seq<Request>, replies: seq<Reply>, k: nat)
    requires AnswersSerial(init, log, replies) && k < |log|
    ensures replies[k] == PlanOf(Serial(init, log[..k]), log[k]).reply
  {
    var n := |log| - 1;
    if k < n {
      assert log[..n][..k] == log[..k] && log[..n][k] == log[k] && replies[..n][k] == replies[k];
      AnswerAt(init, log[..n], replies[..n], k);
    } else {
      assert log[..k] == log[..n];
    }
  }

  lemma FreshBefore(init: Desk, log: seq<Request>, j: nat)
    requires FreshLog(init, log) && j <= |log|
    ensures FreshLog(init, log[..j])
  {
    assert log == log[..j] + log[j..];
    SerialSplits(init, log[..j], log[j..]);
  }

  lemma ResumesAt(init: Desk, log: seq<Request>, n: nat, head: seq<Request>, rest: seq<Request>)
    requires FreshLog(init, log) && n <= |log| && head == log[..n] && rest == log[n..]
    ensures FreshLog(Serial(init, head), rest) && Serial(init, log) == Serial(Serial(init, head), rest)
  {
    Resumes(init, log, n);
  }

  /** From just before entry i to just before entry j. */
  lemma Between(init: Desk, log: seq<Request>, i: nat, j: nat)
    requires FreshLog(init, log) && i <= j <= |log|
    ensures FreshLog(init, log[..i]) && FreshLog(Serial(init, log[..i]), log[i..j])
    ensures Serial(init, log[..j]) == Serial(Serial(init, log[..i]), log[i..j])
  {
    FreshBefore(init, log, i);
    FreshBefore(init, log, j);
    ResumesAt(init, log[..j], i, log[..i], log[i..j]);
  }

  // ------------------------------------------------------------------ closed for good

  /** Operates under this session. */
  predicate Under(q: Request, s: int) { q.Operate? && q.session == s }

  /** No operation under the session is about to commit, and none has since the first `from` requests ended. */
  ghost predicate NoneUnder(w: World, from: nat, s: int) {
    && |w.log| == |w.replies|
    && (forall n :: n in w.txs && Under(w.txs[n].request, s) ==> !w.txs[n].local.Decided?)
    && (forall j :: from <= j < |w.log| && Under(w.log[j], s) ==> w.replies[j] != Done)
  }

  /**
   However requests interleave, from the moment a session is ended, its request revoked or its operator
   logged out, it stays closed, no operation under it is about to commit, and none commits ever after.
   */
  lemma ClosedInBehaviour(init: Desk, ws: seq<World>, k: nat, s: int)
    requires DeskOk(init) && Behaviour(init, ws) && k < |ws| && SessionClosed(ws[k].db, s)
    ensures SessionClosed(ws[|ws| - 1].db, s)
    ensures NoneUnder(ws[|ws| - 1], |ws[k].log|, s)
  {
    var w := ws[|ws| - 1];
    var log := LaterIsContinuation(init, ws, k);
    EveryInterleavingIsSerial(init, ws);
    ClosedStays(ws[k].db, log, s);
    forall n | n in w.txs && Under(w.txs[n].request, s) ensures !w.txs[n].local.Decided? {
      assert TxSound(w, n);
      ClosedDenies(w.db, w.txs[n].request);
    }
    forall j | |ws[k].log| <= j < |w.log| && Under(w.log[j], s) ensures w.replies[j] != Done {
      ClosedBefore(init, ws, k, j, s);
    }
  }

  lemma {:induction false} ClosedStays(d: Desk, log: seq<Request>, s: int)
    requires FreshLog(d, log) && SessionClosed(d, s)
    ensures SessionClosed(Serial(d, log), s)
  {
    if log != [] {
      ClosedStays(d, log[..|log| - 1], s);
      ClosedStaysClosed(Serial(d, log[..|log| - 1]), log[|log| - 1], s);
    }
  }

  lemma ClosedBefore(init: Desk, ws: seq<World>, k: nat, j: nat, s: int)
    requires DeskOk(init) && Behaviour(init, ws) && k < |ws| && SessionClosed(ws[k].db, s)
    requires Serialized(init, ws[|ws| - 1]) && |ws[k].log| <= j < |ws[|ws| - 1].log| && Under(ws[|ws| - 1].log[j], s)
    ensures ws[|ws| - 1].replies[j] != Done
  {
    var w := ws[|ws| - 1];
    LogGrows(init, ws, k);
    SerialAt(init, ws, k);
    assert w.log[..|ws[k].log|] == ws[k].log;
    Between(init, w.log, |ws[k].log|, j);
    AnswerAt(init, w.log, w.replies, j);
    ClosedForever(ws[k].db, w.log[|ws[k].log|..j], w.log[j]);
  }

  lemma FreshAt(init: Desk, log: seq<Request>, k: nat)
    requires FreshLog(init, log) && k < |log|
    ensures FreshLog(init, log[..k]) && Fresh(Serial(init, log[..k]), log[k])
  {
    FreshBefore(init, log, k + 1);
    assert log[..k + 1][..k] == log[..k];
  }

  lemma EndedAt(init: Desk, ws: seq<World>, k: nat)
    requires DeskOk(init) && Behaviour(init, ws) && k < |ws[|ws| - 1].log|
    ensures var w := ws[|ws| - 1];
            var d, q := Serial(init, w.log[..k]), w.log[k];
            && |w.replies| == |w.log| && DeskOk(d) && Fresh(d, q)
            && w.replies[k] == PlanOf(d, q).reply && Serial(init, w.log[..k + 1]) == After(d, q)
  {
    var w := ws[|ws| - 1];
    EveryInterleavingIsSerial(init, ws);
    AnswerAt(init, w.log, w.replies, k);
    FreshAt(init, w.log, k);
    OneMore(init, w.log, k);
    DeskAlways(init, w.log[..k]);
  }

  /** In any interleaving each ended request did and answered exactly what its effect says. */
  lemma EveryEndedHasItsEffect(init: Desk, ws: seq<World>, k: nat)
    requires DeskOk(init) && Behaviour(init, ws) && k < |ws[|ws| - 1].log|
    ensures var w := ws[|ws| - 1];
            && |w.replies| == |w.log|
            && Effect(Serial(init, w.log[..k]), w.log[k], Serial(init, w.log[..k + 1]), w.replies[k])
  {
    EndedAt(init, ws, k);
    EveryRequestHasItsEffect(Serial(init, ws[|ws| - 1].log[..k]), ws[|ws| - 1].log[k]);
  }

  /**
   Once the end of a session, the revocation of its request, its operator's logout or the deactivation of
   its business has been answered, no operation under the session commits, however requests interleave.
   */
  lemma NoOperationAfterClosingAnswer(init: Desk, ws: seq<World>, k: nat, j: nat, s: int)
    requires DeskOk(init) && Behaviour(init, ws) && k < j < |ws[|ws| - 1].log|
    requires |ws[|ws| - 1].replies| == |ws[|ws| - 1].log| && ws[|ws| - 1].replies[k].Done?
    requires ClosesSession(Serial(init, ws[|ws| - 1].log[..k]), ws[|ws| - 1].log[k], s)
    requires Under(ws[|ws| - 1].log[j], s)
    ensures ws[|ws| - 1].replies[j] != Done
  {
    var w := ws[|ws| - 1];
    EndedAt(init, ws, k);
    EndedAt(init, ws, j);
    ClosingAnswerCloses(Serial(init, w.log[..k]), w.log[k], s, w.log[j]);
    EveryInterleavingIsSerial(init, ws);
    Between(init, w.log, k + 1, j);
    ClosedForever(Serial(init, w.log[..k + 1]), w.log[k + 1..j], w.log[j]);
  }

  // ------------------------------------------------------------------ one write for a version

  /** A committed write of this perfume that named this version. */
  predicate Wrote(w: World, k: int, perfume: int, version: int) {
    && 0 <= k < |w.log| == |w.replies| && w.replies[k].Done? && w.log[k].Operate? && w.log[k].operation.Describe?
    && w.log[k].operation.perfume == perfume && w.log[k].operation.version == version
  }

  /** However writes interleave, at most one commits for each version of a perfume. */
  lemma OneWritePerVersion(init: Desk, ws: seq<World>, i: nat, j: nat, perfume: int, version: int)
    requires DeskOk(init) && Behaviour(init, ws)
    requires Wrote(ws[|ws| - 1], i, perfume, version) && Wrote(ws[|ws| - 1], j, perfume, version)
    ensures i == j
  {
    if i < j {
      LaterWriteRefused(init, ws, i, j, perfume, version);
    } else if j < i {
      LaterWriteRefused(init, ws, j, i, perfume, version);
    }
  }

  lemma LaterWriteRefused(init: Desk, ws: seq<World>, i: nat, j: nat, perfume: int, version: int)
    requires DeskOk(init) && Behaviour(init, ws) && i < j < |ws[|ws| - 1].log|
    requires Wrote(ws[|ws| - 1], i, perfume, version)
    ensures !Wrote(ws[|ws| - 1], j, perfume, version)
  {
    var w := ws[|ws| - 1];
    if Wrote(w, j, perfume, version) {
      EveryInterleavingIsSerial(init, ws);
      AnswerAt(init, w.log, w.replies, i);
      AnswerAt(init, w.log, w.replies, j);
      Between(init, w.log, i + 1, j);
      OneMore(init, w.log, i);
      VersionIsSpentOnce(Serial(init, w.log[..i]), w.log[i], w.log[i + 1..j], w.log[j]);
    }
  }

  // ------------------------------------------------------------------ what operations read

  /** The outcome of the operation's plain select was committed while its session and request were usable. */
  ghost predicate Saw(ws: seq<World>, q: Request) {
    q.Operate? ==> exists k :: 0 <= k < |ws| && SawAt(ws[k].db, q)
  }

  predicate SawAt(d: Desk, q: Request)
    requires q.Operate?
  {
    q.glimpse == Look(d, q.business, q.operation) && SessionUsable(d, q.business, q.session, q.operator, q.now)
  }

  ghost predicate TxSaw(ws: seq<World>, w: World, n: int) {
    n in w.txs && !w.txs[n].local.Begun? && !w.txs[n].local.Entered? && !w.txs[n].local.Covered? ==>
      Saw(ws, w.txs[n].request)
  }

  ghost predicate EntrySaw(ws: seq<World>, w: World, k: int) {
    0 <= k < |w.log| == |w.replies| && w.replies[k].Done? ==> Saw(ws, w.log[k])
  }

  /** Past its select every running operation, and every one that committed. */
  ghost predicate AllSaw(ws: seq<World>, w: World) {
    && |w.log| == |w.replies| && (forall n :: TxSaw(ws, w, n)) && (forall k :: EntrySaw(ws, w, k))
  }

  lemma SawLater(ws: seq<World>, v: World, q: Request)
    requires Saw(ws, q)
    ensures Saw(ws + [v], q)
  {
    if q.Operate? {
      var k :| 0 <= k < |ws| && SawAt(ws[k].db, q);
      assert SawAt((ws + [v])[k].db, q);
    }
  }

  lemma StepSaw(ws: seq<World>, s: Step, n: int)
    requires ws != [] && Enabled(ws[|ws| - 1], s) && AllSaw(ws, ws[|ws| - 1]) && TxSound(ws[|ws| - 1], n)
    ensures TxSaw(ws + [Do(ws[|ws| - 1], s)], Do(ws[|ws| - 1], s), n)
  {
    var w, v := ws[|ws| - 1], Do(ws[|ws| - 1], s);
    assert TxSaw(ws, w, n);
    if n in w.txs && n in v.txs {
      if w.txs[n].local.Covered? && v.txs[n].local.Glanced? {
        assert SawAt((ws + [v])[|ws| - 1].db, v.txs[n].request);
      } else if Saw(ws, v.txs[n].request) {
        SawLater(ws, v, v.txs[n].request);
      }
    }
  }

  lemma StepLogsSeen(ws: seq<World>, s: Step, k: int)
    requires ws != [] && Enabled(ws[|ws| - 1], s) && AllSaw(ws, ws[|ws| - 1])
    ensures EntrySaw(ws + [Do(ws[|ws| - 1], s)], Do(ws[|ws| - 1], s), k)
  {
    var w, v := ws[|ws| - 1], Do(ws[|ws| - 1], s);
    assert EntrySaw(ws, w, k);
    if s.Commit? {
      assert TxSaw(ws, w, s.n);
    }
    if 0 <= k < |v.log| && v.replies[k].Done? {
      assert Saw(ws, v.log[k]);
      SawLater(ws, v, v.log[k]);
    }
  }

  lemma StepAllSaw(init: Desk, ws: seq<World>, s: Step)
    requires ws != [] && Enabled(ws[|ws| - 1], s) && AllSaw(ws, ws[|ws| - 1]) && Serialized(init, ws[|ws| - 1])
    ensures AllSaw(ws + [Do(ws[|ws| - 1], s)], Do(ws[|ws| - 1], s))
  {
    var w, v := ws[|ws| - 1], Do(ws[|ws| - 1], s);
    forall m ensures TxSaw(ws + [v], v, m) {
      assert TxSound(w, m);
      StepSaw(ws, s, m);
    }
    forall k ensures EntrySaw(ws + [v], v, k) {
      StepLogsSeen(ws, s, k);
    }
  }

  lemma FollowerSaw(init: Desk, head: seq<World>, v: World)
    requires head != [] && Follows(head[|head| - 1], v)
    requires AllSaw(head, head[|head| - 1]) && Serialized(init, head[|head| - 1])
    ensures AllSaw(head + [v], v)
  {
    var s: Step :| Enabled(head[|head| - 1], s) && v == Do(head[|head| - 1], s);
    StepAllSaw(init, head, s);
  }

  /** Every operation that committed, or is about to, acted on rows committed while it was covered. */
  lemma {:induction false} OperationsSaw(init: Desk, ws: seq<World>)
    requires DeskOk(init) && Behaviour(init, ws)
    ensures AllSaw(ws, ws[|ws| - 1])
  {
    var n := |ws| - 1;
    if n > 0 {
      var head := ws[..n];
      OperationsSaw(init, head);
      EveryInterleavingIsSerial(init, head);
      assert head[n - 1] == ws[n - 1] && Follows(ws[n - 1], ws[n]);
      FollowerSaw(init, head, ws[n]);
      assert head + [ws[n]] == ws;
    }
  }
}
