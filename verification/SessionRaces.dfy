/**
 Refreshes, logouts, logins and business deactivations racing statement by statement. Every request
 on a family waits for the family's row lock; deactivation locks families one after another. Every
 behaviour equals running the ended requests one at a time, and so a token is spent at most once.
 */
module SessionRaces {
  import opened Sessions
  import opened SessionEffects

  // ------------------------------------------------------------------ one request

  datatype Local =
    | Begun
    | Looked(family: int)                          // hash found, nothing locked yet
    | Locked(family: int)                          // family row locked and not revoked
    | Sweeping(snapshot: set<int>, held: set<int>) // deactivation: rows its statement found, those locked so far
    | Decided(plan: Plan, locks: set<int>)         // about to commit

  datatype Tx = Tx(request: Request, local: Local)

  predicate UsesFamily(q: Request) { q.Refresh? || q.Logout? }

  predicate OwnedBy(q: Request, t: Token) {
    q.Logout? ==> t.business == q.principal.business && t.user == q.principal.user
  }

  function FamiliesOfBusiness(r: Registry, business: int): set<int> {
    set f | f in r.families && r.families[f].business == business && !r.families[f].revoked
  }

  function Advance(r: Registry, tx: Tx): Tx {
    var q := tx.request;
    match tx.local
    case Begun =>
      if UsesFamily(q) then
        if q.secret in r.tokens && OwnedBy(q, r.tokens[q.secret])
        then tx.(local := Looked(r.tokens[q.secret].family)) else tx.(local := Decided(REFUSED, {}))
      else if q.Issue? then tx.(local := Decided(PlanOf(r, q), {}))
      else if q.Deactivate? then tx.(local := Sweeping(FamiliesOfBusiness(r, q.business), {}))
      else tx
    case Looked(f) =>
      if UsesFamily(q) && q.secret in r.tokens && Open(r, r.tokens[q.secret])
      then tx.(local := Locked(f)) else tx.(local := Decided(REFUSED, {}))
    case Locked(f) => tx.(local := Decided(PlanOf(r, q), {f}))
    case Sweeping(snapshot, held) =>
      if q.Deactivate? && held == snapshot
      then Tx(Request.Deactivate(q.business, held), Decided(PlanOf(r, Request.Deactivate(q.business, held)), held))
      else tx
    case Decided(_, _) => tx
  }

  function Held(tx: Tx): set<int> {
    match tx.local
    case Locked(f) => {f}
    case Sweeping(_, held) => held
    case Decided(_, locks) => locks
    case _ => {}
  }

  // ------------------------------------------------------------------ the system

  datatype World = World(db: Registry, txs: map<int, Tx>, log: seq<Request>, replies: seq<Reply>)

  datatype Step =
    | Begin(n: int, request: Request)
    | Run(n: int)
    | LockNext(n: int, family: int)
    | Commit(n: int)
    | Abort(n: int)

  ghost predicate DrawApart(a: Request, b: Request) {
    (a.Refresh? || a.Issue?) && (b.Refresh? || b.Issue?) ==>
      && a.drawn.secret != b.drawn.secret && a.drawn.id != b.drawn.id
      && (a.Issue? && b.Issue? ==> a.family != b.family)
  }

  ghost predicate Alone(txs: map<int, Tx>, n: int, locks: set<int>) {
    forall m :: m in txs && m != n ==> Held(txs[m]) !! locks
  }

  predicate Refused(tx: Tx) { tx.local.Decided? && tx.local.plan == REFUSED }

  function Swept(tx: Tx, family: int): Tx
    requires tx.local.Sweeping?
  {
    tx.(local := Sweeping(tx.local.snapshot, tx.local.held + {family}))
  }

  ghost predicate Enabled(w: World, s: Step) {
    match s
    case Begin(n, q) => n !in w.txs && Fresh(w.db, q) && forall m :: m in w.txs ==> DrawApart(w.txs[m].request, q)
    case Run(n) =>
      && n in w.txs && !w.txs[n].local.Decided?
      && (w.txs[n].local.Sweeping? ==> w.txs[n].local.held == w.txs[n].local.snapshot)
      && (Refused(Advance(w.db, w.txs[n])) || Alone(w.txs, n, Held(Advance(w.db, w.txs[n]))))
    case LockNext(n, f) =>
      && n in w.txs && w.txs[n].local.Sweeping? && f in w.txs[n].local.snapshot - w.txs[n].local.held
      && Alone(w.txs, n, w.txs[n].local.held + {f})
    case Commit(n) => n in w.txs && w.txs[n].local.Decided?
    case Abort(n) => n in w.txs
  }

  function Ended(w: World, n: int, tx: Tx): World
    requires tx.local.Decided?
  {
    World(Apply(w.db, tx.local.plan.change), w.txs - {n}, w.log + [tx.request], w.replies + [tx.local.plan.reply])
  }

  ghost function Do(w: World, s: Step): World
    requires Enabled(w, s)
  {
    match s
    case Begin(n, q) => w.(txs := w.txs[n := Tx(q, Begun)])
    case Run(n) =>
      var tx := Advance(w.db, w.txs[n]);
      if Refused(tx) then Ended(w, n, tx) else w.(txs := w.txs[n := tx])
    case LockNext(n, f) => w.(txs := w.txs[n := Swept(w.txs[n], f)])
    case Commit(n) => Ended(w, n, w.txs[n])
    case Abort(n) => w.(txs := w.txs - {n})
  }

  function Serial(r: Registry, log: seq<Request>): Registry {
    if log == [] then r else After(Serial(r, log[..|log| - 1]), log[|log| - 1])
  }

  // ------------------------------------------------------------------ what is read stays true

  ghost predicate Current(r: Registry, tx: Tx) {
    var q := tx.request;
    match tx.local
    case Begun => true
    case Looked(f) => UsesFamily(q) && Mine(r, q, f)
    case Locked(f) => UsesFamily(q) && Mine(r, q, f) && Open(r, r.tokens[q.secret])
    case Sweeping(snapshot, held) => q.Deactivate? && held <= snapshot && InBusiness(r, q.business, snapshot)
    case Decided(plan, locks) =>
      && plan == PlanOf(r, q)
      && (UsesFamily(q) ==> exists f :: locks == {f} && Mine(r, q, f) && Open(r, r.tokens[q.secret]))
      && (q.Deactivate? ==> locks == q.targets && InBusiness(r, q.business, locks))
  }

  ghost predicate Mine(r: Registry, q: Request, f: int)
    requires UsesFamily(q)
  {
    q.secret in r.tokens && r.tokens[q.secret].family == f && OwnedBy(q, r.tokens[q.secret])
  }

  ghost predicate InBusiness(r: Registry, business: int, fs: set<int>) {
    forall f :: f in fs ==> f in r.families && r.families[f].business == business
  }

  /** A commit elsewhere leaves a locked family and its tokens alone. */
  ghost predicate FamilyUntouched(r: Registry, u: Registry, f: int) {
    && f in r.families && f in u.families && u.families[f] == r.families[f]
    && (forall s :: s in Of(r.tokens, f) ==> s in u.tokens && u.tokens[s] == r.tokens[s])
    && (forall s :: s in Of(u.tokens, f) ==> s in r.tokens && u.tokens[s] == r.tokens[s])
  }

  lemma OtherFamiliesUntouched(r: Registry, a: Tx, f: int)
    requires Current(r, a) && a.local.Decided? && Fresh(r, a.request) && f !in Held(a) && f in r.families
    ensures FamilyUntouched(r, Apply(r, a.local.plan.change), f)
  {
    var u := Apply(r, a.local.plan.change);
    assert Of(u.tokens, f) == Of(r.tokens, f);
  }

  lemma RowsOnlyGrow(r: Registry, q: Request, business: int, fs: set<int>)
    requires Fresh(r, q) && InBusiness(r, business, fs)
    ensures InBusiness(After(r, q), business, fs)
  {}

  lemma CommitKeepsReads(r: Registry, a: Tx, b: Tx)
    requires Current(r, a) && a.local.Decided? && Current(r, b) && Held(a) !! Held(b)
    requires Fresh(r, a.request) && DrawApart(a.request, b.request)
    ensures Current(Apply(r, a.local.plan.change), b)
  {
    var u, q := Apply(r, a.local.plan.change), b.request;
    if UsesFamily(q) && !b.local.Begun? {
      TokensOnlyAge(r, a.request, q.secret);
      TokenOwnerKept(r, a.request, q.secret);
      if !b.local.Looked? {
        var f := r.tokens[q.secret].family;
        assert f in Held(b);
        OtherFamiliesUntouched(r, a, f);
        SamePlan(r, u, q, f);
      }
    } else if b.local.Sweeping? {
      RowsOnlyGrow(r, a.request, q.business, b.local.snapshot);
    } else if b.local.Decided? && q.Deactivate? {
      RowsOnlyGrow(r, a.request, q.business, b.local.locks);
      assert PlanOf(u, q).change.revoke == PlanOf(r, q).change.revoke;
    }
  }

  lemma TokenOwnerKept(r: Registry, q: Request, s: Secret)
    requires Fresh(r, q) && s in r.tokens
    ensures s in After(r, q).tokens && After(r, q).tokens[s].business == r.tokens[s].business
    ensures After(r, q).tokens[s].user == r.tokens[s].user
  {}

  lemma SamePlan(r: Registry, u: Registry, q: Request, f: int)
    requires UsesFamily(q) && q.secret in r.tokens && r.tokens[q.secret].family == f && FamilyUntouched(r, u, f)
    ensures PlanOf(u, q) == PlanOf(r, q) && q.secret in u.tokens && u.tokens[q.secret] == r.tokens[q.secret]
  {
    assert q.secret in Of(r.tokens, f);
    if q.Logout? {
      if BearerIn(r, q.principal, f) {
        var s :| s in r.tokens && r.tokens[s].id == q.principal.session && r.tokens[s].business == q.principal.business
                 && r.tokens[s].user == q.principal.user && r.tokens[s].family == f;
        assert s in Of(r.tokens, f) && u.tokens[s] == r.tokens[s];
      }
      if BearerIn(u, q.principal, f) {
        var s :| s in u.tokens && u.tokens[s].id == q.principal.session && u.tokens[s].business == q.principal.business
                 && u.tokens[s].user == q.principal.user && u.tokens[s].family == f;
        assert s in Of(u.tokens, f) && u.tokens[s] == r.tokens[s];
      }
    }
  }

  lemma AdvanceCurrent(r: Registry, tx: Tx)
    requires Current(r, tx) && !tx.local.Decided?
    ensures var v := Advance(r, tx); Current(r, v) || (Refused(v) && PlanOf(r, v.request) == REFUSED)
    ensures DrawSame(tx.request, Advance(r, tx).request)
  {
    if tx.local.Locked? {
      assert tx.local.family == r.tokens[tx.request.secret].family;
    }
  }

  /** Advancing a request never changes what it has drawn. */
  ghost predicate DrawSame(a: Request, b: Request) { a == b || (a.Deactivate? && b.Deactivate?) }

  // ------------------------------------------------------------------ whole behaviours

  ghost predicate AnswersSerial(init: Registry, log: seq<Request>, replies: seq<Reply>) {
    |replies| == |log| &&
    (log == [] ||
     (var n := |log| - 1;
      && AnswersSerial(init, log[..n], replies[..n])
      && replies[n] == PlanOf(Serial(init, log[..n]), log[n]).reply && Fresh(Serial(init, log[..n]), log[n])))
  }

  ghost predicate TxSound(w: World, n: int) { n in w.txs ==> Current(w.db, w.txs[n]) && Fresh(w.db, w.txs[n].request) }

  ghost predicate Apart(w: World, m: int, n: int) {
    m in w.txs && n in w.txs && m != n ==>
      DrawApart(w.txs[m].request, w.txs[n].request) && Held(w.txs[m]) !! Held(w.txs[n])
  }

  ghost predicate Serialized(init: Registry, w: World) {
    && w.db == Serial(init, w.log) && AnswersSerial(init, w.log, w.replies)
    && (forall n :: TxSound(w, n)) && (forall m, n :: Apart(w, m, n))
  }

  lemma DrawsStayFresh(r: Registry, a: Request, b: Request)
    requires Fresh(r, a) && Fresh(r, b) && DrawApart(a, b)
    ensures Fresh(After(r, a), b)
  {}

  lemma EndSerialized(init: Registry, w: World, n: int, tx: Tx)
    requires Serialized(init, w) && n in w.txs && tx.local.Decided?
    requires tx.local.plan == PlanOf(w.db, tx.request) && DrawSame(w.txs[n].request, tx.request)
    requires tx.local.plan == REFUSED || tx == w.txs[n]
    ensures Serialized(init, Ended(w, n, tx))
  {
    var v := Ended(w, n, tx);
    assert TxSound(w, n);
    assert v.log[..|w.log|] == w.log && v.replies[..|w.log|] == w.replies;
    forall m ensures TxSound(v, m) {
      assert TxSound(w, m) && Apart(w, n, m);
      if m in v.txs {
        if tx.local.plan == REFUSED {
          NothingChanged(w.db);
        } else {
          CommitKeepsReads(w.db, tx, w.txs[m]);
          DrawsStayFresh(w.db, tx.request, w.txs[m].request);
        }
      }
    }
    forall m, k ensures Apart(v, m, k) {
      assert Apart(w, m, k);
    }
  }

  lemma NothingChanged(r: Registry)
    ensures Apply(r, NO_CHANGE) == r
  {
    NothingRevoked(r.families);
  }

  lemma RunSerialized(init: Registry, w: World, n: int)
    requires Serialized(init, w) && Enabled(w, Run(n))
    ensures Serialized(init, Do(w, Run(n)))
  {
    var v, tx := Do(w, Run(n)), Advance(w.db, w.txs[n]);
    assert TxSound(w, n);
    AdvanceCurrent(w.db, w.txs[n]);
    if Refused(tx) {
      EndSerialized(init, w, n, tx);
    } else {
      forall m ensures TxSound(v, m) {
        assert TxSound(w, m);
      }
      forall m, k ensures Apart(v, m, k) {
        assert Apart(w, m, k);
      }
    }
  }

  lemma StepSerialized(init: Registry, w: World, s: Step)
    requires Serialized(init, w) && Enabled(w, s)
    ensures Serialized(init, Do(w, s))
  {
    match s
    case Run(n) => RunSerialized(init, w, n);
    case Commit(n) =>
      assert TxSound(w, n);
      EndSerialized(init, w, n, w.txs[n]);
    case _ =>
      var v := Do(w, s);
      forall m ensures TxSound(v, m) {
        assert TxSound(w, m);
      }
      forall m, k ensures Apart(v, m, k) {
        assert Apart(w, m, k);
      }
  }

  ghost predicate Follows(w: World, v: World) { exists s: Step :: Enabled(w, s) && v == Do(w, s) }

  ghost predicate Behaviour(init: Registry, ws: seq<World>) {
    && ws != [] && ws[0] == World(init, map[], [], [])
    && forall k :: 0 < k < |ws| ==> Follows(ws[k - 1], ws[k])
  }

  lemma {:induction false} RegistryAlways(init: Registry, log: seq<Request>, replies: seq<Reply>)
    requires RegistryOk(init) && AnswersSerial(init, log, replies)
    ensures RegistryOk(Serial(init, log))
  {
    if log != [] {
      var n := |log| - 1;
      RegistryAlways(init, log[..n], replies[..n]);
      RequestKeepsRegistry(Serial(init, log[..n]), log[n]);
    }
  }

  /** Any interleaving equals a serial run, and keeps one unconsumed token in every family. */
  lemma {:induction false} EveryInterleavingIsSerial(init: Registry, ws: seq<World>)
    requires RegistryOk(init) && Behaviour(init, ws)
    ensures Serialized(init, ws[|ws| - 1]) && RegistryOk(ws[|ws| - 1].db)
  {
    var n := |ws| - 1;
    if n > 0 {
      EveryInterleavingIsSerial(init, ws[..n]);
      assert Follows(ws[n - 1], ws[n]);
      var s: Step :| Enabled(ws[n - 1], s) && ws[n] == Do(ws[n - 1], s);
      StepSerialized(init, ws[n - 1], s);
    }
    RegistryAlways(init, ws[n].log, ws[n].replies);
  }

  // ------------------------------------------------------------------ races on one token

  /** Reply k belongs to a refresh of this secret. */
  predicate RefreshAt(w: World, k: int, s: Secret) {
    0 <= k < |w.log| && |w.replies| == |w.log| && w.log[k].Refresh? && w.log[k].secret == s
  }

  /** A spent secret stays spent, in the same family. */
  lemma {:induction false} SpentStaysSpent(init: Registry, log: seq<Request>, replies: seq<Reply>, i: nat, s: Secret)
    requires AnswersSerial(init, log, replies) && i < |log|
    requires log[i].Refresh? && log[i].secret == s && replies[i].Refreshed?
    ensures s in Serial(init, log).tokens && Serial(init, log).tokens[s].consumed
  {
    var n := |log| - 1;
    if i == n {
      SuccessConsumes(Serial(init, log[..n]), log[n]);
    } else {
      SpentStaysSpent(init, log[..n], replies[..n], i, s);
      TokensOnlyAge(Serial(init, log[..n]), log[n], s);
    }
  }

  ghost predicate LineageDead(r: Registry, s: Secret) { s in r.tokens && Dead(r, r.tokens[s].family) }

  lemma {:induction false} SecondUseKills(
    init: Registry, log: seq<Request>, replies: seq<Reply>, i: nat, j: nat, s: Secret)
    requires RegistryOk(init) && AnswersSerial(init, log, replies) && i < j < |log|
    requires log[i].Refresh? && log[i].secret == s && replies[i].Refreshed?
    requires log[j].Refresh? && log[j].secret == s
    ensures replies[j].Unauthorized? && LineageDead(Serial(init, log), s)
  {
    var n := |log| - 1;
    var before := Serial(init, log[..n]);
    RegistryAlways(init, log[..n], replies[..n]);
    if j == n {
      SpentStaysSpent(init, log[..n], replies[..n], i, s);
      ReplayRevokes(before, log[n]);
    } else {
      SecondUseKills(init, log[..n], replies[..n], i, j, s);
      DeadStaysDead(before, log[n], before.tokens[s].family);
    }
    if s in before.tokens {
      TokensOnlyAge(before, log[n], s);
    }
  }

  /**
   Of any number of racing refreshes of one secret at most one succeeds, and once one has, every
   other one that ends later is refused and leaves the family revoked for good.
   */
  lemma AtMostOneRefreshSucceeds(init: Registry, ws: seq<World>, i: int, j: int, s: Secret)
    requires RegistryOk(init) && Behaviour(init, ws)
    requires RefreshAt(ws[|ws| - 1], i, s) && RefreshAt(ws[|ws| - 1], j, s) && i != j
    requires ws[|ws| - 1].replies[i].Refreshed?
    ensures !ws[|ws| - 1].replies[j].Refreshed?
    ensures i < j ==> LineageDead(ws[|ws| - 1].db, s)
  {
    var w := ws[|ws| - 1];
    EveryInterleavingIsSerial(init, ws);
    if i < j {
      SecondUseKills(init, w.log, w.replies, i, j, s);
    } else if w.replies[j].Refreshed? {
      SecondUseKills(init, w.log, w.replies, j, i, s);
    }
  }

  /** Once a lineage is dead, no secret of it authenticates, logs out or refreshes, in any continuation. */
  lemma DeadLineageIsUseless(init: Registry, ws: seq<World>, k: nat, s: Secret, later: Secret, now: int, q: Request)
    requires RegistryOk(init) && Behaviour(init, ws) && k < |ws|
    requires LineageDead(ws[k].db, s) && later in ws[|ws| - 1].db.tokens && s in ws[|ws| - 1].db.tokens
    requires ws[|ws| - 1].db.tokens[later].family == ws[k].db.tokens[s].family
    ensures !Authenticates(ws[|ws| - 1].db, later, now) && !MayLogOut(ws[|ws| - 1].db, later, now)
    ensures UsesFamily(q) && q.secret == later ==> PlanOf(ws[|ws| - 1].db, q) == REFUSED
  {
    EveryInterleavingIsSerial(init, ws);
    DeadInBehaviour(init, ws, k, ws[k].db.tokens[s].family);
    DeadIsDead(ws[|ws| - 1].db, later, q, now);
  }

  /** The family is revoked in both and has exactly the same token rows. */
  ghost predicate Frozen(r: Registry, u: Registry, f: int) {
    && Dead(r, f) && Dead(u, f) && Of(u.tokens, f) == Of(r.tokens, f)
    && forall t :: t in Of(r.tokens, f) ==> u.tokens[t] == r.tokens[t]
  }

  /** In any behaviour a revoked family stays revoked, and none of its tokens is added, removed or changed. */
  lemma {:induction false} DeadInBehaviour(init: Registry, ws: seq<World>, k: nat, f: int)
    requires RegistryOk(init) && Behaviour(init, ws) && k < |ws| && Dead(ws[k].db, f)
    ensures Frozen(ws[k].db, ws[|ws| - 1].db, f)
    decreases |ws| - k
  {
    if k < |ws| - 1 {
      EveryInterleavingIsSerial(init, ws[..k + 1]);
      assert Follows(ws[k], ws[k + 1]);
      var s: Step :| Enabled(ws[k], s) && ws[k + 1] == Do(ws[k], s);
      StepKeepsDead(init, ws[k], s, f);
      DeadInBehaviour(init, ws, k + 1, f);
    }
  }

  lemma StepKeepsDead(init: Registry, w: World, s: Step, f: int)
    requires Serialized(init, w) && RegistryOk(w.db) && Enabled(w, s) && Dead(w.db, f)
    ensures Frozen(w.db, Do(w, s).db, f)
  {
    match s
    case Run(n) => NothingChanged(w.db);
    case Commit(n) =>
      assert TxSound(w, n);
      DeadStaysDead(w.db, w.txs[n].request, f);
    case _ =>
  }

  // ------------------------------------------------------------------ what every ended request did

  lemma {:induction false} EndedAt(init: Registry, log: seq<Request>, replies: seq<Reply>, k: nat)
    requires AnswersSerial(init, log, replies) && k < |log|
    ensures AnswersSerial(init, log[..k], replies[..k]) && Fresh(Serial(init, log[..k]), log[k])
    ensures replies[k] == PlanOf(Serial(init, log[..k]), log[k]).reply
  {
    var n := |log| - 1;
    if k < n {
      assert log[..n][..k] == log[..k] && log[..n][k] == log[k];
      assert replies[..n][..k] == replies[..k] && replies[..n][k] == replies[k];
      EndedAt(init, log[..n], replies[..n], k);
    } else {
      assert log[..k] == log[..n] && replies[..k] == replies[..n];
    }
  }

  /** In any interleaving each ended request did and answered exactly what its effect says. */
  lemma EveryEndedHasItsEffect(init: Registry, ws: seq<World>, k: nat)
    requires RegistryOk(init) && Behaviour(init, ws) && k < |ws[|ws| - 1].log|
    ensures var w := ws[|ws| - 1];
            && |w.replies| == |w.log|
            && Effect(Serial(init, w.log[..k]), w.log[k], Serial(init, w.log[..k + 1]), w.replies[k])
  {
    var w := ws[|ws| - 1];
    EveryInterleavingIsSerial(init, ws);
    EndedAt(init, w.log, w.replies, k);
    RegistryAlways(init, w.log[..k], w.replies[..k]);
    assert w.log[..k + 1][..k] == w.log[..k];
    EveryRequestHasItsEffect(Serial(init, w.log[..k]), w.log[k]);
  }

  // ------------------------------------------------------------------ deactivations

  /** The transaction is a deactivation whose statement found these families, still locking or about to commit. */
  ghost predicate SweepsExactly(tx: Tx, snapshot: set<int>) {
    tx.request.Deactivate? &&
    match tx.local
    case Sweeping(found, _) => found == snapshot
    case Decided(_, locks) => locks == snapshot
    case _ => false
  }

  lemma StepKeepsSweep(w: World, s: Step, n: int, snapshot: set<int>)
    requires Enabled(w, s) && n in w.txs && SweepsExactly(w.txs[n], snapshot) && n in Do(w, s).txs
    ensures SweepsExactly(Do(w, s).txs[n], snapshot)
  {}

  lemma {:induction false} SweepLasts(init: Registry, ws: seq<World>, k: nat, j: nat, n: int, snapshot: set<int>)
    requires Behaviour(init, ws) && k <= j < |ws| && forall i :: k <= i <= j ==> n in ws[i].txs
    requires SweepsExactly(ws[k].txs[n], snapshot)
    ensures SweepsExactly(ws[j].txs[n], snapshot)
    decreases j - k
  {
    if k < j {
      assert Follows(ws[k], ws[k + 1]);
      var s: Step :| Enabled(ws[k], s) && ws[k + 1] == Do(ws[k], s);
      StepKeepsSweep(ws[k], s, n, snapshot);
      SweepLasts(init, ws, k + 1, j, n, snapshot);
    }
  }

  /** Committing it revokes every one of them. */
  lemma SweepCommits(r: Registry, tx: Tx, snapshot: set<int>, f: int)
    requires Current(r, tx) && tx.local.Decided? && SweepsExactly(tx, snapshot) && f in snapshot
    ensures Dead(Apply(r, tx.local.plan.change), f)
  {}

  lemma SweepEnds(init: Registry, ws: seq<World>, j: nat, n: int, snapshot: set<int>, f: int)
    requires RegistryOk(init) && Behaviour(init, ws) && j < |ws| - 1 && f in snapshot
    requires Enabled(ws[j], Commit(n)) && ws[j + 1] == Do(ws[j], Commit(n)) && SweepsExactly(ws[j].txs[n], snapshot)
    ensures Dead(ws[j + 1].db, f)
  {
    EveryInterleavingIsSerial(init, ws[..j + 1]);
    assert TxSound(ws[j], n);
    SweepCommits(ws[j].db, ws[j].txs[n], snapshot, f);
  }

  /** The statement finds every unrevoked family of the business. */
  lemma SweepBegins(w: World, n: int)
    requires Enabled(w, Run(n)) && w.txs[n].request.Deactivate? && w.txs[n].local.Begun?
    ensures n in Do(w, Run(n)).txs
    ensures SweepsExactly(Do(w, Run(n)).txs[n], FamiliesOfBusiness(w.db, w.txs[n].request.business))
  {}

  /**
   A deactivation that commits, however long it waited for each row and whatever ran meanwhile, leaves
   revoked for good every family of the business that was committed when its statement began.
   */
  lemma DeactivationRevokesBusiness(init: Registry, ws: seq<World>, k: nat, j: nat, n: int, f: int)
    requires RegistryOk(init) && Behaviour(init, ws) && k < j < |ws| - 1
    requires forall i :: k <= i <= j ==> n in ws[i].txs
    requires ws[k].txs[n].request.Deactivate? && ws[k].txs[n].local.Begun?
    requires Enabled(ws[k], Run(n)) && ws[k + 1] == Do(ws[k], Run(n))
    requires Enabled(ws[j], Commit(n)) && ws[j + 1] == Do(ws[j], Commit(n))
    requires f in ws[k].db.families && ws[k].db.families[f].business == ws[k].txs[n].request.business
    ensures Dead(ws[|ws| - 1].db, f)
  {
    if Dead(ws[k].db, f) {
      DeadInBehaviour(init, ws, k, f);
    } else {
      var snapshot := FamiliesOfBusiness(ws[k].db, ws[k].txs[n].request.business);
      SweepBegins(ws[k], n);
      SweepLasts(init, ws, k + 1, j, n, snapshot);
      SweepEnds(init, ws, j, n, snapshot, f);
      DeadInBehaviour(init, ws, j + 1, f);
    }
  }
}
