/**
 Support requests racing statement by statement under PostgreSQL's share and update row locks. A
 support operation shares the rows that cover it, so whatever would close it waits until it commits.
 */
module SupportRaces {
  import opened Support

  // ------------------------------------------------------------------ row locks

  datatype RowRef =
    | FamilyRow(family: int) | BusinessRow(business: int) | AdminRow(of: int, user: int)
    | GrantRow(grant: int) | SessionRow(session: int) | PerfumeRow(perfume: int)

  datatype Local =
    | Begun
    | Entered                  // the caller's family, or the owner and the business, are locked
    | Covered                  // Operate: session, grant, business and owner are share-locked and usable
    | Glanced                  // Operate: its plain select has run and its outcome is in the request
    | Sweeping(todo: set<int>) // deactivation: grants of its snapshot not yet locked
    | Decided(plan: Plan)      // all statements done, about to commit

  datatype Tx = Tx(request: Request, local: Local, shared: set<RowRef>, exclusive: set<RowRef>)

  predicate Compatible(a: Tx, b: Tx) {
    a.exclusive !! b.exclusive && a.exclusive !! b.shared && a.shared !! b.exclusive
  }

  function EntryLocks(q: Request): set<RowRef> {
    if q.Activate? || q.Start? || q.Operate? then {FamilyRow(q.operator.family)}
    else if q.EndSession? || q.RevokeGrant? then
      match q.caller
      case Platform(o) => {FamilyRow(o.family)}
      case Owner(user) => {BusinessRow(q.business), AdminRow(q.business, user)}
    else {}
  }

  /** b, r, s and u of the locking select behind an operation. */
  function CoverLocks(d: Desk, q: Request): set<RowRef>
    requires q.Operate? && q.session in d.sessions && d.sessions[q.session].request in d.grants
  {
    var r := d.sessions[q.session].request;
    {SessionRow(q.session), GrantRow(r), BusinessRow(q.business), AdminRow(q.business, d.grants[r].user)}
  }

  function Unrevoked(d: Desk, business: int): set<int> {
    set r | r in d.grants && d.grants[r].business == business && d.grants[r].revoked.None?
  }

  function End(tx: Tx, plan: Plan): Tx { tx.(local := Decided(plan)) }

  /** After the entry locks: the next rows a request locks and what it decides from them. */
  function FromEntered(d: Desk, tx: Tx): Tx
    requires WellFormed(tx.request)
  {
    var q, plan := tx.request, PlanOf(d, tx.request);
    if q.Operate? then
      if SessionUsable(d, q.business, q.session, q.operator, q.now)
      then tx.(local := Covered, shared := tx.shared + CoverLocks(d, q)) else End(tx, Refuse(Denied))
    else if plan.reply != Done then End(tx, plan)
    else
      match q
      case Activate(_, business, active, _, _, _) =>
        var locked := tx.(exclusive := tx.exclusive + {BusinessRow(business)});
        if active then End(locked, plan) else locked.(local := Sweeping(Unrevoked(d, business)))
      case Ask(business, user, _, _, _, _, _, _, _, _) =>
        End(tx.(shared := tx.shared + {BusinessRow(business), AdminRow(business, user)}), plan)
      case Start(_, business, r, _, _, _, _) =>
        if r in d.grants
        then End(tx.(shared := tx.shared + {BusinessRow(business), AdminRow(business, d.grants[r].user)},
                     exclusive := tx.exclusive + {GrantRow(r)}), plan)
        else tx
      case EndSession(_, _, s, _, _, _) => End(tx.(exclusive := tx.exclusive + {SessionRow(s)}), plan)
      case RevokeGrant(_, _, r, _, _, _) => End(tx.(exclusive := tx.exclusive + {GrantRow(r)}), plan)
      case OperatorLogout(f) => End(tx.(exclusive := tx.exclusive + {FamilyRow(f)}), plan)
      case SetAdmin(b, u, _) => End(tx.(exclusive := tx.exclusive + {AdminRow(b, u)}), plan)
      case TenantUpdate(p, _, _) => End(tx.(exclusive := tx.exclusive + {PerfumeRow(p)}), plan)
      case _ => tx
  }

  function Advance(d: Desk, tx: Tx): Tx {
    var q := tx.request;
    match tx.local
    case Begun =>
      if !WellFormed(q) then End(tx, Refuse(Invalid))
      else if !MayEnter(d, q) then End(tx, Refuse(Denied))
      else tx.(local := Entered, shared := tx.shared + EntryLocks(q))
    case Entered => if WellFormed(q) then FromEntered(d, tx) else tx
    case Covered =>
      if q.Operate?
      then tx.(request := q.(glimpse := Look(d, q.business, q.operation)), local := Glanced) else tx
    case Glanced =>
      if q.Operate? && q.operation.Describe?
      then End(tx.(exclusive := tx.exclusive + {PerfumeRow(q.operation.perfume)}), PlanOf(d, q))
      else End(tx, PlanOf(d, q))
    case Sweeping(todo) => if todo == {} then End(tx, PlanOf(d, q)) else tx
    case Decided(_) => tx
  }

  // ------------------------------------------------------------------ the system

  datatype World = World(db: Desk, txs: map<int, Tx>, log: seq<Request>, replies: seq<Reply>)

  datatype Step =
    | Begin(n: int, request: Request)
    | Run(n: int)
    | LockNext(n: int, grant: int)
    | Commit(n: int)
    | Abort(n: int)

  ghost predicate DrawApart(a: Request, b: Request) {
    && (a.Ask? && b.Ask? ==> a.id != b.id) && (a.Start? && b.Start? ==> a.id != b.id)
  }

  ghost predicate Alone(txs: map<int, Tx>, n: int, tx: Tx) {
    forall m :: m in txs && m != n ==> Compatible(txs[m], tx)
  }

  /** A refusal ends the transaction; nothing it locked matters any more. */
  predicate Refused(tx: Tx) { tx.local.Decided? && tx.local.plan.reply != Done }

  function SweptOne(tx: Tx, r: int): Tx
    requires tx.local.Sweeping?
  {
    tx.(local := Sweeping(tx.local.todo - {r}), exclusive := tx.exclusive + {GrantRow(r)})
  }

  ghost predicate Enabled(w: World, s: Step) {
    match s
    case Begin(n, q) => n !in w.txs && Fresh(w.db, q) && forall m :: m in w.txs ==> DrawApart(w.txs[m].request, q)
    case Run(n) =>
      && n in w.txs && !w.txs[n].local.Decided?
      && (Refused(Advance(w.db, w.txs[n])) || Alone(w.txs, n, Advance(w.db, w.txs[n])))
    case LockNext(n, r) =>
      && n in w.txs && w.txs[n].local.Sweeping? && r in w.txs[n].local.todo && Alone(w.txs, n, SweptOne(w.txs[n], r))
    case Commit(n) => n in w.txs && w.txs[n].local.Decided?
    case Abort(n) => n in w.txs
  }

  function Ended(w: World, n: int, tx: Tx): World
    requires tx.local.Decided?
  {
    World(Apply(w.db, tx.local.plan.change), w.txs - {n}, w.log + [tx.request], w.replies + [tx.local.plan.reply])
  }

  ghost function Do(w: World, s: Step): World
    requires Enabled(w, s)
  {
    match s
    case Begin(n, q) => w.(txs := w.txs[n := Tx(q, Begun, {}, {})])
    case Run(n) =>
      var tx := Advance(w.db, w.txs[n]);
      if Refused(tx) then Ended(w, n, tx) else w.(txs := w.txs[n := tx])
    case LockNext(n, r) => w.(txs := w.txs[n := SweptOne(w.txs[n], r)])
    case Commit(n) => Ended(w, n, w.txs[n])
    case Abort(n) => w.(txs := w.txs - {n})
  }

  // ------------------------------------------------------------------ what is locked stays as read

  /** Rows whose content the decision rests on or changes are locked. */
  ghost predicate DecisionLocked(d: Desk, tx: Tx) {
    var q, held := tx.request, tx.shared + tx.exclusive;
    && EntryLocks(q) <= held
    && match q
       case Activate(_, business, active, _, _, _) =>
         && BusinessRow(business) in tx.exclusive
         && (!active ==> forall r :: r in Unrevoked(d, business) ==> GrantRow(r) in tx.exclusive)
       case Ask(business, user, _, _, _, _, _, _, _, _) =>
         BusinessRow(business) in tx.shared && AdminRow(business, user) in tx.shared
       case Start(_, business, r, _, _, _, _) =>
         && r in d.grants && GrantRow(r) in tx.exclusive
         && BusinessRow(business) in held && AdminRow(business, d.grants[r].user) in held
       case Operate(_, _, _, _, _, _, _, _) =>
         && OperationLocked(d, tx)
         && (q.operation.Describe? ==> PerfumeRow(q.operation.perfume) in tx.exclusive)
       case EndSession(_, _, s, _, _, _) => SessionRow(s) in tx.exclusive
       case RevokeGrant(_, _, r, _, _, _) => GrantRow(r) in tx.exclusive
       case OperatorLogout(f) => FamilyRow(f) in tx.exclusive
       case SetAdmin(b, u, _) => AdminRow(b, u) in tx.exclusive
       case TenantUpdate(p, _, _) => PerfumeRow(p) in tx.exclusive
  }

  ghost predicate OperationLocked(d: Desk, tx: Tx)
    requires tx.request.Operate?
  {
    var q := tx.request;
    q.session in d.sessions && d.sessions[q.session].request in d.grants && CoverLocks(d, q) <= tx.shared + tx.exclusive
  }

  ghost predicate OperationCurrent(d: Desk, tx: Tx) {
    var q := tx.request;
    && q.Operate? && MayEnter(d, q) && EntryLocks(q) <= tx.shared + tx.exclusive
    && SessionUsable(d, q.business, q.session, q.operator, q.now) && OperationLocked(d, tx)
  }

  ghost predicate Current(d: Desk, tx: Tx) {
    var q, held := tx.request, tx.shared + tx.exclusive;
    match tx.local
    case Begun => true
    case Entered => WellFormed(q) && MayEnter(d, q) && EntryLocks(q) <= held
    case Covered => OperationCurrent(d, tx)
    case Glanced => OperationCurrent(d, tx)
    case Sweeping(todo) =>
      && q.Activate? && !q.active && WellFormed(q) && MayEnter(d, q) && q.business in d.businesses
      && EntryLocks(q) <= held && BusinessRow(q.business) in tx.exclusive
      && forall r :: r in Unrevoked(d, q.business) ==> r in todo || GrantRow(r) in tx.exclusive
    case Decided(plan) => plan == PlanOf(d, q) && plan.reply == Done && DecisionLocked(d, tx)
  }

  /** A row as every reader of it sees it; rows may be added where none was. */
  ghost predicate RowKept(d: Desk, e: Desk, ref: RowRef) {
    match ref
    case FamilyRow(f) => (f in d.families <==> f in e.families) && (f in d.families ==> e.families[f] == d.families[f])
    case BusinessRow(b) =>
      (b in d.businesses <==> b in e.businesses) && (b in d.businesses ==> e.businesses[b] == d.businesses[b])
    case AdminRow(b, u) =>
      ((b, u) in d.admins <==> (b, u) in e.admins) && ((b, u) in d.admins ==> e.admins[(b, u)] == d.admins[(b, u)])
    case GrantRow(r) => r in d.grants ==> r in e.grants && e.grants[r] == d.grants[r]
    case SessionRow(s) => s in d.sessions ==> s in e.sessions && e.sessions[s] == d.sessions[s]
    case PerfumeRow(p) => (p in d.perfumes <==> p in e.perfumes) && (p in d.perfumes ==> e.perfumes[p] == d.perfumes[p])
  }

  ghost predicate GrantAges(g: Grant, h: Grant) { SameGrant(g, h) && (g.revoked.Some? ==> h.revoked == g.revoked) }

  /** A commit changes only rows it has locked for update, and adds rows only under the locks that guard them. */
  ghost predicate Guarded(d: Desk, e: Desk, tx: Tx) {
    && (forall ref :: ref !in tx.exclusive ==> RowKept(d, e, ref))
    && (forall s :: s in e.sessions && s !in d.sessions ==> GrantRow(e.sessions[s].request) in tx.exclusive)
    && (forall s :: s in d.sessions ==> s in e.sessions && e.sessions[s].request == d.sessions[s].request)
    && (forall r :: r in e.grants && r !in d.grants ==> BusinessRow(e.grants[r].business) in tx.shared)
    && (forall r :: r in d.grants ==> r in e.grants && GrantAges(d.grants[r], e.grants[r]))
  }

  /** Every row a commit writes is locked for update; an added row is covered by the row it hangs on. */
  ghost predicate WritesLocked(d: Desk, c: Change, tx: Tx) {
    && (c.business.Some? ==> BusinessRow(c.business.value.0) in tx.exclusive)
    && (c.admin.Some? ==> AdminRow(c.admin.value.0.0, c.admin.value.0.1) in tx.exclusive)
    && (c.family.Some? ==> FamilyRow(c.family.value) in tx.exclusive)
    && (c.session.Some? ==>
          if c.session.value.0 in d.sessions then SessionRow(c.session.value.0) in tx.exclusive
          else GrantRow(c.session.value.1.request) in tx.exclusive)
    && (c.grant.Some? ==>
          if c.grant.value.0 in d.grants then GrantRow(c.grant.value.0) in tx.exclusive
          else BusinessRow(c.grant.value.1.business) in tx.shared)
    && (c.sweep.Some? ==> forall r :: r in Unrevoked(d, c.sweep.value.0) ==> GrantRow(r) in tx.exclusive)
    && (c.perfume.Some? ==> PerfumeRow(c.perfume.value.0) in tx.exclusive)
  }

  lemma WritesAreLocked(d: Desk, tx: Tx)
    requires Current(d, tx) && tx.local.Decided? && Fresh(d, tx.request)
    ensures WritesLocked(d, tx.local.plan.change, tx)
  {}

  lemma UnlockedRowsKept(d: Desk, c: Change, tx: Tx, ref: RowRef)
    requires WritesLocked(d, c, tx) && ref !in tx.exclusive
    ensures RowKept(d, Apply(d, c), ref)
  {
    if ref.GrantRow? && ref.grant in d.grants && c.sweep.Some? && d.grants[ref.grant].business == c.sweep.value.0 {
      assert ref.grant !in Unrevoked(d, c.sweep.value.0);
    }
  }

  lemma LockedWritesAreGuarded(d: Desk, c: Change, tx: Tx)
    requires Allowed(d, c) && WritesLocked(d, c, tx)
    ensures Guarded(d, Apply(d, c), tx)
  {
    forall ref | ref !in tx.exclusive ensures RowKept(d, Apply(d, c), ref) {
      UnlockedRowsKept(d, c, tx, ref);
    }
  }

  lemma CommitsAreGuarded(d: Desk, tx: Tx)
    requires Current(d, tx) && tx.local.Decided? && Fresh(d, tx.request)
    ensures Guarded(d, Apply(d, tx.local.plan.change), tx)
  {
    PlansAllowed(d, tx.request);
    WritesAreLocked(d, tx);
    LockedWritesAreGuarded(d, tx.local.plan.change, tx);
  }

  /** What b has locked and read, a's commit leaves alone. */
  lemma KeptForOthers(d: Desk, e: Desk, a: Tx, b: Tx)
    requires Guarded(d, e, a) && Compatible(a, b)
    ensures forall ref :: ref in b.shared + b.exclusive ==> RowKept(d, e, ref)
  {}

  lemma CommitKeepsReads(d: Desk, e: Desk, a: Tx, b: Tx)
    requires Guarded(d, e, a) && Compatible(a, b) && Current(d, b)
    ensures Current(e, b)
  {
    KeptForOthers(d, e, a, b);
    EntryKept(d, e, b);
    if b.local.Decided? {
      DecisionKept(d, e, a, b);
    } else if b.local.Covered? || b.local.Glanced? {
      CoverKept(d, e, b);
    } else if b.local.Sweeping? {
      SweepKept(d, e, a, b);
    }
  }

  ghost predicate LocksKept(d: Desk, e: Desk, b: Tx) {
    forall ref :: ref in b.shared + b.exclusive ==> RowKept(d, e, ref)
  }

  lemma EntryKept(d: Desk, e: Desk, b: Tx)
    requires LocksKept(d, e, b)
    ensures EntryLocks(b.request) <= b.shared + b.exclusive ==> MayEnter(e, b.request) == MayEnter(d, b.request)
  {
    if EntryLocks(b.request) <= b.shared + b.exclusive {
      forall ref | ref in EntryLocks(b.request) ensures RowKept(d, e, ref) {}
    }
  }

  lemma CoverKept(d: Desk, e: Desk, b: Tx)
    requires LocksKept(d, e, b) && b.request.Operate? && OperationLocked(d, b)
    ensures OperationLocked(e, b)
    ensures var q := b.request;
            && SessionUsable(e, q.business, q.session, q.operator, q.now) ==
               SessionUsable(d, q.business, q.session, q.operator, q.now)
            && StillValid(e, q.session, q.later) == StillValid(d, q.session, q.later)
            && d.sessions[q.session] == e.sessions[q.session]
  {
    var q := b.request;
    var r := d.sessions[q.session].request;
    assert SessionRow(q.session) in CoverLocks(d, q) && GrantRow(r) in CoverLocks(d, q);
    assert BusinessRow(q.business) in CoverLocks(d, q) && AdminRow(q.business, d.grants[r].user) in CoverLocks(d, q);
    assert RowKept(d, e, SessionRow(q.session)) && RowKept(d, e, GrantRow(r));
    assert RowKept(d, e, BusinessRow(q.business)) && RowKept(d, e, AdminRow(q.business, d.grants[r].user));
  }

  /** No grant joins a business while it is locked for deactivation. */
  lemma SweepKept(d: Desk, e: Desk, a: Tx, b: Tx)
    requires Guarded(d, e, a) && Compatible(a, b) && b.request.Activate?
    requires BusinessRow(b.request.business) in b.exclusive
    ensures Unrevoked(e, b.request.business) <= Unrevoked(d, b.request.business)
    ensures RowKept(d, e, BusinessRow(b.request.business))
  {
    var business := b.request.business;
    assert BusinessRow(business) !in a.shared && RowKept(d, e, BusinessRow(business));
    forall r | r in Unrevoked(e, business) ensures r in Unrevoked(d, business) {
      assert r in d.grants ==> GrantAges(d.grants[r], e.grants[r]);
    }
  }

  lemma StartKept(d: Desk, e: Desk, a: Tx, b: Tx)
    requires Guarded(d, e, a) && Compatible(a, b) && LocksKept(d, e, b)
    requires b.request.Start? && WellFormed(b.request) && DecisionLocked(d, b)
    ensures StartPlan(e, b.request) == StartPlan(d, b.request) && DecisionLocked(e, b)
  {
    var q, r := b.request, b.request.request;
    assert RowKept(d, e, GrantRow(r)) && RowKept(d, e, BusinessRow(q.business));
    assert RowKept(d, e, AdminRow(q.business, d.grants[r].user));
    if Started(d, r) {
      var s :| s in d.sessions && d.sessions[s].request == r;
      assert e.sessions[s].request == r;
    }
    if Started(e, r) {
      var s :| s in e.sessions && e.sessions[s].request == r;
      assert s in d.sessions;
    }
  }

  lemma OperateKept(d: Desk, e: Desk, b: Tx)
    requires LocksKept(d, e, b) && b.request.Operate? && DecisionLocked(d, b)
    ensures OperatePlan(e, b.request) == OperatePlan(d, b.request) && DecisionLocked(e, b)
  {
    CoverKept(d, e, b);
    if b.request.operation.Describe? {
      assert RowKept(d, e, PerfumeRow(b.request.operation.perfume));
    }
  }

  lemma OthersKept(d: Desk, e: Desk, a: Tx, b: Tx)
    requires Guarded(d, e, a) && Compatible(a, b) && LocksKept(d, e, b)
    requires WellFormed(b.request) && !b.request.Start? && !b.request.Operate? && DecisionLocked(d, b)
    requires InnerPlan(d, b.request).reply.Done?
    ensures InnerPlan(e, b.request) == InnerPlan(d, b.request) && DecisionLocked(e, b)
  {
    var q := b.request;
    match q
    case Activate(_, business, active, _, _, _) => SweepKept(d, e, a, b);
    case Ask(business, user, _, _, _, _, _, _, _, _) =>
      assert RowKept(d, e, BusinessRow(business)) && RowKept(d, e, AdminRow(business, user));
    case EndSession(_, _, s, _, _, _) => assert RowKept(d, e, SessionRow(s));
    case RevokeGrant(_, _, r, _, _, _) => assert RowKept(d, e, GrantRow(r));
    case TenantUpdate(p, _, _) => assert RowKept(d, e, PerfumeRow(p));
    case _ =>
  }

  lemma DecisionKept(d: Desk, e: Desk, a: Tx, b: Tx)
    requires Guarded(d, e, a) && Compatible(a, b) && LocksKept(d, e, b)
    requires b.local.Decided? && Current(d, b)
    ensures Current(e, b)
  {
    EntryKept(d, e, b);
    if b.request.Start? {
      StartKept(d, e, a, b);
    } else if b.request.Operate? {
      OperateKept(d, e, b);
    } else {
      OthersKept(d, e, a, b);
    }
  }

  // ------------------------------------------------------------------ every statement is sound

  lemma EnteredAdvances(d: Desk, tx: Tx)
    requires Current(d, tx) && tx.local.Entered?
    ensures var v := Advance(d, tx);
            v.request == tx.request && if Refused(v) then v.local.plan == PlanOf(d, tx.request) else Current(d, v)
  {}

  lemma OperationAdvances(d: Desk, tx: Tx)
    requires Current(d, tx) && (tx.local.Covered? || tx.local.Glanced?)
    ensures var v := Advance(d, tx);
            && (v.request == tx.request || (tx.request.Operate? && v.request.Operate? && !Refused(v)))
            && if Refused(v) then v.local.plan == PlanOf(d, tx.request) else Current(d, v)
  {}

  lemma AdvanceCurrent(d: Desk, tx: Tx)
    requires Current(d, tx) && !tx.local.Decided?
    ensures var v := Advance(d, tx);
            && (v.request == tx.request || (tx.request.Operate? && v.request.Operate? && !Refused(v)))
            && if Refused(v) then v.local.plan == PlanOf(d, tx.request) else Current(d, v)
  {
    if tx.local.Entered? {
      EnteredAdvances(d, tx);
    } else if tx.local.Covered? || tx.local.Glanced? {
      OperationAdvances(d, tx);
    }
  }

  // ------------------------------------------------------------------ whole behaviours

  ghost predicate AnswersSerial(init: Desk, log: seq<Request>, replies: seq<Reply>) {
    |replies| == |log| &&
    (log == [] ||
     (var n := |log| - 1;
      && AnswersSerial(init, log[..n], replies[..n])
      && replies[n] == PlanOf(Serial(init, log[..n]), log[n]).reply))
  }

  ghost predicate TxSound(w: World, n: int) { n in w.txs ==> Current(w.db, w.txs[n]) && Fresh(w.db, w.txs[n].request) }

  ghost predicate Apart(w: World, m: int, n: int) {
    m in w.txs && n in w.txs && m != n ==>
      DrawApart(w.txs[m].request, w.txs[n].request) && Compatible(w.txs[m], w.txs[n])
  }

  ghost predicate Serialized(init: Desk, w: World) {
    && FreshLog(init, w.log) && w.db == Serial(init, w.log) && AnswersSerial(init, w.log, w.replies)
    && (forall n :: TxSound(w, n)) && (forall m, n :: Apart(w, m, n))
  }

  lemma DrawsStayFresh(d: Desk, a: Request, b: Request)
    requires Fresh(d, a) && Fresh(d, b) && DrawApart(a, b)
    ensures Fresh(After(d, a), b)
  {}

  lemma EndSerialized(init: Desk, w: World, n: int, tx: Tx)
    requires Serialized(init, w) && n in w.txs && tx.local.Decided? && tx.request == w.txs[n].request
    requires tx.local.plan == PlanOf(w.db, tx.request) && (Refused(tx) || tx == w.txs[n])
    ensures Serialized(init, Ended(w, n, tx))
  {
    var v := Ended(w, n, tx);
    assert TxSound(w, n);
    assert v.log[..|w.log|] == w.log && v.replies[..|w.log|] == w.replies;
    RefusalChangesNothing(w.db, tx.request);
    if !Refused(tx) {
      CommitsAreGuarded(w.db, tx);
    }
    forall m ensures TxSound(v, m) {
      assert TxSound(w, m) && Apart(w, n, m);
      if m in v.txs && !Refused(tx) {
        CommitKeepsReads(w.db, v.db, tx, w.txs[m]);
        DrawsStayFresh(w.db, tx.request, w.txs[m].request);
      }
    }
    forall m, k ensures Apart(v, m, k) {
      assert Apart(w, m, k);
    }
  }

  lemma RunSerialized(init: Desk, w: World, n: int)
    requires Serialized(init, w) && Enabled(w, Run(n))
    ensures Serialized(init, Do(w, Run(n)))
  {
    var v, tx := Do(w, Run(n)), Advance(w.db, w.txs[n]);
    assert TxSound(w, n);
    AdvanceCurrent(w.db, w.txs[n]);
    if Refused(tx) {
      EndSerialized(init, w, n, tx);
    } else {
      forall m ensures TxSound(v, m) {
        assert TxSound(w, m);
      }
      forall m, k ensures Apart(v, m, k) {
        assert Apart(w, m, k);
      }
    }
  }

  lemma StepSerialized(init: Desk, w: World, s: Step)
    requires Serialized(init, w) && Enabled(w, s)
    ensures Serialized(init, Do(w, s))
  {
    match s
    case Run(n) => RunSerialized(init, w, n);
    case Commit(n) =>
      assert TxSound(w, n);
      EndSerialized(init, w, n, w.txs[n]);
    case LockNext(n, r) => LockSerialized(init, w, n, r);
    case _ =>
      var v := Do(w, s);
      forall m ensures TxSound(v, m) {
        assert TxSound(w, m);
      }
      forall m, k ensures Apart(v, m, k) {
        assert Apart(w, m, k);
      }
  }

  lemma LockSerialized(init: Desk, w: World, n: int, r: int)
    requires Serialized(init, w) && Enabled(w, LockNext(n, r))
    ensures Serialized(init, Do(w, LockNext(n, r)))
  {
    var v := Do(w, LockNext(n, r));
    forall m ensures TxSound(v, m) {
      assert TxSound(w, m);
    }
    forall m, k ensures Apart(v, m, k) {
      assert Apart(w, m, k);
    }
  }

  ghost predicate Follows(w: World, v: World) { exists s: Step :: Enabled(w, s) && v == Do(w, s) }

  ghost predicate Behaviour(init: Desk, ws: seq<World>) {
    && ws != [] && ws[0] == World(init, map[], [], [])
    && forall k :: 0 < k < |ws| ==> Follows(ws[k - 1], ws[k])
  }

  /** Any interleaving of support requests equals a serial run in the order they ended, and stays sound. */
  lemma {:induction false} EveryInterleavingIsSerial(init: Desk, ws: seq<World>)
    requires DeskOk(init) && Behaviour(init, ws)
    ensures Serialized(init, ws[|ws| - 1]) && DeskOk(ws[|ws| - 1].db)
  {
    var n := |ws| - 1;
    if n > 0 {
      EveryInterleavingIsSerial(init, ws[..n]);
      assert Follows(ws[n - 1], ws[n]);
      var s: Step :| Enabled(ws[n - 1], s) && ws[n] == Do(ws[n - 1], s);
      StepSerialized(init, ws[n - 1], s);
    }
    DeskAlways(init, ws[n].log);
  }

  /**
   An operation about to commit is covered, by the committed rows of that very moment, by a session
   neither ended nor expired at its final check and a request neither revoked nor expired.
   */
  lemma CommittingOperationIsCovered(init: Desk, ws: seq<World>, n: int)
    requires DeskOk(init) && Behaviour(init, ws) && n in ws[|ws| - 1].txs
    requires ws[|ws| - 1].txs[n].request.Operate? && ws[|ws| - 1].txs[n].local.Decided?
    ensures var d, q := ws[|ws| - 1].db, ws[|ws| - 1].txs[n].request;
            StillValid(d, q.session, q.later) && SessionUsable(d, q.business, q.session, q.operator, q.now)
            && FamilyOpen(d, q.operator)
  {
    EveryInterleavingIsSerial(init, ws);
    assert TxSound(ws[|ws| - 1], n);
  }
}
