/**
 Support access to a tenant's data: an owner grants a request, a platform admin opens one session on
 it, operates under it, and either side ends it. Every step leaves one audit row in each stream.
 */
module Support {
  import opened Outcome
  import Text

  datatype Scope = ReadOnly | ReadWrite

  /** platform_support_requests */
  datatype Grant = Grant(
    business: int, user: int, reason: string, scope: Scope, created: int, expires: int,
    revoked: Option<int>, why: Option<string>)

  /** platform_support_sessions */
  datatype Session = Session(
    business: int, request: int, admin: int, family: int, reason: string, scope: Scope, started: int, expires: int,
    ended: Option<int>, why: Option<string>)

  datatype Perfume = Perfume(business: int, description: string, version: int, deleted: bool)

  datatype PlatformFamily = PlatformFamily(admin: int, revoked: bool)

  datatype Action =
    | ActivationChanged | SupportRequested | SupportStarted
    | DiagnosticsRead | OutletsRead | PerfumesRead | PerfumeRead | PerfumeUpdated
    | SupportEnded | RequestRevoked

  datatype Entry = Entry(action: Action, business: int, session: Option<int>, target: int)

  datatype PlatformRow = PlatformRow(id: int, entry: Entry)

  /** A row of the tenant's own audit stream and the platform row it links to. */
  datatype TenantRow = TenantRow(link: int, entry: Entry)

  datatype Desk = Desk(
    businesses: map<int, bool>, admins: map<(int, int), bool>, families: map<int, PlatformFamily>,
    grants: map<int, Grant>, sessions: map<int, Session>, perfumes: map<int, Perfume>, outlets: map<int, int>,
    platformAudit: seq<PlatformRow>, businessAudit: seq<TenantRow>)

  /** What a support session may read: counts, outlets (all, or one by id), all perfumes, one perfume. */
  datatype View = DiagnosticsView | OutletsView | PerfumesView | PerfumeView

  /** A read names target 0 when it names no row. */
  datatype Operation =
    | Read(view: View, target: int)
    | Describe(perfume: int, description: string, version: int)
    | OtherOperation

  /** What an operation's plain, unlocked select saw: whether the row named was there, and a perfume's version. */
  datatype Glimpse = Glimpse(found: bool, version: Option<int>)

  /** A platform admin acting under one session family. */
  datatype Operator = Operator(admin: int, family: int)

  /** Who may end or revoke: the platform, or an owner of the business. */
  datatype Caller = Platform(operator: Operator) | Owner(user: int)

  /**
   Clock readings and ids of inserted rows come from outside; created and started are the readings of the
   insertion itself, and audit is the platform audit row's id.
   */
  datatype Request =
    | Activate(operator: Operator, business: int, active: bool, reason: string, now: int, audit: int)
    | Ask(business: int, user: int, reason: string, scope: Option<Scope>, expires: int, confirmed: bool,
          now: int, created: int, id: int, audit: int)
    | Start(operator: Operator, business: int, request: int, now: int, started: int, id: int, audit: int)
    | Operate(operator: Operator, business: int, session: int, operation: Operation, glimpse: Glimpse,
              now: int, later: int, audit: int)
    | EndSession(caller: Caller, business: int, session: int, reason: string, now: int, audit: int)
    | RevokeGrant(caller: Caller, business: int, request: int, reason: string, now: int, audit: int)
    | OperatorLogout(family: int)
    | SetAdmin(business: int, user: int, active: bool)
    | TenantUpdate(perfume: int, description: string, deleted: bool)

  /** CheckFailed: a CHECK of the table refused the insertion. */
  datatype Reply = Denied | Invalid | NotFound | Conflict | CheckFailed | Done

  datatype Change = Change(
    business: Option<(int, bool)>, admin: Option<((int, int), bool)>, family: Option<int>, sweep: Option<(int, int)>,
    grant: Option<(int, Grant)>, session: Option<(int, Session)>, perfume: Option<(int, Perfume)>,
    audit: Option<PlatformRow>)

  const NO_CHANGE := Change(None, None, None, None, None, None, None, None)

  datatype Plan = Plan(change: Change, reply: Reply)

  function Refuse(r: Reply): Plan { Plan(NO_CHANGE, r) }

  // ------------------------------------------------------------------ the predicates of the locking selects

  predicate ValidReason(reason: string) { Text.Trim(reason) != "" && |reason| <= 500 }

  predicate FamilyOpen(d: Desk, o: Operator) {
    o.family in d.families && d.families[o.family] == PlatformFamily(o.admin, false)
  }

  predicate BusinessActive(d: Desk, business: int) { business in d.businesses && d.businesses[business] }

  predicate AdminActive(d: Desk, business: int, user: int) {
    (business, user) in d.admins && d.admins[(business, user)] && BusinessActive(d, business)
  }

  predicate Admitted(d: Desk, business: int, c: Caller) {
    match c
    case Platform(operator) => FamilyOpen(d, operator)
    case Owner(user) => AdminActive(d, business, user)
  }

  /** The grant is unrevoked and unexpired, and its business and its owner are active. */
  predicate GrantUsable(d: Desk, business: int, request: int, now: int) {
    && request in d.grants && d.grants[request].business == business && d.grants[request].revoked.None?
    && d.grants[request].expires > now && AdminActive(d, business, d.grants[request].user)
  }

  predicate SessionUsable(d: Desk, business: int, session: int, o: Operator, now: int) {
    && session in d.sessions
    && var s := d.sessions[session];
       && s.business == business && s.admin == o.admin && s.family == o.family && s.ended.None? && s.expires > now
       && GrantUsable(d, business, s.request, now)
  }

  /** The last check before commit. */
  predicate StillValid(d: Desk, session: int, now: int) {
    && session in d.sessions
    && var s := d.sessions[session];
       && s.ended.None? && s.expires > now && s.request in d.grants
       && d.grants[s.request].revoked.None? && d.grants[s.request].expires > now
  }

  // ------------------------------------------------------------------ what each request decides

  function Audited(audit: int, e: Entry): Option<PlatformRow> { Some(PlatformRow(audit, e)) }

  function ActivatePlan(d: Desk, q: Request): Plan
    requires q.Activate?
  {
    if q.business !in d.businesses then Refuse(NotFound)
    else Plan(NO_CHANGE.(business := Some((q.business, q.active)),
                         sweep := if q.active then None else Some((q.business, q.now)),
                         audit := Audited(q.audit, Entry(ActivationChanged, q.business, None, q.business))), Done)
  }

  const HOUR := 3600

  /** The CHECK of both tables: it lasts, and at most an hour. */
  predicate WithinHour(begun: int, expires: int) { begun < expires <= begun + HOUR }

  predicate WellFormedAsk(q: Request)
    requires q.Ask?
  {
    ValidReason(q.reason) && q.scope.Some? && WithinHour(q.now, q.expires)
  }

  function AskPlan(d: Desk, q: Request): Plan
    requires q.Ask? && q.scope.Some?
  {
    if !AdminActive(d, q.business, q.user) || !q.confirmed then Refuse(Denied)
    else if !WithinHour(q.created, q.expires) then Refuse(CheckFailed)
    else Plan(NO_CHANGE.(grant := Some((q.id, Grant(q.business, q.user, Text.Trim(q.reason), q.scope.value,
                                                    q.created, q.expires, None, None))),
                         audit := Audited(q.audit, Entry(SupportRequested, q.business, None, q.id))), Done)
  }

  /** The request already has a session. */
  predicate Started(d: Desk, request: int) { exists s :: s in d.sessions && d.sessions[s].request == request }

  function StartPlan(d: Desk, q: Request): Plan
    requires q.Start?
  {
    if !GrantUsable(d, q.business, q.request, q.now) then Refuse(Denied)
    else if !WithinHour(q.started, d.grants[q.request].expires) then Refuse(CheckFailed)
    else if Started(d, q.request) then Refuse(Conflict)
    else
      var g := d.grants[q.request];
      Plan(NO_CHANGE.(session := Some((q.id, Session(q.business, q.request, q.operator.admin, q.operator.family,
                                                          g.reason, g.scope, q.started, g.expires, None, None))),
                      audit := Audited(q.audit, Entry(SupportStarted, q.business, Some(q.id), q.id))), Done)
  }

  predicate PerfumeOf(d: Desk, business: int, perfume: int) {
    perfume in d.perfumes && d.perfumes[perfume].business == business && !d.perfumes[perfume].deleted
  }

  predicate OutletOf(d: Desk, business: int, outlet: int) { outlet in d.outlets && d.outlets[outlet] == business }

  /** GetOutlet and SupportGetPerfume. */
  function Look(d: Desk, business: int, operation: Operation): Glimpse {
    match operation
    case Read(view, target) =>
      Glimpse(if view.PerfumeView? then PerfumeOf(d, business, target) else OutletOf(d, business, target), None)
    case Describe(p, _, _) =>
      if PerfumeOf(d, business, p) then Glimpse(true, Some(d.perfumes[p].version)) else Glimpse(false, None)
    case OtherOperation => Glimpse(false, None)
  }

  predicate ReadsOne(view: View, target: int) { view.PerfumeView? || (view.OutletsView? && target > 0) }

  function ReadEntry(business: int, session: int, view: View, target: int): Entry {
    match view
    case DiagnosticsView => Entry(DiagnosticsRead, business, Some(session), if target == 0 then business else target)
    case OutletsView => Entry(OutletsRead, business, Some(session), target)
    case PerfumesView => Entry(PerfumesRead, business, Some(session), target)
    case PerfumeView => Entry(PerfumeRead, business, Some(session), target)
  }

  /** What the operation itself does under the grant's scope. */
  function Perform(d: Desk, scope: Scope, q: Request): Plan
    requires q.Operate?
  {
    match q.operation
    case Read(view, target) =>
      if ReadsOne(view, target) && !q.glimpse.found then Refuse(NotFound)
      else Plan(NO_CHANGE.(audit := Audited(q.audit, ReadEntry(q.business, q.session, view, target))), Done)
    case Describe(p, text, version) =>
      if !scope.ReadWrite? then Refuse(Denied)
      else if version < 1 || |text| > 1000 then Refuse(Invalid)
      else if q.glimpse.version.None? then Refuse(NotFound)
      else if q.glimpse.version.value != version || !PerfumeOf(d, q.business, p) || d.perfumes[p].version != version
      then Refuse(Conflict)
      else Plan(NO_CHANGE.(perfume := Some((p, d.perfumes[p].(description := Text.Trim(text), version := version + 1))),
                           audit := Audited(q.audit, Entry(PerfumeUpdated, q.business, Some(q.session), p))), Done)
    case OtherOperation => Refuse(Denied)
  }

  function OperatePlan(d: Desk, q: Request): Plan
    requires q.Operate?
  {
    if !SessionUsable(d, q.business, q.session, q.operator, q.now) then Refuse(Denied)
    else
      var plan := Perform(d, d.sessions[q.session].scope, q);
      if plan.reply.Done? && !StillValid(d, q.session, q.later) then Refuse(Denied) else plan
  }

  function Coalesce<T>(stored: Option<T>, given: T): Option<T> { if stored.Some? then stored else Some(given) }

  function EndPlan(d: Desk, q: Request): Plan
    requires q.EndSession?
  {
    if q.session !in d.sessions || d.sessions[q.session].business != q.business then Refuse(NotFound)
    else
      var s := d.sessions[q.session];
      var ended := s.(ended := Coalesce(s.ended, q.now), why := Coalesce(s.why, q.reason));
      Plan(NO_CHANGE.(session := Some((q.session, ended)),
                      audit := Audited(q.audit, Entry(SupportEnded, q.business, Some(q.session), q.session))), Done)
  }

  function RevokePlan(d: Desk, q: Request): Plan
    requires q.RevokeGrant?
  {
    if q.request !in d.grants || d.grants[q.request].business != q.business then Refuse(NotFound)
    else
      var g := d.grants[q.request];
      var revoked := g.(revoked := Coalesce(g.revoked, q.now), why := Coalesce(g.why, q.reason));
      Plan(NO_CHANGE.(grant := Some((q.request, revoked)),
                      audit := Audited(q.audit, Entry(RequestRevoked, q.business, None, q.request))), Done)
  }

  /** Checks made on the input alone; a failure opens no transaction. */
  predicate WellFormed(q: Request) {
    if q.Activate? || q.EndSession? || q.RevokeGrant? then ValidReason(q.reason)
    else q.Ask? ==> WellFormedAsk(q)
  }

  /** The first lock of a privileged transaction: its session family, or the owner and the business. */
  predicate MayEnter(d: Desk, q: Request) {
    if q.Activate? || q.Start? || q.Operate? then FamilyOpen(d, q.operator)
    else q.EndSession? || q.RevokeGrant? ==> Admitted(d, q.business, q.caller)
  }

  function TenantPlan(d: Desk, q: Request): Plan
    requires q.TenantUpdate?
  {
    if q.perfume !in d.perfumes || d.perfumes[q.perfume].deleted then Refuse(NotFound)
    else
      var p := d.perfumes[q.perfume];
      Plan(NO_CHANGE.(perfume := Some((q.perfume, Perfume(p.business, q.description, p.version + 1, q.deleted)))), Done)
  }

  /** What an admitted transaction does. */
  function InnerPlan(d: Desk, q: Request): Plan
    requires WellFormed(q)
  {
    match q
    case Activate(_, _, _, _, _, _) => ActivatePlan(d, q)
    case Ask(_, _, _, _, _, _, _, _, _, _) => AskPlan(d, q)
    case Start(_, _, _, _, _, _, _) => StartPlan(d, q)
    case Operate(_, _, _, _, _, _, _, _) => OperatePlan(d, q)
    case EndSession(_, _, _, _, _, _) => EndPlan(d, q)
    case RevokeGrant(_, _, _, _, _, _) => RevokePlan(d, q)
    case OperatorLogout(family) => Plan(NO_CHANGE.(family := Some(family)), Done)
    case SetAdmin(business, user, active) => Plan(NO_CHANGE.(admin := Some(((business, user), active))), Done)
    case TenantUpdate(_, _, _) => TenantPlan(d, q)
  }

  function PlanOf(d: Desk, q: Request): Plan {
    if !WellFormed(q) then Refuse(Invalid) else if !MayEnter(d, q) then Refuse(Denied) else InnerPlan(d, q)
  }

  // ------------------------------------------------------------------ committing

  function Put<K, V>(m: map<K, V>, row: Option<(K, V)>): map<K, V> {
    if row.Some? then m[row.value.0 := row.value.1] else m
  }

  function RevokeFamily(families: map<int, PlatformFamily>, family: Option<int>): map<int, PlatformFamily> {
    if family.Some? && family.value in families
    then families[family.value := families[family.value].(revoked := true)] else families
  }

  const DEACTIVATED := "Business deactivated"

  /** A deactivation revokes every unrevoked request of the business. */
  function Swept(g: Grant, at: int): Grant {
    if g.revoked.None? then g.(revoked := Some(at), why := Some(DEACTIVATED)) else g
  }

  function SweepGrants(grants: map<int, Grant>, sweep: Option<(int, int)>): map<int, Grant> {
    if sweep.None? then grants
    else
      var (business, at) := sweep.value;
      map r | r in grants :: if grants[r].business == business then Swept(grants[r], at) else grants[r]
  }

  function Apply(d: Desk, c: Change): Desk {
    Desk(Put(d.businesses, c.business), Put(d.admins, c.admin), RevokeFamily(d.families, c.family),
         Put(SweepGrants(d.grants, c.sweep), c.grant), Put(d.sessions, c.session), Put(d.perfumes, c.perfume),
         d.outlets,
         if c.audit.Some? then d.platformAudit + [c.audit.value] else d.platformAudit,
         if c.audit.Some? then d.businessAudit + [TenantRow(c.audit.value.id, c.audit.value.entry)]
         else d.businessAudit)
  }

  function After(d: Desk, q: Request): Desk { Apply(d, PlanOf(d, q).change) }

  ghost predicate Fresh(d: Desk, q: Request) {
    match q
    case Ask(_, _, _, _, _, _, _, _, id, _) => id !in d.grants
    case Start(_, _, _, _, _, id, _) => id !in d.sessions
    case _ => true
  }

  // ------------------------------------------------------------------ the invariant

  /** A session stands on a request of its business, copies its reason, scope and expiry, and lasts at most an hour. */
  ghost predicate SessionSound(d: Desk, s: int) {
    s in d.sessions ==>
      var x := d.sessions[s];
      && x.request in d.grants && WithinHour(x.started, x.expires)
      && var g := d.grants[x.request];
         x.business == g.business && x.reason == g.reason && x.scope == g.scope && x.expires == g.expires
  }

  ghost predicate OneSession(d: Desk, s: int, u: int) {
    s in d.sessions && u in d.sessions && s != u ==> d.sessions[s].request != d.sessions[u].request
  }

  /** A request lasts at most an hour, and an inactive business has no unrevoked one. */
  ghost predicate GrantSound(d: Desk, r: int) {
    r in d.grants ==>
      && WithinHour(d.grants[r].created, d.grants[r].expires)
      && (d.grants[r].revoked.None? ==> BusinessActive(d, d.grants[r].business))
  }

  /** Row for row, the tenant's stream repeats the platform's and links to it. */
  ghost predicate AuditPaired(d: Desk) {
    && |d.platformAudit| == |d.businessAudit|
    && forall k :: 0 <= k < |d.platformAudit| ==>
         d.businessAudit[k] == TenantRow(d.platformAudit[k].id, d.platformAudit[k].entry)
  }

  ghost predicate DeskOk(d: Desk) {
    && (forall s :: SessionSound(d, s)) && (forall s, u :: OneSession(d, s, u)) && (forall r :: GrantSound(d, r))
    && AuditPaired(d)
  }

  predicate SameGrant(g: Grant, h: Grant) {
    && g.business == h.business && g.user == h.user && g.reason == h.reason && g.scope == h.scope
    && g.created == h.created && g.expires == h.expires
  }

  predicate SameSession(s: Session, u: Session) {
    && s.business == u.business && s.request == u.request && s.admin == u.admin && s.family == u.family
    && s.reason == u.reason && s.scope == u.scope && s.started == u.started && s.expires == u.expires
  }

  /** Every row a committed request may write. */
  ghost predicate Allowed(d: Desk, c: Change) {
    && (c.session.Some? ==>
          var (id, s) := c.session.value;
          if id in d.sessions
          then SameSession(d.sessions[id], s) && (d.sessions[id].ended.Some? ==> s.ended == d.sessions[id].ended)
          else && !Started(d, s.request) && s.request in d.grants && WithinHour(s.started, s.expires)
               && var g := d.grants[s.request];
                  s.business == g.business && s.reason == g.reason && s.scope == g.scope && s.expires == g.expires)
    && (c.grant.Some? ==>
          var (id, g) := c.grant.value;
          if id in d.grants
          then && SameGrant(d.grants[id], g) && g.revoked.Some?
               && (d.grants[id].revoked.Some? ==> g.revoked == d.grants[id].revoked)
          else BusinessActive(d, g.business) && WithinHour(g.created, g.expires))
    && (c.sweep.Some? ==> c.grant.None?)
    && (c.business.Some? ==>
          c.grant.None? && (c.business.value.1 || (c.sweep.Some? && c.sweep.value.0 == c.business.value.0)))
    && (c.perfume.Some? ==>
          c.perfume.value.0 in d.perfumes && c.perfume.value.1.version == d.perfumes[c.perfume.value.0].version + 1)
    && (c.audit.None? ==> c.session.None? && c.grant.None? && c.business.None?)
  }

  lemma PlansAllowed(d: Desk, q: Request)
    requires Fresh(d, q)
    ensures Allowed(d, PlanOf(d, q).change)
  {}

  lemma ChangeKeepsSessions(d: Desk, c: Change)
    requires DeskOk(d) && Allowed(d, c)
    ensures forall s :: SessionSound(Apply(d, c), s)
    ensures forall s, u :: OneSession(Apply(d, c), s, u)
  {
    var e := Apply(d, c);
    forall s ensures SessionSound(e, s) {
      assert SessionSound(d, s);
    }
    forall s, u ensures OneSession(e, s, u) {
      assert OneSession(d, s, u);
    }
  }

  lemma ChangeKeepsDesk(d: Desk, c: Change)
    requires DeskOk(d) && Allowed(d, c)
    ensures DeskOk(Apply(d, c))
  {
    var e := Apply(d, c);
    ChangeKeepsSessions(d, c);
    forall r ensures GrantSound(e, r) {
      assert GrantSound(d, r);
    }
  }

  lemma RequestKeepsDesk(d: Desk, q: Request)
    requires DeskOk(d) && Fresh(d, q)
    ensures DeskOk(After(d, q))
  {
    PlansAllowed(d, q);
    ChangeKeepsDesk(d, PlanOf(d, q).change);
  }

  // ------------------------------------------------------------------ what a committed operation proves

  lemma RefusalChangesNothing(d: Desk, q: Request)
    ensures PlanOf(d, q).reply != Done ==> PlanOf(d, q).change == NO_CHANGE && After(d, q) == d
  {}

  /** Of the requests modelled, these write no support audit. */
  predicate Unaudited(q: Request) { q.OperatorLogout? || q.SetAdmin? || q.TenantUpdate? }

  lemma SuccessIsAudited(d: Desk, q: Request)
    requires PlanOf(d, q).reply == Done && !Unaudited(q)
    ensures PlanOf(d, q).change.audit.Some? && PlanOf(d, q).change.audit.value.id == q.audit
  {}

  /** Nothing is committed without success, and success adds exactly one row to each stream. */
  lemma EveryCommitIsAuditedTwice(d: Desk, q: Request)
    requires AuditPaired(d)
    ensures PlanOf(d, q).reply != Done ==> After(d, q) == d
    ensures PlanOf(d, q).reply == Done && !Unaudited(q) ==>
              && |After(d, q).platformAudit| == |d.platformAudit| + 1 && d.platformAudit <= After(d, q).platformAudit
              && |After(d, q).businessAudit| == |d.businessAudit| + 1 && d.businessAudit <= After(d, q).businessAudit
              && After(d, q).businessAudit[|d.businessAudit|].link == q.audit
              && After(d, q).platformAudit[|d.platformAudit|].id == q.audit
  {
    RefusalChangesNothing(d, q);
    if PlanOf(d, q).reply == Done && !Unaudited(q) {
      SuccessIsAudited(d, q);
    }
  }

  /** A committed operation was covered, up to its final check, by a live session on a live request it matches. */
  lemma OperationIsCovered(d: Desk, q: Request)
    requires DeskOk(d) && q.Operate? && PlanOf(d, q).reply.Done?
    ensures FamilyOpen(d, q.operator) && BusinessActive(d, q.business)
    ensures q.session in d.sessions
    ensures var s := d.sessions[q.session];
            && s.admin == q.operator.admin && s.family == q.operator.family && s.business == q.business
            && s.ended.None? && s.expires > q.now && s.expires > q.later
            && s.request in d.grants
            && var g := d.grants[s.request];
               && g.revoked.None? && g.expires > q.now && g.expires > q.later
               && g.business == s.business && g.scope == s.scope && g.expires == s.expires
               && AdminActive(d, q.business, g.user) && q.later < g.created + HOUR
    ensures After(d, q).perfumes != d.perfumes ==> d.sessions[q.session].scope.ReadWrite? && q.operation.Describe?
    ensures q.operation.Describe? ==>
              var p := q.operation.perfume;
              && PerfumeOf(d, q.business, p) && d.perfumes[p].version == q.operation.version
              && After(d, q).perfumes[p].version == q.operation.version + 1
  {
    assert SessionSound(d, q.session) && GrantSound(d, d.sessions[q.session].request);
  }

  // ------------------------------------------------------------------ what never comes back

  /** Stamps are written once: a grant or session once closed keeps its first time and reason. */
  ghost predicate Closes(d: Desk, e: Desk) {
    && (forall r :: r in d.grants ==>
        r in e.grants && (d.grants[r].revoked.Some? ==> e.grants[r].revoked == d.grants[r].revoked))
    && (forall s :: s in d.sessions ==> s in e.sessions && e.sessions[s].request == d.sessions[s].request
                                        && (d.sessions[s].ended.Some? ==> e.sessions[s].ended == d.sessions[s].ended))
    && (forall f :: f in d.families && d.families[f].revoked ==> f in e.families && e.families[f].revoked)
  }

  lemma StampsAreKept(d: Desk, c: Change)
    requires Allowed(d, c)
    ensures Closes(d, Apply(d, c))
  {}

  /** A session that is ended, on a revoked request, or whose operator has logged out. */
  ghost predicate SessionClosed(d: Desk, s: int) {
    && s in d.sessions
    && (|| d.sessions[s].ended.Some?
        || (d.sessions[s].request in d.grants && d.grants[d.sessions[s].request].revoked.Some?)
        || (d.sessions[s].family in d.families && d.families[d.sessions[s].family].revoked))
  }

  lemma ClosedDenies(d: Desk, q: Request)
    requires q.Operate? && SessionClosed(d, q.session)
    ensures PlanOf(d, q) == Refuse(Denied)
  {}

  lemma ClosedStaysClosed(d: Desk, q: Request, s: int)
    requires Fresh(d, q) && SessionClosed(d, s)
    ensures SessionClosed(After(d, q), s)
  {
    PlansAllowed(d, q);
    ClosedSurvives(d, PlanOf(d, q).change, s);
  }

  lemma ClosedSurvives(d: Desk, c: Change, s: int)
    requires Allowed(d, c) && SessionClosed(d, s)
    ensures SessionClosed(Apply(d, c), s)
  {
    StampsAreKept(d, c);
    assert d.sessions[s].family == Apply(d, c).sessions[s].family;
  }

  /** Versions only grow, so of all writes naming one version of a perfume at most one commits. */
  lemma VersionsGrow(d: Desk, q: Request, p: int)
    requires p in d.perfumes
    ensures p in After(d, q).perfumes && After(d, q).perfumes[p].version >= d.perfumes[p].version
    ensures After(d, q).perfumes[p] != d.perfumes[p] ==> After(d, q).perfumes[p].version == d.perfumes[p].version + 1
  {
    assert q.Operate? ==> OperatePlan(d, q).change.perfume.Some? ==>
             OperatePlan(d, q).change.perfume.value.1.version == d.perfumes[q.operation.perfume].version + 1;
  }

  // ------------------------------------------------------------------ whole runs

  function Serial(d: Desk, log: seq<Request>): Desk {
    if log == [] then d else After(Serial(d, log[..|log| - 1]), log[|log| - 1])
  }

  ghost predicate FreshLog(d: Desk, log: seq<Request>) {
    log == [] || (FreshLog(d, log[..|log| - 1]) && Fresh(Serial(d, log[..|log| - 1]), log[|log| - 1]))
  }

  lemma {:induction false} DeskAlways(d: Desk, log: seq<Request>)
    requires DeskOk(d) && FreshLog(d, log)
    ensures DeskOk(Serial(d, log))
  {
    if log != [] {
      DeskAlways(d, log[..|log| - 1]);
      RequestKeepsDesk(Serial(d, log[..|log| - 1]), log[|log| - 1]);
    }
  }

  /** After any run a closed session is still closed, and no operation under it commits. */
  lemma {:induction false} ClosedForever(d: Desk, log: seq<Request>, q: Request)
    requires FreshLog(d, log) && q.Operate? && SessionClosed(d, q.session)
    ensures SessionClosed(Serial(d, log), q.session) && PlanOf(Serial(d, log), q).reply != Done
  {
    if log != [] {
      ClosedForever(d, log[..|log| - 1], q);
      ClosedStaysClosed(Serial(d, log[..|log| - 1]), log[|log| - 1], q.session);
    }
    ClosedDenies(Serial(d, log), q);
  }

  lemma {:induction false} VersionsGrowInRuns(d: Desk, log: seq<Request>, p: int)
    requires p in d.perfumes
    ensures p in Serial(d, log).perfumes && Serial(d, log).perfumes[p].version >= d.perfumes[p].version
  {
    if log != [] {
      VersionsGrowInRuns(d, log[..|log| - 1], p);
      VersionsGrow(Serial(d, log[..|log| - 1]), log[|log| - 1], p);
    }
  }

  /** Once a write has committed against a version, every later write naming that version is refused. */
  lemma VersionIsSpentOnce(d: Desk, first: Request, log: seq<Request>, second: Request)
    requires first.Operate? && first.operation.Describe? && PlanOf(d, first).reply.Done?
    requires second.Operate? && second.operation.Describe?
    requires second.operation.perfume == first.operation.perfume && second.operation.version == first.operation.version
    ensures PlanOf(Serial(After(d, first), log), second).reply != Done
  {
    VersionsGrowInRuns(After(d, first), log, first.operation.perfume);
  }

  // ------------------------------------------------------------------ the service

  class SupportService {
    var businesses: map<int, bool>
    var admins: map<(int, int), bool>
    var families: map<int, PlatformFamily>
    var grants: map<int, Grant>
    var sessions: map<int, Session>
    var perfumes: map<int, Perfume>
    var outlets: map<int, int>
    var platformAudit: seq<PlatformRow>
    var businessAudit: seq<TenantRow>

    function Snapshot(): Desk
      reads this
    {
      Desk(businesses, admins, families, grants, sessions, perfumes, outlets, platformAudit, businessAudit)
    }

    ghost predicate Valid()
      reads this
    {
      DeskOk(Snapshot())
    }

    constructor (businesses: map<int, bool>, admins: map<(int, int), bool>, families: map<int, PlatformFamily>,
                 perfumes: map<int, Perfume>, outlets: map<int, int>)
      ensures Valid() && Snapshot() == Desk(businesses, admins, families, map[], map[], perfumes, outlets, [], [])
    {
      this.businesses, this.admins, this.families := businesses, admins, families;
      this.perfumes, this.outlets := perfumes, outlets;
      grants, sessions, platformAudit, businessAudit := map[], map[], [], [];
    }

    /** One row in each stream, the tenant's naming the platform's, written with the work they record. */
    method WriteAudit(id: int, e: Entry)
      modifies this`platformAudit, this`businessAudit
      ensures platformAudit == old(platformAudit) + [PlatformRow(id, e)]
      ensures businessAudit == old(businessAudit) + [TenantRow(id, e)]
    {
      platformAudit := platformAudit + [PlatformRow(id, e)];
      businessAudit := businessAudit + [TenantRow(id, e)];
    }

    method Activation(o: Operator, business: int, active: bool, reason: string, now: int, audit: int)
      returns (reply: Reply)
      requires Valid()
      modifies this
      ensures var q := Activate(o, business, active, reason, now, audit);
              Valid() && Snapshot() == After(old(Snapshot()), q) && reply == PlanOf(old(Snapshot()), q).reply
    {
      ghost var d, q := Snapshot(), Activate(o, business, active, reason, now, audit);
      RequestKeepsDesk(d, q);
      RefusalChangesNothing(d, q);
      if !ValidReason(reason) {
        return Invalid;
      }
      if !FamilyOpen(Snapshot(), o) {
        return Denied;
      }
      if business !in businesses {
        return NotFound;
      }
      businesses := businesses[business := active];
      if !active {
        RevokeBusinessSupport(business, now);
      }
      WriteAudit(audit, Entry(ActivationChanged, business, None, business));
      assert Snapshot() == After(d, q);
      return Done;
    }

    /** UPDATE platform_support_requests SET revoked_at=... WHERE business matches AND revoked_at IS NULL. */
    method RevokeBusinessSupport(business: int, now: int)
      modifies this`grants
      ensures grants == SweepGrants(old(grants), Some((business, now)))
    {
      grants := SweepGrants(grants, Some((business, now)));
    }

    method RequestSupport(business: int, user: int, reason: string, scope: Option<Scope>, expires: int, confirmed: bool,
                          now: int, created: int, id: int, audit: int) returns (reply: Reply)
      requires Valid() && id !in grants
      modifies this
      ensures var q := Ask(business, user, reason, scope, expires, confirmed, now, created, id, audit);
              Valid() && Snapshot() == After(old(Snapshot()), q) && reply == PlanOf(old(Snapshot()), q).reply
    {
      ghost var d, q := Snapshot(), Ask(business, user, reason, scope, expires, confirmed, now, created, id, audit);
      RequestKeepsDesk(d, q);
      RefusalChangesNothing(d, q);
      if !ValidReason(reason) || scope.None? || expires <= now || expires > now + HOUR {
        return Invalid;
      }
      if !AdminActive(Snapshot(), business, user) || !confirmed {
        return Denied;
      }
      if !WithinHour(created, expires) {
        return CheckFailed;
      }
      grants := grants[id := Grant(business, user, Text.Trim(reason), scope.value, created, expires, None, None)];
      WriteAudit(audit, Entry(SupportRequested, business, None, id));
      return Done;
    }

    method StartSupport(o: Operator, business: int, request: int, now: int, started: int, id: int, audit: int)
      returns (reply: Reply)
      requires Valid() && id !in sessions
      modifies this
      ensures var q := Start(o, business, request, now, started, id, audit);
              Valid() && Snapshot() == After(old(Snapshot()), q) && reply == PlanOf(old(Snapshot()), q).reply
    {
      ghost var d, q := Snapshot(), Start(o, business, request, now, started, id, audit);
      RequestKeepsDesk(d, q);
      RefusalChangesNothing(d, q);
      if !FamilyOpen(Snapshot(), o) || !GrantUsable(Snapshot(), business, request, now) {
        return Denied;
      }
      var g := grants[request];
      if !WithinHour(started, g.expires) {
        return CheckFailed;
      }
      if Started(Snapshot(), request) {
        return Conflict;
      }
      sessions := sessions[id := Session(business, request, o.admin, o.family, g.reason, g.scope,
                                         started, g.expires, None, None)];
      WriteAudit(audit, Entry(SupportStarted, business, Some(id), id));
      return Done;
    }

    method Rollback(saved: Desk)
      requires saved.businesses == businesses && saved.admins == admins && saved.families == families
      requires saved.grants == grants && saved.sessions == sessions && saved.outlets == outlets
      modifies this`perfumes, this`platformAudit, this`businessAudit
      ensures Snapshot() == saved
    {
      perfumes, platformAudit, businessAudit := saved.perfumes, saved.platformAudit, saved.businessAudit;
    }

    method DescribePerfume(q: Request) returns (reply: Reply)
      requires q.Operate? && q.operation.Describe? && q.session in sessions
      requires q.glimpse == Look(Snapshot(), q.business, q.operation)
      modifies this`perfumes, this`platformAudit, this`businessAudit
      ensures var plan := Perform(old(Snapshot()), sessions[q.session].scope, q);
              Snapshot() == Apply(old(Snapshot()), plan.change) && reply == plan.reply
    {
      var p, version := q.operation.perfume, q.operation.version;
      if !sessions[q.session].scope.ReadWrite? {
        return Denied;
      }
      if version < 1 || |q.operation.description| > 1000 {
        return Invalid;
      }
      if !PerfumeOf(Snapshot(), q.business, p) {
        return NotFound;
      }
      if perfumes[p].version != version {
        return Conflict;
      }
      var described := perfumes[p].(description := Text.Trim(q.operation.description), version := version + 1);
      perfumes := perfumes[p := described];
      WriteAudit(q.audit, Entry(PerfumeUpdated, q.business, Some(q.session), p));
      return Done;
    }

    method ReadRows(q: Request) returns (reply: Reply)
      requires q.Operate? && q.operation.Read? && q.glimpse == Look(Snapshot(), q.business, q.operation)
      modifies this`platformAudit, this`businessAudit
      ensures var plan := Perform(old(Snapshot()), ReadOnly, q);
              Snapshot() == Apply(old(Snapshot()), plan.change) && reply == plan.reply
    {
      var view, target := q.operation.view, q.operation.target;
      if view.PerfumeView? && !PerfumeOf(Snapshot(), q.business, target) {
        return NotFound;
      }
      if view.OutletsView? && target > 0 && !OutletOf(Snapshot(), q.business, target) {
        return NotFound;
      }
      WriteAudit(q.audit, ReadEntry(q.business, q.session, view, target));
      return Done;
    }

    /** The grant is checked once more after the work and the audit rows, and everything is undone if it lapsed. */
    method SupportOperation(o: Operator, business: int, session: int, operation: Operation, now: int, later: int,
                            audit: int)
      returns (reply: Reply)
      requires Valid()
      modifies this
      ensures var glimpse := Look(old(Snapshot()), business, operation);
              var q := Operate(o, business, session, operation, glimpse, now, later, audit);
              Valid() && Snapshot() == After(old(Snapshot()), q) && reply == PlanOf(old(Snapshot()), q).reply
    {
      var saved := Snapshot();
      var q := Operate(o, business, session, operation, Look(saved, business, operation), now, later, audit);
      RequestKeepsDesk(saved, q);
      RefusalChangesNothing(saved, q);
      if !FamilyOpen(saved, o) || !SessionUsable(saved, business, session, o, now) {
        return Denied;
      }
      match operation {
        case Read(_, _) => reply := ReadRows(q);
        case Describe(_, _, _) => reply := DescribePerfume(q);
        case OtherOperation => return Denied;
      }
      if reply.Done? && !StillValid(Snapshot(), session, later) {
        Rollback(saved);
        reply := Denied;
      }
    }

    method EndSupport(c: Caller, business: int, session: int, reason: string, now: int, audit: int)
      returns (reply: Reply)
      requires Valid()
      modifies this
      ensures var q := EndSession(c, business, session, reason, now, audit);
              Valid() && Snapshot() == After(old(Snapshot()), q) && reply == PlanOf(old(Snapshot()), q).reply
    {
      ghost var d, q := Snapshot(), EndSession(c, business, session, reason, now, audit);
      RequestKeepsDesk(d, q);
      RefusalChangesNothing(d, q);
      if !ValidReason(reason) {
        return Invalid;
      }
      if !Admitted(Snapshot(), business, c) {
        return Denied;
      }
      if session !in sessions || sessions[session].business != business {
        return NotFound;
      }
      var s := sessions[session];
      sessions := sessions[session := s.(ended := Coalesce(s.ended, now), why := Coalesce(s.why, reason))];
      WriteAudit(audit, Entry(SupportEnded, business, Some(session), session));
      return Done;
    }

    method RevokeRequest(c: Caller, business: int, request: int, reason: string, now: int, audit: int)
      returns (reply: Reply)
      requires Valid()
      modifies this
      ensures var q := RevokeGrant(c, business, request, reason, now, audit);
              Valid() && Snapshot() == After(old(Snapshot()), q) && reply == PlanOf(old(Snapshot()), q).reply
    {
      ghost var d, q := Snapshot(), RevokeGrant(c, business, request, reason, now, audit);
      RequestKeepsDesk(d, q);
      RefusalChangesNothing(d, q);
      if !ValidReason(reason) {
        return Invalid;
      }
      if !Admitted(Snapshot(), business, c) {
        return Denied;
      }
      if request !in grants || grants[request].business != business {
        return NotFound;
      }
      var g := grants[request];
      grants := grants[request := g.(revoked := Coalesce(g.revoked, now), why := Coalesce(g.why, reason))];
      WriteAudit(audit, Entry(RequestRevoked, business, None, request));
      return Done;
    }
  }
}
