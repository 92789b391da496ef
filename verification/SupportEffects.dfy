/**
 What each support request does and answers, said of rows alone: who is admitted, which error everyone
 else gets, and every column that is written. A request has exactly one such effect.
 */
module SupportEffects {
  import opened Outcome
  import opened Support
  import Text

  // ------------------------------------------------------------------ who is admitted

  ghost predicate ReasonGiven(reason: string) { Text.Trim(reason) != "" && |reason| <= 500 }

  ghost predicate ActiveOwner(d: Desk, business: int, user: int) {
    && business in d.businesses && d.businesses[business]
    && (business, user) in d.admins && d.admins[(business, user)]
  }

  ghost predicate SignedIn(d: Desk, o: Operator) {
    o.family in d.families && d.families[o.family].admin == o.admin && !d.families[o.family].revoked
  }

  ghost predicate Heard(d: Desk, business: int, c: Caller) {
    match c
    case Platform(o) => SignedIn(d, o)
    case Owner(user) => ActiveOwner(d, business, user)
  }

  /** An unrevoked, unexpired request of the business, asked for by a still active owner. */
  ghost predicate LiveGrant(d: Desk, business: int, r: int, now: int) {
    && r in d.grants && d.grants[r].business == business && d.grants[r].revoked.None? && now < d.grants[r].expires
    && ActiveOwner(d, business, d.grants[r].user)
  }

  /** The operator's own session on such a request, neither ended nor expired. */
  ghost predicate LiveSession(d: Desk, o: Operator, business: int, s: int, now: int) {
    && s in d.sessions && d.sessions[s].business == business
    && d.sessions[s].admin == o.admin && d.sessions[s].family == o.family
    && d.sessions[s].ended.None? && now < d.sessions[s].expires && LiveGrant(d, business, d.sessions[s].request, now)
  }

  ghost predicate AtMostAnHour(begun: int, expires: int) { begun < expires && expires - begun <= 3600 }

  /** The same row in both audit streams, the tenant's linked to the platform's. */
  ghost predicate Audits(d: Desk, e: Desk, id: int, action: Action, business: int, session: Option<int>, target: int) {
    && e.platformAudit == d.platformAudit + [PlatformRow(id, Entry(action, business, session, target))]
    && e.businessAudit == d.businessAudit + [TenantRow(id, Entry(action, business, session, target))]
  }

  /** Nothing but the audit streams and what is named differs. */
  ghost predicate OnlyGrants(d: Desk, e: Desk) {
    && e.businesses == d.businesses && e.admins == d.admins && e.families == d.families
    && e.sessions == d.sessions && e.perfumes == d.perfumes && e.outlets == d.outlets
  }

  ghost predicate OnlySessions(d: Desk, e: Desk) {
    && e.businesses == d.businesses && e.admins == d.admins && e.families == d.families
    && e.grants == d.grants && e.perfumes == d.perfumes && e.outlets == d.outlets
  }

  ghost predicate OnlyPerfumes(d: Desk, e: Desk) {
    && e.businesses == d.businesses && e.admins == d.admins && e.families == d.families
    && e.grants == d.grants && e.sessions == d.sessions && e.outlets == d.outlets
  }

  // ------------------------------------------------------------------ activation

  /** Every request of the business that was open is revoked now, with the fixed reason; no other changes. */
  ghost predicate Sweeps(d: Desk, e: Desk, business: int, now: int) {
    && e.grants.Keys == d.grants.Keys
    && forall r :: r in d.grants ==>
         e.grants[r] == if d.grants[r].business == business && d.grants[r].revoked.None?
                        then d.grants[r].(revoked := Some(now), why := Some("Business deactivated")) else d.grants[r]
  }

  ghost predicate ActivateEffect(d: Desk, q: Request, e: Desk, reply: Reply)
    requires q.Activate?
  {
    match reply
    case Invalid => e == d && !ReasonGiven(q.reason)
    case Denied => e == d && ReasonGiven(q.reason) && !SignedIn(d, q.operator)
    case NotFound => e == d && ReasonGiven(q.reason) && SignedIn(d, q.operator) && q.business !in d.businesses
    case Done =>
      && ReasonGiven(q.reason) && SignedIn(d, q.operator) && q.business in d.businesses
      && e.businesses == d.businesses[q.business := q.active]
      && (if q.active then e.grants == d.grants else Sweeps(d, e, q.business, q.now))
      && e.admins == d.admins && e.families == d.families && e.sessions == d.sessions
      && e.perfumes == d.perfumes && e.outlets == d.outlets
      && Audits(d, e, q.audit, ActivationChanged, q.business, None, q.business)
    case _ => false
  }

  // ------------------------------------------------------------------ asking and starting

  ghost predicate ProperAsk(q: Request)
    requires q.Ask?
  {
    ReasonGiven(q.reason) && q.scope.Some? && AtMostAnHour(q.now, q.expires)
  }

  ghost predicate MayAsk(d: Desk, q: Request)
    requires q.Ask?
  {
    ProperAsk(q) && ActiveOwner(d, q.business, q.user) && q.confirmed
  }

  ghost predicate AskEffect(d: Desk, q: Request, e: Desk, reply: Reply)
    requires q.Ask?
  {
    match reply
    case Invalid => e == d && !ProperAsk(q)
    case Denied => e == d && ProperAsk(q) && !MayAsk(d, q)
    case CheckFailed => e == d && MayAsk(d, q) && !AtMostAnHour(q.created, q.expires)
    case Done =>
      && MayAsk(d, q) && AtMostAnHour(q.created, q.expires) && OnlyGrants(d, e)
      && e.grants == d.grants[q.id := Grant(
           business := q.business, user := q.user, reason := Text.Trim(q.reason), scope := q.scope.value,
           created := q.created, expires := q.expires, revoked := None, why := None)]
      && Audits(d, e, q.audit, SupportRequested, q.business, None, q.id)
    case _ => false
  }

  ghost predicate MayStart(d: Desk, q: Request)
    requires q.Start?
  {
    SignedIn(d, q.operator) && LiveGrant(d, q.business, q.request, q.now)
  }

  ghost predicate Unstarted(d: Desk, r: int) { forall s :: s in d.sessions ==> d.sessions[s].request != r }

  ghost predicate StartEffect(d: Desk, q: Request, e: Desk, reply: Reply)
    requires q.Start?
  {
    match reply
    case Denied => e == d && !MayStart(d, q)
    case CheckFailed => e == d && MayStart(d, q) && !AtMostAnHour(q.started, d.grants[q.request].expires)
    case Conflict =>
      e == d && MayStart(d, q) && AtMostAnHour(q.started, d.grants[q.request].expires) && !Unstarted(d, q.request)
    case Done =>
      && MayStart(d, q) && AtMostAnHour(q.started, d.grants[q.request].expires) && Unstarted(d, q.request)
      && var g := d.grants[q.request];
         && OnlySessions(d, e)
         && e.sessions == d.sessions[q.id := Session(
              business := q.business, request := q.request, admin := q.operator.admin, family := q.operator.family,
              reason := g.reason, scope := g.scope, started := q.started, expires := g.expires,
              ended := None, why := None)]
         && Audits(d, e, q.audit, SupportStarted, q.business, Some(q.id), q.id)
    case _ => false
  }

  // ------------------------------------------------------------------ operating

  ghost predicate MayOperate(d: Desk, q: Request)
    requires q.Operate?
  {
    SignedIn(d, q.operator) && LiveSession(d, q.operator, q.business, q.session, q.now)
  }

  /** Neither session nor request has expired by the last check. */
  ghost predicate Lasts(d: Desk, q: Request)
    requires q.Operate? && MayOperate(d, q)
  {
    && q.later < d.sessions[q.session].expires
    && q.later < d.grants[d.sessions[q.session].request].expires
  }

  ghost predicate ReadEffect(d: Desk, q: Request, e: Desk, reply: Reply)
    requires q.Operate? && q.operation.Read? && MayOperate(d, q)
  {
    var view, target := q.operation.view, q.operation.target;
    var missing := (view == PerfumeView || (view == OutletsView && target > 0)) && !q.glimpse.found;
    match reply
    case NotFound => e == d && missing
    case Denied => e == d && !missing && !Lasts(d, q)
    case Done =>
      && !missing && Lasts(d, q) && OnlyPerfumes(d, e) && e.perfumes == d.perfumes
      && var (action, named) :=
           match view
           case DiagnosticsView => (DiagnosticsRead, if target == 0 then q.business else target)
           case OutletsView => (OutletsRead, target)
           case PerfumesView => (PerfumesRead, target)
           case PerfumeView => (PerfumeRead, target);
         Audits(d, e, q.audit, action, q.business, Some(q.session), named)
    case _ => false
  }

  /** The perfume of the business, not deleted, in the version named. */
  ghost predicate InVersion(d: Desk, business: int, p: int, version: int) {
    && p in d.perfumes && d.perfumes[p].business == business && !d.perfumes[p].deleted
    && d.perfumes[p].version == version
  }

  ghost predicate ProperWrite(d: Desk, q: Request)
    requires q.Operate? && q.operation.Describe? && MayOperate(d, q)
  {
    d.sessions[q.session].scope == ReadWrite && q.operation.version >= 1 && |q.operation.description| <= 1000
  }

  ghost predicate WriteEffect(d: Desk, q: Request, e: Desk, reply: Reply)
    requires q.Operate? && q.operation.Describe? && MayOperate(d, q)
  {
    var p, version := q.operation.perfume, q.operation.version;
    var matches := q.glimpse.version == Some(version) && InVersion(d, q.business, p, version);
    match reply
    case Denied =>
      e == d && (d.sessions[q.session].scope == ReadOnly || (ProperWrite(d, q) && matches && !Lasts(d, q)))
    case Invalid => e == d && d.sessions[q.session].scope == ReadWrite && !ProperWrite(d, q)
    case NotFound => e == d && ProperWrite(d, q) && q.glimpse.version == None
    case Conflict => e == d && ProperWrite(d, q) && q.glimpse.version != None && !matches
    case Done =>
      && ProperWrite(d, q) && matches && Lasts(d, q) && OnlyPerfumes(d, e)
      && e.perfumes == d.perfumes[p := d.perfumes[p].(description := Text.Trim(q.operation.description),
                                                      version := version + 1)]
      && Audits(d, e, q.audit, PerfumeUpdated, q.business, Some(q.session), p)
    case _ => false
  }

  /** What the plain select of an operation finds: the row named, in this business only, and not deleted. */
  ghost predicate Sees(d: Desk, business: int, operation: Operation, g: Glimpse) {
    match operation
    case Read(view, target) =>
      && g.version == None
      && (g.found <==> if view == PerfumeView then exists v :: InVersion(d, business, target, v)
                       else target in d.outlets && d.outlets[target] == business)
    case Describe(p, _, _) =>
      && (g.found <==> g.version != None)
      && forall v :: g.version == Some(v) <==> InVersion(d, business, p, v)
    case OtherOperation => g == Glimpse(false, None)
  }

  lemma LookExactly(d: Desk, business: int, operation: Operation, g: Glimpse)
    ensures Sees(d, business, operation, g) <==> g == Look(d, business, operation)
  {
    match operation {
      case Read(view, target) =>
        assert PerfumeOf(d, business, target) ==> InVersion(d, business, target, d.perfumes[target].version);
      case Describe(p, _, _) =>
        assert PerfumeOf(d, business, p) ==> InVersion(d, business, p, d.perfumes[p].version);
        assert g.version.Some? && Sees(d, business, operation, g) ==> InVersion(d, business, p, g.version.value);
      case OtherOperation =>
    }
  }

  ghost predicate OperateEffect(d: Desk, q: Request, e: Desk, reply: Reply)
    requires q.Operate?
  {
    if !MayOperate(d, q) || q.operation.OtherOperation? then e == d && reply == Denied
    else if q.operation.Read? then ReadEffect(d, q, e, reply) else WriteEffect(d, q, e, reply)
  }

  // ------------------------------------------------------------------ closing

  function Kept<T>(stored: Option<T>, given: T): Option<T> { if stored == None then Some(given) else stored }

  ghost predicate EndEffect(d: Desk, q: Request, e: Desk, reply: Reply)
    requires q.EndSession?
  {
    match reply
    case Invalid => e == d && !ReasonGiven(q.reason)
    case Denied => e == d && ReasonGiven(q.reason) && !Heard(d, q.business, q.caller)
    case NotFound =>
      && e == d && ReasonGiven(q.reason) && Heard(d, q.business, q.caller)
      && (q.session in d.sessions ==> d.sessions[q.session].business != q.business)
    case Done =>
      && ReasonGiven(q.reason) && Heard(d, q.business, q.caller)
      && q.session in d.sessions && d.sessions[q.session].business == q.business && OnlySessions(d, e)
      && Audits(d, e, q.audit, SupportEnded, q.business, Some(q.session), q.session)
      && var s := d.sessions[q.session];
         e.sessions == d.sessions[q.session := s.(ended := Kept(s.ended, q.now), why := Kept(s.why, q.reason))]
    case _ => false
  }

  ghost predicate RevokeEffect(d: Desk, q: Request, e: Desk, reply: Reply)
    requires q.RevokeGrant?
  {
    match reply
    case Invalid => e == d && !ReasonGiven(q.reason)
    case Denied => e == d && ReasonGiven(q.reason) && !Heard(d, q.business, q.caller)
    case NotFound =>
      && e == d && ReasonGiven(q.reason) && Heard(d, q.business, q.caller)
      && (q.request in d.grants ==> d.grants[q.request].business != q.business)
    case Done =>
      && ReasonGiven(q.reason) && Heard(d, q.business, q.caller)
      && q.request in d.grants && d.grants[q.request].business == q.business && OnlyGrants(d, e)
      && Audits(d, e, q.audit, RequestRevoked, q.business, None, q.request)
      && var g := d.grants[q.request];
         e.grants == d.grants[q.request := g.(revoked := Kept(g.revoked, q.now), why := Kept(g.why, q.reason))]
    case _ => false
  }

  /** Requests of other services that support work races with: they write one row and no support audit. */
  ghost predicate NeighbourEffect(d: Desk, q: Request, e: Desk, reply: Reply)
    requires Unaudited(q)
  {
    match q
    case OperatorLogout(f) =>
      && reply == Done
      && e == d.(families := if f in d.families then d.families[f := d.families[f].(revoked := true)] else d.families)
    case SetAdmin(business, user, active) => reply == Done && e == d.(admins := d.admins[(business, user) := active])
    case TenantUpdate(p, description, deleted) =>
      if p in d.perfumes && !d.perfumes[p].deleted
      then && reply == Done
           && e == d.(perfumes := d.perfumes[p := d.perfumes[p].(
                description := description, version := d.perfumes[p].version + 1, deleted := deleted)])
      else reply == NotFound && e == d
  }

  ghost predicate Effect(d: Desk, q: Request, e: Desk, reply: Reply) {
    if q.Activate? then ActivateEffect(d, q, e, reply)
    else if q.Ask? then AskEffect(d, q, e, reply)
    else if q.Start? then StartEffect(d, q, e, reply)
    else if q.Operate? then OperateEffect(d, q, e, reply)
    else if q.EndSession? then EndEffect(d, q, e, reply)
    else if q.RevokeGrant? then RevokeEffect(d, q, e, reply)
    else NeighbourEffect(d, q, e, reply)
  }

  // ------------------------------------------------------------------ every request has exactly its effect

  lemma ActivateHasItsEffect(d: Desk, q: Request)
    requires q.Activate?
    ensures ActivateEffect(d, q, After(d, q), PlanOf(d, q).reply)
  {
    RefusalChangesNothing(d, q);
  }

  lemma AskHasItsEffect(d: Desk, q: Request)
    requires q.Ask?
    ensures AskEffect(d, q, After(d, q), PlanOf(d, q).reply)
  {
    RefusalChangesNothing(d, q);
  }

  lemma StartHasItsEffect(d: Desk, q: Request)
    requires q.Start?
    ensures StartEffect(d, q, After(d, q), PlanOf(d, q).reply)
  {
    RefusalChangesNothing(d, q);
  }

  lemma MayOperateExactly(d: Desk, q: Request)
    requires q.Operate?
    ensures MayOperate(d, q) <==>
              FamilyOpen(d, q.operator) && SessionUsable(d, q.business, q.session, q.operator, q.now)
    ensures MayOperate(d, q) ==> (Lasts(d, q) <==> StillValid(d, q.session, q.later))
  {}

  lemma ReadHasItsEffect(d: Desk, q: Request)
    requires q.Operate? && q.operation.Read? && MayOperate(d, q)
    ensures ReadEffect(d, q, After(d, q), PlanOf(d, q).reply)
  {
    MayOperateExactly(d, q);
    RefusalChangesNothing(d, q);
  }

  lemma WriteHasItsEffect(d: Desk, q: Request)
    requires q.Operate? && q.operation.Describe? && MayOperate(d, q)
    ensures WriteEffect(d, q, After(d, q), PlanOf(d, q).reply)
  {
    MayOperateExactly(d, q);
    RefusalChangesNothing(d, q);
  }

  lemma OperateHasItsEffect(d: Desk, q: Request)
    requires q.Operate?
    ensures OperateEffect(d, q, After(d, q), PlanOf(d, q).reply)
  {
    MayOperateExactly(d, q);
    RefusalChangesNothing(d, q);
    if MayOperate(d, q) {
      match q.operation
      case Read(_, _) => ReadHasItsEffect(d, q);
      case Describe(_, _, _) => WriteHasItsEffect(d, q);
      case OtherOperation =>
    }
  }

  lemma EndHasItsEffect(d: Desk, q: Request)
    requires q.EndSession?
    ensures EndEffect(d, q, After(d, q), PlanOf(d, q).reply)
  {
    RefusalChangesNothing(d, q);
  }

  lemma RevokeHasItsEffect(d: Desk, q: Request)
    requires q.RevokeGrant?
    ensures RevokeEffect(d, q, After(d, q), PlanOf(d, q).reply)
  {
    RefusalChangesNothing(d, q);
  }

  lemma NeighbourHasItsEffect(d: Desk, q: Request)
    requires Unaudited(q)
    ensures NeighbourEffect(d, q, After(d, q), PlanOf(d, q).reply)
  {
    RefusalChangesNothing(d, q);
  }

  lemma EveryRequestHasItsEffect(d: Desk, q: Request)
    ensures Effect(d, q, After(d, q), PlanOf(d, q).reply)
  {
    match q
    case Activate(_, _, _, _, _, _) => ActivateHasItsEffect(d, q);
    case Ask(_, _, _, _, _, _, _, _, _, _) => AskHasItsEffect(d, q);
    case Start(_, _, _, _, _, _, _) => StartHasItsEffect(d, q);
    case Operate(_, _, _, _, _, _, _, _) => OperateHasItsEffect(d, q);
    case EndSession(_, _, _, _, _, _) => EndHasItsEffect(d, q);
    case RevokeGrant(_, _, _, _, _, _) => RevokeHasItsEffect(d, q);
    case _ => NeighbourHasItsEffect(d, q);
  }

  lemma SweepIsUnique(d: Desk, e: Desk, f: Desk, business: int, now: int)
    requires Sweeps(d, e, business, now) && Sweeps(d, f, business, now)
    ensures e.grants == f.grants
  {
    forall r | r in d.grants ensures e.grants[r] == f.grants[r] {}
  }

  lemma EffectIsUnique(d: Desk, q: Request, e: Desk, a: Reply, f: Desk, b: Reply)
    requires Effect(d, q, e, a) && Effect(d, q, f, b)
    ensures e == f && a == b
  {
    if q.Activate? && !q.active && a.Done? && b.Done? {
      SweepIsUnique(d, e, f, q.business, q.now);
    }
  }

  /** A request does and answers something exactly when that is its effect. */
  lemma EffectExactly(d: Desk, q: Request, e: Desk, reply: Reply)
    ensures Effect(d, q, e, reply) <==> e == After(d, q) && reply == PlanOf(d, q).reply
  {
    EveryRequestHasItsEffect(d, q);
    if Effect(d, q, e, reply) {
      EffectIsUnique(d, q, e, reply, After(d, q), PlanOf(d, q).reply);
    }
  }

  // ------------------------------------------------------------------ requests that close sessions

  /** Answered Done, the request closes the session: ends it, revokes what it stands on, or signs its operator out. */
  ghost predicate ClosesSession(d: Desk, q: Request, s: int) {
    && s in d.sessions
    && match q
       case EndSession(_, _, session, _, _, _) => session == s
       case RevokeGrant(_, _, request, _, _, _) => d.sessions[s].request == request
       case OperatorLogout(family) => d.sessions[s].family == family && family in d.families
       case Activate(_, business, active, _, _, _) => d.sessions[s].business == business && !active
       case _ => false
  }

  /** Such an answer leaves the session closed, so that no operation under it is admitted, whatever it is. */
  lemma ClosingAnswerCloses(d: Desk, q: Request, s: int, operation: Request)
    requires DeskOk(d) && PlanOf(d, q).reply.Done? && ClosesSession(d, q, s)
    ensures SessionClosed(After(d, q), s)
    ensures operation.Operate? && operation.session == s ==> PlanOf(After(d, q), operation) == Refuse(Denied)
  {
    assert SessionSound(d, s) && GrantSound(d, d.sessions[s].request);
    EveryRequestHasItsEffect(d, q);
    if operation.Operate? && operation.session == s {
      ClosedDenies(After(d, q), operation);
    }
  }
}
