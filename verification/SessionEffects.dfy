/**
 What a refresh, a logout, a login and a deactivation do to the session tables and answer, said of
 rows alone; every request has exactly one such effect, and the session it names is the live one.
 */
module SessionEffects {
  import opened Outcome
  import opened Sessions

  /** The token is stored, and its family is its owner's and not revoked. */
  ghost predicate Presents(r: Registry, secret: Secret) {
    && secret in r.tokens && r.tokens[secret].family in r.families
    && var t, f := r.tokens[secret], r.families[r.tokens[secret].family];
       f.business == t.business && f.user == t.user && !f.revoked
  }

  /** The token under the drawn secret: with the drawn id and expiry, unconsumed, of this family and owner. */
  ghost predicate Mints(r: Registry, u: Registry, d: Drawn, family: int, business: int, user: int) {
    && u.tokens.Keys == r.tokens.Keys + {d.secret}
    && u.tokens[d.secret] == Token(id := d.id, business := business, user := user, family := family,
                                   expires := d.expires, consumed := false)
  }

  /** One family is revoked, one audit row says why, and no token changes. */
  ghost predicate RevokesOne(r: Registry, u: Registry, family: int, e: Event) {
    && family in r.families && u.tokens == r.tokens && u.audit == r.audit + [AuditEntry(e, family)]
    && u.families == r.families[family := r.families[family].(revoked := true)]
  }

  ghost predicate Rotates(r: Registry, q: Request, u: Registry)
    requires q.Refresh?
  {
    && Presents(r, q.secret) && !r.tokens[q.secret].consumed && q.now < r.tokens[q.secret].expires && q.active
    && var t := r.tokens[q.secret];
       && Mints(r, u, q.drawn, t.family, t.business, t.user)
       && u.families == r.families && u.audit == r.audit + [AuditEntry(SessionRefreshed, t.family)]
       && forall s :: s in r.tokens ==> u.tokens[s] == if s == q.secret then t.(consumed := true) else r.tokens[s]
  }

  ghost predicate RefreshEffect(r: Registry, q: Request, u: Registry, reply: Reply)
    requires q.Refresh?
  {
    match reply
    case Refreshed(session) => Rotates(r, q, u) && session == q.drawn.id
    case Unauthorized =>
      if !Presents(r, q.secret) then u == r
      else if r.tokens[q.secret].consumed then RevokesOne(r, u, r.tokens[q.secret].family, ReplayDetected)
      else u == r && (q.now >= r.tokens[q.secret].expires || !q.active)
    case _ => false
  }

  /** The presented token is the bearer's own, and so is a session of its family. */
  ghost predicate OwnFamily(r: Registry, p: Principal, secret: Secret) {
    && Presents(r, secret) && r.tokens[secret].business == p.business && r.tokens[secret].user == p.user
    && exists s :: s in r.tokens && r.tokens[s].id == p.session && r.tokens[s].family == r.tokens[secret].family
                   && r.tokens[s].business == p.business && r.tokens[s].user == p.user
  }

  ghost predicate LogoutEffect(r: Registry, q: Request, u: Registry, reply: Reply)
    requires q.Logout?
  {
    match reply
    case LoggedOut =>
      OwnFamily(r, q.principal, q.secret) && RevokesOne(r, u, r.tokens[q.secret].family, SessionRevoked)
    case Unauthorized => u == r && !OwnFamily(r, q.principal, q.secret)
    case _ => false
  }

  ghost predicate IssueEffect(r: Registry, q: Request, u: Registry, reply: Reply)
    requires q.Issue?
  {
    && reply == Issued(q.drawn.id) && Mints(r, u, q.drawn, q.family, q.business, q.user)
    && u.families == r.families[q.family := Family(q.business, q.user, false)]
    && u.audit == r.audit + [AuditEntry(SessionCreated, q.family)]
    && forall s :: s in r.tokens ==> u.tokens[s] == r.tokens[s]
  }

  /** Of the families its statement saw, those of the business are revoked. */
  ghost predicate DeactivationEffect(r: Registry, q: Request, u: Registry, reply: Reply)
    requires q.Deactivate?
  {
    && reply == Deactivated && u.tokens == r.tokens && u.audit == r.audit && u.families.Keys == r.families.Keys
    && forall f :: f in r.families ==>
         u.families[f] == if f in q.targets && r.families[f].business == q.business
                          then r.families[f].(revoked := true) else r.families[f]
  }

  ghost predicate Effect(r: Registry, q: Request, u: Registry, reply: Reply) {
    match q
    case Refresh(_, _, _, _) => RefreshEffect(r, q, u, reply)
    case Logout(_, _) => LogoutEffect(r, q, u, reply)
    case Issue(_, _, _, _) => IssueEffect(r, q, u, reply)
    case Deactivate(_, _) => DeactivationEffect(r, q, u, reply)
  }

  lemma RefreshHasItsEffect(r: Registry, q: Request)
    requires RegistryOk(r) && Fresh(r, q) && q.Refresh?
    ensures RefreshEffect(r, q, After(r, q), PlanOf(r, q).reply)
  {
    NothingRevoked(r.families);
  }

  lemma LogoutHasItsEffect(r: Registry, q: Request)
    requires q.Logout?
    ensures LogoutEffect(r, q, After(r, q), PlanOf(r, q).reply)
  {
    NothingRevoked(r.families);
    if q.secret in r.tokens && BearerIn(r, q.principal, r.tokens[q.secret].family) {
      var s :| s in r.tokens && r.tokens[s].id == q.principal.session && r.tokens[s].business == q.principal.business
               && r.tokens[s].user == q.principal.user && r.tokens[s].family == r.tokens[q.secret].family;
    }
  }

  lemma EveryRequestHasItsEffect(r: Registry, q: Request)
    requires RegistryOk(r) && Fresh(r, q)
    ensures Effect(r, q, After(r, q), PlanOf(r, q).reply)
  {
    match q
    case Refresh(_, _, _, _) => RefreshHasItsEffect(r, q);
    case Logout(_, _) => LogoutHasItsEffect(r, q);
    case Issue(_, _, family, _) => NothingRevoked(After(r, q).families);
    case Deactivate(_, _) =>
  }

  lemma EffectIsUnique(r: Registry, q: Request, u: Registry, a: Reply, v: Registry, b: Reply)
    requires Fresh(r, q) && Effect(r, q, u, a) && Effect(r, q, v, b)
    ensures u == v && a == b
  {
    assert u.tokens == v.tokens;
    if q.Deactivate? {
      forall f | f in r.families ensures u.families[f] == v.families[f] {}
      assert u.families == v.families;
    }
  }

  /** In a sound registry a request does and answers something exactly when that is its effect. */
  lemma EffectExactly(r: Registry, q: Request, u: Registry, reply: Reply)
    requires RegistryOk(r) && Fresh(r, q)
    ensures Effect(r, q, u, reply) <==> u == After(r, q) && reply == PlanOf(r, q).reply
  {
    EveryRequestHasItsEffect(r, q);
    if Effect(r, q, u, reply) {
      EffectIsUnique(r, q, u, reply, After(r, q), PlanOf(r, q).reply);
    }
  }

  /** The bearer check wants a token neither consumed nor expired; the check on logout lets a consumed one pass. */
  lemma BearerChecksExactly(r: Registry, secret: Secret, now: int)
    ensures MayLogOut(r, secret, now) <==> Presents(r, secret) && now < r.tokens[secret].expires
    ensures Authenticates(r, secret, now) <==> MayLogOut(r, secret, now) && !r.tokens[secret].consumed
  {}

  ghost predicate SameFamily(r: Registry, a: Secret, b: Secret) {
    a in r.tokens && b in r.tokens && r.tokens[a].family == r.tokens[b].family
  }

  /**
   The session a refresh or login answers with is stored under the drawn secret, authenticates until the
   drawn expiry and no longer, and is the only one of its family that ever authenticates.
   */
  lemma AnsweredSessionIsTheLiveOne(r: Registry, q: Request, s: Secret, now: int)
    requires RegistryOk(r) && Fresh(r, q) && (PlanOf(r, q).reply.Refreshed? || PlanOf(r, q).reply.Issued?)
    ensures (q.Refresh? || q.Issue?) && q.drawn.secret in After(r, q).tokens
    ensures After(r, q).tokens[q.drawn.secret].id == PlanOf(r, q).reply.session
    ensures Authenticates(After(r, q), q.drawn.secret, now) <==> now < q.drawn.expires
    ensures SameFamily(After(r, q), s, q.drawn.secret) && Authenticates(After(r, q), s, now) ==> s == q.drawn.secret
  {
    var u := After(r, q);
    EveryRequestHasItsEffect(r, q);
    RequestKeepsRegistry(r, q);
    if SameFamily(u, s, q.drawn.secret) && Authenticates(u, s, now) {
      OneActiveSession(u, s, q.drawn.secret, now, q.drawn.expires - 1);
    }
  }
}
