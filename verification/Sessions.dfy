/**
 Refresh-token families: a login opens a family with one token, each refresh consumes the presented
 token and mints the next, presenting a consumed token revokes the whole family, and so does logout.
 */
module Sessions {
  import opened Outcome
  import opened Sets

  type Secret = string

  datatype Family = Family(business: int, user: int, revoked: bool)

  datatype Token = Token(id: int, business: int, user: int, family: int, expires: int, consumed: bool)

  datatype Event = SessionCreated | SessionRefreshed | ReplayDetected | SessionRevoked

  datatype AuditEntry = AuditEntry(event: Event, family: int)

  /** Tokens are stored under the hash of their secret; hashes are unique and stand for their secrets. */
  datatype Registry = Registry(families: map<int, Family>, tokens: map<Secret, Token>, audit: seq<AuditEntry>)

  datatype Principal = Principal(session: int, business: int, user: int)

  /** A new secret, the id its row receives and the moment it expires. */
  datatype Drawn = Drawn(secret: Secret, id: int, expires: int)

  /** Clock readings, whether the user and business are active, and fresh secrets come from outside. */
  datatype Request =
    | Refresh(secret: Secret, now: int, active: bool, drawn: Drawn)
    | Logout(principal: Principal, secret: Secret)
    | Issue(business: int, user: int, family: int, drawn: Drawn)
    | Deactivate(business: int, targets: set<int>)

  datatype Reply = Unauthorized | Refreshed(session: int) | LoggedOut | Issued(session: int) | Deactivated

  datatype Change = Change(
    revoke: set<int>, consume: Option<Secret>, mint: Option<(Secret, Token)>, open: Option<(int, Family)>,
    audit: Option<AuditEntry>)

  const NO_CHANGE := Change({}, None, None, None, None)

  datatype Plan = Plan(change: Change, reply: Reply)

  const REFUSED := Plan(NO_CHANGE, Unauthorized)

  // ------------------------------------------------------------------ what each request decides

  /** The token's family row exists for its owner and is not revoked. */
  predicate Open(r: Registry, t: Token) {
    t.family in r.families && r.families[t.family] == Family(t.business, t.user, false)
  }

  function NextToken(t: Token, d: Drawn): Token { Token(d.id, t.business, t.user, t.family, d.expires, false) }

  /** The decision on a token read under its family's lock. */
  function Rotate(secret: Secret, t: Token, now: int, active: bool, d: Drawn): Plan {
    if t.consumed
    then Plan(NO_CHANGE.(revoke := {t.family}, audit := Some(AuditEntry(ReplayDetected, t.family))), Unauthorized)
    else if t.expires <= now || !active then REFUSED
    else Plan(NO_CHANGE.(consume := Some(secret), mint := Some((d.secret, NextToken(t, d))),
                         audit := Some(AuditEntry(SessionRefreshed, t.family))), Refreshed(d.id))
  }

  /** The bearer's own session belongs to the family, consumed or not. */
  predicate BearerIn(r: Registry, p: Principal, family: int) {
    exists s :: s in r.tokens && r.tokens[s].id == p.session && r.tokens[s].business == p.business
                && r.tokens[s].user == p.user && r.tokens[s].family == family
  }

  function PlanOf(r: Registry, q: Request): Plan {
    match q
    case Refresh(secret, now, active, d) =>
      if secret !in r.tokens || !Open(r, r.tokens[secret]) then REFUSED
      else Rotate(secret, r.tokens[secret], now, active, d)
    case Logout(p, secret) =>
      if secret !in r.tokens || r.tokens[secret].business != p.business || r.tokens[secret].user != p.user
         || !Open(r, r.tokens[secret]) || !BearerIn(r, p, r.tokens[secret].family) then REFUSED
      else
        var f := r.tokens[secret].family;
        Plan(NO_CHANGE.(revoke := {f}, audit := Some(AuditEntry(SessionRevoked, f))), LoggedOut)
    case Issue(business, user, family, d) =>
      Plan(NO_CHANGE.(open := Some((family, Family(business, user, false))),
                      mint := Some((d.secret, Token(d.id, business, user, family, d.expires, false))),
                      audit := Some(AuditEntry(SessionCreated, family))), Issued(d.id))
    case Deactivate(business, targets) =>
      Plan(NO_CHANGE.(revoke := set f | f in targets && f in r.families && r.families[f].business == business),
           Deactivated)
  }

  function Revoke(families: map<int, Family>, revoke: set<int>): map<int, Family> {
    map f | f in families :: if f in revoke then families[f].(revoked := true) else families[f]
  }

  function Consume(tokens: map<Secret, Token>, consume: Option<Secret>): map<Secret, Token> {
    if consume.Some? && consume.value in tokens
    then tokens[consume.value := tokens[consume.value].(consumed := true)] else tokens
  }

  function Mint(tokens: map<Secret, Token>, mint: Option<(Secret, Token)>): map<Secret, Token> {
    if mint.Some? then tokens[mint.value.0 := mint.value.1] else tokens
  }

  function Apply(r: Registry, c: Change): Registry {
    var families := if c.open.Some? then r.families[c.open.value.0 := c.open.value.1] else r.families;
    Registry(Revoke(families, c.revoke), Mint(Consume(r.tokens, c.consume), c.mint),
             if c.audit.Some? then r.audit + [c.audit.value] else r.audit)
  }

  function After(r: Registry, q: Request): Registry { Apply(r, PlanOf(r, q).change) }

  /** Ids come from sequences and secrets are random: what a request draws is not in use. */
  ghost predicate Fresh(r: Registry, q: Request) {
    match q
    case Refresh(_, _, _, d) => FreshDraw(r, d)
    case Issue(_, _, family, d) => FreshDraw(r, d) && family !in r.families
    case _ => true
  }

  ghost predicate FreshDraw(r: Registry, d: Drawn) {
    d.secret !in r.tokens && forall s :: s in r.tokens ==> r.tokens[s].id != d.id
  }

  // ------------------------------------------------------------------ the invariant

  ghost function Of(tokens: map<Secret, Token>, family: int): set<Secret> {
    set s | s in tokens && tokens[s].family == family
  }

  ghost function Unconsumed(tokens: map<Secret, Token>, family: int): set<Secret> {
    set s | s in tokens && tokens[s].family == family && !tokens[s].consumed
  }

  function Refreshes(audit: seq<AuditEntry>, family: int): nat {
    if audit == [] then 0
    else Refreshes(audit[..|audit| - 1], family) +
         if audit[|audit| - 1] == AuditEntry(SessionRefreshed, family) then 1 else 0
  }

  /** One unconsumed token, and one token for the login and each successful refresh. */
  ghost predicate FamilySound(r: Registry, family: int) {
    if family in r.families
    then |Unconsumed(r.tokens, family)| == 1 && |Of(r.tokens, family)| == 1 + Refreshes(r.audit, family)
    else Of(r.tokens, family) == {} && Refreshes(r.audit, family) == 0
  }

  ghost predicate TokenSound(r: Registry, s: Secret) {
    s in r.tokens ==>
      var t := r.tokens[s];
      t.family in r.families && r.families[t.family].business == t.business && r.families[t.family].user == t.user
  }

  ghost predicate SessionDistinct(r: Registry, s: Secret, u: Secret) {
    s in r.tokens && u in r.tokens && s != u ==> r.tokens[s].id != r.tokens[u].id
  }

  ghost predicate RegistryOk(r: Registry) {
    (forall f :: FamilySound(r, f)) && (forall s :: TokenSound(r, s)) && (forall s, u :: SessionDistinct(r, s, u))
  }

  lemma RefreshesAppended(audit: seq<AuditEntry>, e: AuditEntry, family: int)
    ensures Refreshes(audit + [e], family) ==
            Refreshes(audit, family) + if e == AuditEntry(SessionRefreshed, family) then 1 else 0
  {
    assert (audit + [e])[..|audit|] == audit;
  }

  ghost function Swapped(tokens: map<Secret, Token>, secret: Secret, next: Secret, t: Token): map<Secret, Token> {
    Mint(Consume(tokens, Some(secret)), Some((next, t)))
  }

  ghost predicate Succeeds(tokens: map<Secret, Token>, secret: Secret, next: Secret, t: Token) {
    && secret in tokens && next !in tokens && !tokens[secret].consumed
    && t.family == tokens[secret].family && !t.consumed
  }

  lemma SwapKeepsUnconsumed(tokens: map<Secret, Token>, secret: Secret, next: Secret, t: Token, family: int)
    requires Succeeds(tokens, secret, next, t)
    ensures |Unconsumed(Swapped(tokens, secret, next, t), family)| == |Unconsumed(tokens, family)|
  {
    var u := Swapped(tokens, secret, next, t);
    if t.family == family {
      assert Unconsumed(u, family) == Unconsumed(tokens, family) - {secret} + {next};
    } else {
      assert Unconsumed(u, family) == Unconsumed(tokens, family);
    }
  }

  lemma SwapAddsOne(tokens: map<Secret, Token>, secret: Secret, next: Secret, t: Token, family: int)
    requires Succeeds(tokens, secret, next, t)
    ensures Of(Swapped(tokens, secret, next, t), family) ==
            Of(tokens, family) + if t.family == family then {next} else {}
  {}

  /** Consuming a token and minting its successor keeps one unconsumed and adds one in all. */
  lemma RotationCounts(r: Registry, q: Request, family: int)
    requires RegistryOk(r) && Fresh(r, q) && q.Refresh? && PlanOf(r, q).reply.Refreshed?
    ensures FamilySound(After(r, q), family)
  {
    var t := r.tokens[q.secret];
    assert FamilySound(r, family) && TokenSound(r, q.secret);
    RefreshesAppended(r.audit, AuditEntry(SessionRefreshed, t.family), family);
    SwapKeepsUnconsumed(r.tokens, q.secret, q.drawn.secret, NextToken(t, q.drawn), family);
    SwapAddsOne(r.tokens, q.secret, q.drawn.secret, NextToken(t, q.drawn), family);
  }

  lemma IssueCounts(r: Registry, q: Request, family: int)
    requires RegistryOk(r) && Fresh(r, q) && q.Issue?
    ensures FamilySound(After(r, q), family)
  {
    var u := After(r, q);
    assert FamilySound(r, family);
    RefreshesAppended(r.audit, AuditEntry(SessionCreated, q.family), family);
    if family == q.family {
      assert Of(u.tokens, family) == {q.drawn.secret};
      assert Unconsumed(u.tokens, family) == {q.drawn.secret};
    } else {
      assert Of(u.tokens, family) == Of(r.tokens, family);
      assert Unconsumed(u.tokens, family) == Unconsumed(r.tokens, family);
    }
  }

  lemma RevocationCounts(r: Registry, c: Change, family: int)
    requires RegistryOk(r) && c.consume.None? && c.mint.None? && c.open.None?
    requires c.audit.Some? ==> !c.audit.value.event.SessionRefreshed?
    ensures FamilySound(Apply(r, c), family)
  {
    assert FamilySound(r, family);
    if c.audit.Some? {
      RefreshesAppended(r.audit, c.audit.value, family);
    }
  }

  lemma RequestKeepsFamilies(r: Registry, q: Request, f: int)
    requires RegistryOk(r) && Fresh(r, q)
    ensures FamilySound(After(r, q), f)
  {
    if q.Issue? {
      IssueCounts(r, q, f);
    } else if q.Refresh? && PlanOf(r, q).reply.Refreshed? {
      RotationCounts(r, q, f);
    } else {
      RevocationCounts(r, PlanOf(r, q).change, f);
    }
  }

  lemma RequestKeepsRegistry(r: Registry, q: Request)
    requires RegistryOk(r) && Fresh(r, q)
    ensures RegistryOk(After(r, q))
  {
    var u := After(r, q);
    forall f ensures FamilySound(u, f) {
      RequestKeepsFamilies(r, q, f);
    }
    forall s ensures TokenSound(u, s) {
      assert TokenSound(r, s);
      assert q.Refresh? ==> TokenSound(r, q.secret);
    }
    forall s, v ensures SessionDistinct(u, s, v) {
      assert SessionDistinct(r, s, v);
    }
  }

  // ------------------------------------------------------------------ who may use a session

  /** The bearer check on every request: GetActiveRefreshSession. */
  predicate Authenticates(r: Registry, s: Secret, now: int) {
    s in r.tokens && !r.tokens[s].consumed && r.tokens[s].expires > now && Open(r, r.tokens[s])
  }

  /** The bearer check on logout: GetLogoutSession. */
  predicate MayLogOut(r: Registry, s: Secret, now: int) {
    s in r.tokens && r.tokens[s].expires > now && Open(r, r.tokens[s])
  }

  /** At most one session of a family passes the bearer check. */
  lemma OneActiveSession(r: Registry, a: Secret, b: Secret, now: int, later: int)
    requires RegistryOk(r) && Authenticates(r, a, now) && Authenticates(r, b, later)
    requires r.tokens[a].family == r.tokens[b].family
    ensures a == b
  {
    var f := r.tokens[a].family;
    assert FamilySound(r, f);
    if a != b {
      assert {a, b} <= Unconsumed(r.tokens, f);
      SubsetSize({a, b}, Unconsumed(r.tokens, f));
    }
  }

  ghost predicate Dead(r: Registry, family: int) { family in r.families && r.families[family].revoked }

  /** No secret of a revoked family authenticates, logs out or refreshes; nothing about it changes. */
  lemma DeadIsDead(r: Registry, s: Secret, q: Request, now: int)
    requires RegistryOk(r) && s in r.tokens && Dead(r, r.tokens[s].family)
    ensures !Authenticates(r, s, now) && !MayLogOut(r, s, now)
    ensures q.Refresh? && q.secret == s ==> PlanOf(r, q) == REFUSED
    ensures q.Logout? && q.secret == s ==> PlanOf(r, q) == REFUSED
  {}

  /** A revoked family stays revoked and keeps exactly the tokens it had. */
  lemma DeadStaysDead(r: Registry, q: Request, family: int)
    requires RegistryOk(r) && Fresh(r, q) && Dead(r, family)
    ensures Dead(After(r, q), family) && Of(After(r, q).tokens, family) == Of(r.tokens, family)
    ensures forall s :: s in Of(r.tokens, family) ==> After(r, q).tokens[s] == r.tokens[s]
  {
    assert q.Refresh? && q.secret in r.tokens && r.tokens[q.secret].family == family ==> PlanOf(r, q) == REFUSED;
  }

  /** A consumed token stays consumed, and every token keeps its family. */
  lemma TokensOnlyAge(r: Registry, q: Request, s: Secret)
    requires Fresh(r, q) && s in r.tokens
    ensures s in After(r, q).tokens && After(r, q).tokens[s].family == r.tokens[s].family
    ensures r.tokens[s].consumed ==> After(r, q).tokens[s] == r.tokens[s]
  {}

  /** Presenting a consumed token leaves its family revoked, expired or not, user active or not. */
  lemma ReplayRevokes(r: Registry, q: Request)
    requires RegistryOk(r) && q.Refresh? && q.secret in r.tokens && r.tokens[q.secret].consumed
    ensures PlanOf(r, q).reply.Unauthorized? && Dead(After(r, q), r.tokens[q.secret].family)
  {
    assert TokenSound(r, q.secret);
  }

  /** Only a live token of an open family is refreshed; it is consumed and its successor authenticates. */
  lemma SuccessConsumes(r: Registry, q: Request)
    requires Fresh(r, q) && q.Refresh? && PlanOf(r, q).reply.Refreshed?
    ensures Authenticates(r, q.secret, q.now) && q.active
    ensures q.secret in After(r, q).tokens && After(r, q).tokens[q.secret].consumed
    ensures Authenticates(After(r, q), q.drawn.secret, q.drawn.expires - 1)
  {}

  /** Logout revokes the family of the presented token, to which the bearer's own session belongs. */
  lemma LogoutRevokes(r: Registry, q: Request)
    requires RegistryOk(r) && q.Logout? && PlanOf(r, q).reply.LoggedOut?
    ensures q.secret in r.tokens && Dead(After(r, q), r.tokens[q.secret].family)
    ensures exists s :: s in r.tokens && r.tokens[s].id == q.principal.session && r.tokens[s].user == q.principal.user
                        && r.tokens[s].business == q.principal.business
                        && r.tokens[s].family == r.tokens[q.secret].family
  {
    assert TokenSound(r, q.secret);
  }

  // ------------------------------------------------------------------ the handlers

  class SessionStore {
    var families: map<int, Family>
    var tokens: map<Secret, Token>
    var audit: seq<AuditEntry>

    function Snapshot(): Registry
      reads this
    {
      Registry(families, tokens, audit)
    }

    ghost predicate Valid()
      reads this
    {
      RegistryOk(Snapshot())
    }

    constructor ()
      ensures Valid() && Snapshot() == Registry(map[], map[], [])
    {
      families, tokens, audit := map[], map[], [];
      new;
      forall f ensures FamilySound(Snapshot(), f) {
        assert Of(tokens, f) == {};
      }
    }

    method RevokeSessionFamily(f: int)
      modifies this`families
      ensures families == Revoke(old(families), {f})
    {
      if f in families {
        families := families[f := families[f].(revoked := true)];
      }
      assert families == Revoke(old(families), {f});
    }

    method AuditSession(e: Event, f: int)
      modifies this`audit
      ensures audit == old(audit) + [AuditEntry(e, f)]
    {
      audit := audit + [AuditEntry(e, f)];
    }

    method Refresh(secret: Secret, now: int, active: bool, drawn: Drawn) returns (reply: Reply)
      requires Valid() && Fresh(Snapshot(), Request.Refresh(secret, now, active, drawn))
      modifies this
      ensures Valid()
      ensures Snapshot() == After(old(Snapshot()), Request.Refresh(secret, now, active, drawn))
      ensures reply == PlanOf(old(Snapshot()), Request.Refresh(secret, now, active, drawn)).reply
    {
      RequestKeepsRegistry(Snapshot(), Request.Refresh(secret, now, active, drawn));
      NothingRevoked(families);
      if secret !in tokens {
        return Unauthorized;
      }
      var session := tokens[secret];
      if !Open(Snapshot(), session) {
        return Unauthorized;
      }
      if session.consumed {
        RevokeSessionFamily(session.family);
        AuditSession(ReplayDetected, session.family);
        return Unauthorized;
      }
      if session.expires <= now || !active {
        return Unauthorized;
      }
      tokens := tokens[drawn.secret := NextToken(session, drawn)];
      tokens := tokens[secret := session.(consumed := true)];
      AuditSession(SessionRefreshed, session.family);
      assert tokens == Mint(Consume(old(tokens), Some(secret)), Some((drawn.secret, NextToken(session, drawn))));
      return Refreshed(drawn.id);
    }

    method Logout(p: Principal, secret: Secret) returns (reply: Reply)
      requires Valid()
      modifies this
      ensures Valid()
      ensures Snapshot() == After(old(Snapshot()), Request.Logout(p, secret))
      ensures reply == PlanOf(old(Snapshot()), Request.Logout(p, secret)).reply
    {
      RequestKeepsRegistry(Snapshot(), Request.Logout(p, secret));
      NothingRevoked(families);
      if secret !in tokens || tokens[secret].business != p.business || tokens[secret].user != p.user {
        return Unauthorized;
      }
      var f := tokens[secret].family;
      if !Open(Snapshot(), tokens[secret]) || !BearerIn(Snapshot(), p, f) {
        return Unauthorized;
      }
      RevokeSessionFamily(f);
      AuditSession(SessionRevoked, f);
      return LoggedOut;
    }

    method Issue(business: int, user: int, family: int, drawn: Drawn) returns (reply: Reply)
      requires Valid() && Fresh(Snapshot(), Request.Issue(business, user, family, drawn))
      modifies this
      ensures Valid()
      ensures Snapshot() == After(old(Snapshot()), Request.Issue(business, user, family, drawn))
      ensures reply == PlanOf(old(Snapshot()), Request.Issue(business, user, family, drawn)).reply
    {
      RequestKeepsRegistry(Snapshot(), Request.Issue(business, user, family, drawn));
      families := families[family := Family(business, user, false)];
      NothingRevoked(families);
      tokens := tokens[drawn.secret := Token(drawn.id, business, user, family, drawn.expires, false)];
      AuditSession(SessionCreated, family);
      return Issued(drawn.id);
    }
  }

  lemma NothingRevoked(families: map<int, Family>)
    ensures Revoke(families, {}) == families
  {}
}
