/**
 What each staff and outlet request does and answers, said of rows alone; every request has exactly one
 such effect.
 */
module StaffEffects {
  import opened Staff

  ghost predicate Owner(s: State, p: Principal) {
    && p.business in s.businesses && (p.business, p.user) in s.users
    && s.users[(p.business, p.user)].role == Admin && s.users[(p.business, p.user)].active
  }

  /** Distinct positive ids. */
  ghost predicate ProperIds(ids: seq<int>) {
    && (forall i :: 0 <= i < |ids| ==> ids[i] >= 1)
    && (forall i, j :: 0 <= i < j < |ids| ==> ids[i] != ids[j])
  }

  ghost predicate AllOpen(s: State, business: int, ids: seq<int>) {
    forall i :: i in ids ==> (business, i) in s.outlets && s.outlets[(business, i)]
  }

  /** The roster rows of one user are exactly these outlets; all other rows are as before. */
  ghost predicate Rostered(s: State, u: State, business: int, user: int, ids: seq<int>) {
    forall a: (int, int, int) ::
      a in u.roster <==> if a.0 == business && a.1 == user then a.2 in ids else a in s.roster
  }

  ghost predicate CreateEffect(s: State, q: Request, u: State, reply: Reply)
    requires q.CreateStaff?
  {
    var k, ids := (q.p.business, q.id), q.outletIds;
    var good := ProperIds(ids) && AllOpen(s, q.p.business, ids);
    var used := exists j :: j in s.emails && s.emails[j] == q.email;
    match reply
    case InvalidOutlets => u == s && (ids == [] || (Owner(s, q.p) && !good))
    case Unauthorized => u == s && ids != [] && !Owner(s, q.p)
    case EmailTaken => u == s && ids != [] && Owner(s, q.p) && good && used
    case Done =>
      && ids != [] && Owner(s, q.p) && good && !used
      && u.users == s.users[k := User(Laundry, true)] && u.emails == s.emails[k := q.email]
      && u.businesses == s.businesses && u.outlets == s.outlets
      && forall a: (int, int, int) ::
           a in u.roster <==> a in s.roster || (a.0 == q.p.business && a.1 == q.id && a.2 in ids)
    case _ => false
  }

  /** The account is the only active admin of its business. */
  ghost predicate LastAdmin(s: State, k: (int, int)) {
    && k in s.users && s.users[k] == User(Admin, true)
    && forall j :: j in s.users && j.0 == k.0 && s.users[j] == User(Admin, true) ==> j == k
  }

  ghost predicate UpdateEffect(s: State, q: Request, u: State, reply: Reply)
    requires q.UpdateStaff?
  {
    var k, self := (q.p.business, q.id), q.id == q.p.user && !q.active;
    match reply
    case SelfChange => u == s && self
    case Unauthorized => u == s && !self && !Owner(s, q.p)
    case NotFound => u == s && !self && Owner(s, q.p) && k !in s.users
    case LastActiveOwner => u == s && !self && Owner(s, q.p) && !q.active && LastAdmin(s, k)
    case Done =>
      && !self && Owner(s, q.p) && k in s.users && (q.active || !LastAdmin(s, k))
      && u == s.(users := s.users[k := s.users[k].(active := q.active)])
    case _ => false
  }

  ghost predicate ReplaceEffect(s: State, q: Request, u: State, reply: Reply)
    requires q.ReplaceOutlets?
  {
    var k, ids := (q.p.business, q.id), q.outletIds;
    var proper := ids != [] && ProperIds(ids);
    match reply
    case SelfChange => u == s && q.id == q.p.user
    case InvalidOutlets =>
      && u == s && q.id != q.p.user
      && (|| !proper
          || (Owner(s, q.p) && k in s.users && s.users[k].role == Laundry && !AllOpen(s, q.p.business, ids)))
    case Unauthorized => u == s && q.id != q.p.user && proper && !Owner(s, q.p)
    case NotFound => u == s && q.id != q.p.user && proper && Owner(s, q.p) && k !in s.users
    case StaffOnly => u == s && q.id != q.p.user && proper && Owner(s, q.p) && k in s.users && s.users[k].role == Admin
    case Done =>
      && q.id != q.p.user && proper && Owner(s, q.p) && k in s.users && s.users[k].role == Laundry
      && AllOpen(s, q.p.business, ids) && Rostered(s, u, q.p.business, q.id, ids) && u == s.(roster := u.roster)
    case _ => false
  }

  /** Someone active on the staff works there and nowhere else that is open. */
  ghost predicate Needed(s: State, business: int, outlet: int) {
    exists user :: (business, user) in s.users && s.users[(business, user)] == User(Laundry, true)
                   && (business, user, outlet) in s.roster
                   && forall a :: a in s.roster && a.0 == business && a.1 == user && OutletActive(s, business, a.2)
                                  ==> a.2 == outlet
  }

  ghost predicate OutletEffect(s: State, q: Request, u: State, reply: Reply)
    requires q.UpdateOutlet?
  {
    var k := (q.p.business, q.outlet);
    match reply
    case Unauthorized => u == s && !Owner(s, q.p)
    case NotFound => u == s && Owner(s, q.p) && k !in s.outlets
    case HasAssignedStaff =>
      && u == s && Owner(s, q.p) && k in s.outlets && s.outlets[k] && !q.active && Needed(s, q.p.business, q.outlet)
    case Done =>
      && Owner(s, q.p) && k in s.outlets
      && (s.outlets[k] && !q.active ==> !Needed(s, q.p.business, q.outlet))
      && u == s.(outlets := s.outlets[k := q.active])
    case _ => false
  }

  ghost predicate AddEffect(s: State, q: Request, u: State, reply: Reply)
    requires q.CreateOutlet?
  {
    match reply
    case Unauthorized => u == s && !Owner(s, q.p)
    case Done => Owner(s, q.p) && u == s.(outlets := s.outlets[(q.p.business, q.outlet) := true])
    case _ => false
  }

  ghost predicate Effect(s: State, q: Request, u: State, reply: Reply) {
    match q
    case CreateStaff(_, _, _, _) => CreateEffect(s, q, u, reply)
    case UpdateStaff(_, _, _) => UpdateEffect(s, q, u, reply)
    case ReplaceOutlets(_, _, _) => ReplaceEffect(s, q, u, reply)
    case UpdateOutlet(_, _, _) => OutletEffect(s, q, u, reply)
    case CreateOutlet(_, _) => AddEffect(s, q, u, reply)
  }

  lemma ProperExactly(s: State, business: int, ids: seq<int>)
    ensures ProperIds(ids) <==> |Unique(ids)| == |ids|
    ensures ValidOutlets(s, business, ids) <==> ids != [] && ProperIds(ids) && AllOpen(s, business, ids)
    ensures ProperIds(ids) ==> Unique(ids) == ids
  {
    UniqueKeepsExactly(ids);
    CountsMeanAllActive(s, business, ids);
  }

  lemma CreateHasItsEffect(s: State, q: Request)
    requires q.CreateStaff?
    ensures CreateEffect(s, q, Perform(s, q).0, Perform(s, q).1)
  {
    ProperExactly(s, q.p.business, q.outletIds);
    forall a: (int, int, int)
      ensures a in Assignments(q.p.business, q.id, q.outletIds) <==>
              a.0 == q.p.business && a.1 == q.id && a.2 in q.outletIds
    {
      InAssignments(q.p.business, q.id, q.outletIds, a);
    }
  }

  lemma UpdateHasItsEffect(s: State, q: Request)
    requires q.UpdateStaff?
    ensures UpdateEffect(s, q, Perform(s, q).0, Perform(s, q).1)
  {
    var k := (q.p.business, q.id);
    if k in s.users && s.users[k] == User(Admin, true) {
      assert OtherActiveAdmin(s, q.p.business, q.id) <==> !LastAdmin(s, k) by {
        if !LastAdmin(s, k) {
          var j :| j in s.users && j.0 == k.0 && s.users[j] == User(Admin, true) && j != k;
          assert j.1 != q.id;
        }
      }
    }
  }

  lemma ReplaceHasItsEffect(s: State, q: Request)
    requires q.ReplaceOutlets?
    ensures ReplaceEffect(s, q, Perform(s, q).0, Perform(s, q).1)
  {
    ProperExactly(s, q.p.business, q.outletIds);
    forall a: (int, int, int)
      ensures a in Assignments(q.p.business, q.id, q.outletIds) <==>
              a.0 == q.p.business && a.1 == q.id && a.2 in q.outletIds
    {
      InAssignments(q.p.business, q.id, q.outletIds, a);
    }
  }

  lemma NeededExactly(s: State, business: int, outlet: int)
    ensures Needed(s, business, outlet) <==> Stranded(s, business, outlet)
  {
    if Stranded(s, business, outlet) {
      var k :| k in s.users && k.0 == business && s.users[k] == User(Laundry, true)
               && (business, k.1, outlet) in s.roster && !ElsewhereActive(s, business, k.1, outlet);
      assert (business, k.1) == k;
    }
    if Needed(s, business, outlet) {
      var user :| (business, user) in s.users && s.users[(business, user)] == User(Laundry, true)
                  && (business, user, outlet) in s.roster
                  && forall a :: a in s.roster && a.0 == business && a.1 == user && OutletActive(s, business, a.2)
                                 ==> a.2 == outlet;
      assert !ElsewhereActive(s, business, (business, user).1, outlet);
    }
  }

  lemma EveryRequestHasItsEffect(s: State, q: Request)
    ensures Effect(s, q, Perform(s, q).0, Perform(s, q).1)
  {
    match q
    case CreateStaff(_, _, _, _) => CreateHasItsEffect(s, q);
    case UpdateStaff(_, _, _) => UpdateHasItsEffect(s, q);
    case ReplaceOutlets(_, _, _) => ReplaceHasItsEffect(s, q);
    case UpdateOutlet(p, outlet, _) => NeededExactly(s, p.business, outlet);
    case CreateOutlet(_, _) =>
  }

  lemma EffectIsUnique(s: State, q: Request, u: State, a: Reply, v: State, b: Reply)
    requires Effect(s, q, u, a) && Effect(s, q, v, b)
    ensures u == v && a == b
  {
    if a.Done? && b.Done? {
      forall x: (int, int, int) ensures x in u.roster <==> x in v.roster {}
      assert u.roster == v.roster;
    }
  }

  /** A request does and answers something exactly when that is its effect. */
  lemma EffectExactly(s: State, q: Request, u: State, reply: Reply)
    ensures Effect(s, q, u, reply) <==> (u, reply) == Perform(s, q)
  {
    EveryRequestHasItsEffect(s, q);
    if Effect(s, q, u, reply) {
      EffectIsUnique(s, q, u, reply, Perform(s, q).0, Perform(s, q).1);
    }
  }
}
