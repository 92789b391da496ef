/**
 Staff and outlets of a business. Every operation holds the business row's lock, so they run one at a
 time; what they keep is that active staff can work somewhere and that someone can administer.
 */
module Staff {
  import opened Sets

  datatype Role = Admin | Laundry

  datatype User = User(role: Role, active: bool)

  /**
   Users and outlets are keyed by business and id; an assignment is business, user, outlet. E-mail
   addresses are the folded ones a unique index compares over all businesses.
   */
  datatype State = State(
    businesses: set<int>, users: map<(int, int), User>, emails: map<(int, int), string>,
    outlets: map<(int, int), bool>, roster: set<(int, int, int)>)

  datatype Principal = Principal(business: int, user: int)

  datatype Request =
    | CreateStaff(p: Principal, email: string, outletIds: seq<int>, id: int)
    | UpdateStaff(p: Principal, id: int, active: bool)
    | ReplaceOutlets(p: Principal, id: int, outletIds: seq<int>)
    | UpdateOutlet(p: Principal, outlet: int, active: bool)
    | CreateOutlet(p: Principal, outlet: int)   // its code is Plans.OutletPlan; here only the active row it adds

  datatype Reply =
    | Unauthorized | InvalidOutlets | NotFound | EmailTaken | SelfChange | StaffOnly | LastActiveOwner
    | HasAssignedStaff | Done

  // ------------------------------------------------------------------ distinct ids

  /** The positive ids of a list in order of first appearance. */
  function Unique(ids: seq<int>): seq<int> {
    if ids == [] then []
    else
      var r, last := Unique(ids[..|ids| - 1]), ids[|ids| - 1];
      if last > 0 && last !in r then r + [last] else r
  }

  method UniqueIDs(input: seq<int>) returns (out: seq<int>)
    ensures out == Unique(input)
  {
    var seen: set<int> := {};
    out := [];
    for i := 0 to |input|
      invariant out == Unique(input[..i])
      invariant forall x :: x in seen <==> x in out
    {
      assert input[..i + 1][..i] == input[..i];
      if input[i] > 0 && input[i] !in seen {
        seen := seen + {input[i]};
        out := out + [input[i]];
      }
    }
    assert input[..|input|] == input;
  }

  ghost predicate DistinctPositive(ids: seq<int>) {
    (forall i :: 0 <= i < |ids| ==> ids[i] > 0) && (forall i, j :: 0 <= i < j < |ids| ==> ids[i] != ids[j])
  }

  /** Nothing is dropped exactly when every id is positive and none repeats. */
  lemma {:induction false} UniqueKeepsExactly(ids: seq<int>)
    ensures |Unique(ids)| <= |ids| && DistinctPositive(Unique(ids))
    ensures forall x :: x in Unique(ids) <==> x in ids && x > 0
    ensures |Unique(ids)| == |ids| <==> DistinctPositive(ids)
    ensures |Unique(ids)| == |ids| ==> Unique(ids) == ids
  {
    if ids != [] {
      var n := |ids| - 1;
      UniqueKeepsExactly(ids[..n]);
      assert ids == ids[..n] + [ids[n]];
      if DistinctPositive(ids) {
        assert forall i :: 0 <= i < n ==> ids[..n][i] == ids[i];
      }
    }
  }

  // ------------------------------------------------------------------ active outlets

  predicate OutletActive(s: State, business: int, outlet: int) {
    (business, outlet) in s.outlets && s.outlets[(business, outlet)]
  }

  /** Rows returned by the locking select over active outlets of the business. */
  function LockActiveOutlets(s: State, business: int, ids: seq<int>): set<int> {
    set i | i in ids && OutletActive(s, business, i)
  }

  predicate ValidOutlets(s: State, business: int, ids: seq<int>) {
    |Unique(ids)| == |ids| && ids != [] && |LockActiveOutlets(s, business, ids)| == |ids|
  }

  lemma {:induction false} SetOfSeq(ids: seq<int>)
    ensures |set i | i in ids| <= |ids|
  {
    if ids != [] {
      var n := |ids| - 1;
      SetOfSeq(ids[..n]);
      assert (set i | i in ids) == (set i | i in ids[..n]) + {ids[n]};
    }
  }

  /** As many rows locked as distinct ids asked for means every one of them is active. */
  lemma CountsMeanAllActive(s: State, business: int, ids: seq<int>)
    ensures ValidOutlets(s, business, ids) <==>
            ids != [] && DistinctPositive(ids) && forall i :: i in ids ==> OutletActive(s, business, i)
  {
    var locked, all := LockActiveOutlets(s, business, ids), set i | i in ids;
    UniqueKeepsExactly(ids);
    SetOfSeq(ids);
    if ValidOutlets(s, business, ids) {
      FullSubset(locked, all);
      assert forall i :: i in ids ==> i in all;
    }
    if DistinctPositive(ids) && forall i :: i in ids ==> OutletActive(s, business, i) {
      assert locked == all;
      DistinctSize(ids);
    }
  }

  lemma {:induction false} DistinctSize(ids: seq<int>)
    requires DistinctPositive(ids)
    ensures |set i | i in ids| == |ids|
  {
    if ids != [] {
      var n := |ids| - 1;
      DistinctSize(ids[..n]);
      assert (set i | i in ids) == (set i | i in ids[..n]) + {ids[n]};
    }
  }

  // ------------------------------------------------------------------ the operations

  predicate OwnerContext(s: State, p: Principal) {
    p.business in s.businesses && (p.business, p.user) in s.users && s.users[(p.business, p.user)] == User(Admin, true)
  }

  /** One row per outlet, inserted in order. */
  function Assignments(business: int, user: int, ids: seq<int>): set<(int, int, int)> {
    if ids == [] then {} else Assignments(business, user, ids[..|ids| - 1]) + {(business, user, ids[|ids| - 1])}
  }

  lemma {:induction false} InAssignments(business: int, user: int, ids: seq<int>, a: (int, int, int))
    ensures a in Assignments(business, user, ids) <==> a.0 == business && a.1 == user && a.2 in ids
  {
    if ids != [] {
      var n := |ids| - 1;
      InAssignments(business, user, ids[..n], a);
      assert ids == ids[..n] + [ids[n]];
      assert a == (a.0, a.1, a.2);
    }
  }

  function Unassigned(roster: set<(int, int, int)>, business: int, user: int): set<(int, int, int)> {
    set a | a in roster && !(a.0 == business && a.1 == user)
  }

  predicate OtherActiveAdmin(s: State, business: int, id: int) {
    exists k :: k in s.users && k.0 == business && k.1 != id && s.users[k] == User(Admin, true)
  }

  /** The user has an active outlet of the business other than this one. */
  predicate ElsewhereActive(s: State, business: int, user: int, outlet: int) {
    exists a :: a in s.roster && a.0 == business && a.1 == user && a.2 != outlet && OutletActive(s, business, a.2)
  }

  /** An active staff member of the business works at this outlet and at no other active one. */
  predicate Stranded(s: State, business: int, outlet: int) {
    exists k :: k in s.users && k.0 == business && s.users[k] == User(Laundry, true)
                && (business, k.1, outlet) in s.roster && !ElsewhereActive(s, business, k.1, outlet)
  }

  predicate EmailUsed(s: State, email: string) { exists k :: k in s.emails && s.emails[k] == email }

  function CreateStaffPlan(s: State, p: Principal, email: string, ids: seq<int>, id: int): (State, Reply) {
    if ids == [] then (s, InvalidOutlets)
    else if !OwnerContext(s, p) then (s, Unauthorized)
    else if !ValidOutlets(s, p.business, ids) then (s, InvalidOutlets)
    else if EmailUsed(s, email) then (s, EmailTaken)
    else (s.(users := s.users[(p.business, id) := User(Laundry, true)], emails := s.emails[(p.business, id) := email],
             roster := s.roster + Assignments(p.business, id, Unique(ids))), Done)
  }

  function UpdateStaffPlan(s: State, p: Principal, id: int, active: bool): (State, Reply) {
    var k := (p.business, id);
    if id == p.user && !active then (s, SelfChange)
    else if !OwnerContext(s, p) then (s, Unauthorized)
    else if k !in s.users then (s, NotFound)
    else if s.users[k] == User(Admin, true) && !active && !OtherActiveAdmin(s, p.business, id) then (s, LastActiveOwner)
    else (s.(users := s.users[k := s.users[k].(active := active)]), Done)
  }

  function ReplaceOutletsPlan(s: State, p: Principal, id: int, ids: seq<int>): (State, Reply) {
    var k := (p.business, id);
    if id == p.user then (s, SelfChange)
    else if ids == [] || |Unique(ids)| != |ids| then (s, InvalidOutlets)
    else if !OwnerContext(s, p) then (s, Unauthorized)
    else if k !in s.users then (s, NotFound)
    else if s.users[k].role != Laundry then (s, StaffOnly)
    else if !ValidOutlets(s, p.business, ids) then (s, InvalidOutlets)
    else (s.(roster := Unassigned(s.roster, p.business, id) + Assignments(p.business, id, ids)), Done)
  }

  function UpdateOutletPlan(s: State, p: Principal, outlet: int, active: bool): (State, Reply) {
    var k := (p.business, outlet);
    if !OwnerContext(s, p) then (s, Unauthorized)
    else if k !in s.outlets then (s, NotFound)
    else if s.outlets[k] && !active && Stranded(s, p.business, outlet) then (s, HasAssignedStaff)
    else (s.(outlets := s.outlets[k := active]), Done)
  }

  function Perform(s: State, q: Request): (State, Reply) {
    match q
    case CreateStaff(p, email, ids, id) => CreateStaffPlan(s, p, email, ids, id)
    case UpdateStaff(p, id, active) => UpdateStaffPlan(s, p, id, active)
    case ReplaceOutlets(p, id, ids) => ReplaceOutletsPlan(s, p, id, ids)
    case UpdateOutlet(p, outlet, active) => UpdateOutletPlan(s, p, outlet, active)
    case CreateOutlet(p, outlet) =>
      if !OwnerContext(s, p) then (s, Unauthorized) else (s.(outlets := s.outlets[(p.business, outlet) := true]), Done)
  }

  /** A drawn id names no row yet. */
  ghost predicate Fresh(s: State, q: Request) {
    match q
    case CreateStaff(p, _, _, id) => (p.business, id) !in s.users
    case CreateOutlet(p, outlet) => (p.business, outlet) !in s.outlets
    case _ => true
  }

  // ------------------------------------------------------------------ the invariant

  predicate Works(s: State, business: int, user: int) {
    exists a :: a in s.roster && a.0 == business && a.1 == user && OutletActive(s, business, a.2)
  }

  ghost predicate UserSound(s: State, k: (int, int)) {
    k in s.users && s.users[k] == User(Laundry, true) ==> Works(s, k.0, k.1)
  }

  predicate HasAdmin(s: State, business: int) {
    exists k :: k in s.users && k.0 == business && s.users[k] == User(Admin, true)
  }

  ghost predicate BusinessSound(s: State, b: int) { b in s.businesses ==> HasAdmin(s, b) }

  ghost predicate StaffOk(s: State) { (forall k :: UserSound(s, k)) && (forall b :: BusinessSound(s, b)) }

  /** Switches an account on; the handler checks nothing about its outlets. */
  predicate Reactivates(s: State, q: Request) {
    && q.UpdateStaff? && q.active && (q.p.business, q.id) in s.users
    && s.users[(q.p.business, q.id)] == User(Laundry, false)
  }

  lemma StillWorks(s: State, u: State, business: int, user: int, a: (int, int, int))
    requires a in u.roster && a.0 == business && a.1 == user && OutletActive(u, business, a.2)
    ensures Works(u, business, user)
  {}

  lemma CreateStaffKeeps(s: State, p: Principal, email: string, ids: seq<int>, id: int, k: (int, int))
    requires UserSound(s, k)
    ensures UserSound(CreateStaffPlan(s, p, email, ids, id).0, k)
  {
    var u := CreateStaffPlan(s, p, email, ids, id).0;
    if CreateStaffPlan(s, p, email, ids, id).1.Done? && k == (p.business, id) {
      CountsMeanAllActive(s, p.business, ids);
      UniqueKeepsExactly(ids);
      InAssignments(p.business, id, ids, (p.business, id, ids[0]));
      StillWorks(s, u, k.0, k.1, (p.business, id, ids[0]));
    } else if Works(s, k.0, k.1) {
      var a :| a in s.roster && a.0 == k.0 && a.1 == k.1 && OutletActive(s, k.0, a.2);
      StillWorks(s, u, k.0, k.1, a);
    }
  }

  lemma ReplaceKeeps(s: State, p: Principal, id: int, ids: seq<int>, k: (int, int))
    requires UserSound(s, k)
    ensures UserSound(ReplaceOutletsPlan(s, p, id, ids).0, k)
  {
    var u := ReplaceOutletsPlan(s, p, id, ids).0;
    if ReplaceOutletsPlan(s, p, id, ids).1.Done? && k == (p.business, id) {
      CountsMeanAllActive(s, p.business, ids);
      InAssignments(p.business, id, ids, (p.business, id, ids[0]));
      StillWorks(s, u, k.0, k.1, (p.business, id, ids[0]));
    } else if Works(s, k.0, k.1) {
      var a :| a in s.roster && a.0 == k.0 && a.1 == k.1 && OutletActive(s, k.0, a.2);
      StillWorks(s, u, k.0, k.1, a);
    }
  }

  lemma UpdateOutletKeeps(s: State, p: Principal, outlet: int, active: bool, k: (int, int))
    requires UserSound(s, k)
    ensures UserSound(UpdateOutletPlan(s, p, outlet, active).0, k)
  {
    var u := UpdateOutletPlan(s, p, outlet, active).0;
    if k in s.users && s.users[k] == User(Laundry, true) {
      var a :| a in s.roster && a.0 == k.0 && a.1 == k.1 && OutletActive(s, k.0, a.2);
      if OutletActive(u, k.0, a.2) {
        StillWorks(s, u, k.0, k.1, a);
      } else {
        assert ElsewhereActive(s, k.0, k.1, outlet);
        var b :| b in s.roster && b.0 == k.0 && b.1 == k.1 && b.2 != outlet && OutletActive(s, k.0, b.2);
        StillWorks(s, u, k.0, k.1, b);
      }
    }
  }

  lemma OutletAddedKeeps(s: State, p: Principal, outlet: int, k: (int, int))
    requires UserSound(s, k)
    ensures UserSound(Perform(s, CreateOutlet(p, outlet)).0, k)
  {
    var u := Perform(s, CreateOutlet(p, outlet)).0;
    if Works(s, k.0, k.1) {
      var a :| a in s.roster && a.0 == k.0 && a.1 == k.1 && OutletActive(s, k.0, a.2);
      StillWorks(s, u, k.0, k.1, a);
    }
  }

  lemma UpdateStaffKeeps(s: State, q: Request, k: (int, int))
    requires UserSound(s, k) && q.UpdateStaff?
    ensures UserSound(Perform(s, q).0, k) <==>
            !(k == (q.p.business, q.id) && Perform(s, q).1.Done? && Reactivates(s, q) && !Works(s, k.0, k.1))
  {
    assert Works(Perform(s, q).0, k.0, k.1) == Works(s, k.0, k.1);
  }

  lemma AdminStays(s: State, q: Request, b: int)
    requires BusinessSound(s, b) && Fresh(s, q)
    ensures BusinessSound(Perform(s, q).0, b)
  {
    var u := Perform(s, q).0;
    if b in s.businesses {
      var k :| k in s.users && k.0 == b && s.users[k] == User(Admin, true);
      if k in u.users && u.users[k] == User(Admin, true) {
        assert HasAdmin(u, b);
      } else {
        assert OtherActiveAdmin(s, b, q.id);
        var o :| o in s.users && o.0 == b && o.1 != q.id && s.users[o] == User(Admin, true);
        assert u.users[o] == User(Admin, true);
      }
    }
  }

  /**
   Every operation keeps active staff employable and every business administered, except exactly one:
   switching on a staff account that has no active outlet, which the handler accepts.
   */
  lemma KeepsStaffExactly(s: State, q: Request)
    requires StaffOk(s) && Fresh(s, q)
    ensures StaffOk(Perform(s, q).0) <==>
            !(Reactivates(s, q) && OwnerContext(s, q.p) && !Works(s, q.p.business, q.id))
    ensures forall b :: BusinessSound(Perform(s, q).0, b)
  {
    var u := Perform(s, q).0;
    forall b ensures BusinessSound(u, b) {
      assert BusinessSound(s, b);
      AdminStays(s, q, b);
    }
    if q.UpdateStaff? {
      UpdateKeepsExactly(s, q);
    } else {
      forall k ensures UserSound(u, k) {
        assert UserSound(s, k);
        match q
        case CreateStaff(p, email, ids, id) => CreateStaffKeeps(s, p, email, ids, id, k);
        case ReplaceOutlets(p, id, ids) => ReplaceKeeps(s, p, id, ids, k);
        case UpdateOutlet(p, outlet, active) => UpdateOutletKeeps(s, p, outlet, active, k);
        case CreateOutlet(p, outlet) => OutletAddedKeeps(s, p, outlet, k);
        case _ =>
      }
    }
  }

  lemma UpdateKeepsExactly(s: State, q: Request)
    requires StaffOk(s) && q.UpdateStaff?
    ensures (forall k :: UserSound(Perform(s, q).0, k)) <==>
            !(Reactivates(s, q) && OwnerContext(s, q.p) && !Works(s, q.p.business, q.id))
  {
    var k := (q.p.business, q.id);
    assert UserSound(s, k);
    UpdateStaffKeeps(s, q, k);
    assert Reactivates(s, q) && OwnerContext(s, q.p) ==> Perform(s, q).1.Done?;
    if UserSound(Perform(s, q).0, k) {
      forall j ensures UserSound(Perform(s, q).0, j) {
        assert UserSound(s, j);
        UpdateStaffKeeps(s, q, j);
      }
    }
  }

  ghost predicate EmailDistinct(s: State, j: (int, int), k: (int, int)) {
    j in s.emails && k in s.emails && j != k ==> s.emails[j] != s.emails[k]
  }

  ghost predicate EmailsOk(s: State) { forall j, k :: EmailDistinct(s, j, k) }

  /** No two accounts of any business ever share an e-mail address; a taken one changes nothing. */
  lemma EmailsStayDistinct(s: State, q: Request)
    requires EmailsOk(s)
    ensures EmailsOk(Perform(s, q).0)
    ensures q.CreateStaff? && EmailUsed(s, q.email) ==> Perform(s, q).0 == s
  {
    forall j, k ensures EmailDistinct(Perform(s, q).0, j, k) {
      assert EmailDistinct(s, j, k);
    }
  }

  /** Whoever changes anything is an active admin of the business, and nothing of another business changes. */
  lemma OnlyOwnersChange(s: State, q: Request)
    ensures Perform(s, q).0 != s ==> OwnerContext(s, q.p) && Perform(s, q).1.Done?
    ensures forall k :: k in s.users && k.0 != q.p.business ==>
              k in Perform(s, q).0.users && Perform(s, q).0.users[k] == s.users[k]
    ensures forall k :: k in s.outlets && k.0 != q.p.business ==>
              k in Perform(s, q).0.outlets && Perform(s, q).0.outlets[k] == s.outlets[k]
    ensures forall a: (int, int, int) :: a.0 != q.p.business ==> (a in s.roster <==> a in Perform(s, q).0.roster)
  {
    forall a: (int, int, int) | a.0 != q.p.business ensures a in s.roster <==> a in Perform(s, q).0.roster {
      match q
      case CreateStaff(p, _, ids, id) => InAssignments(p.business, id, Unique(ids), a);
      case ReplaceOutlets(p, id, ids) => InAssignments(p.business, id, ids, a);
      case _ =>
    }
  }

  function Serial(s: State, log: seq<Request>): State {
    if log == [] then s else Perform(Serial(s, log[..|log| - 1]), log[|log| - 1]).0
  }

  /** Drawn ids are new, and no account without an active outlet is switched on. */
  ghost predicate Careful(s: State, log: seq<Request>) {
    log == [] ||
    (var before, q := Serial(s, log[..|log| - 1]), log[|log| - 1];
     && Careful(s, log[..|log| - 1]) && Fresh(before, q)
     && (Reactivates(before, q) ==> Works(before, q.p.business, q.id)))
  }

  lemma {:induction false} StaffAlways(s: State, log: seq<Request>)
    requires StaffOk(s) && Careful(s, log)
    ensures StaffOk(Serial(s, log))
  {
    if log != [] {
      StaffAlways(s, log[..|log| - 1]);
      KeepsStaffExactly(Serial(s, log[..|log| - 1]), log[|log| - 1]);
    }
  }

  lemma SerialAppended(s: State, log: seq<Request>, q: Request)
    ensures Serial(s, log + [q]) == Perform(Serial(s, log), q).0
  {
    assert (log + [q])[..|log|] == log;
  }

  /** One admin, one staff member, one outlet. */
  const SMALL := State({1}, map[(1, 1) := User(Admin, true), (1, 2) := User(Laundry, true)], map[],
                       map[(1, 7) := true], {(1, 2, 7)})

  lemma SmallIsSound()
    ensures StaffOk(SMALL)
  {
    forall k ensures UserSound(SMALL, k) {
      assert (1, 2, 7) in SMALL.roster && OutletActive(SMALL, 1, 7);
    }
    assert SMALL.users[(1, 1)] == User(Admin, true) && HasAdmin(SMALL, 1);
  }

  /** A member who is switched off, whose only outlet is then closed, and who is switched on again. */
  lemma ThreeStepsStrand(s: State, p: Principal, id: int, outlet: int)
    requires OwnerContext(s, p) && id != p.user && (p.business, id) in s.users
    requires s.users[(p.business, id)].role.Laundry?
    requires (p.business, outlet) in s.outlets
    requires forall k :: k in s.users && s.users[k] == User(Laundry, true) ==> k == (p.business, id)
    requires forall a :: a in s.roster && a.0 == p.business && a.1 == id ==> a.2 == outlet
    ensures var s1 := Perform(s, UpdateStaff(p, id, false)).0;
            var s2 := Perform(s1, UpdateOutlet(p, outlet, false)).0;
            !UserSound(Perform(s2, UpdateStaff(p, id, true)).0, (p.business, id))
  {
    var s1 := Perform(s, UpdateStaff(p, id, false)).0;
    assert !Stranded(s1, p.business, outlet);
    var s2 := Perform(s1, UpdateOutlet(p, outlet, false)).0;
    assert !OutletActive(s2, p.business, outlet);
    assert !Works(Perform(s2, UpdateStaff(p, id, true)).0, p.business, id);
  }

  /** Deactivate a member, deactivate their only outlet, reactivate the member: active, with nowhere to work. */
  lemma ReactivationStrands()
    ensures var p := Principal(1, 1);
            var log := [UpdateStaff(p, 2, false), UpdateOutlet(p, 7, false), UpdateStaff(p, 2, true)];
            StaffOk(SMALL) && !StaffOk(Serial(SMALL, log))
  {
    var p := Principal(1, 1);
    var off, close, on := UpdateStaff(p, 2, false), UpdateOutlet(p, 7, false), UpdateStaff(p, 2, true);
    SmallIsSound();
    ThreeStepsStrand(SMALL, p, 2, 7);
    SerialAppended(SMALL, [], off);
    SerialAppended(SMALL, [off], close);
    SerialAppended(SMALL, [off, close], on);
    assert [] + [off] == [off] && [off] + [close] == [off, close] && [off, close] + [on] == [off, close, on];
  }

  lemma KeepsValidExactly(s: State, q: Request)
    requires Fresh(s, q)
    ensures StaffOk(s) && EmailsOk(s) ==>
              EmailsOk(Perform(s, q).0)
              && (StaffOk(Perform(s, q).0) <==>
                  !(Reactivates(s, q) && OwnerContext(s, q.p) && !Works(s, q.p.business, q.id)))
  {
    if StaffOk(s) && EmailsOk(s) {
      KeepsStaffExactly(s, q);
      EmailsStayDistinct(s, q);
    }
  }

  // ------------------------------------------------------------------ the handlers

  class Management {
    var businesses: set<int>
    var users: map<(int, int), User>
    var emails: map<(int, int), string>
    var outlets: map<(int, int), bool>
    var roster: set<(int, int, int)>

    function Snapshot(): State
      reads this
    {
      State(businesses, users, emails, outlets, roster)
    }

    /** Active staff can work, every business has an active admin, no two accounts share an address. */
    ghost predicate Valid()
      reads this
    {
      StaffOk(Snapshot()) && EmailsOk(Snapshot())
    }

    constructor (s: State)
      ensures Snapshot() == s
    {
      businesses, users, emails, outlets, roster := s.businesses, s.users, s.emails, s.outlets, s.roster;
    }

    method ValidateOutletIDs(business: int, ids: seq<int>) returns (ok: bool)
      ensures ok == ValidOutlets(Snapshot(), business, ids)
    {
      var unique := UniqueIDs(ids);
      if |unique| != |ids| || |ids| == 0 {
        return false;
      }
      var locked := LockActiveOutlets(Snapshot(), business, ids);
      return |locked| == |ids|;
    }

    method AddStaffOutlets(business: int, user: int, ids: seq<int>)
      modifies this`roster
      ensures roster == old(roster) + Assignments(business, user, ids)
    {
      for i := 0 to |ids|
        invariant roster == old(roster) + Assignments(business, user, ids[..i])
      {
        assert ids[..i + 1][..i] == ids[..i];
        roster := roster + {(business, user, ids[i])};
      }
      assert ids[..|ids|] == ids;
    }

    method CreateStaff(p: Principal, email: string, outletIds: seq<int>, id: int) returns (reply: Reply)
      requires Fresh(Snapshot(), Request.CreateStaff(p, email, outletIds, id))
      modifies this
      ensures (Snapshot(), reply) == Perform(old(Snapshot()), Request.CreateStaff(p, email, outletIds, id))
      ensures old(Valid()) ==> Valid()
    {
      KeepsValidExactly(Snapshot(), Request.CreateStaff(p, email, outletIds, id));
      if |outletIds| == 0 {
        return InvalidOutlets;
      }
      if !OwnerContext(Snapshot(), p) {
        return Unauthorized;
      }
      var valid := ValidateOutletIDs(p.business, outletIds);
      if !valid {
        return InvalidOutlets;
      }
      if EmailUsed(Snapshot(), email) {
        return EmailTaken;
      }
      users := users[(p.business, id) := User(Laundry, true)];
      emails := emails[(p.business, id) := email];
      var unique := UniqueIDs(outletIds);
      AddStaffOutlets(p.business, id, unique);
      return Done;
    }

    /** The one handler that can leave the accounts unsound, and exactly when it does. */
    method UpdateStaff(p: Principal, id: int, active: bool) returns (reply: Reply)
      modifies this
      ensures (Snapshot(), reply) == Perform(old(Snapshot()), Request.UpdateStaff(p, id, active))
      ensures old(Valid()) ==>
                (Valid() <==> !old(Reactivates(Snapshot(), Request.UpdateStaff(p, id, active))
                                   && OwnerContext(Snapshot(), p) && !Works(Snapshot(), p.business, id)))
    {
      KeepsValidExactly(Snapshot(), Request.UpdateStaff(p, id, active));
      var k := (p.business, id);
      if id == p.user && !active {
        return SelfChange;
      }
      if !OwnerContext(Snapshot(), p) {
        return Unauthorized;
      }
      if k !in users {
        return NotFound;
      }
      if users[k].role.Admin? && users[k].active && !active && !OtherActiveAdmin(Snapshot(), p.business, id) {
        return LastActiveOwner;
      }
      users := users[k := users[k].(active := active)];
      return Done;
    }

    method ReplaceStaffOutlets(p: Principal, id: int, outletIds: seq<int>) returns (reply: Reply)
      modifies this
      ensures (Snapshot(), reply) == Perform(old(Snapshot()), ReplaceOutlets(p, id, outletIds))
      ensures old(Valid()) ==> Valid()
    {
      KeepsValidExactly(Snapshot(), ReplaceOutlets(p, id, outletIds));
      if id == p.user {
        return SelfChange;
      }
      var ids := UniqueIDs(outletIds);
      if |outletIds| == 0 || |ids| != |outletIds| {
        return InvalidOutlets;
      }
      UniqueKeepsExactly(outletIds);
      if !OwnerContext(Snapshot(), p) {
        return Unauthorized;
      }
      if (p.business, id) !in users {
        return NotFound;
      }
      if users[(p.business, id)].role != Laundry {
        return StaffOnly;
      }
      var valid := ValidateOutletIDs(p.business, ids);
      if !valid {
        return InvalidOutlets;
      }
      roster := Unassigned(roster, p.business, id);
      AddStaffOutlets(p.business, id, ids);
      return Done;
    }

    method UpdateOutlet(p: Principal, outlet: int, active: bool) returns (reply: Reply)
      modifies this
      ensures (Snapshot(), reply) == Perform(old(Snapshot()), Request.UpdateOutlet(p, outlet, active))
      ensures old(Valid()) ==> Valid()
    {
      KeepsValidExactly(Snapshot(), Request.UpdateOutlet(p, outlet, active));
      if !OwnerContext(Snapshot(), p) {
        return Unauthorized;
      }
      if (p.business, outlet) !in outlets {
        return NotFound;
      }
      if outlets[(p.business, outlet)] && !active && Stranded(Snapshot(), p.business, outlet) {
        return HasAssignedStaff;
      }
      outlets := outlets[(p.business, outlet) := active];
      return Done;
    }
  }
}
