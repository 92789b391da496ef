/**
 Receipt templates of an outlet and which of them is the default. Every change holds the outlet's row
 lock, so changes to one outlet run one at a time.
 */
module Templates {
  import opened Outcome
  import opened Places
  import opened Sets
  import Tables

  /** The name is held in the folded form its unique index compares. */
  datatype Template = Template(place: Place, name: string, isDefault: bool, deleted: bool)

  type Table = map<int, Template>

  /** Rows of other tables that the outlet lock joins, as it finds them. */
  datatype Access = Access(activeBusinesses: set<int>, dir: Tables.Directory)

  datatype Request =
    | Create(access: Access, actor: Tables.Actor, place: Place, name: string, isDefault: Option<bool>, id: int)
    | Update(access: Access, actor: Tables.Actor, place: Place, id: int, name: string, default: bool)
    | Delete(access: Access, actor: Tables.Actor, place: Place, id: int)

  datatype Reply = NotFound | NameTaken | Done

  /** SELECT ... FOR UPDATE OF outlet: a business and outlet that are active, and a caller who may reach it. */
  predicate MayManage(access: Access, actor: Tables.Actor, place: Place) {
    && place.business == actor.business && place.business in access.activeBusinesses
    && Tables.MayReach(access.dir, actor, place)
  }

  // ------------------------------------------------------------------ the statements

  predicate Active(t: Table, place: Place, id: int) { id in t && t[id].place == place && !t[id].deleted }

  predicate IsDefault(t: Table, place: Place, id: int) { Active(t, place, id) && t[id].isDefault }

  predicate HasDefault(t: Table, place: Place) { exists id :: id in t && IsDefault(t, place, id) }

  predicate Taken(t: Table, place: Place, name: string, except: Option<int>) {
    exists id :: id in t && Active(t, place, id) && t[id].name == name && except != Some(id)
  }

  function ClearDefaults(t: Table, place: Place): Table {
    map id | id in t :: if IsDefault(t, place, id) then t[id].(isDefault := false) else t[id]
  }

  ghost function ActiveIds(t: Table, place: Place): set<int> { set id | id in t && Active(t, place, id) }

  /** ORDER BY id LIMIT 1 */
  predicate IsFirst(t: Table, place: Place, id: int) {
    Active(t, place, id) && forall x :: x in t && Active(t, place, x) ==> id <= x
  }

  ghost function First(t: Table, place: Place): Option<int> {
    if exists id :: id in t && IsFirst(t, place, id) then var id :| id in t && IsFirst(t, place, id); Some(id) else None
  }

  lemma FirstFinds(t: Table, place: Place)
    ensures First(t, place).None? <==> forall id :: !Active(t, place, id)
    ensures First(t, place).Some? ==> IsFirst(t, place, First(t, place).value)
  {
    if ActiveIds(t, place) != {} {
      var x := SmallestExists(ActiveIds(t, place));
      assert forall y :: y in t && Active(t, place, y) ==> y in ActiveIds(t, place);
      assert IsFirst(t, place, x);
    } else {
      forall id ensures !Active(t, place, id) {
        assert id !in ActiveIds(t, place);
      }
    }
  }

  ghost function PromoteFirst(t: Table, place: Place): Table {
    match First(t, place)
    case None => t
    case Some(id) => if id in t then t[id := t[id].(isDefault := true)] else t
  }

  // ------------------------------------------------------------------ the operations

  /** The default flag a change asks for: what was sent, or whether the outlet still lacks a default. */
  function Wanted(t: Table, place: Place, sent: Option<bool>): bool {
    if sent.Some? then sent.value else !HasDefault(t, place)
  }

  function Write(t: Table, id: int, row: Template): Table {
    (if row.isDefault then ClearDefaults(t, row.place) else t)[id := row]
  }

  ghost function Perform(t: Table, q: Request): (Table, Reply) {
    if !MayManage(q.access, q.actor, q.place) then (t, NotFound)
    else
      match q
      case Create(_, _, place, name, sent, id) =>
        if Taken(t, place, name, None) then (t, NameTaken)
        else (Write(t, id, Template(place, name, Wanted(t, place, sent), false)), Done)
      case Update(_, _, place, id, name, sent) =>
        if !Active(t, place, id) then (t, NotFound)
        else if Taken(t, place, name, Some(id)) then (t, NameTaken)
        else (Write(t, id, Template(place, name, sent, false)), Done)
      case Delete(_, _, place, id) =>
        if !Active(t, place, id) then (t, NotFound)
        else
          var u := t[id := t[id].(deleted := true, isDefault := false)];
          (if t[id].isDefault then PromoteFirst(u, place) else u, Done)
  }

  ghost predicate Fresh(t: Table, q: Request) { q.Create? ==> q.id !in t }

  // ------------------------------------------------------------------ the invariant

  ghost predicate AtMostOne(t: Table, a: int, b: int) {
    a in t && b in t && t[a].place == t[b].place && IsDefault(t, t[a].place, a) && IsDefault(t, t[b].place, b) ==>
      a == b
  }

  ghost predicate DeletedSound(t: Table, id: int) { id in t && t[id].deleted ==> !t[id].isDefault }

  /** Two templates of an outlet that are not deleted have different names. */
  ghost predicate NamesDiffer(t: Table, a: int, b: int) {
    a in t && b in t && a != b && t[a].place == t[b].place && !t[a].deleted && !t[b].deleted ==> t[a].name != t[b].name
  }

  ghost predicate TableOk(t: Table) {
    && (forall a, b :: AtMostOne(t, a, b)) && (forall id :: DeletedSound(t, id))
    && (forall a, b :: NamesDiffer(t, a, b))
  }

  lemma WriteKeeps(t: Table, id: int, row: Template)
    requires TableOk(t) && !row.deleted && (id in t ==> t[id].place == row.place)
    requires !Taken(t, row.place, row.name, Some(id))
    ensures TableOk(Write(t, id, row))
  {
    var u := Write(t, id, row);
    forall a, b ensures NamesDiffer(u, a, b) {
      assert NamesDiffer(t, a, b);
      assert a in t && Active(t, row.place, a) && a != id ==> t[a].name != row.name;
      assert b in t && Active(t, row.place, b) && b != id ==> t[b].name != row.name;
    }
    forall a, b ensures AtMostOne(u, a, b) {
      assert AtMostOne(t, a, b);
    }
    forall x ensures DeletedSound(u, x) {
      assert DeletedSound(t, x);
    }
  }

  /** Removing the default leaves none, so promoting one other leaves exactly one. */
  lemma RemoveKeeps(t: Table, place: Place, id: int)
    requires TableOk(t) && Active(t, place, id)
    ensures var u := t[id := t[id].(deleted := true, isDefault := false)];
            TableOk(u) && (t[id].isDefault ==> !HasDefault(u, place))
  {
    var u := t[id := t[id].(deleted := true, isDefault := false)];
    forall a, b ensures AtMostOne(u, a, b) && NamesDiffer(u, a, b) {
      assert AtMostOne(t, a, b) && NamesDiffer(t, a, b);
    }
    forall x ensures DeletedSound(u, x) {
      assert DeletedSound(t, x);
    }
    if t[id].isDefault {
      forall x ensures !IsDefault(u, place, x) {
        assert x in t ==> AtMostOne(t, id, x);
      }
    }
  }

  lemma PromoteKeeps(t: Table, place: Place)
    requires TableOk(t) && !HasDefault(t, place)
    ensures TableOk(PromoteFirst(t, place))
    ensures HasDefault(PromoteFirst(t, place), place) <==> exists id :: id in t && Active(t, place, id)
  {
    FirstFinds(t, place);
    var u := PromoteFirst(t, place);
    forall a, b ensures AtMostOne(u, a, b) && NamesDiffer(u, a, b) {
      assert AtMostOne(t, a, b) && NamesDiffer(t, a, b);
    }
    forall x ensures DeletedSound(u, x) {
      assert DeletedSound(t, x);
    }
    if First(t, place).Some? {
      var id := First(t, place).value;
      assert Active(t, place, id) && IsDefault(u, place, id);
    }
  }

  lemma RequestKeepsTable(t: Table, q: Request)
    requires TableOk(t) && Fresh(t, q)
    ensures TableOk(Perform(t, q).0)
  {
    if Perform(t, q).1.Done? {
      match q
      case Create(_, _, place, name, sent, id) =>
        WriteKeeps(t, id, Template(place, name, Wanted(t, place, sent), false));
      case Update(_, _, place, id, name, sent) => WriteKeeps(t, id, Template(place, name, sent, false));
      case Delete(_, _, place, id) =>
        RemoveKeeps(t, place, id);
        if t[id].isDefault {
          PromoteKeeps(t[id := t[id].(deleted := true, isDefault := false)], place);
        }
    }
  }

  /** If the row belongs to another outlet, before or after, it is the same row before and after. */
  ghost predicate SameElsewhere(t: Table, u: Table, place: Place, id: int) {
    && (id in t && t[id].place != place ==> id in u && u[id] == t[id])
    && (id in u && u[id].place != place ==> id in t && t[id] == u[id])
  }

  /** Only who may manage the outlet changes anything, and other outlets' templates stay exactly as they are. */
  lemma OtherOutletsUntouched(t: Table, q: Request)
    requires Fresh(t, q)
    ensures Perform(t, q).0 != t ==> MayManage(q.access, q.actor, q.place) && Perform(t, q).1.Done?
    ensures forall id :: SameElsewhere(t, Perform(t, q).0, q.place, id)
  {
    if q.Delete? && Active(t, q.place, q.id) {
      FirstFinds(t[q.id := t[q.id].(deleted := true, isDefault := false)], q.place);
    }
  }

  ghost function Serial(t: Table, log: seq<Request>): Table {
    if log == [] then t else Perform(Serial(t, log[..|log| - 1]), log[|log| - 1]).0
  }

  ghost predicate FreshLog(t: Table, log: seq<Request>) {
    log == [] || (FreshLog(t, log[..|log| - 1]) && Fresh(Serial(t, log[..|log| - 1]), log[|log| - 1]))
  }

  /** In every run each outlet has at most one active default, and no deleted template is one. */
  lemma {:induction false} TableAlways(t: Table, log: seq<Request>)
    requires TableOk(t) && FreshLog(t, log)
    ensures TableOk(Serial(t, log))
  {
    if log != [] {
      TableAlways(t, log[..|log| - 1]);
      RequestKeepsTable(Serial(t, log[..|log| - 1]), log[|log| - 1]);
    }
  }

  // ------------------------------------------------------------------ when an outlet has a default

  ghost predicate HasTemplates(t: Table, place: Place) { exists id :: id in t && Active(t, place, id) }

  /** An outlet with templates has a default among them; with TableOk, exactly one. */
  ghost predicate Served(t: Table, place: Place) { HasTemplates(t, place) ==> HasDefault(t, place) }

  /** Creating without saying so leaves a default, and it is the new one when there was none. */
  lemma OmittedDefaultServes(t: Table, q: Request)
    requires TableOk(t) && Fresh(t, q) && q.Create? && q.isDefault.None? && Perform(t, q).1.Done?
    ensures HasDefault(Perform(t, q).0, q.place)
    ensures IsDefault(Perform(t, q).0, q.place, q.id) <==> !HasDefault(t, q.place)
  {
    var u := Perform(t, q).0;
    assert q.id in u;
    if HasDefault(t, q.place) {
      var x :| x in t && IsDefault(t, q.place, x);
      assert x in u && IsDefault(u, q.place, x);
    } else {
      assert IsDefault(u, q.place, q.id);
    }
  }

  /** Deleting the default hands the role to the remaining template with the lowest id, if any remains. */
  lemma DeletingDefaultPromotesLowest(t: Table, q: Request)
    requires TableOk(t) && q.Delete? && MayManage(q.access, q.actor, q.place) && IsDefault(t, q.place, q.id)
    ensures forall id :: IsDefault(Perform(t, q).0, q.place, id) <==> id != q.id && IsFirstBut(t, q.place, q.id, id)
    ensures HasDefault(Perform(t, q).0, q.place) <==> HasTemplates(Perform(t, q).0, q.place)
  {
    var u := t[q.id := t[q.id].(deleted := true, isDefault := false)];
    var v := Perform(t, q).0;
    RemoveKeeps(t, q.place, q.id);
    PromoteKeeps(u, q.place);
    FirstFinds(u, q.place);
    assert forall id :: Active(u, q.place, id) <==> id != q.id && Active(t, q.place, id);
    forall id ensures IsDefault(v, q.place, id) <==> id != q.id && IsFirstBut(t, q.place, q.id, id) {
      assert !IsDefault(u, q.place, id);
      assert IsDefault(v, q.place, id) <==> First(u, q.place) == Some(id);
      assert IsFirst(u, q.place, id) <==> id != q.id && IsFirstBut(t, q.place, q.id, id);
      assert IsFirst(u, q.place, id) ==> First(u, q.place) == Some(id);
    }
    if HasTemplates(u, q.place) {
      var x :| x in u && Active(u, q.place, x);
      assert x in v && Active(v, q.place, x);
    }
    if HasTemplates(v, q.place) {
      var x :| x in v && Active(v, q.place, x);
      assert x in u && Active(u, q.place, x);
    }
  }

  /** The lowest active template of the outlet apart from one. */
  ghost predicate IsFirstBut(t: Table, place: Place, gone: int, id: int) {
    Active(t, place, id) && forall x :: x in t && x != gone && Active(t, place, x) ==> id <= x
  }

  /** Says that the outlet shall do without: a first template sent as not default, or the default unset. */
  predicate Declines(t: Table, q: Request) {
    match q
    case Create(_, _, place, _, sent, _) => sent == Some(false) && !HasDefault(t, place)
    case Update(_, _, place, id, _, sent) => !sent && IsDefault(t, place, id)
    case Delete(_, _, _, _) => false
  }

  lemma WriteServes(t: Table, id: int, row: Template)
    requires TableOk(t) && !row.deleted && (id in t ==> t[id].place == row.place) && Served(t, row.place)
    ensures Served(Write(t, id, row), row.place) <==>
              row.isDefault || exists x :: x in t && x != id && IsDefault(t, row.place, x)
  {
    var u := Write(t, id, row);
    assert id in u && Active(u, row.place, id);
    if row.isDefault {
      assert IsDefault(u, row.place, id);
    } else {
      if x :| x in t && x != id && IsDefault(t, row.place, x) {
        assert x in u && IsDefault(u, row.place, x);
      }
      if HasDefault(u, row.place) {
        var x :| x in u && IsDefault(u, row.place, x);
        assert x in t && x != id && IsDefault(t, row.place, x);
      }
    }
  }

  /** A served outlet stays served by every completed change except exactly one that declines the default. */
  lemma StaysServedExactly(t: Table, q: Request)
    requires TableOk(t) && Fresh(t, q) && Served(t, q.place) && Perform(t, q).1.Done?
    ensures Served(Perform(t, q).0, q.place) <==> !Declines(t, q)
  {
    match q
    case Create(_, _, place, name, sent, id) =>
      WriteServes(t, id, Template(place, name, Wanted(t, place, sent), false));
      assert HasDefault(t, place) <==> exists x :: x in t && x != id && IsDefault(t, place, x);
    case Update(_, _, place, id, name, sent) =>
      WriteServes(t, id, Template(place, name, sent, false));
      assert HasTemplates(t, place);
      var d :| d in t && IsDefault(t, place, d);
      assert forall x :: x in t && IsDefault(t, place, x) ==> AtMostOne(t, d, x);
    case Delete(_, _, place, id) =>
      if t[id].isDefault {
        DeletingDefaultPromotesLowest(t, q);
      } else {
        assert HasTemplates(t, place);
        var d :| d in t && IsDefault(t, place, d);
        assert d in Perform(t, q).0 && IsDefault(Perform(t, q).0, place, d);
      }
  }

  /** Any outlet's first template, sent as not the default, leaves the outlet with a template and no default. */
  lemma DeclinedDefaultLeavesNone(access: Access, actor: Tables.Actor, place: Place, name: string, id: int)
    requires MayManage(access, actor, place)
    ensures var u := Perform(map[], Create(access, actor, place, name, Some(false), id));
            u.1.Done? && HasTemplates(u.0, place) && !HasDefault(u.0, place)
  {
    assert Active(Perform(map[], Create(access, actor, place, name, Some(false), id)).0, place, id);
  }

  // ------------------------------------------------------------------ the handlers

  class ReceiptTemplates {
    var rows: Table

    ghost predicate Valid()
      reads this
    {
      TableOk(rows)
    }

    constructor ()
      ensures Valid() && rows == map[]
    {
      rows := map[];
    }

    method ClearActiveDefaults(place: Place)
      modifies this
      ensures rows == ClearDefaults(old(rows), place)
    {
      rows := ClearDefaults(rows, place);
    }

    method CreateTemplate(access: Access, actor: Tables.Actor, place: Place, name: string, isDefault: Option<bool>,
                          id: int)
      returns (reply: Reply)
      requires Valid() && id !in rows
      modifies this
      ensures Valid() && (rows, reply) == Perform(old(rows), Create(access, actor, place, name, isDefault, id))
    {
      RequestKeepsTable(rows, Create(access, actor, place, name, isDefault, id));
      if !MayManage(access, actor, place) {
        return NotFound;
      }
      var def := if isDefault.Some? then isDefault.value else !HasDefault(rows, place);
      if Taken(rows, place, name, None) {
        return NameTaken;
      }
      if def {
        ClearActiveDefaults(place);
      }
      rows := rows[id := Template(place, name, def, false)];
      return Done;
    }

    method UpdateTemplate(access: Access, actor: Tables.Actor, place: Place, id: int, name: string, isDefault: bool)
      returns (reply: Reply)
      requires Valid()
      modifies this
      ensures Valid() && (rows, reply) == Perform(old(rows), Update(access, actor, place, id, name, isDefault))
    {
      RequestKeepsTable(rows, Update(access, actor, place, id, name, isDefault));
      if !MayManage(access, actor, place) || !Active(rows, place, id) {
        return NotFound;
      }
      if Taken(rows, place, name, Some(id)) {
        return NameTaken;
      }
      if isDefault {
        ClearActiveDefaults(place);
      }
      rows := rows[id := Template(place, name, isDefault, false)];
      return Done;
    }

    method DeleteTemplate(access: Access, actor: Tables.Actor, place: Place, id: int) returns (reply: Reply)
      requires Valid()
      modifies this
      ensures Valid() && (rows, reply) == Perform(old(rows), Delete(access, actor, place, id))
    {
      RequestKeepsTable(rows, Delete(access, actor, place, id));
      if !MayManage(access, actor, place) || !Active(rows, place, id) {
        return NotFound;
      }
      var found := rows[id];
      rows := rows[id := found.(deleted := true, isDefault := false)];
      if found.isDefault {
        SetNextDefault(place);
      }
      return Done;
    }

    method SetNextDefault(place: Place)
      modifies this
      ensures rows == PromoteFirst(old(rows), place)
    {
      FirstFinds(rows, place);
      if id :| id in rows && IsFirst(rows, place, id) {
        assert First(rows, place) == Some(id);
        rows := rows[id := rows[id].(isDefault := true)];
      } else {
        assert First(rows, place).None?;
      }
    }
  }
}
