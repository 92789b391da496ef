/**
 What each change of a receipt template does and answers, said of rows alone; every change has exactly
 one such effect.
 */
module TemplateEffects {
  import opened Outcome
  import opened Places
  import opened Templates
  import Tables

  /** What the outlet lock demands: an active business and outlet, and an active account in its role, assigned. */
  ghost predicate Manages(q: Request) {
    var dir := q.access.dir;
    && q.place.business == q.actor.business && q.place.business in q.access.activeBusinesses
    && q.place in dir.activeOutlets && (q.actor.business, q.actor.user) in dir.users
    && var user := dir.users[(q.actor.business, q.actor.user)];
       user.active && user.admin == q.actor.admin && (user.admin || (q.actor.user, q.place) in dir.assignments)
  }

  ghost predicate Has(t: Table, place: Place, id: int) { id in t && t[id].place == place && !t[id].deleted }

  ghost predicate Default(t: Table, place: Place, id: int) { Has(t, place, id) && t[id].isDefault }

  /** Another template of the outlet has the name. */
  ghost predicate NameHeld(t: Table, place: Place, name: string, but: Option<int>) {
    exists id :: Has(t, place, id) && t[id].name == name && but != Some(id)
  }

  /** The row is stored under the id; if it is a default the outlet's others are none, and nothing else changes. */
  ghost predicate Stores(t: Table, u: Table, id: int, row: Template) {
    && u.Keys == t.Keys + {id} && u[id] == row
    && forall x :: x in t && x != id ==>
         u[x] == if row.isDefault && Default(t, row.place, x) then t[x].(isDefault := false) else t[x]
  }

  ghost predicate CreateEffect(t: Table, q: Request, u: Table, reply: Reply)
    requires q.Create?
  {
    match reply
    case NotFound => u == t && !Manages(q)
    case NameTaken => u == t && Manages(q) && NameHeld(t, q.place, q.name, None)
    case Done =>
      && Manages(q) && !NameHeld(t, q.place, q.name, None)
      && exists chosen: bool ::
           && (chosen <==> q.isDefault == Some(true) || (q.isDefault == None && forall x :: !Default(t, q.place, x)))
           && Stores(t, u, q.id, Template(q.place, q.name, chosen, false))
  }

  ghost predicate UpdateEffect(t: Table, q: Request, u: Table, reply: Reply)
    requires q.Update?
  {
    match reply
    case NotFound => u == t && !(Manages(q) && Has(t, q.place, q.id))
    case NameTaken => u == t && Manages(q) && Has(t, q.place, q.id) && NameHeld(t, q.place, q.name, Some(q.id))
    case Done =>
      && Manages(q) && Has(t, q.place, q.id) && !NameHeld(t, q.place, q.name, Some(q.id))
      && Stores(t, u, q.id, Template(q.place, q.name, q.default, false))
  }

  /** The lowest id the outlet has left when one is gone. */
  ghost predicate Lowest(t: Table, place: Place, gone: int, id: int) {
    Has(t, place, id) && id != gone && forall x :: Has(t, place, x) && x != gone ==> id <= x
  }

  ghost predicate DeleteEffect(t: Table, q: Request, u: Table, reply: Reply)
    requires q.Delete?
  {
    match reply
    case NotFound => u == t && !(Manages(q) && Has(t, q.place, q.id))
    case NameTaken => false
    case Done =>
      && Manages(q) && Has(t, q.place, q.id) && u.Keys == t.Keys
      && u[q.id] == t[q.id].(deleted := true, isDefault := false)
      && forall x :: x in t && x != q.id ==>
           u[x] == if t[q.id].isDefault && Lowest(t, q.place, q.id, x) then t[x].(isDefault := true) else t[x]
  }

  ghost predicate Effect(t: Table, q: Request, u: Table, reply: Reply) {
    match q
    case Create(_, _, _, _, _, _) => CreateEffect(t, q, u, reply)
    case Update(_, _, _, _, _, _) => UpdateEffect(t, q, u, reply)
    case Delete(_, _, _, _) => DeleteEffect(t, q, u, reply)
  }

  lemma NameHeldExactly(t: Table, place: Place, name: string, but: Option<int>)
    ensures NameHeld(t, place, name, but) <==> Taken(t, place, name, but)
  {
    if NameHeld(t, place, name, but) {
      var id :| Has(t, place, id) && t[id].name == name && but != Some(id);
      assert id in t && Active(t, place, id);
    }
    if Taken(t, place, name, but) {
      var id :| id in t && Active(t, place, id) && t[id].name == name && but != Some(id);
      assert Has(t, place, id);
    }
  }

  lemma WriteStores(t: Table, id: int, row: Template)
    ensures Stores(t, Write(t, id, row), id, row)
  {}

  lemma CreateHasItsEffect(t: Table, q: Request)
    requires Fresh(t, q) && q.Create?
    ensures CreateEffect(t, q, Perform(t, q).0, Perform(t, q).1)
  {
    NameHeldExactly(t, q.place, q.name, None);
    assert HasDefault(t, q.place) <==> exists x :: Default(t, q.place, x) by {
      if x :| Default(t, q.place, x) {
        assert x in t && IsDefault(t, q.place, x);
      }
      if HasDefault(t, q.place) {
        var x :| x in t && IsDefault(t, q.place, x);
        assert Default(t, q.place, x);
      }
    }
    WriteStores(t, q.id, Template(q.place, q.name, Wanted(t, q.place, q.isDefault), false));
  }

  lemma UpdateHasItsEffect(t: Table, q: Request)
    requires q.Update?
    ensures UpdateEffect(t, q, Perform(t, q).0, Perform(t, q).1)
  {
    NameHeldExactly(t, q.place, q.name, Some(q.id));
    if Has(t, q.place, q.id) {
      WriteStores(t, q.id, Template(q.place, q.name, q.default, false));
    }
  }

  lemma DeleteHasItsEffect(t: Table, q: Request)
    requires q.Delete?
    ensures DeleteEffect(t, q, Perform(t, q).0, Perform(t, q).1)
  {
    if Has(t, q.place, q.id) {
      var u := t[q.id := t[q.id].(deleted := true, isDefault := false)];
      FirstFinds(u, q.place);
      forall x ensures Lowest(t, q.place, q.id, x) <==> First(u, q.place) == Some(x) {
        LowestIsFirst(t, q.place, q.id, x);
      }
    }
  }

  lemma LowestIsFirst(t: Table, place: Place, gone: int, x: int)
    requires Has(t, place, gone)
    ensures var u := t[gone := t[gone].(deleted := true, isDefault := false)];
            Lowest(t, place, gone, x) <==> First(u, place) == Some(x)
  {
    var u := t[gone := t[gone].(deleted := true, isDefault := false)];
    FirstFinds(u, place);
    assert forall y :: Active(u, place, y) <==> Has(t, place, y) && y != gone;
    if Lowest(t, place, gone, x) {
      assert Active(u, place, x);
      var f := First(u, place).value;
      assert Has(t, place, f) && f != gone;
    }
    if First(u, place) == Some(x) {
      forall y | Has(t, place, y) && y != gone ensures x <= y {
        assert y in u && Active(u, place, y);
      }
    }
  }

  lemma EveryChangeHasItsEffect(t: Table, q: Request)
    requires Fresh(t, q)
    ensures Effect(t, q, Perform(t, q).0, Perform(t, q).1)
  {
    match q
    case Create(_, _, _, _, _, _) => CreateHasItsEffect(t, q);
    case Update(_, _, _, _, _, _) => UpdateHasItsEffect(t, q);
    case Delete(_, _, _, _) => DeleteHasItsEffect(t, q);
  }

  lemma StoresOnce(t: Table, u: Table, v: Table, id: int, row: Template)
    requires Stores(t, u, id, row) && Stores(t, v, id, row)
    ensures u == v
  {
    forall x | x in u ensures u[x] == v[x] {
      assert x in t || x == id;
    }
  }

  lemma EffectIsUnique(t: Table, q: Request, u: Table, a: Reply, v: Table, b: Reply)
    requires Effect(t, q, u, a) && Effect(t, q, v, b)
    ensures u == v && a == b
  {
    if a.Done? && b.Done? {
      match q
      case Create(_, _, place, name, sent, id) =>
        var chosen: bool :| (chosen <==> sent == Some(true) || (sent == None && forall x :: !Default(t, place, x)))
                            && Stores(t, u, id, Template(place, name, chosen, false));
        StoresOnce(t, u, v, id, Template(place, name, chosen, false));
      case Update(_, _, place, id, name, sent) => StoresOnce(t, u, v, id, Template(place, name, sent, false));
      case Delete(_, _, place, id) =>
        forall x | x in u ensures u[x] == v[x] {}
    }
  }

  /** A change does and answers something exactly when that is its effect. */
  lemma EffectExactly(t: Table, q: Request, u: Table, reply: Reply)
    requires Fresh(t, q)
    ensures Effect(t, q, u, reply) <==> (u, reply) == Perform(t, q)
  {
    EveryChangeHasItsEffect(t, q);
    if Effect(t, q, u, reply) {
      EffectIsUnique(t, q, u, reply, Perform(t, q).0, Perform(t, q).1);
    }
  }
}
