/**
 What the figures of the outlet report are figures of: exactly the outlet's orders received, and its
 confirmed payments taken, in the local days shown; a void takes its payment out again.
 */
module ReportContents {
  import opened Outcome
  import opened Places
  import opened Sets
  import opened Tables
  import opened Plans
  import opened Ledger
  import opened Numbers
  import opened Retries
  import opened Shapes
  import opened Effects
  import opened Reports
  import Text

  // ------------------------------------------------------------------ income

  /** Local days of an outlet, for one payment method or for all. */
  datatype Cut = Cut(place: Place, offset: int, from: int, to: int, means: Option<Method>)

  /** The payment was taken there and then, whether or not it still stands. */
  predicate Falls(p: Payment, c: Cut) {
    && p.place == c.place && (c.means == None || c.means == Some(p.means))
    && p.confirmedAt.Some? && c.from <= LocalDay(p.confirmedAt.value, c.offset) <= c.to
  }

  function Selected(rows: seq<Payment>, c: Cut): seq<Payment> {
    if rows == [] then []
    else
      var r := Selected(rows[..|rows| - 1], c);
      if Falls(rows[|rows| - 1], c) then r + [rows[|rows| - 1]] else r
  }

  function Standing(rows: seq<Payment>): nat {
    if rows == [] then 0
    else Standing(rows[..|rows| - 1]) + if rows[|rows| - 1].state == Confirmed then 1 else 0
  }

  /** The number and the confirmed total of the payments of a cut. */
  function Takings(rows: seq<Payment>, c: Cut): Figures {
    NONE.(count := Standing(Selected(rows, c)), value := PaidTotal(Selected(rows, c)))
  }

  function OneReceipt(p: Payment): Figures { NONE.(count := 1, value := p.amount) }

  lemma TakingsAppended(rows: seq<Payment>, p: Payment, c: Cut)
    ensures Takings(rows + [p], c) ==
            if Falls(p, c) && p.state == Confirmed then Plus(Takings(rows, c), OneReceipt(p)) else Takings(rows, c)
  {
    assert (rows + [p])[..|rows|] == rows;
    PaidAppended(Selected(rows, c), p);
    assert (Selected(rows, c) + [p])[..|Selected(rows, c)|] == Selected(rows, c);
  }

  lemma OnlyAppended<K>(rows: seq<Row<K>>, row: Row<K>, key: K)
    ensures Sum(Only(rows + [row], key)) ==
            if row.key == key then Plus(Sum(Only(rows, key)), row.figures) else Sum(Only(rows, key))
  {
    assert (rows + [row])[..|rows|] == rows;
    SumAppended(Only(rows, key), row);
  }

  /** One payment more adds its row, under its day and its method, exactly when it stands and falls in the window. */
  lemma IncomeRowAdded(rows: seq<Payment>, p: Payment, c: Cut)
    requires c.means.None?
    ensures var days, methods := IncomeByDay(rows, c.place, c.offset, c.from, c.to),
                                 IncomeByMethod(rows, c.place, c.offset, c.from, c.to);
            if Falls(p, c) && p.state == Confirmed
            then && IncomeByDay(rows + [p], c.place, c.offset, c.from, c.to) ==
                    days + [Row(LocalDay(p.confirmedAt.value, c.offset), OneReceipt(p))]
                 && IncomeByMethod(rows + [p], c.place, c.offset, c.from, c.to) ==
                    methods + [Row(p.means, OneReceipt(p))]
            else && IncomeByDay(rows + [p], c.place, c.offset, c.from, c.to) == days
                 && IncomeByMethod(rows + [p], c.place, c.offset, c.from, c.to) == methods
  {
    assert (rows + [p])[..|rows|] == rows;
    if p.confirmedAt.Some? {
      WindowIsDays(p.confirmedAt.value, c.offset, c.from, c.to);
    }
  }

  lemma FallsOnDay(p: Payment, c: Cut, day: int)
    requires c.from <= day <= c.to
    ensures Falls(p, c.(from := day, to := day)) <==> Falls(p, c) && LocalDay(p.confirmedAt.value, c.offset) == day
  {}

  lemma DayGrows(days: seq<Row<int>>, head: seq<Payment>, p: Payment, c: Cut, at: int, day: int)
    requires Sum(Only(days, day)) == Takings(head, c)
    requires p.state == Confirmed ==> (Falls(p, c) <==> at == day)
    ensures p.state == Confirmed ==> Sum(Only(days + [Row(at, OneReceipt(p))], day)) == Takings(head + [p], c)
    ensures p.state != Confirmed ==> Sum(Only(days, day)) == Takings(head + [p], c)
    ensures !Falls(p, c) ==> Sum(Only(days, day)) == Takings(head + [p], c)
  {
    TakingsAppended(head, p, c);
    OnlyAppended(days, Row(at, OneReceipt(p)), day);
  }

  lemma IncomeOfDayNext(head: seq<Payment>, p: Payment, c: Cut, day: int)
    requires c.means.None? && c.from <= day <= c.to
    requires Sum(Only(IncomeByDay(head, c.place, c.offset, c.from, c.to), day)) ==
             Takings(head, c.(from := day, to := day))
    ensures Sum(Only(IncomeByDay(head + [p], c.place, c.offset, c.from, c.to), day)) ==
            Takings(head + [p], c.(from := day, to := day))
  {
    var days := IncomeByDay(head, c.place, c.offset, c.from, c.to);
    IncomeRowAdded(head, p, c);
    FallsOnDay(p, c, day);
    if Falls(p, c) {
      DayGrows(days, head, p, c.(from := day, to := day), LocalDay(p.confirmedAt.value, c.offset), day);
    } else {
      TakingsAppended(head, p, c.(from := day, to := day));
    }
  }

  lemma {:induction false} IncomeOfDay(rows: seq<Payment>, c: Cut, day: int)
    requires c.means.None? && c.from <= day <= c.to
    ensures Sum(Only(IncomeByDay(rows, c.place, c.offset, c.from, c.to), day)) ==
            Takings(rows, c.(from := day, to := day))
  {
    if rows != [] {
      var n := |rows| - 1;
      IncomeOfDay(rows[..n], c, day);
      IncomeOfDayNext(rows[..n], rows[n], c, day);
      assert rows == rows[..n] + [rows[n]];
    }
  }

  lemma IncomeOfMethodNext(head: seq<Payment>, p: Payment, c: Cut, m: Method)
    requires c.means.None?
    requires Sum(Only(IncomeByMethod(head, c.place, c.offset, c.from, c.to), m)) == Takings(head, c.(means := Some(m)))
    ensures Sum(Only(IncomeByMethod(head + [p], c.place, c.offset, c.from, c.to), m)) ==
            Takings(head + [p], c.(means := Some(m)))
  {
    IncomeRowAdded(head, p, c);
    TakingsAppended(head, p, c.(means := Some(m)));
    if Falls(p, c) {
      OnlyAppended(IncomeByMethod(head, c.place, c.offset, c.from, c.to), Row(p.means, OneReceipt(p)), m);
    }
  }

  lemma {:induction false} IncomeOfMethod(rows: seq<Payment>, c: Cut, m: Method)
    requires c.means.None?
    ensures Sum(Only(IncomeByMethod(rows, c.place, c.offset, c.from, c.to), m)) == Takings(rows, c.(means := Some(m)))
  {
    if rows != [] {
      var n := |rows| - 1;
      IncomeOfMethod(rows[..n], c, m);
      IncomeOfMethodNext(rows[..n], rows[n], c, m);
      assert rows == rows[..n] + [rows[n]];
    }
  }

  lemma IncomeInAllNext(head: seq<Payment>, p: Payment, c: Cut)
    requires c.means.None? && Sum(IncomeByDay(head, c.place, c.offset, c.from, c.to)) == Takings(head, c)
    ensures Sum(IncomeByDay(head + [p], c.place, c.offset, c.from, c.to)) == Takings(head + [p], c)
  {
    IncomeRowAdded(head, p, c);
    TakingsAppended(head, p, c);
    if Falls(p, c) {
      SumAppended(IncomeByDay(head, c.place, c.offset, c.from, c.to),
                  Row(LocalDay(p.confirmedAt.value, c.offset), OneReceipt(p)));
    }
  }

  lemma {:induction false} IncomeInAll(rows: seq<Payment>, c: Cut)
    requires c.means.None?
    ensures Sum(IncomeByDay(rows, c.place, c.offset, c.from, c.to)) == Takings(rows, c)
  {
    if rows != [] {
      var n := |rows| - 1;
      IncomeInAll(rows[..n], c);
      IncomeInAllNext(rows[..n], rows[n], c);
      assert rows == rows[..n] + [rows[n]];
    }
  }

  lemma {:induction false} DayOf(groups: seq<Row<int>>, from: int, to: int, day: int)
    requires from <= day <= to
    ensures |Daily(groups, from, to)| == to - from + 1
    ensures Daily(groups, from, to)[day - from] == Row(day, Lookup(groups, day))
    decreases 1 + to - from
  {
    DailyIsCalendar(groups, from, to);
    if day < to {
      DayOf(groups, from, to - 1, day);
    } else {
      DailyIsCalendar(groups, from, to - 1);
    }
  }

  /**
   The income report counts exactly the outlet's confirmed payments taken in the window: in all, on every
   day and by every method.
   */
  lemma IncomeIsTakings(t: Tables, place: Place, offset: int, from: int, to: int, day: int, m: Method)
    requires from <= day <= to
    ensures var r, c := IncomeReport(t, place, offset, from, to), Cut(place, offset, from, to, None);
            && r.summary == Takings(t.payments, c) && |r.daily| == to - from + 1
            && r.daily[day - from] == Row(day, Takings(t.payments, c.(from := day, to := day)))
            && Lookup(r.groups, m) == Takings(t.payments, c.(means := Some(m)))
  {
    var days := IncomeByDay(t.payments, place, offset, from, to);
    IncomeInAll(t.payments, Cut(place, offset, from, to, None));
    IncomeOfDay(t.payments, Cut(place, offset, from, to, None), day);
    IncomeOfMethod(t.payments, Cut(place, offset, from, to, None), m);
    GroupsAddUp(days, day);
    GroupsAddUp(IncomeByMethod(t.payments, place, offset, from, to), m);
    DayOf(GroupBy(days), from, to, day);
  }

  /** The takings before are those after and, if it fell in the cut, the payment. */
  predicate Lost(before: Figures, after: Figures, p: Payment, c: Cut) {
    before == if Falls(p, c) then Plus(after, OneReceipt(p)) else after
  }

  lemma LostStays(was: seq<Payment>, now: seq<Payment>, next: Payment, p: Payment, c: Cut)
    requires Lost(Takings(was, c), Takings(now, c), p, c)
    ensures Lost(Takings(was + [next], c), Takings(now + [next], c), p, c)
  {
    TakingsAppended(was, next, c);
    TakingsAppended(now, next, c);
  }

  lemma LostHere(head: seq<Payment>, was: Payment, now: Payment, c: Cut)
    requires was.state.Confirmed? && now.state.Voided? && SameReceipt(was, now)
    ensures Lost(Takings(head + [was], c), Takings(head + [now], c), now, c)
  {
    TakingsAppended(head, was, c);
    TakingsAppended(head, now, c);
  }

  lemma {:induction false} StruckTakings(rows: seq<Payment>, k: nat, p: Payment, c: Cut)
    requires k < |rows| && rows[k].state.Confirmed? && p.state.Voided? && SameReceipt(rows[k], p)
    ensures Lost(Takings(rows, c), Takings(rows[k := p], c), p, c)
  {
    var n := |rows| - 1;
    assert rows == rows[..n] + [rows[n]];
    if k < n {
      StruckTakings(rows[..n], k, p, c);
      LostStays(rows[..n], rows[..n][k := p], rows[n], p, c);
      assert rows[k := p] == rows[..n][k := p] + [rows[n]];
    } else {
      LostHere(rows[..n], rows[n], p, c);
      assert rows[k := p] == rows[..n] + [p];
    }
  }

  /** A void takes exactly its payment out of the income of every cut it was taken in, and out of no other. */
  lemma VoidLowersIncome(t: Tables, env: Env, actor: Actor, id: int, target: int, given: string, c: Cut)
    requires LedgerOk(t) && FreshIds(t, env.ids) && VoidPlan(t, env, actor, id, target, given).reply.VoidDone?
    requires After(t, env, Request.Void(actor, id, target, given)) != t
    ensures var u, p := After(t, env, Request.Void(actor, id, target, given)),
                        VoidPlan(t, env, actor, id, target, given).reply.payment;
            Lost(Takings(t.payments, c), Takings(u.payments, c), p, c)
  {
    var u := After(t, env, Request.Void(actor, id, target, given));
    var reason, reply := Text.Trim(given), VoidPlan(t, env, actor, id, target, given).reply;
    VoidHasItsEffect(t, env, actor, id, target, given);
    var k: nat :| VoidsAt(t, env, actor, id, target, reason, k, u, reply);
    StruckTakings(t.payments, k, reply.payment, c);
  }

  /** A first recording adds exactly its payment to the income of today and of its method. */
  lemma RecordingRaisesIncome(t: Tables, env: Env, actor: Actor, id: int, i: PaymentInput, c: Cut)
    requires LedgerOk(t) && FreshIds(t, env.ids) && id in t.orders
    requires RecordPlan(t, env, actor, id, i).reply.Recorded? && !RecordPlan(t, env, actor, id, i).reply.replayed
    ensures var u, p := After(t, env, Record(actor, id, i)), RecordPlan(t, env, actor, id, i).reply.payment;
            && Takings(u.payments, c) == (if Falls(p, c) then Plus(Takings(t.payments, c), OneReceipt(p))
                                          else Takings(t.payments, c))
            && (Falls(p, c) <==> t.orders[id].place == c.place && (c.means == None || c.means == Some(i.means))
                                 && c.from <= LocalDay(env.now, c.offset) <= c.to)
  {
    RecordingHasItsEffect(t, env, actor, id, i);
    TakingsAppended(t.payments, RecordPlan(t, env, actor, id, i).reply.payment, c);
  }

  // ------------------------------------------------------------------ orders

  ghost function SumBy(s: set<int>, m: map<int, int>): int
    requires s <= m.Keys
  {
    if s == {} then 0 else m[Element(s)] + SumBy(s - {Element(s)}, m)
  }

  lemma {:induction false} SumByWithout(s: set<int>, m: map<int, int>, x: int)
    requires s <= m.Keys && x in s
    ensures SumBy(s, m) == m[x] + SumBy(s - {x}, m)
    decreases |s|
  {
    var y := Element(s);
    if y != x {
      SumByWithout(s - {y}, m, x);
      SumByWithout(s - {x}, m, y);
      assert s - {y} - {x} == s - {x} - {y};
    }
  }

  lemma SumByWith(s: set<int>, m: map<int, int>, x: int)
    requires s <= m.Keys && x in m && x !in s
    ensures SumBy(s + {x}, m) == SumBy(s, m) + m[x]
  {
    SumByWithout(s + {x}, m, x);
    assert s + {x} - {x} == s;
  }

  ghost function Totals(t: Tables): map<int, int> { map id | id in t.orders :: t.orders[id].total }

  ghost function Collected(t: Tables): map<int, int> { map id | id in t.orders :: PaidOf(t, id) }

  ghost function CancelledOf(t: Tables, s: set<int>): set<int>
    requires s <= t.orders.Keys
  {
    set id | id in s && t.orders[id].status == Cancelled
  }

  /** The orders of an outlet received on these local days. */
  ghost function Cohort(t: Tables, place: Place, offset: int, from: int, to: int): set<int> {
    set id | id in t.orders && t.orders[id].place == place && from <= LocalDay(t.orders[id].receivedAt, offset) <= to
  }

  /** The figures are the numbers and sums of exactly these orders. */
  ghost predicate FiguresOf(t: Tables, f: Figures, s: set<int>)
    requires s <= t.orders.Keys
  {
    var cancelled := CancelledOf(t, s);
    && f.count == |s| && f.value == SumBy(s, Totals(t)) && f.collected == SumBy(s, Collected(t))
    && f.cancelledCount == |cancelled| && f.cancelledValue == SumBy(cancelled, Totals(t))
    && f.outstanding == SumBy(s - cancelled, Totals(t)) - SumBy(s - cancelled, Collected(t))
  }

  lemma CancelledWith(t: Tables, s: set<int>, id: int)
    requires s <= t.orders.Keys && id in t.orders && id !in s
    ensures t.orders[id].status == Cancelled ==>
              && CancelledOf(t, s + {id}) == CancelledOf(t, s) + {id}
              && s + {id} - CancelledOf(t, s + {id}) == s - CancelledOf(t, s)
    ensures t.orders[id].status != Cancelled ==>
              && CancelledOf(t, s + {id}) == CancelledOf(t, s)
              && s + {id} - CancelledOf(t, s + {id}) == s - CancelledOf(t, s) + {id}
  {}

  /** How the sums over the set grow with one order. */
  lemma SumsWith(t: Tables, s: set<int>, id: int)
    requires s <= t.orders.Keys && id in t.orders && id !in s
    ensures |s + {id}| == |s| + 1
    ensures SumBy(s + {id}, Totals(t)) == SumBy(s, Totals(t)) + t.orders[id].total
    ensures SumBy(s + {id}, Collected(t)) == SumBy(s, Collected(t)) + PaidOf(t, id)
  {
    SumByWith(s, Totals(t), id);
    SumByWith(s, Collected(t), id);
  }

  lemma FiguresWith(t: Tables, f: Figures, s: set<int>, id: int)
    requires LedgerOk(t) && s <= t.orders.Keys && id in t.orders && id !in s && FiguresOf(t, f, s)
    ensures FiguresOf(t, Plus(f, OrderFigures(t.orders[id], PaidOf(t, id))), s + {id})
  {
    var was := CancelledOf(t, s);
    assert 0 <= PaidOf(t, id) <= t.orders[id].total by { assert OrderSound(t.orders, t.payments, id); }
    CancelledWith(t, s, id);
    SumsWith(t, s, id);
    SumsWith(t, if t.orders[id].status == Cancelled then was else s - was, id);
  }

  /** The scan meets every order once. */
  ghost predicate Scans(t: Tables, ids: seq<int>) { Distinct(ids) && forall id :: id in t.orders ==> id in ids }

  ghost predicate Distinct(ids: seq<int>) { forall i, j :: 0 <= i < j < |ids| ==> ids[i] != ids[j] }

  ghost function Met(s: set<int>, ids: seq<int>): set<int> { set id | id in s && id in ids }

  lemma MetNext(s: set<int>, ids: seq<int>)
    requires ids != [] && Distinct(ids)
    ensures var n := |ids| - 1;
            && ids[n] !in Met(s, ids[..n])
            && Met(s, ids) == if ids[n] in s then Met(s, ids[..n]) + {ids[n]} else Met(s, ids[..n])
  {
    var n := |ids| - 1;
    assert ids == ids[..n] + [ids[n]];
    assert forall i :: 0 <= i < n ==> ids[..n][i] != ids[n];
  }

  lemma NextOrderRow(t: Tables, ids: seq<int>, place: Place, offset: int, from: int, to: int)
    requires ids != []
    ensures var n := |ids| - 1;
            var id, rows := ids[n], OrderRows(t, ids[..n], place, offset, from, to);
            OrderRows(t, ids, place, offset, from, to) ==
            if id in Cohort(t, place, offset, from, to)
            then rows + [Row(LocalDay(t.orders[id].receivedAt, offset), OrderFigures(t.orders[id], PaidOf(t, id)))]
            else rows
  {
    var id := ids[|ids| - 1];
    if id in t.orders {
      WindowIsDays(t.orders[id].receivedAt, offset, from, to);
    }
  }

  lemma {:induction false} CohortInAll(t: Tables, ids: seq<int>, place: Place, offset: int, from: int, to: int)
    requires LedgerOk(t) && Distinct(ids)
    ensures FiguresOf(t, Sum(OrderRows(t, ids, place, offset, from, to)), Met(Cohort(t, place, offset, from, to), ids))
  {
    var c := Cohort(t, place, offset, from, to);
    if ids == [] {
      assert Met(c, ids) == {};
    } else {
      var n := |ids| - 1;
      var rows := OrderRows(t, ids[..n], place, offset, from, to);
      CohortInAll(t, ids[..n], place, offset, from, to);
      MetNext(c, ids);
      NextOrderRow(t, ids, place, offset, from, to);
      if ids[n] in c {
        var o := t.orders[ids[n]];
        SumAppended(rows, Row(LocalDay(o.receivedAt, offset), OrderFigures(o, PaidOf(t, ids[n]))));
        FiguresWith(t, Sum(rows), Met(c, ids[..n]), ids[n]);
      }
    }
  }

  lemma {:induction false} CohortOfDay(t: Tables, ids: seq<int>, place: Place, offset: int, from: int, to: int,
                                       day: int)
    requires LedgerOk(t) && Distinct(ids) && from <= day <= to
    ensures FiguresOf(t, Sum(Only(OrderRows(t, ids, place, offset, from, to), day)),
                      Met(Cohort(t, place, offset, day, day), ids))
  {
    var c := Cohort(t, place, offset, day, day);
    if ids == [] {
      assert Met(c, ids) == {};
    } else {
      var n := |ids| - 1;
      var rows := OrderRows(t, ids[..n], place, offset, from, to);
      CohortOfDay(t, ids[..n], place, offset, from, to, day);
      MetNext(c, ids);
      NextOrderRow(t, ids, place, offset, from, to);
      if ids[n] in Cohort(t, place, offset, from, to) {
        var o := t.orders[ids[n]];
        OnlyAppended(rows, Row(LocalDay(o.receivedAt, offset), OrderFigures(o, PaidOf(t, ids[n]))), day);
        if ids[n] in c {
          FiguresWith(t, Sum(Only(rows, day)), Met(c, ids[..n]), ids[n]);
        }
      }
    }
  }

  lemma AllMet(t: Tables, ids: seq<int>, place: Place, offset: int, from: int, to: int)
    requires Scans(t, ids)
    ensures Met(Cohort(t, place, offset, from, to), ids) == Cohort(t, place, offset, from, to)
  {
    forall id | id in Cohort(t, place, offset, from, to) ensures id in ids {
      assert id in t.orders;
    }
  }

  /** The orders report counts exactly the outlet's orders received in the window, in all and on every day. */
  lemma OrdersReportIsCohort(t: Tables, ids: seq<int>, place: Place, offset: int, from: int, to: int, day: int)
    requires LedgerOk(t) && Scans(t, ids) && from <= day <= to
    ensures var r := OrdersReport(t, ids, place, offset, from, to);
            && FiguresOf(t, r.summary, Cohort(t, place, offset, from, to)) && |r.daily| == to - from + 1
            && r.daily[day - from].key == day
            && FiguresOf(t, r.daily[day - from].figures, Cohort(t, place, offset, day, day))
  {
    var rows := OrderRows(t, ids, place, offset, from, to);
    CohortInAll(t, ids, place, offset, from, to);
    CohortOfDay(t, ids, place, offset, from, to, day);
    AllMet(t, ids, place, offset, from, to);
    AllMet(t, ids, place, offset, day, day);
    GroupsAddUp(rows, day);
    DayOf(GroupBy(rows), from, to, day);
  }
}
