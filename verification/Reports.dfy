/**
 The outlet report: rows of a date range grouped by local day or by payment method, a summary over
 the groups, and a calendar that shows every day of the range. The figures reconcile only because
 the ledger does.
 */
module Reports {
  import opened Places
  import opened Tables
  import opened Ledger

  // ------------------------------------------------------------------ figures and grouping

  datatype Figures = Figures(
    count: int, value: int, collected: int, outstanding: int, cancelledCount: int, cancelledValue: int)

  const NONE := Figures(0, 0, 0, 0, 0, 0)

  function Plus(a: Figures, b: Figures): Figures {
    Figures(a.count + b.count, a.value + b.value, a.collected + b.collected, a.outstanding + b.outstanding,
            a.cancelledCount + b.cancelledCount, a.cancelledValue + b.cancelledValue)
  }

  datatype Row<K> = Row(key: K, figures: Figures)

  function Sum<K>(rows: seq<Row<K>>): Figures {
    if rows == [] then NONE else Plus(Sum(rows[..|rows| - 1]), rows[|rows| - 1].figures)
  }

  lemma SumAppended<K>(rows: seq<Row<K>>, row: Row<K>)
    ensures Sum(rows + [row]) == Plus(Sum(rows), row.figures)
  {
    assert (rows + [row])[..|rows|] == rows;
  }

  /** Rows of one key only. */
  function Only<K(==)>(rows: seq<Row<K>>, key: K): seq<Row<K>> {
    if rows == [] then []
    else
      var r := Only(rows[..|rows| - 1], key);
      if rows[|rows| - 1].key == key then r + [rows[|rows| - 1]] else r
  }

  /** Adds one row to its group, opening the group when it is the first. */
  function Collect<K(==)>(groups: seq<Row<K>>, row: Row<K>): seq<Row<K>> {
    if groups == [] then [row]
    else
      var n := |groups| - 1;
      if groups[n].key == row.key then groups[..n] + [Row(row.key, Plus(groups[n].figures, row.figures))]
      else Collect(groups[..n], row) + [groups[n]]
  }

  /** SELECT key, sum(...) ... GROUP BY key. */
  function GroupBy<K(==)>(rows: seq<Row<K>>): seq<Row<K>> {
    if rows == [] then [] else Collect(GroupBy(rows[..|rows| - 1]), rows[|rows| - 1])
  }

  /** LEFT JOIN ... USING(key) with coalesce(..., 0). */
  function Lookup<K(==)>(groups: seq<Row<K>>, key: K): Figures {
    if groups == [] then NONE
    else if groups[|groups| - 1].key == key then groups[|groups| - 1].figures
    else Lookup(groups[..|groups| - 1], key)
  }

  lemma {:induction false} CollectAdds<K>(groups: seq<Row<K>>, row: Row<K>, key: K)
    ensures Sum(Collect(groups, row)) == Plus(Sum(groups), row.figures)
    ensures Lookup(Collect(groups, row), key) ==
            if row.key == key then Plus(Lookup(groups, key), row.figures) else Lookup(groups, key)
  {
    if groups != [] {
      var n := |groups| - 1;
      CollectAdds(groups[..n], row, key);
      if groups[n].key == row.key {
        assert Collect(groups, row)[..n] == groups[..n];
      } else {
        assert Collect(groups, row)[..|Collect(groups, row)| - 1] == Collect(groups[..n], row);
      }
    }
  }

  /** Summing the groups is summing the rows, and a group is the sum of its rows. */
  lemma {:induction false} GroupsAddUp<K>(rows: seq<Row<K>>, key: K)
    ensures Sum(GroupBy(rows)) == Sum(rows)
    ensures Lookup(GroupBy(rows), key) == Sum(Only(rows, key))
  {
    if rows != [] {
      var n := |rows| - 1;
      GroupsAddUp(rows[..n], key);
      CollectAdds(GroupBy(rows[..n]), rows[n], key);
      if rows[n].key == key {
        assert Only(rows, key)[..|Only(rows, key)| - 1] == Only(rows[..n], key);
      }
    }
  }

  // ------------------------------------------------------------------ the calendar

  const DAY := 86400

  /** Local day of an instant, for a zone at a fixed distance from UTC. */
  function LocalDay(at: int, offset: int): int { (at + offset) / DAY }

  /** The report's half-open window of instants. */
  predicate InWindow(at: int, offset: int, from: int, to: int) {
    from * DAY - offset <= at < (to + 1) * DAY - offset
  }

  lemma WindowIsDays(at: int, offset: int, from: int, to: int)
    ensures InWindow(at, offset, from, to) <==> from <= LocalDay(at, offset) <= to
  {
    var x := at + offset;
    assert x == DAY * (x / DAY) + x % DAY && 0 <= x % DAY < DAY;
  }

  /** One row for every day of the range, in order. */
  function Daily(groups: seq<Row<int>>, from: int, to: int): seq<Row<int>>
    decreases 1 + to - from
  {
    if to < from then [] else Daily(groups, from, to - 1) + [Row(to, Lookup(groups, to))]
  }

  ghost predicate EachInRange(rows: seq<Row<int>>, from: int, to: int) {
    forall i :: 0 <= i < |rows| ==> from <= rows[i].key <= to
  }

  lemma CalendarMissesNothing(rows: seq<Row<int>>, from: int, to: int)
    requires EachInRange(rows, from, to)
    ensures Sum(Daily(GroupBy(rows), from, to)) == Sum(rows)
  {
    CalendarCounts(rows, from, to);
    InRangeIsAll(rows, from, to);
  }

  function InRange(rows: seq<Row<int>>, from: int, to: int): seq<Row<int>> {
    if rows == [] then []
    else
      var r := InRange(rows[..|rows| - 1], from, to);
      if from <= rows[|rows| - 1].key <= to then r + [rows[|rows| - 1]] else r
  }

  lemma {:induction false} InRangeIsAll(rows: seq<Row<int>>, from: int, to: int)
    requires EachInRange(rows, from, to)
    ensures InRange(rows, from, to) == rows
  {
    if rows != [] {
      InRangeIsAll(rows[..|rows| - 1], from, to);
    }
  }

  lemma Regroup(a: Figures, b: Figures, c: Figures)
    ensures Plus(Plus(a, b), c) == Plus(Plus(a, c), b) == Plus(a, Plus(b, c))
  {}

  lemma OneMoreRow(head: seq<Row<int>>, row: Row<int>, from: int, to: int)
    ensures InRange(head + [row], from, to) ==
            if from <= row.key <= to then InRange(head, from, to) + [row] else InRange(head, from, to)
    ensures Only(head + [row], to) == if row.key == to then Only(head, to) + [row] else Only(head, to)
  {
    assert (head + [row])[..|head|] == head;
  }

  lemma RangeSplitsOneMore(rows: seq<Row<int>>, head: seq<Row<int>>, row: Row<int>, from: int, to: int)
    requires from <= to && rows == head + [row]
    requires Sum(InRange(head, from, to)) == Plus(Sum(InRange(head, from, to - 1)), Sum(Only(head, to)))
    ensures Sum(InRange(rows, from, to)) == Plus(Sum(InRange(rows, from, to - 1)), Sum(Only(rows, to)))
  {
    OneMoreRow(head, row, from, to);
    OneMoreRow(head, row, from, to - 1);
    SumAppended(InRange(head, from, to), row);
    SumAppended(InRange(head, from, to - 1), row);
    SumAppended(Only(head, to), row);
    Regroup(Sum(InRange(head, from, to - 1)), Sum(Only(head, to)), row.figures);
  }

  lemma {:induction false} RangeSplits(rows: seq<Row<int>>, from: int, to: int)
    requires from <= to
    ensures Sum(InRange(rows, from, to)) == Plus(Sum(InRange(rows, from, to - 1)), Sum(Only(rows, to)))
  {
    if rows != [] {
      var n := |rows| - 1;
      assert rows == rows[..n] + [rows[n]];
      RangeSplits(rows[..n], from, to);
      RangeSplitsOneMore(rows, rows[..n], rows[n], from, to);
    }
  }

  lemma {:induction false} EmptyRange(rows: seq<Row<int>>, from: int, to: int)
    requires to < from
    ensures InRange(rows, from, to) == []
  {
    if rows != [] {
      EmptyRange(rows[..|rows| - 1], from, to);
    }
  }

  lemma {:induction false} CalendarCounts(rows: seq<Row<int>>, from: int, to: int)
    ensures Sum(Daily(GroupBy(rows), from, to)) == Sum(InRange(rows, from, to))
    decreases 1 + to - from
  {
    if to < from {
      EmptyRange(rows, from, to);
    } else {
      CalendarCounts(rows, from, to - 1);
      GroupsAddUp(rows, to);
      RangeSplits(rows, from, to);
      var d := Daily(GroupBy(rows), from, to);
      assert d[..|d| - 1] == Daily(GroupBy(rows), from, to - 1);
    }
  }

  // ------------------------------------------------------------------ the orders report

  function Greatest(a: int, b: int): int { if a >= b then a else b }

  function OrderFigures(o: Order, collected: int): Figures {
    if o.status.Cancelled? then Figures(1, o.total, collected, 0, 1, o.total)
    else Figures(1, o.total, collected, Greatest(o.total - collected, 0), 0, 0)
  }

  /** The cohort: orders received in the window, in the order the scan `ids` meets them. */
  function OrderRows(t: Tables, ids: seq<int>, place: Place, offset: int, from: int, to: int): seq<Row<int>> {
    if ids == [] then []
    else
      var id, r := ids[|ids| - 1], OrderRows(t, ids[..|ids| - 1], place, offset, from, to);
      if id in t.orders && t.orders[id].place == place && InWindow(t.orders[id].receivedAt, offset, from, to)
      then r + [Row(LocalDay(t.orders[id].receivedAt, offset),
                    OrderFigures(t.orders[id], PaidTotal(OfOrder(t.payments, place, id))))]
      else r
  }

  datatype Report<K> = Report(summary: Figures, daily: seq<Row<int>>, groups: seq<Row<K>>)

  function OrdersReport(t: Tables, ids: seq<int>, place: Place, offset: int, from: int, to: int): Report<int> {
    var groups := GroupBy(OrderRows(t, ids, place, offset, from, to));
    Report(Sum(groups), Daily(groups, from, to), groups)
  }

  predicate Reconciles(f: Figures) { f.value == f.collected + f.outstanding + f.cancelledValue }

  /** One order reconciles exactly when it is not overpaid, and holds nothing if cancelled. */
  lemma OrderReconcilesExactly(o: Order, collected: int)
    ensures Reconciles(OrderFigures(o, collected)) <==>
            if o.status.Cancelled? then collected == 0 else collected <= o.total
  {}

  ghost predicate EachReconciles<K>(rows: seq<Row<K>>) {
    forall i :: 0 <= i < |rows| ==> Reconciles(rows[i].figures)
  }

  lemma {:induction false} RowsReconcile<K>(rows: seq<Row<K>>)
    requires EachReconciles(rows)
    ensures Reconciles(Sum(rows))
  {
    if rows != [] {
      RowsReconcile(rows[..|rows| - 1]);
    }
  }

  lemma {:induction false} CohortRows(t: Tables, ids: seq<int>, place: Place, offset: int, from: int, to: int)
    requires LedgerOk(t)
    ensures EachReconciles(OrderRows(t, ids, place, offset, from, to))
    ensures EachInRange(OrderRows(t, ids, place, offset, from, to), from, to)
  {
    if ids != [] {
      var id := ids[|ids| - 1];
      CohortRows(t, ids[..|ids| - 1], place, offset, from, to);
      if id in t.orders {
        assert OrderSound(t.orders, t.payments, id);
        WindowIsDays(t.orders[id].receivedAt, offset, from, to);
      }
    }
  }

  lemma {:induction false} OnlyReconciles(rows: seq<Row<int>>, key: int)
    requires EachReconciles(rows)
    ensures Reconciles(Sum(Only(rows, key)))
  {
    if rows != [] {
      var n := |rows| - 1;
      OnlyReconciles(rows[..n], key);
      SumAppended(Only(rows[..n], key), rows[n]);
    }
  }

  /** The calendar shows each day once, in order. */
  ghost predicate OneRowPerDay(daily: seq<Row<int>>, from: int, to: int) {
    |daily| == (if to < from then 0 else to - from + 1) && forall i :: 0 <= i < |daily| ==> daily[i].key == from + i
  }

  lemma EachAppended<K>(rows: seq<Row<K>>, row: Row<K>)
    requires EachReconciles(rows) && Reconciles(row.figures)
    ensures EachReconciles(rows + [row])
  {}

  lemma OneMoreDay(daily: seq<Row<int>>, f: Figures, from: int, to: int)
    requires OneRowPerDay(daily, from, to - 1) && from <= to
    ensures OneRowPerDay(daily + [Row(to, f)], from, to)
  {}

  lemma DayReconciles(rows: seq<Row<int>>, day: int)
    requires EachReconciles(rows)
    ensures Reconciles(Lookup(GroupBy(rows), day))
  {
    GroupsAddUp(rows, day);
    OnlyReconciles(rows, day);
  }

  lemma {:induction false} DailyReconciles(groups: seq<Row<int>>, from: int, to: int)
    requires forall day :: Reconciles(Lookup(groups, day))
    ensures EachReconciles(Daily(groups, from, to))
    decreases 1 + to - from
  {
    if from <= to {
      DailyReconciles(groups, from, to - 1);
      EachAppended(Daily(groups, from, to - 1), Row(to, Lookup(groups, to)));
    }
  }

  lemma {:induction false} DailyIsCalendar(groups: seq<Row<int>>, from: int, to: int)
    ensures OneRowPerDay(Daily(groups, from, to), from, to)
    decreases 1 + to - from
  {
    if from <= to {
      DailyIsCalendar(groups, from, to - 1);
      OneMoreDay(Daily(groups, from, to - 1), Lookup(groups, to), from, to);
    }
  }

  lemma SummaryReconciles(rows: seq<Row<int>>, from: int, to: int)
    requires EachReconciles(rows) && EachInRange(rows, from, to)
    ensures Reconciles(Sum(GroupBy(rows))) && Sum(Daily(GroupBy(rows), from, to)) == Sum(GroupBy(rows))
  {
    RowsReconcile(rows);
    GroupsAddUp(rows, 0);
    CalendarMissesNothing(rows, from, to);
  }

  /**
   In a sound ledger, for every outlet, zone and range: value = collected + outstanding + cancelled
   in the summary and on every day, there is one row for each day, and the days add up to the summary.
   */
  lemma OrdersReportReconciles(t: Tables, ids: seq<int>, place: Place, offset: int, from: int, to: int)
    requires LedgerOk(t)
    ensures Reconciles(OrdersReport(t, ids, place, offset, from, to).summary)
    ensures EachReconciles(OrdersReport(t, ids, place, offset, from, to).daily)
    ensures OneRowPerDay(OrdersReport(t, ids, place, offset, from, to).daily, from, to)
    ensures Sum(OrdersReport(t, ids, place, offset, from, to).daily) ==
            OrdersReport(t, ids, place, offset, from, to).summary
  {
    var rows := OrderRows(t, ids, place, offset, from, to);
    CohortRows(t, ids, place, offset, from, to);
    assert EachReconciles(Daily(GroupBy(rows), from, to)) by {
      forall day ensures Reconciles(Lookup(GroupBy(rows), day)) {
        DayReconciles(rows, day);
      }
      DailyReconciles(GroupBy(rows), from, to);
    }
    assert OneRowPerDay(Daily(GroupBy(rows), from, to), from, to) by {
      DailyIsCalendar(GroupBy(rows), from, to);
    }
    SummaryReconciles(rows, from, to);
  }

  // ------------------------------------------------------------------ the income report

  /** Confirmed receipts of the window, each under its local day or its method. */
  function IncomeByDay(rows: seq<Payment>, place: Place, offset: int, from: int, to: int): seq<Row<int>> {
    if rows == [] then []
    else
      var p, r := rows[|rows| - 1], IncomeByDay(rows[..|rows| - 1], place, offset, from, to);
      if Received(p, place, offset, from, to)
      then r + [Row(LocalDay(p.confirmedAt.value, offset), NONE.(count := 1, value := p.amount))] else r
  }

  function IncomeByMethod(rows: seq<Payment>, place: Place, offset: int, from: int, to: int): seq<Row<Method>> {
    if rows == [] then []
    else
      var p, r := rows[|rows| - 1], IncomeByMethod(rows[..|rows| - 1], place, offset, from, to);
      if Received(p, place, offset, from, to) then r + [Row(p.means, NONE.(count := 1, value := p.amount))] else r
  }

  predicate Received(p: Payment, place: Place, offset: int, from: int, to: int) {
    p.place == place && p.state.Confirmed? && p.confirmedAt.Some? && InWindow(p.confirmedAt.value, offset, from, to)
  }

  function IncomeReport(t: Tables, place: Place, offset: int, from: int, to: int): Report<Method> {
    var days := GroupBy(IncomeByDay(t.payments, place, offset, from, to));
    Report(Sum(days), Daily(days, from, to), GroupBy(IncomeByMethod(t.payments, place, offset, from, to)))
  }

  lemma {:induction false} SameIncome(rows: seq<Payment>, place: Place, offset: int, from: int, to: int)
    ensures Sum(IncomeByDay(rows, place, offset, from, to)) == Sum(IncomeByMethod(rows, place, offset, from, to))
    ensures EachInRange(IncomeByDay(rows, place, offset, from, to), from, to)
  {
    if rows != [] {
      var n := |rows| - 1;
      SameIncome(rows[..n], place, offset, from, to);
      var days := IncomeByDay(rows[..n], place, offset, from, to);
      var methods := IncomeByMethod(rows[..n], place, offset, from, to);
      if Received(rows[n], place, offset, from, to) {
        WindowIsDays(rows[n].confirmedAt.value, offset, from, to);
        SumAppended(days, Row(LocalDay(rows[n].confirmedAt.value, offset), NONE.(count := 1, value := rows[n].amount)));
        SumAppended(methods, Row(rows[n].means, NONE.(count := 1, value := rows[n].amount)));
      }
    }
  }

  /** The same receipts add up to the summary by day and by method. */
  lemma IncomeAddsUpBothWays(t: Tables, place: Place, offset: int, from: int, to: int)
    ensures var r := IncomeReport(t, place, offset, from, to); Sum(r.daily) == r.summary == Sum(r.groups)
  {
    SameIncome(t.payments, place, offset, from, to);
    GroupsAddUp(IncomeByDay(t.payments, place, offset, from, to), 0);
    GroupsAddUp(IncomeByMethod(t.payments, place, offset, from, to), Cash);
    CalendarMissesNothing(IncomeByDay(t.payments, place, offset, from, to), from, to);
  }
}
