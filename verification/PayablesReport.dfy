/** What the purchases routes report about open supplier invoices: the dashboard and the aging buckets. */
module PayablesReport {
  import opened Results
  import opened Payments
  import opened Purchases

  function OpenOf(bill: Bill): nat
  {
    Open(bill.total, bill.payments)
  }

  /** Invoices of one supplier or of all, due at lo or later and before hi. */
  datatype Slice = Slice(supplier: Option<string>, lo: Option<int>, hi: Option<int>)

  const EVERYTHING := Slice(None, None, None)

  predicate In(slice: Slice, bill: Bill)
  {
    && (slice.supplier.None? || bill.supplier == slice.supplier.value)
    && (slice.lo.None? || slice.lo.value <= bill.due)
    && (slice.hi.None? || bill.due < slice.hi.value)
  }

  function OpenIn(bills: seq<Bill>, slice: Slice): nat
  {
    if bills == [] then 0
    else
      var last := bills[|bills| - 1];
      OpenIn(bills[..|bills| - 1], slice) + if In(slice, last) then OpenOf(last) else 0
  }

  /** Invoices with nothing open do not count. */
  function CountIn(bills: seq<Bill>, slice: Slice): nat
  {
    if bills == [] then 0
    else
      var last := bills[|bills| - 1];
      CountIn(bills[..|bills| - 1], slice) + if In(slice, last) && OpenOf(last) > 0 then 1 else 0
  }

  lemma OpenAppend(bills: seq<Bill>, bill: Bill, slice: Slice)
    ensures OpenIn(bills + [bill], slice) == OpenIn(bills, slice) + if In(slice, bill) then OpenOf(bill) else 0
    ensures CountIn(bills + [bill], slice)
         == CountIn(bills, slice) + if In(slice, bill) && OpenOf(bill) > 0 then 1 else 0
  {
    assert (bills + [bill])[..|bills|] == bills;
  }

  lemma {:induction false} OpenConcat(a: seq<Bill>, b: seq<Bill>, slice: Slice)
    ensures OpenIn(a + b, slice) == OpenIn(a, slice) + OpenIn(b, slice)
  {
    if b == [] {
      assert a + b == a;
    } else {
      var front, last := b[..|b| - 1], b[|b| - 1];
      OpenConcat(a, front, slice);
      OpenAppend(a + front, last, slice);
      OpenAppend(front, last, slice);
      hide OpenIn, In, OpenOf;
      assert front + [last] == b;
      assert a + b == a + front + [last];
    }
  }

  lemma OpenWithout(bills: seq<Bill>, i: nat, slice: Slice)
    requires i < |bills|
    ensures var rest := bills[..i] + bills[i + 1..];
      && multiset(rest) == multiset(bills) - multiset{bills[i]}
      && OpenIn(bills, slice) == OpenIn(rest, slice) + if In(slice, bills[i]) then OpenOf(bills[i]) else 0
  {
    hide OpenIn, In, OpenOf;
    assert bills == bills[..i] + [bills[i]] + bills[i + 1..];
    OpenConcat(bills[..i], bills[i + 1..], slice);
    OpenConcat(bills[..i] + [bills[i]], bills[i + 1..], slice);
    OpenAppend(bills[..i], bills[i], slice);
  }

  /** The order the rows come in from the database does not matter. */
  lemma {:induction false} OrderIrrelevant(a: seq<Bill>, b: seq<Bill>, slice: Slice)
    requires multiset(a) == multiset(b)
    ensures OpenIn(a, slice) == OpenIn(b, slice)
  {
    if a == [] {
      assert |multiset(b)| == 0;
    } else {
      var last := a[|a| - 1];
      assert last in multiset(b);
      var i :| 0 <= i < |b| && b[i] == last;
      OpenWithout(a, |a| - 1, slice);
      OpenWithout(b, i, slice);
      hide OpenIn, In, OpenOf;
      OrderIrrelevant(a[..|a| - 1] + a[|a|..], b[..i] + b[i + 1..], slice);
    }
  }

  // ---------------------------------------------------------------- the dashboard

  datatype Totals = Totals(open: int, overdue: int, dueNext7Days: int, openInvoices: int, overdueInvoices: int)

  datatype Row = Row(open: int, overdue: int, invoices: int, overdueInvoices: int, earliestDue: int)

  function Of(supplier: string): Slice
  {
    Slice(Some(supplier), None, None)
  }

  function OverdueOf(supplier: string, asOf: int): Slice
  {
    Slice(Some(supplier), None, Some(asOf))
  }

  function Overdue(asOf: int): Slice
  {
    Slice(None, None, Some(asOf))
  }

  function DueSoon(asOf: int, until: int): Slice
  {
    Slice(None, Some(asOf), Some(until + 1))
  }

  predicate EarliestDue(bills: seq<Bill>, supplier: string, due: int)
  {
    && (forall b :: b in bills && b.supplier == supplier && OpenOf(b) > 0 ==> due <= b.due)
    && (exists b :: b in bills && b.supplier == supplier && OpenOf(b) > 0 && b.due == due)
  }

  /** A row adds up the open invoices of its supplier. */
  predicate RowDescribes(row: Row, bills: seq<Bill>, supplier: string, asOf: int)
  {
    && row.open == OpenIn(bills, Of(supplier)) && row.invoices == CountIn(bills, Of(supplier))
    && row.overdue == OpenIn(bills, OverdueOf(supplier, asOf))
    && row.overdueInvoices == CountIn(bills, OverdueOf(supplier, asOf))
    && EarliestDue(bills, supplier, row.earliestDue)
  }

  /** The bySupplier map, its keys in the order of insertion. */
  datatype Table = Table(order: seq<string>, rows: map<string, Row>)

  /** The rows are those of the suppliers with something open. */
  ghost predicate RowsDescribe(table: Table, bills: seq<Bill>, asOf: int)
  {
    var order, rows := table.order, table.rows;
    && (forall i, j :: 0 <= i < j < |order| ==> order[i] != order[j])
    && (forall s :: s in order <==> s in rows)
    && (forall s :: s in rows ==> RowDescribes(rows[s], bills, s, asOf))
    && (forall s :: s !in rows ==> Untouched(bills, s, asOf))
  }

  predicate Untouched(bills: seq<Bill>, supplier: string, asOf: int)
  {
    && OpenIn(bills, Of(supplier)) == OpenIn(bills, OverdueOf(supplier, asOf)) == 0
    && CountIn(bills, Of(supplier)) == CountIn(bills, OverdueOf(supplier, asOf)) == 0
    && forall b :: b in bills && b.supplier == supplier ==> OpenOf(b) == 0
  }

  function RowsTotal(order: seq<string>, rows: map<string, Row>): int
    requires forall s :: s in order ==> s in rows
  {
    if order == [] then 0
    else RowsTotal(order[..|order| - 1], rows) + rows[order[|order| - 1]].open
  }

  ghost predicate RowsAddUpTo(table: Table, total: int)
  {
    (forall s :: s in table.order ==> s in table.rows) && RowsTotal(table.order, table.rows) == total
  }

  function TotalsOf(bills: seq<Bill>, asOf: int, until: int): Totals
  {
    Totals(OpenIn(bills, EVERYTHING), OpenIn(bills, Overdue(asOf)), OpenIn(bills, DueSoon(asOf, until)),
           CountIn(bills, EVERYTHING), CountIn(bills, Overdue(asOf)))
  }

  lemma {:induction false} RowsTotalUpdate(order: seq<string>, rows: map<string, Row>, supplier: string, row: Row)
    requires forall s :: s in order ==> s in rows
    requires forall i, j :: 0 <= i < j < |order| ==> order[i] != order[j]
    ensures RowsTotal(order, rows[supplier := row]) ==
              RowsTotal(order, rows) + if supplier in order then row.open - rows[supplier].open else 0
  {
    if order != [] {
      RowsTotalUpdate(order[..|order| - 1], rows, supplier, row);
    }
  }

  /** The row a supplier gets from one more open invoice. */
  function WithInvoice(row: Option<Row>, bill: Bill, asOf: int): Row
  {
    var amount, late := OpenOf(bill), bill.due < asOf;
    match row
    case None => Row(amount, if late then amount else 0, 1, if late then 1 else 0, bill.due)
    case Some(r) =>
      Row(r.open + amount, r.overdue + (if late then amount else 0), r.invoices + 1,
          r.overdueInvoices + (if late then 1 else 0), if bill.due < r.earliestDue then bill.due else r.earliestDue)
  }

  function RowOf(rows: map<string, Row>, supplier: string): Option<Row>
  {
    if supplier in rows then Some(rows[supplier]) else None
  }

  function WithRow(table: Table, bill: Bill, asOf: int): Table
  {
    Table(if bill.supplier in table.rows then table.order else table.order + [bill.supplier],
          table.rows[bill.supplier := WithInvoice(RowOf(table.rows, bill.supplier), bill, asOf)])
  }

  lemma RowExtended(rows: map<string, Row>, bills: seq<Bill>, bill: Bill, asOf: int)
    requires OpenOf(bill) > 0
    requires match RowOf(rows, bill.supplier)
      case Some(row) => RowDescribes(row, bills, bill.supplier, asOf)
      case None => Untouched(bills, bill.supplier, asOf)
    ensures RowDescribes(WithInvoice(RowOf(rows, bill.supplier), bill, asOf), bills + [bill], bill.supplier, asOf)
  {
    hide OpenIn, CountIn, OpenOf;
    OpenAppend(bills, bill, Of(bill.supplier));
    OpenAppend(bills, bill, OverdueOf(bill.supplier, asOf));
    var due := WithInvoice(RowOf(rows, bill.supplier), bill, asOf).earliestDue;
    if due == bill.due {
      assert bill in bills + [bill];
    } else {
      var b :| b in bills && b.supplier == bill.supplier && OpenOf(b) > 0 && b.due == due;
      assert b in bills + [bill];
    }
  }

  lemma OtherRowsUnchanged(bills: seq<Bill>, bill: Bill, supplier: string, asOf: int)
    requires bill.supplier != supplier || OpenOf(bill) == 0
    ensures Untouched(bills, supplier, asOf) ==> Untouched(bills + [bill], supplier, asOf)
    ensures forall row: Row :: RowDescribes(row, bills, supplier, asOf) ==>
              RowDescribes(row, bills + [bill], supplier, asOf)
  {
    hide OpenIn, CountIn, OpenOf;
    OpenAppend(bills, bill, Of(supplier));
    OpenAppend(bills, bill, OverdueOf(supplier, asOf));
    forall row: Row | RowDescribes(row, bills, supplier, asOf)
      ensures EarliestDue(bills + [bill], supplier, row.earliestDue)
    {
      var b :| b in bills && b.supplier == supplier && OpenOf(b) > 0 && b.due == row.earliestDue;
      assert b in bills + [bill];
    }
  }

  lemma RowsExtended(table: Table, bills: seq<Bill>, bill: Bill, asOf: int)
    requires RowsDescribe(table, bills, asOf) && OpenOf(bill) > 0
    ensures RowsDescribe(WithRow(table, bill, asOf), bills + [bill], asOf)
  {
    hide OpenIn, CountIn, OpenOf, RowDescribes, Untouched, WithInvoice;
    var after := WithRow(table, bill, asOf);
    RowExtended(table.rows, bills, bill, asOf);
    forall s | s != bill.supplier
      ensures s in after.rows ==> RowDescribes(after.rows[s], bills + [bill], s, asOf)
      ensures s !in after.rows ==> Untouched(bills + [bill], s, asOf)
    {
      OtherRowsUnchanged(bills, bill, s, asOf);
    }
  }

  lemma RowsTotalExtended(table: Table, bills: seq<Bill>, bill: Bill, asOf: int)
    requires RowsDescribe(table, bills, asOf) && RowsAddUpTo(table, OpenIn(bills, EVERYTHING))
    ensures RowsAddUpTo(WithRow(table, bill, asOf), OpenIn(bills + [bill], EVERYTHING))
  {
    hide OpenIn, CountIn, OpenOf, RowDescribes, Untouched, WithInvoice;
    var order, rows := table.order, table.rows;
    var row := WithInvoice(RowOf(rows, bill.supplier), bill, asOf);
    RowAdds(rows, bill, asOf);
    RowsTotalUpdate(order, rows, bill.supplier, row);
    OpenAppend(bills, bill, EVERYTHING);
    if bill.supplier !in rows {
      assert (order + [bill.supplier])[..|order|] == order;
    }
  }

  lemma RowAdds(rows: map<string, Row>, bill: Bill, asOf: int)
    ensures WithInvoice(RowOf(rows, bill.supplier), bill, asOf).open ==
              OpenOf(bill) + if bill.supplier in rows then rows[bill.supplier].open else 0
  {
  }

  lemma RowsUnchanged(table: Table, bills: seq<Bill>, bill: Bill, asOf: int)
    requires RowsDescribe(table, bills, asOf) && OpenOf(bill) == 0
    ensures RowsDescribe(table, bills + [bill], asOf)
    ensures OpenIn(bills + [bill], EVERYTHING) == OpenIn(bills, EVERYTHING)
  {
    hide OpenIn, CountIn, OpenOf, RowDescribes, Untouched;
    OpenAppend(bills, bill, EVERYTHING);
    forall s: string
      ensures s in table.rows ==> RowDescribes(table.rows[s], bills + [bill], s, asOf)
      ensures s !in table.rows ==> Untouched(bills + [bill], s, asOf)
    {
      OtherRowsUnchanged(bills, bill, s, asOf);
    }
  }

  lemma TotalsExtended(bills: seq<Bill>, bill: Bill, asOf: int, until: int)
    ensures var t, n := TotalsOf(bills, asOf, until), TotalsOf(bills + [bill], asOf, until);
      var amount, one := OpenOf(bill), if OpenOf(bill) > 0 then 1 else 0;
      var overdue := bill.due < asOf;
      && n.open == t.open + amount && n.openInvoices == t.openInvoices + one
      && n.overdue == t.overdue + (if overdue then amount else 0)
      && n.overdueInvoices == t.overdueInvoices + (if overdue then one else 0)
      && n.dueNext7Days == t.dueNext7Days + (if asOf <= bill.due <= until then amount else 0)
  {
    hide OpenIn, CountIn, OpenOf;
    OpenAppend(bills, bill, EVERYTHING);
    OpenAppend(bills, bill, Overdue(asOf));
    OpenAppend(bills, bill, DueSoon(asOf, until));
  }

  /** The loop after some invoices: totals, rows, and the rows adding up to the total. */
  ghost predicate Tallied(bills: seq<Bill>, asOf: int, until: int, totals: Totals, table: Table)
  {
    && totals == TotalsOf(bills, asOf, until)
    && RowsDescribe(table, bills, asOf)
    && RowsAddUpTo(table, totals.open)
  }

  lemma NothingTallied(asOf: int, until: int)
    ensures Tallied([], asOf, until, Totals(0, 0, 0, 0, 0), Table([], map[]))
  {
  }

  function WithOpen(t: Totals, amount: nat, due: int, asOf: int, until: int): Totals
  {
    var counted := t.(open := t.open + amount, openInvoices := t.openInvoices + 1);
    if due < asOf then counted.(overdue := t.overdue + amount, overdueInvoices := t.overdueInvoices + 1)
    else if due <= until then counted.(dueNext7Days := t.dueNext7Days + amount)
    else counted
  }

  lemma TallyOpen(bills: seq<Bill>, bill: Bill, asOf: int, until: int, t: Totals, table: Table)
    requires Tallied(bills, asOf, until, t, table) && OpenOf(bill) > 0
    ensures Tallied(bills + [bill], asOf, until, WithOpen(t, OpenOf(bill), bill.due, asOf, until),
                    WithRow(table, bill, asOf))
  {
    TotalsOpen(bills, asOf, until);
    TotalsOpen(bills + [bill], asOf, until);
    TotalsExtended(bills, bill, asOf, until);
    hide OpenIn, OpenOf, TotalsOf, RowsDescribe, WithRow, RowsAddUpTo;
    RowsExtended(table, bills, bill, asOf);
    RowsTotalExtended(table, bills, bill, asOf);
  }

  lemma TallySettled(bills: seq<Bill>, bill: Bill, asOf: int, until: int, t: Totals, table: Table)
    requires Tallied(bills, asOf, until, t, table) && OpenOf(bill) == 0
    ensures Tallied(bills + [bill], asOf, until, t, table)
  {
    TotalsExtended(bills, bill, asOf, until);
    hide OpenIn, OpenOf, TotalsOf, RowsDescribe, RowsAddUpTo;
    RowsUnchanged(table, bills, bill, asOf);
  }

  lemma TallyEnds(bills: seq<Bill>, asOf: int, until: int, totals: Totals, table: Table)
    requires Tallied(bills, asOf, until, totals, table)
    ensures totals == TotalsOf(bills, asOf, until) && RowsDescribe(table, bills, asOf)
    ensures RowsAddUpTo(table, totals.open)
  {
  }

  lemma RowChanges(rows: map<string, Row>, bill: Bill, asOf: int)
    ensures var amount, late, row := OpenOf(bill), bill.due < asOf, WithInvoice(RowOf(rows, bill.supplier), bill, asOf);
      if bill.supplier !in rows then row == Row(amount, if late then amount else 0, 1, if late then 1 else 0, bill.due)
      else
        var r := rows[bill.supplier];
        row == Row(r.open + amount, if late then r.overdue + amount else r.overdue, r.invoices + 1,
                   if late then r.overdueInvoices + 1 else r.overdueInvoices,
                   if bill.due < r.earliestDue then bill.due else r.earliestDue)
  {
  }

  /** The running totals of the loop. */
  method AddToTotals(t: Totals, openAmount: nat, isOverdue: bool, isDueInNext7Days: bool, due: int, asOf: int,
                     until: int)
    returns (after: Totals)
    requires (isOverdue <==> due < asOf) && (isDueInNext7Days <==> asOf <= due <= until)
    ensures after == WithOpen(t, openAmount, due, asOf, until)
  {
    var overdue, overdueInvoices, dueNext7Days := t.overdue, t.overdueInvoices, t.dueNext7Days;
    if isOverdue {
      overdue, overdueInvoices := overdue + openAmount, overdueInvoices + 1;
    } else if isDueInNext7Days {
      dueNext7Days := dueNext7Days + openAmount;
    }
    return Totals(t.open + openAmount, overdue, dueNext7Days, t.openInvoices + 1, overdueInvoices);
  }

  /** The supplier's row: a new one, or the existing one updated. */
  method AddToSupplier(table: Table, bill: Bill, isOverdue: bool, asOf: int) returns (after: Table)
    requires isOverdue <==> bill.due < asOf
    ensures after == WithRow(table, bill, asOf)
  {
    var openAmount, rows := OpenOf(bill), table.rows;
    RowChanges(rows, bill, asOf);
    hide OpenOf, WithInvoice, RowOf;
    if bill.supplier !in rows {
      var row := Row(openAmount, if isOverdue then openAmount else 0, 1, if isOverdue then 1 else 0, bill.due);
      return Table(table.order + [bill.supplier], rows[bill.supplier := row]);
    }
    var row := rows[bill.supplier];
    row := row.(open := row.open + openAmount, invoices := row.invoices + 1);
    if isOverdue {
      row := row.(overdue := row.overdue + openAmount, overdueInvoices := row.overdueInvoices + 1);
    }
    if bill.due < row.earliestDue {
      row := row.(earliestDue := bill.due);
    }
    return table.(rows := rows[bill.supplier := row]);
  }

  /** The aggregation loop: running totals, and a row for every supplier with something open. */
  method Dashboard(bills: seq<Bill>, asOf: int, until: int) returns (totals: Totals, table: Table)
    ensures totals == TotalsOf(bills, asOf, until)
    ensures RowsDescribe(table, bills, asOf)
    ensures RowsAddUpTo(table, totals.open)
  {
    totals, table := Totals(0, 0, 0, 0, 0), Table([], map[]);
    NothingTallied(asOf, until);
    ghost var seen: seq<Bill> := [];
    hide Tallied, OpenOf, WithRow, WithOpen, Paid, Open, RowsDescribe, RowsAddUpTo, TotalsOf;
    for k := 0 to |bills|
      invariant seen == bills[..k]
      invariant Tallied(seen, asOf, until, totals, table)
    {
      var bill := bills[k];
      var openAmount := OpenOf(bill);
      ghost var before := seen;
      seen := seen + [bill];
      if openAmount <= 0 {
        TallySettled(before, bill, asOf, until, totals, table);
        continue;
      }
      TallyOpen(before, bill, asOf, until, totals, table);
      var isOverdue := bill.due < asOf;
      var isDueInNext7Days := bill.due >= asOf && bill.due <= until;
      totals := AddToTotals(totals, openAmount, isOverdue, isDueInNext7Days, bill.due, asOf, until);
      table := AddToSupplier(table, bill, isOverdue, asOf);
    }
    assert seen == bills;
    TallyEnds(bills, asOf, until, totals, table);
  }

  lemma TotalsOpen(bills: seq<Bill>, asOf: int, until: int)
    ensures TotalsOf(bills, asOf, until).open == OpenIn(bills, EVERYTHING)
  {
  }

  // ---------------------------------------------------------------- the open invoices are all that is open

  /** The invoices both reports select. */
  function Listed(bills: seq<Bill>): seq<Bill>
  {
    if bills == [] then []
    else
      var last := bills[|bills| - 1];
      Listed(bills[..|bills| - 1]) + if last.status in {RECEIVED, PARTIALLY_PAID} then [last] else []
  }

  /** Nothing is open on the invoices left out of the selection. */
  lemma {:induction false} ListedHoldsAllOpen(bills: seq<Bill>)
    requires forall b :: b in bills ==> PaymentInvariant(b)
    ensures OpenIn(Listed(bills), EVERYTHING) == OpenIn(bills, EVERYTHING)
  {
    if bills != [] {
      var front, last := bills[..|bills| - 1], bills[|bills| - 1];
      assert last in bills && forall b :: b in front ==> b in bills;
      ListedHoldsAllOpen(front);
      OpenAppend(Listed(front), last, EVERYTHING);
      assert Listed(front) + [] == Listed(front);
      assert PaymentInvariant(last);
    }
  }

  // ---------------------------------------------------------------- aging

  const DAY := 86_400_000

  datatype Buckets = Buckets(current: int, d1_30: int, d31_60: int, d61_90: int, d90_plus: int)

  /** Overdue by more than a and at most b whole days. */
  function Aged(asOf: int, a: Option<int>, b: Option<int>): Slice
  {
    Slice(None, if b.None? then None else Some(asOf - (b.value + 1) * DAY + 1),
          if a.None? then None else Some(asOf - (a.value + 1) * DAY + 1))
  }

  /** Whole days, rounded down. */
  function DiffDays(asOf: int, due: int): int
  {
    (asOf - due) / DAY
  }

  lemma DaysOverdue(asOf: int, due: int, days: int)
    ensures DiffDays(asOf, due) <= days <==> asOf - (days + 1) * DAY + 1 <= due
  {
    var q := DiffDays(asOf, due);
    assert asOf - due == DAY * q + (asOf - due) % DAY;
  }

  function BucketsOf(bills: seq<Bill>, asOf: int): Buckets
  {
    Buckets(OpenIn(bills, Aged(asOf, None, Some(0))), OpenIn(bills, Aged(asOf, Some(0), Some(30))),
            OpenIn(bills, Aged(asOf, Some(30), Some(60))), OpenIn(bills, Aged(asOf, Some(60), Some(90))),
            OpenIn(bills, Aged(asOf, Some(90), None)))
  }

  /** The bucket an open amount is added to. */
  function WithAmount(b: Buckets, days: int, amount: nat): Buckets
  {
    if days <= 0 then b.(current := b.current + amount)
    else if days <= 30 then b.(d1_30 := b.d1_30 + amount)
    else if days <= 60 then b.(d31_60 := b.d31_60 + amount)
    else if days <= 90 then b.(d61_90 := b.d61_90 + amount)
    else b.(d90_plus := b.d90_plus + amount)
  }

  lemma BucketsExtended(bills: seq<Bill>, bill: Bill, asOf: int)
    ensures BucketsOf(bills + [bill], asOf)
              == WithAmount(BucketsOf(bills, asOf), DiffDays(asOf, bill.due), OpenOf(bill))
  {
    hide OpenIn, CountIn, OpenOf, DiffDays;
    DaysOverdue(asOf, bill.due, 0);
    DaysOverdue(asOf, bill.due, 30);
    DaysOverdue(asOf, bill.due, 60);
    DaysOverdue(asOf, bill.due, 90);
    OpenAppend(bills, bill, Aged(asOf, None, Some(0)));
    OpenAppend(bills, bill, Aged(asOf, Some(0), Some(30)));
    OpenAppend(bills, bill, Aged(asOf, Some(30), Some(60)));
    OpenAppend(bills, bill, Aged(asOf, Some(60), Some(90)));
    OpenAppend(bills, bill, Aged(asOf, Some(90), None));
  }

  function Sum(b: Buckets): int
  {
    b.current + b.d1_30 + b.d31_60 + b.d61_90 + b.d90_plus
  }

  method AddToBucket(b: Buckets, diffDays: int, openAmount: nat) returns (after: Buckets)
    ensures after == WithAmount(b, diffDays, openAmount) && Sum(after) == Sum(b) + openAmount
  {
    if diffDays <= 0 {
      return b.(current := b.current + openAmount);
    } else if diffDays <= 30 {
      return b.(d1_30 := b.d1_30 + openAmount);
    } else if diffDays <= 60 {
      return b.(d31_60 := b.d31_60 + openAmount);
    } else if diffDays <= 90 {
      return b.(d61_90 := b.d61_90 + openAmount);
    }
    return b.(d90_plus := b.d90_plus + openAmount);
  }

  /** Every open amount falls into exactly one bucket. */
  method Aging(bills: seq<Bill>, asOf: int) returns (buckets: Buckets)
    ensures buckets == BucketsOf(bills, asOf)
    ensures Sum(buckets) == OpenIn(bills, EVERYTHING)
  {
    buckets := Buckets(0, 0, 0, 0, 0);
    NothingAged(asOf);
    ghost var seen: seq<Bill> := [];
    hide *;
    for k := 0 to |bills|
      invariant seen == bills[..k]
      invariant buckets == BucketsOf(seen, asOf) && Sum(buckets) == OpenIn(seen, EVERYTHING)
    {
      BucketsExtended(seen, bills[k], asOf);
      EverythingIn(seen, bills[k]);
      buckets := AddToBucket(buckets, DiffDays(asOf, bills[k].due), OpenOf(bills[k]));
      seen := seen + [bills[k]];
    }
    assert seen == bills;
  }

  lemma NothingAged(asOf: int)
    ensures var b := Buckets(0, 0, 0, 0, 0);
      b == BucketsOf([], asOf) && Sum(b) == OpenIn([], EVERYTHING)
  {
    NothingIn();
    hide OpenIn, Aged;
  }

  lemma NothingIn()
    ensures forall slice :: OpenIn([], slice) == 0
  {
  }

  lemma EverythingIn(bills: seq<Bill>, bill: Bill)
    ensures OpenIn(bills + [bill], EVERYTHING) == OpenIn(bills, EVERYTHING) + OpenOf(bill)
  {
    OpenAppend(bills, bill, EVERYTHING);
  }
}
