/**
  The lots behind a FIFO item and how an outbound movement walks them.
  Quantities are thousandths of a unit, unit costs ten-thousandths, totals cents;
  the simple form of the lot table is the queue of the unit costs of its thousandths.
*/
module StockLots {
  import opened Rounding

  /** A StockLot row; `id` is its place in the order of creation. */
  datatype Lot = Lot(id: nat, receivedAt: int, unitCost: nat, initial: nat, remaining: nat)

  /** One element of a movement's sourceLots. */
  datatype Take = Take(lotId: nat, quantity: nat, unitCost: nat)

  /** Quantity times unit cost, per cent of money. */
  const CENT := 100_000

  function Amount(quantity: nat, unitCost: nat): nat
  {
    RoundNat(quantity * unitCost, CENT)
  }

  // ---------------------------------------------------------------- the lot query

  function InsertByReceipt(sorted: seq<Lot>, lot: Lot): seq<Lot>
  {
    if sorted == [] then [lot]
    else if sorted[0].receivedAt <= lot.receivedAt then [sorted[0]] + InsertByReceipt(sorted[1..], lot)
    else [lot] + sorted
  }

  /** orderBy receivedAt, then creation, of a table kept in the order of creation. */
  function ByReceipt(table: seq<Lot>): seq<Lot>
  {
    if table == [] then [] else InsertByReceipt(ByReceipt(table[..|table| - 1]), table[|table| - 1])
  }

  lemma {:induction false} InsertMembers(sorted: seq<Lot>, lot: Lot)
    ensures multiset(InsertByReceipt(sorted, lot)) == multiset(sorted) + multiset{lot}
  {
    if sorted != [] {
      assert sorted == [sorted[0]] + sorted[1..];
      InsertMembers(sorted[1..], lot);
    }
  }

  /** The query returns the rows of the table. */
  lemma {:induction false} ByReceiptMembers(table: seq<Lot>)
    ensures multiset(ByReceipt(table)) == multiset(table)
  {
    if table != [] {
      var front := table[..|table| - 1];
      ByReceiptMembers(front);
      InsertMembers(ByReceipt(front), table[|table| - 1]);
      assert table == front + [table[|table| - 1]];
    }
  }

  lemma ByReceiptSameLots(table: seq<Lot>)
    ensures forall l :: l in ByReceipt(table) <==> l in table
  {
    ByReceiptMembers(table);
    forall l ensures l in ByReceipt(table) <==> l in table {
      assert l in ByReceipt(table) <==> l in multiset(ByReceipt(table));
      assert l in table <==> l in multiset(table);
    }
  }

  /** where remainingQuantity > 0. */
  function Live(lots: seq<Lot>): seq<Lot>
  {
    if lots == [] then []
    else if lots[0].remaining > 0 then [lots[0]] + Live(lots[1..])
    else Live(lots[1..])
  }

  lemma {:induction false} LiveAreLots(lots: seq<Lot>)
    ensures forall l :: l in Live(lots) <==> l in lots && l.remaining > 0
  {
    if lots != [] {
      LiveAreLots(lots[1..]);
    }
  }

  predicate Before(a: Lot, b: Lot)
  {
    a.receivedAt < b.receivedAt || (a.receivedAt == b.receivedAt && a.id < b.id)
  }

  predicate Distinct(lots: seq<Lot>)
  {
    forall i, j :: 0 <= i < j < |lots| ==> lots[i].id != lots[j].id
  }

  predicate Numbered(table: seq<Lot>)
  {
    forall i :: 0 <= i < |table| ==> table[i].id == i
  }

  predicate Sorted(lots: seq<Lot>)
  {
    forall i, j :: 0 <= i < j < |lots| ==> Before(lots[i], lots[j])
  }

  lemma ConsSorted(head: Lot, rest: seq<Lot>)
    requires Sorted(rest) && Distinct(rest)
    requires forall l :: l in rest ==> Before(head, l) && l.id != head.id
    ensures Sorted([head] + rest) && Distinct([head] + rest)
  {
    forall i, j | 0 <= i < j < |rest| + 1
      ensures Before(([head] + rest)[i], ([head] + rest)[j]) && ([head] + rest)[i].id != ([head] + rest)[j].id
    {
      assert rest[j - 1] in rest;
    }
  }

  lemma {:induction false} InsertKeepsSorted(sorted: seq<Lot>, lot: Lot)
    requires Sorted(sorted) && Distinct(sorted)
    requires forall l :: l in sorted ==> l.id < lot.id
    ensures Sorted(InsertByReceipt(sorted, lot)) && Distinct(InsertByReceipt(sorted, lot))
  {
    if sorted == [] {
    } else if sorted[0].receivedAt <= lot.receivedAt {
      var rest := InsertByReceipt(sorted[1..], lot);
      InsertKeepsSorted(sorted[1..], lot);
      InsertMembers(sorted[1..], lot);
      forall l | l in rest ensures Before(sorted[0], l) && l.id != sorted[0].id {
        assert l in multiset(rest);
      }
      ConsSorted(sorted[0], rest);
    } else {
      ConsSorted(lot, sorted);
    }
  }

  /** The query returns every lot once, oldest receipt first, ties by creation. */
  lemma {:induction false} ByReceiptSorted(table: seq<Lot>)
    requires Numbered(table)
    ensures Sorted(ByReceipt(table)) && Distinct(ByReceipt(table))
  {
    if table != [] {
      var front := table[..|table| - 1];
      ByReceiptSorted(front);
      ByReceiptSameLots(front);
      InsertKeepsSorted(ByReceipt(front), table[|table| - 1]);
    }
  }

  // ---------------------------------------------------------------- the simple form

  function Repeat(cost: nat, count: nat): (r: seq<nat>)
    ensures |r| == count && forall i :: 0 <= i < count ==> r[i] == cost
  {
    seq(count, _ => cost)
  }

  function Units(lots: seq<Lot>): seq<nat>
  {
    if lots == [] then [] else Repeat(lots[0].unitCost, lots[0].remaining) + Units(lots[1..])
  }

  /** The stock of an item: the unit costs of its thousandths, first out first. */
  function Queue(table: seq<Lot>): seq<nat>
  {
    Units(ByReceipt(table))
  }

  function Sum(costs: seq<nat>): nat
  {
    if costs == [] then 0 else costs[0] + Sum(costs[1..])
  }

  lemma {:induction false} SumConcat(a: seq<nat>, b: seq<nat>)
    ensures Sum(a + b) == Sum(a) + Sum(b)
  {
    if a == [] {
      assert a + b == b;
    } else {
      SumConcat(a[1..], b);
      assert (a + b)[1..] == a[1..] + b;
    }
  }

  lemma {:induction false} SumRepeat(cost: nat, count: nat)
    ensures Sum(Repeat(cost, count)) == cost * count
  {
    if count > 0 {
      SumRepeat(cost, count - 1);
      assert Repeat(cost, count)[1..] == Repeat(cost, count - 1);
      assert cost * count == cost * (count - 1) + cost;
    }
  }

  // ---------------------------------------------------------------- the walk over the lots

  /** What the loop takes from the live lots, in order. */
  function Takes(live: seq<Lot>, quantity: nat): seq<Take>
  {
    if live == [] || quantity == 0 then []
    else
      var take := Min(live[0].remaining, quantity);
      [Take(live[0].id, take, live[0].unitCost)] + Takes(live[1..], quantity - take)
  }

  /** What is left to take when the loop runs out of lots. */
  function Missing(live: seq<Lot>, quantity: nat): nat
  {
    if live == [] then quantity else Missing(live[1..], quantity - Min(live[0].remaining, quantity))
  }

  function Taken(takes: seq<Take>): nat
  {
    if takes == [] then 0 else Taken(takes[..|takes| - 1]) + takes[|takes| - 1].quantity
  }

  function TakenFrom(takes: seq<Take>, id: nat): nat
  {
    if takes == [] then 0
    else
      var last := takes[|takes| - 1];
      TakenFrom(takes[..|takes| - 1], id) + if last.lotId == id then last.quantity else 0
  }

  function Cost(take: Take): nat
  {
    take.quantity * take.unitCost
  }

  function ExactCost(takes: seq<Take>): nat
  {
    if takes == [] then 0
    else
      var last := takes[|takes| - 1];
      ExactCost(takes[..|takes| - 1]) + Cost(last)
  }

  function AddCents(total: int, take: Take): int
  {
    RoundDiv(total * CENT + Cost(take), CENT)
  }

  /** movementTotalAbs after these takes: rounded to the cent at every lot. */
  function TotalCents(takes: seq<Take>): int
  {
    if takes == [] then 0
    else
      AddCents(TotalCents(takes[..|takes| - 1]), takes[|takes| - 1])
  }

  function Reduced(lot: Lot, takes: seq<Take>): Lot
  {
    lot.(remaining := Max(lot.remaining - TakenFrom(takes, lot.id), 0))
  }

  /** The lots after the takes were written back. */
  function Apply(lots: seq<Lot>, takes: seq<Take>): (r: seq<Lot>)
    ensures |r| == |lots| && forall i :: 0 <= i < |lots| ==> r[i] == Reduced(lots[i], takes)
  {
    seq(|lots|, i requires 0 <= i < |lots| => Reduced(lots[i], takes))
  }

  lemma {:induction false} TakenConcat(a: seq<Take>, b: seq<Take>, id: nat)
    ensures Taken(a + b) == Taken(a) + Taken(b)
    ensures TakenFrom(a + b, id) == TakenFrom(a, id) + TakenFrom(b, id)
    ensures ExactCost(a + b) == ExactCost(a) + ExactCost(b)
  {
    if b == [] {
      assert a + b == a;
    } else {
      TakenConcat(a, b[..|b| - 1], id);
      assert (a + b)[..|a + b| - 1] == a + b[..|b| - 1];
    }
  }

  lemma {:induction false} TakenSingle(take: Take, id: nat)
    ensures Taken([take]) == take.quantity
    ensures TakenFrom([take], id) == if take.lotId == id then take.quantity else 0
    ensures ExactCost([take]) == Cost(take)
  {
    assert [take][..0] == [];
  }

  lemma {:induction false} TakesOnlyFrom(live: seq<Lot>, quantity: nat, id: nat)
    requires forall l :: l in live ==> l.id != id
    ensures TakenFrom(Takes(live, quantity), id) == 0
  {
    if live != [] && quantity > 0 {
      var take := Min(live[0].remaining, quantity);
      var rest := Takes(live[1..], quantity - take);
      TakesOnlyFrom(live[1..], quantity - take, id);
      TakenConcat([Take(live[0].id, take, live[0].unitCost)], rest, id);
      TakenSingle(Take(live[0].id, take, live[0].unitCost), id);
    }
  }

  /** The walk over these lots takes exactly the first `quantity` units of their queue, at their exact cost. */
  predicate WalkTakesFirst(lots: seq<Lot>, quantity: nat)
  {
    var takes, n := Takes(Live(lots), quantity), Min(quantity, |Units(lots)|);
    && Missing(Live(lots), quantity) == quantity - n
    && Units(Apply(lots, takes)) == Units(lots)[n..]
    && Taken(takes) == n
    && ExactCost(takes) == Sum(Units(lots)[..n])
    && forall l :: l in lots ==> TakenFrom(takes, l.id) <= l.remaining
  }

  lemma {:induction false} WalkDropsFirstUnits(lots: seq<Lot>, quantity: nat)
    requires Distinct(lots)
    ensures WalkTakesFirst(lots, quantity)
  {
    if lots == [] {
    } else if quantity == 0 {
      assert Apply(lots, []) == lots;
      EmptyHandMissesNothing(Live(lots));
    } else {
      TailDistinct(lots);
      hide *;
      var left := quantity - Min(lots[0].remaining, quantity);
      WalkDropsFirstUnits(lots[1..], left);
      TakesOnlyFrom(Live(lots[1..]), left, lots[0].id);
      if lots[0].remaining == 0 {
        SkipEmptyLot(lots, quantity);
      } else {
        WalkOneLot(lots, quantity);
      }
    }
  }

  lemma TailDistinct(lots: seq<Lot>)
    requires Distinct(lots) && lots != []
    ensures Distinct(lots[1..]) && forall l :: l in Live(lots[1..]) ==> l.id != lots[0].id
    ensures forall n: nat :: 0 <= Min(lots[0].remaining, n) <= n
    ensures forall n: nat :: lots[0].remaining == 0 ==> Min(lots[0].remaining, n) == 0
  {
    LiveAreLots(lots[1..]);
  }

  lemma {:induction false} EmptyHandMissesNothing(live: seq<Lot>)
    ensures Missing(live, 0) == 0
  {
    if live != [] {
      EmptyHandMissesNothing(live[1..]);
    }
  }

  lemma SkipEmptyLot(lots: seq<Lot>, quantity: nat)
    requires lots != [] && lots[0].remaining == 0
    requires WalkTakesFirst(lots[1..], quantity)
    requires TakenFrom(Takes(Live(lots[1..]), quantity), lots[0].id) == 0
    ensures WalkTakesFirst(lots, quantity)
  {
    hide Takes, Missing, Taken, ExactCost, Sum, TakenFrom;
    var takes := Takes(Live(lots), quantity);
    assert Live(lots) == Live(lots[1..]);
    assert Units(lots) == Units(lots[1..]);
    assert Apply(lots, takes)[1..] == Apply(lots[1..], takes);
    assert lots == [lots[0]] + lots[1..];
  }

  lemma TakeFirst(first: Take, rest: seq<Take>, id: nat)
    ensures TakenFrom([first] + rest, id) == (if first.lotId == id then first.quantity else 0) + TakenFrom(rest, id)
    ensures Taken([first] + rest) == first.quantity + Taken(rest)
    ensures ExactCost([first] + rest) == Cost(first) + ExactCost(rest)
  {
    TakenConcat([first], rest, id);
    TakenSingle(first, id);
  }

  lemma DropFromRun(cost: nat, count: nat, n: nat, tail: seq<nat>, k: nat)
    requires n <= count && k <= |tail| && (n < count ==> k == 0)
    ensures (Repeat(cost, count) + tail)[n + k..] == Repeat(cost, count - n) + tail[k..]
    ensures Sum((Repeat(cost, count) + tail)[..n + k]) == cost * n + Sum(tail[..k])
  {
    var all := Repeat(cost, count) + tail;
    assert all[..n + k] == Repeat(cost, n) + tail[..k];
    SumConcat(Repeat(cost, n), tail[..k]);
    SumRepeat(cost, n);
  }

  lemma ApplyAfterHead(lots: seq<Lot>, m: nat, rest: seq<Take>)
    requires Distinct(lots) && lots != [] && m <= lots[0].remaining
    requires TakenFrom(rest, lots[0].id) == 0
    ensures var first := Take(lots[0].id, m, lots[0].unitCost);
      Units(Apply(lots, [first] + rest))
        == Repeat(lots[0].unitCost, lots[0].remaining - m) + Units(Apply(lots[1..], rest))
  {
    var first := Take(lots[0].id, m, lots[0].unitCost);
    var after := Apply(lots, [first] + rest);
    TakeFirst(first, rest, lots[0].id);
    forall i | 0 < i < |lots| ensures after[i] == Reduced(lots[i], rest) {
      TakeFirst(first, rest, lots[i].id);
    }
    assert after[1..] == Apply(lots[1..], rest);
    assert after[0] == lots[0].(remaining := lots[0].remaining - m);
  }

  lemma HeadFirst(lots: seq<Lot>, quantity: nat)
    requires lots != [] && lots[0].remaining > 0 && quantity > 0
    ensures var head, tail, m := lots[0], lots[1..], Min(lots[0].remaining, quantity);
      && Takes(Live(lots), quantity) == [Take(head.id, m, head.unitCost)] + Takes(Live(tail), quantity - m)
      && Missing(Live(lots), quantity) == Missing(Live(tail), quantity - m)
      && Units(lots) == Repeat(head.unitCost, head.remaining) + Units(tail)
  {
    assert Live(lots)[0] == lots[0] && Live(lots)[1..] == Live(lots[1..]);
  }

  lemma WalkOneLot(lots: seq<Lot>, quantity: nat)
    requires Distinct(lots) && lots != [] && lots[0].remaining > 0 && quantity > 0
    requires WalkTakesFirst(lots[1..], quantity - Min(lots[0].remaining, quantity))
    requires TakenFrom(Takes(Live(lots[1..]), quantity - Min(lots[0].remaining, quantity)), lots[0].id) == 0
    ensures WalkTakesFirst(lots, quantity)
  {
    hide Live, Takes, Missing, Units, Repeat, TakenFrom, Taken, ExactCost, Sum, Reduced, Apply;
    var head, tail := lots[0], lots[1..];
    var m := Min(head.remaining, quantity);
    var k := Min(quantity - m, |Units(tail)|);
    var first, rest := Take(head.id, m, head.unitCost), Takes(Live(tail), quantity - m);
    HeadFirst(lots, quantity);
    ApplyAfterHead(lots, m, rest);
    DropFromRun(head.unitCost, head.remaining, m, Units(tail), k);
    assert Min(quantity, |Units(lots)|) == m + k;
    TakeFirst(first, rest, head.id);
    assert Cost(first) == head.unitCost * m;
    forall i | 0 <= i < |lots| ensures TakenFrom([first] + rest, lots[i].id) <= lots[i].remaining {
      if i > 0 {
        assert tail[i - 1] == lots[i] && lots[i].id != head.id;
        TakeFirst(first, rest, lots[i].id);
      }
    }
  }

  /** Writing takes back and querying commute: takes do not change the order of receipt. */
  lemma {:induction false} ApplyInsert(sorted: seq<Lot>, lot: Lot, takes: seq<Take>)
    ensures Apply(InsertByReceipt(sorted, lot), takes) == InsertByReceipt(Apply(sorted, takes), Reduced(lot, takes))
  {
    if sorted != [] && sorted[0].receivedAt <= lot.receivedAt {
      ApplyInsert(sorted[1..], lot, takes);
      assert Apply(sorted, takes)[1..] == Apply(sorted[1..], takes);
      assert InsertByReceipt(sorted, lot)[1..] == InsertByReceipt(sorted[1..], lot);
    } else {
      assert Apply([lot] + sorted, takes) == [Reduced(lot, takes)] + Apply(sorted, takes);
    }
  }

  lemma {:induction false} ApplyByReceipt(table: seq<Lot>, takes: seq<Take>)
    ensures ByReceipt(Apply(table, takes)) == Apply(ByReceipt(table), takes)
  {
    if table != [] {
      var front, last := table[..|table| - 1], table[|table| - 1];
      ApplyByReceipt(front, takes);
      ApplyInsert(ByReceipt(front), last, takes);
      assert Apply(table, takes)[..|table| - 1] == Apply(front, takes);
    }
  }

  /**
    FIFO refinement: the walk over the queried lots turns the queue of unit costs into the queue
    without its first `quantity` units, whatever the dates of the receipts; it runs short exactly
    when the queue does.
  */
  lemma OutboundDropsFirstUnits(table: seq<Lot>, quantity: nat)
    requires Numbered(table)
    ensures var takes := Takes(Live(ByReceipt(table)), quantity);
      && (Missing(Live(ByReceipt(table)), quantity) == 0 <==> quantity <= |Queue(table)|)
      && (quantity <= |Queue(table)| ==>
        && Queue(Apply(table, takes)) == Queue(table)[quantity..]
        && Taken(takes) == quantity
        && ExactCost(takes) == Sum(Queue(table)[..quantity]))
      && forall l :: l in table ==> TakenFrom(takes, l.id) <= l.remaining
  {
    ByReceiptSorted(table);
    ByReceiptSameLots(table);
    WalkDropsFirstUnits(ByReceipt(table), quantity);
    ApplyByReceipt(table, Takes(Live(ByReceipt(table)), quantity));
  }

  // ---------------------------------------------------------------- what a receipt does to the queue

  /** The units on hand that were received at the date or before. */
  function UnitsBy(lots: seq<Lot>, date: int): nat
  {
    if lots == [] then 0
    else
      var last := lots[|lots| - 1];
      UnitsBy(lots[..|lots| - 1], date) + if last.receivedAt <= date then last.remaining else 0
  }

  lemma {:induction false} UnitsByHead(lots: seq<Lot>, date: int)
    requires lots != []
    ensures UnitsBy(lots, date)
              == (if lots[0].receivedAt <= date then lots[0].remaining else 0) + UnitsBy(lots[1..], date)
  {
    if |lots| > 1 {
      UnitsByHead(lots[..|lots| - 1], date);
      assert lots[..|lots| - 1][1..] == lots[1..][..|lots| - 2];
    }
  }

  lemma {:induction false} UnitsByInsert(sorted: seq<Lot>, lot: Lot, date: int)
    ensures UnitsBy(InsertByReceipt(sorted, lot), date)
         == UnitsBy(sorted, date) + if lot.receivedAt <= date then lot.remaining else 0
  {
    UnitsByHead(InsertByReceipt(sorted, lot), date);
    if sorted != [] {
      UnitsByHead(sorted, date);
      UnitsByInsert(sorted[1..], lot, date);
      assert ([sorted[0]] + InsertByReceipt(sorted[1..], lot))[1..] == InsertByReceipt(sorted[1..], lot);
      assert ([lot] + sorted)[1..] == sorted;
    }
  }

  lemma {:induction false} UnitsByReceipt(table: seq<Lot>, date: int)
    ensures UnitsBy(ByReceipt(table), date) == UnitsBy(table, date)
  {
    if table != [] {
      UnitsByReceipt(table[..|table| - 1], date);
      UnitsByInsert(ByReceipt(table[..|table| - 1]), table[|table| - 1], date);
    }
  }

  lemma {:induction false} NoneBy(lots: seq<Lot>, date: int)
    requires forall l :: l in lots ==> l.receivedAt > date
    ensures UnitsBy(lots, date) == 0
  {
    if lots != [] {
      assert lots[|lots| - 1] in lots && forall l :: l in lots[..|lots| - 1] ==> l in lots;
      NoneBy(lots[..|lots| - 1], date);
    }
  }

  lemma PutBehind(a: seq<nat>, b: seq<nat>, c: seq<nat>, k: nat)
    requires k <= |b|
    ensures a + (b[..k] + c + b[k..]) == (a + b)[..|a| + k] + c + (a + b)[|a| + k..]
  {
  }

  lemma {:induction false} InsertUnits(sorted: seq<Lot>, lot: Lot)
    requires Sorted(sorted)
    ensures var units, k := Units(sorted), UnitsBy(sorted, lot.receivedAt);
      && k <= |units|
      && Units(InsertByReceipt(sorted, lot)) == units[..k] + Repeat(lot.unitCost, lot.remaining) + units[k..]
  {
    hide Units, Repeat;
    var added := Repeat(lot.unitCost, lot.remaining);
    UnitsCons(lot, sorted);
    if sorted == [] {
      assert [lot] + sorted == [lot];
    } else {
      UnitsCons(sorted[0], sorted[1..]);
      assert [sorted[0]] + sorted[1..] == sorted;
      if sorted[0].receivedAt <= lot.receivedAt {
        InsertUnits(sorted[1..], lot);
        UnitsByHead(sorted, lot.receivedAt);
        UnitsCons(sorted[0], InsertByReceipt(sorted[1..], lot));
        hide UnitsBy, Sorted;
        PutBehind(Repeat(sorted[0].unitCost, sorted[0].remaining), Units(sorted[1..]), added,
                  UnitsBy(sorted[1..], lot.receivedAt));
      } else {
        forall l | l in sorted ensures l.receivedAt > lot.receivedAt {
          var i :| 0 <= i < |sorted| && sorted[i] == l;
          assert i > 0 ==> Before(sorted[0], sorted[i]);
        }
        NoneBy(sorted, lot.receivedAt);
        hide UnitsBy, Sorted;
        assert Units(sorted)[..0] == [] && [] + added == added && Units(sorted)[0..] == Units(sorted);
      }
    }
  }

  lemma UnitsCons(lot: Lot, rest: seq<Lot>)
    ensures Units([lot] + rest) == Repeat(lot.unitCost, lot.remaining) + Units(rest)
  {
    hide Repeat;
    assert ([lot] + rest)[1..] == rest;
  }

  /** A new lot's units enter the queue behind all units received no later, before all received later. */
  lemma ReceiptEntersQueue(table: seq<Lot>, lot: Lot)
    requires Numbered(table)
    ensures var queue, k := Queue(table), UnitsBy(table, lot.receivedAt);
      k <= |queue| && Queue(table + [lot]) == queue[..k] + Repeat(lot.unitCost, lot.remaining) + queue[k..]
  {
    ByReceiptSorted(table);
    UnitsByReceipt(table, lot.receivedAt);
    InsertUnits(ByReceipt(table), lot);
    assert (table + [lot])[..|table|] == table;
  }

  // ---------------------------------------------------------------- what the rounding costs

  /** Rounding at every lot costs at most half a cent per lot touched. */
  lemma {:induction false} TotalWithinHalfCentPerLot(takes: seq<Take>)
    ensures -CENT * |takes| <= 2 * (TotalCents(takes) * CENT - ExactCost(takes)) <= CENT * |takes|
  {
    if takes != [] {
      var front, last := takes[..|takes| - 1], takes[|takes| - 1];
      TotalWithinHalfCentPerLot(front);
      RoundDivBounds(TotalCents(front) * CENT + Cost(last), CENT);
    }
  }

  /** The total of an outbound movement is never negative. */
  lemma {:induction false} TotalNonNegative(takes: seq<Take>)
    ensures TotalCents(takes) >= 0
  {
    if takes != [] {
      var last := takes[|takes| - 1];
      TotalNonNegative(takes[..|takes| - 1]);
      var n := TotalCents(takes[..|takes| - 1]) * CENT + Cost(last);
      RoundDivBetween(0, n, n, CENT);
    }
  }
}
