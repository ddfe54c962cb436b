/** The stock routes as they run: rows updated in place, lots walked and written back one by one. */
module StockStore {
  import opened Results
  import opened Rounding
  import opened StockLots
  import opened StockLedger

  class Store {
    var items: Items

    ghost predicate Valid()
      reads this
    {
      StoreInvariant(items)
    }

    constructor ()
      ensures Valid() && items == map[]
    {
      items := map[];
    }

    /** Weighted average of the live lots, in whatever order the query returns them. */
    method ComputeFifoAverageCost(lots: seq<Lot>) returns (avg: nat)
      ensures avg == FifoAverage(lots)
    {
      var quantity: nat, value: nat := 0, 0;
      for k := 0 to |lots|
        invariant quantity == Remaining(lots[..k]) && value == Value(lots[..k])
      {
        assert lots[..k + 1][..k] == lots[..k];
        if lots[k].remaining > 0 {
          quantity := quantity + lots[k].remaining;
          value := value + lots[k].remaining * lots[k].unitCost;
        }
      }
      assert lots[..|lots|] == lots;
      avg := if quantity == 0 then 0 else RoundNat(value, quantity);
    }

    method ApplyInbound(id: string, date: int, quantity: int, unitCost: int, kind: Kind)
      returns (result: Result<nat>)
      requires id in items
      modifies this
      ensures match Inbound(old(items)[id], date, quantity, unitCost, kind)
        case Ok(next) => result == Ok(next.quantity) && items == old(items)[id := next]
        case Err(e) => result == Err(e) && items == old(items)
    {
      if quantity <= 0 || unitCost < 0 {
        return Err(BadRequest);
      }
      var item := items[id];
      var next := item.quantity + quantity;
      var avg := NextAverage(item.quantity, item.avg, quantity, unitCost);
      var movement := Movement(kind, date, quantity, unitCost, Amount(quantity, unitCost), next, []);
      item := item.(quantity := next, avg := avg, movements := item.movements + [movement]);
      if item.valuation == FIFO {
        item := item.(lots := item.lots + [Lot(|item.lots|, date, unitCost, quantity, quantity)]);
      }
      items := items[id := item];
      return Ok(next);
    }

    /** The loop over the queried lots, writing every touched row back to the table. */
    method WalkLots(table: seq<Lot>, quantity: nat)
      returns (after: seq<Lot>, takes: seq<Take>, total: int, remaining: nat)
      requires Numbered(table)
      ensures takes == Takes(Live(ByReceipt(table)), quantity)
      ensures remaining == Missing(Live(ByReceipt(table)), quantity)
      ensures after == Apply(table, takes) && total == TotalCents(takes)
    {
      hide Walking, Live, ByReceipt, Takes, Missing, Apply, TotalCents, AddCents, Numbered;
      var live := Live(ByReceipt(table));
      after, takes, total, remaining := table, [], 0, quantity;
      WalkingStarts(table, quantity);
      var k := 0;
      while k < |live| && remaining > 0
        invariant k <= |live|
        invariant Walking(table, live, quantity, k, takes, remaining, after, total)
      {
        WalkingStep(table, live, quantity, k, takes, remaining, after, total);
        var lot := live[k];
        var takeQty := Min(lot.remaining, remaining);
        var taken := Take(lot.id, takeQty, lot.unitCost);
        after := after[lot.id := after[lot.id].(remaining := lot.remaining - takeQty)];
        total := AddCents(total, taken);
        takes := takes + [taken];
        remaining := remaining - takeQty;
        k := k + 1;
      }
      WalkingEnds(table, live, quantity, k, takes, remaining, after, total);
    }

    /** After k lots: what was taken and written back, what is left to take, the lots ahead untouched. */
    static predicate Walking(table: seq<Lot>, live: seq<Lot>, quantity: nat, k: nat, takes: seq<Take>,
                             remaining: nat, after: seq<Lot>, total: int)
    {
      && k <= |live| && Numbered(table) && Distinct(live)
      && Takes(live, quantity) == takes + Takes(live[k..], remaining)
      && Missing(live, quantity) == Missing(live[k..], remaining)
      && (forall j :: k <= j < |live| ==>
            live[j].id < |table| && table[live[j].id] == live[j] && TakenFrom(takes, live[j].id) == 0)
      && after == Apply(table, takes) && total == TotalCents(takes)
    }

    static lemma WalkingStarts(table: seq<Lot>, quantity: nat)
      requires Numbered(table)
      ensures Walking(table, Live(ByReceipt(table)), quantity, 0, [], quantity, table, 0)
    {
      hide ByReceipt, Live, Takes, Missing;
      LiveDistinct(table);
      assert Apply(table, []) == table;
      assert Live(ByReceipt(table))[0..] == Live(ByReceipt(table));
    }

    static lemma WalkingStep(table: seq<Lot>, live: seq<Lot>, quantity: nat, k: nat, takes: seq<Take>,
                             remaining: nat, after: seq<Lot>, total: int)
      requires Walking(table, live, quantity, k, takes, remaining, after, total) && k < |live| && remaining > 0
      ensures var lot := live[k];
        var take := Take(lot.id, Min(lot.remaining, remaining), lot.unitCost);
        && lot.id < |after|
        && Walking(table, live, quantity, k + 1, takes + [take], remaining - take.quantity,
                   after[lot.id := after[lot.id].(remaining := lot.remaining - take.quantity)],
                   AddCents(total, take))
    {
      var lot := live[k];
      var next := takes + [Take(lot.id, Min(lot.remaining, remaining), lot.unitCost)];
      assert next[..|takes|] == takes;
      assert live[k..][1..] == live[k + 1..];
      forall j | k < j < |live| ensures TakenFrom(next, live[j].id) == 0 {
      }
    }

    static lemma WalkingEnds(table: seq<Lot>, live: seq<Lot>, quantity: nat, k: nat, takes: seq<Take>,
                             remaining: nat, after: seq<Lot>, total: int)
      requires Walking(table, live, quantity, k, takes, remaining, after, total)
      requires k == |live| || remaining == 0
      ensures takes == Takes(live, quantity) && remaining == Missing(live, quantity)
      ensures after == Apply(table, takes) && total == TotalCents(takes)
    {
      if remaining == 0 {
        EmptyHandMissesNothing(live[k..]);
      }
    }

    static lemma LiveDistinct(table: seq<Lot>)
      requires Numbered(table)
      ensures Distinct(Live(ByReceipt(table)))
      ensures forall l :: l in Live(ByReceipt(table)) ==> l.id < |table| && table[l.id] == l
    {
      ByReceiptSorted(table);
      ByReceiptSameLots(table);
      LiveAreLots(ByReceipt(table));
      LiveKeepsDistinct(ByReceipt(table));
    }

    static lemma {:induction false} LiveKeepsDistinct(lots: seq<Lot>)
      requires Distinct(lots)
      ensures Distinct(Live(lots))
    {
      if lots != [] {
        LiveKeepsDistinct(lots[1..]);
        LiveAreLots(lots[1..]);
        var rest := Live(lots[1..]);
        forall j | 0 <= j < |rest| ensures rest[j].id != lots[0].id {
          assert rest[j] in rest;
        }
      }
    }

    method ApplyOutbound(id: string, date: int, quantity: int, kind: Kind) returns (result: Result<nat>)
      requires id in items && Numbered(items[id].lots)
      modifies this
      ensures match Outbound(old(items)[id], date, quantity, kind)
        case Ok(next) => result == Ok(next.quantity) && items == old(items)[id := next]
        case Err(e) => result == Err(e) && items == old(items)
    {
      hide Live, ByReceipt, Takes, Missing, Apply, TotalCents, UnitCostOf, FifoAverage, Amount;
      if quantity <= 0 {
        return Err(BadRequest);
      }
      var item := items[id];
      if quantity > item.quantity {
        return Err(BadRequest);
      }
      var next := item.quantity - quantity;
      var unitCost, total, avg := 0, 0, 0;
      var takes: seq<Take> := [];
      if item.valuation == CMP {
        unitCost := item.avg;
        total := Amount(quantity, unitCost);
        assert Apply(item.lots, []) == item.lots;
        avg := if next > 0 then unitCost else 0;
      } else {
        var lots, remaining;
        lots, takes, total, remaining := WalkLots(item.lots, quantity);
        if remaining > 0 {
          return Err(BadRequest);
        }
        TotalNonNegative(takes);
        unitCost := UnitCostOf(total, quantity);
        if next > 0 {
          avg := ComputeFifoAverageCost(lots);
        }
        item := item.(lots := lots);
      }
      var movement := Movement(kind, date, -quantity, unitCost, -total, next, takes);
      items := items[id := item.(quantity := next, avg := avg, movements := item.movements + [movement])];
      return Ok(next);
    }

    /** An NIR, a consumption or an inventory document: all of its lines, or none. */
    method PostDocument(date: int, lines: seq<Line>) returns (result: Result<nat>)
      requires Valid()
      modifies this
      ensures Valid()
      ensures match ApplyLines(old(items), date, lines)
        case Ok(next) => result.Ok? && items == next
        case Err(e) => result == Err(e) && items == old(items)
    {
      var snapshot := items;
      LinesKeepInvariant(items, date, lines);
      var moved := 0;
      for k := 0 to |lines|
        invariant Valid()
        invariant ApplyLines(snapshot, date, lines) == ApplyLines(items, date, lines[k..])
      {
        var line := lines[k];
        assert lines[k..][0] == line && lines[k..][1..] == lines[k + 1..];
        LineKeepsInvariant(items, date, line);
        assert line.item in items ==> ItemInvariant(items[line.item]);
        if line.item !in items {
          items := snapshot;
          return Err(NotFound);
        }
        RowNumbered(items[line.item]);
        var done := Ok(0);
        match line {
          case Receipt(id, quantity, unitCost) =>
            done := ApplyInbound(id, date, quantity, unitCost, Nir);
          case Issue(id, quantity) =>
            done := ApplyOutbound(id, date, quantity, Consumption);
          case Count(id, counted, cost) =>
            done := Reconcile(id, date, counted, cost);
        }
        if done.Err? {
          items := snapshot;
          return Err(done.error);
        }
        moved := moved + 1;
      }
      return Ok(moved);
    }

    static lemma RowNumbered(item: Item)
      requires ItemInvariant(item)
      ensures Numbered(item.lots)
    {
    }

    /** One line of the inventory reconciliation. */
    method Reconcile(id: string, date: int, counted: nat, cost: Option<nat>) returns (result: Result<nat>)
      requires id in items && Numbered(items[id].lots)
      modifies this
      ensures match Recount(old(items)[id], date, counted, cost)
        case Ok(next) => result == Ok(counted) && items == old(items)[id := next]
        case Err(e) => result == Err(e) && items == old(items)
    {
      var item := items[id];
      var difference := counted - item.quantity;
      if difference == 0 {
        assert items == items[id := item];
        return Ok(counted);
      }
      if difference > 0 {
        var resolved := if cost.Some? then cost.value else item.avg;
        if resolved <= 0 {
          return Err(BadRequest);
        }
        result := ApplyInbound(id, date, difference, resolved, InventoryPlus);
      } else {
        result := ApplyOutbound(id, date, -difference, InventoryMinus);
      }
    }
  }
}
