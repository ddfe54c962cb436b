/** Stock items, their movement ledger and the documents that move them. */
module StockLedger {
  import opened Results
  import opened Rounding
  import opened StockLots

  datatype Valuation = FIFO | CMP

  datatype Kind = Nir | Consumption | InventoryPlus | InventoryMinus

  /** A StockMovement row: quantity and total are negative on the way out. */
  datatype Movement = Movement(kind: Kind, date: int, quantity: int, unitCost: nat, totalCost: int,
                               resulting: nat, sourceLots: seq<Take>)

  datatype Item = Item(valuation: Valuation, quantity: nat, avg: nat, lots: seq<Lot>, movements: seq<Movement>)

  type Items = map<string, Item>

  /** A line of an NIR, of a consumption or of an inventory document. */
  datatype Line =
    | Receipt(item: string, quantity: int, unitCost: int)
    | Issue(item: string, quantity: int)
    | Count(item: string, counted: nat, cost: Option<nat>)

  datatype Request =
    | CreateItem(code: string, valuation: Valuation, initialQuantity: nat, initialCost: Option<nat>, now: int)
    | Document(date: int, lines: seq<Line>)

  // ---------------------------------------------------------------- aggregates

  function Remaining(lots: seq<Lot>): nat
  {
    if lots == [] then 0 else Remaining(lots[..|lots| - 1]) + lots[|lots| - 1].remaining
  }

  function Value(lots: seq<Lot>): nat
  {
    if lots == [] then 0
    else
      var last := lots[|lots| - 1];
      Value(lots[..|lots| - 1]) + last.remaining * last.unitCost
  }

  /** The weighted average of the live lots. */
  function FifoAverage(lots: seq<Lot>): (r: nat)
    ensures Remaining(lots) > 0 ==> forall lo, hi :: LiveWithin(lots, lo, hi) ==> lo <= r <= hi
  {
    if Remaining(lots) == 0 then 0
    else
      AverageBetween(lots);
      RoundNat(Value(lots), Remaining(lots))
  }

  function Balance(movements: seq<Movement>): int
  {
    if movements == [] then 0 else Balance(movements[..|movements| - 1]) + movements[|movements| - 1].quantity
  }

  /** Everything the movements took from a lot. */
  function Attributed(movements: seq<Movement>, id: nat): nat
  {
    if movements == [] then 0
    else Attributed(movements[..|movements| - 1], id) + TakenFrom(movements[|movements| - 1].sourceLots, id)
  }

  /** Exact cost received minus exact cost issued. */
  function NetCost(movements: seq<Movement>): int
  {
    if movements == [] then 0
    else
      var last := movements[|movements| - 1];
      NetCost(movements[..|movements| - 1])
      + (if last.quantity > 0 then last.quantity * last.unitCost else 0) - ExactCost(last.sourceLots)
  }

  // ---------------------------------------------------------------- the invariant of an item

  predicate LiveWithin(lots: seq<Lot>, lo: int, hi: int)
  {
    forall l :: l in lots && l.remaining > 0 ==> lo <= l.unitCost <= hi
  }

  /** The costs received since the item was last empty lie between lo and hi. */
  predicate ReceivedWithin(movements: seq<Movement>, lo: int, hi: int)
  {
    movements == [] ||
    var last := movements[|movements| - 1];
    last.resulting == 0 ||
    ((last.quantity > 0 ==> lo <= last.unitCost <= hi) && ReceivedWithin(movements[..|movements| - 1], lo, hi))
  }

  /** resultingQuantity is the running sum of the signed quantities. */
  predicate RunningBalance(movements: seq<Movement>)
  {
    forall k :: 0 <= k < |movements| ==> movements[k].resulting == Balance(movements[..k + 1])
  }

  predicate Sourced(movements: seq<Movement>)
  {
    forall m :: m in movements ==> Taken(m.sourceLots) == if m.quantity < 0 then -m.quantity else 0
  }

  /** The costs behind an item: of its live lots, or received since it was last empty. */
  predicate CostsWithin(item: Item, lo: int, hi: int)
  {
    if item.valuation == FIFO then LiveWithin(item.lots, lo, hi) else ReceivedWithin(item.movements, lo, hi)
  }

  predicate Between(lo: int, n: int, hi: int)
  {
    lo <= n <= hi
  }

  /** While there is stock, its average cost lies between the smallest and the largest cost behind it. */
  ghost predicate AverageInvariant(item: Item)
  {
    item.quantity > 0 ==> forall lo, hi :: CostsWithin(item, lo, hi) ==> Between(lo, item.avg, hi)
  }

  ghost predicate LotInvariant(item: Item)
  {
    && Numbered(item.lots)
    && Remaining(item.lots) == item.quantity
    && Sourced(item.movements)
    && (forall i :: 0 <= i < |item.lots| ==>
          item.lots[i].initial == item.lots[i].remaining + Attributed(item.movements, i))
    && (forall i: nat :: i >= |item.lots| ==> Attributed(item.movements, i) == 0)
    && Value(item.lots) == NetCost(item.movements)
  }

  ghost predicate ItemInvariant(item: Item)
  {
    && RunningBalance(item.movements)
    && item.quantity == Balance(item.movements)
    && AverageInvariant(item)
    && (item.valuation == FIFO ==> LotInvariant(item))
    && (item.valuation == CMP ==> item.lots == [] && forall m :: m in item.movements ==> m.sourceLots == [])
  }

  ghost predicate StoreInvariant(items: Items)
  {
    forall id :: id in items ==> ItemInvariant(items[id])
  }

  // ---------------------------------------------------------------- the two movements

  function NextAverage(quantity: nat, avg: nat, received: nat, cost: nat): nat
    requires received > 0
  {
    RoundNat(quantity * avg + received * cost, quantity + received)
  }

  lemma WeightedBetween(quantity: nat, avg: nat, received: nat, cost: nat, lo: int, hi: int)
    requires received > 0
    requires (quantity > 0 ==> lo <= avg <= hi) && lo <= cost <= hi
    ensures lo <= RoundDiv(quantity * avg + received * cost, quantity + received) <= hi
  {
    if quantity > 0 {
      MulMono(quantity, lo, avg);
      MulMono(quantity, avg, hi);
    }
    MulMono(received, lo, cost);
    MulMono(received, cost, hi);
    assert (quantity + received) * lo == quantity * lo + received * lo;
    assert (quantity + received) * hi == quantity * hi + received * hi;
    RoundDivBetween(lo, quantity * avg + received * cost, hi, quantity + received);
  }

  /** The rows an inbound movement writes, given the next average. */
  function Received(item: Item, date: int, quantity: nat, unitCost: nat, kind: Kind, avg: nat): Item
  {
    var next := item.quantity + quantity;
    var movement := Movement(kind, date, quantity, unitCost, Amount(quantity, unitCost), next, []);
    Item(item.valuation, next, avg,
         if item.valuation == FIFO
         then item.lots + [Lot(|item.lots|, date, unitCost, quantity, quantity)]
         else item.lots,
         item.movements + [movement])
  }

  function Inbound(item: Item, date: int, quantity: int, unitCost: int, kind: Kind): Result<Item>
  {
    if quantity <= 0 || unitCost < 0 then Err(BadRequest)
    else
      Ok(Received(item, date, quantity, unitCost, kind, NextAverage(item.quantity, item.avg, quantity, unitCost)))
  }

  function Outbound(item: Item, date: int, quantity: int, kind: Kind): Result<Item>
  {
    if quantity <= 0 || quantity > item.quantity then Err(BadRequest)
    else if item.valuation == CMP then
      var total: int := Amount(quantity, item.avg);
      var avg := if quantity < item.quantity then item.avg else 0;
      Ok(Issued(item, date, quantity, kind, [], item.avg, total, avg))
    else
      var live := Live(ByReceipt(item.lots));
      var takes := Takes(live, quantity);
      if Missing(live, quantity) > 0 then Err(BadRequest)
      else
        var avg := if quantity < item.quantity then FifoAverage(Apply(item.lots, takes)) else 0;
        TotalNonNegative(takes);
        Ok(Issued(item, date, quantity, kind, takes, UnitCostOf(TotalCents(takes), quantity), TotalCents(takes), avg))
  }

  /** The rows an outbound movement writes, given what it took, its cost and the next average. */
  function Issued(item: Item, date: int, quantity: int, kind: Kind, takes: seq<Take>, unitCost: nat, total: int,
                  avg: nat): Item
    requires 0 < quantity <= item.quantity
  {
    var next := item.quantity - quantity;
    var movement := Movement(kind, date, -quantity, unitCost, -total, next, takes);
    item.(quantity := next, avg := avg, lots := Apply(item.lots, takes), movements := item.movements + [movement])
  }

  /** roundUnitCost(total / quantity) of a total in cents. */
  function UnitCostOf(total: nat, quantity: nat): nat
    requires quantity > 0
  {
    RoundNat(total * CENT, quantity)
  }

  // ---------------------------------------------------------------- documents

  function ApplyLine(items: Items, date: int, line: Line): Result<Items>
  {
    if line.item !in items then Err(NotFound)
    else
      var item := items[line.item];
      var moved := match line {
        case Receipt(_, quantity, unitCost) => Inbound(item, date, quantity, unitCost, Nir)
        case Issue(_, quantity) => Outbound(item, date, quantity, Consumption)
        case Count(_, counted, unitCost) => Recount(item, date, counted, unitCost)
      };
      match moved
      case Ok(next) => Ok(items[line.item := next])
      case Err(e) => Err(e)
  }

  function Recount(item: Item, date: int, counted: nat, unitCost: Option<nat>): Result<Item>
  {
    var difference := counted - item.quantity;
    if difference == 0 then Ok(item)
    else if difference > 0 then
      var cost := if unitCost.Some? then unitCost.value else item.avg;
      if cost <= 0 then Err(BadRequest) else Inbound(item, date, difference, cost, InventoryPlus)
    else Outbound(item, date, -difference, InventoryMinus)
  }

  function ApplyLines(items: Items, date: int, lines: seq<Line>): Result<Items>
  {
    if lines == [] then Ok(items)
    else
      match ApplyLine(items, date, lines[0])
      case Ok(next) => ApplyLines(next, date, lines[1..])
      case Err(e) => Err(e)
  }

  function Create(items: Items, r: Request): Result<Items>
    requires r.CreateItem?
  {
    if r.initialQuantity > 0 && r.initialCost.None? then Err(BadRequest)
    else if r.code in items then Err(Conflict)
    else
      var created := Item(r.valuation, 0, 0, [], []);
      if r.initialQuantity > 0 then
        match Inbound(created, r.now, r.initialQuantity, r.initialCost.value, Nir)
        case Ok(stocked) => Ok(items[r.code := stocked])
        case Err(e) => Err(e)
      else Ok(items[r.code := created])
  }

  function Execute(items: Items, request: Request): Result<Items>
  {
    match request
    case CreateItem(_, _, _, _, _) => Create(items, request)
    case Document(date, lines) => ApplyLines(items, date, lines)
  }

  /** A failing request rolls its transaction back. */
  function Settled(items: Items, result: Result<Items>): Items
  {
    if result.Ok? then result.value else items
  }

  function Run(requests: seq<Request>): Items
  {
    if requests == [] then map[]
    else
      var before := Run(requests[..|requests| - 1]);
      Settled(before, Execute(before, requests[|requests| - 1]))
  }

  // ---------------------------------------------------------------- lots as queues

  lemma {:induction false} InsertAggregates(sorted: seq<Lot>, lot: Lot)
    ensures |Units(InsertByReceipt(sorted, lot))| == |Units(sorted)| + lot.remaining
    ensures Sum(Units(InsertByReceipt(sorted, lot))) == Sum(Units(sorted)) + lot.remaining * lot.unitCost
  {
    SumRepeat(lot.unitCost, lot.remaining);
    if sorted != [] && sorted[0].receivedAt <= lot.receivedAt {
      InsertAggregates(sorted[1..], lot);
      var head := Repeat(sorted[0].unitCost, sorted[0].remaining);
      SumConcat(head, Units(sorted[1..]));
      SumConcat(head, Units(InsertByReceipt(sorted[1..], lot)));
    } else {
      assert Units([lot] + sorted) == Repeat(lot.unitCost, lot.remaining) + Units(sorted);
      SumConcat(Repeat(lot.unitCost, lot.remaining), Units(sorted));
    }
  }

  /** The length and the worth of the queue are those of the lot table. */
  lemma {:induction false} QueueAggregates(lots: seq<Lot>)
    ensures |Queue(lots)| == Remaining(lots) && Sum(Queue(lots)) == Value(lots)
  {
    if lots != [] {
      QueueAggregates(lots[..|lots| - 1]);
      InsertAggregates(ByReceipt(lots[..|lots| - 1]), lots[|lots| - 1]);
    }
  }

  lemma {:induction false} ValueBetween(lots: seq<Lot>, lo: int, hi: int)
    requires LiveWithin(lots, lo, hi)
    ensures lo * Remaining(lots) <= Value(lots) <= hi * Remaining(lots)
  {
    if lots != [] {
      var front, last := lots[..|lots| - 1], lots[|lots| - 1];
      ValueBetween(front, lo, hi);
      assert last.remaining > 0 ==> lo <= last.unitCost <= hi;
      ValueStep(lo, Remaining(front), Value(front), last.remaining, last.unitCost, hi);
    }
  }

  lemma ValueStep(lo: int, q: nat, value: nat, r: nat, cost: nat, hi: int)
    requires lo * q <= value <= hi * q && (r > 0 ==> lo <= cost <= hi)
    ensures lo * (q + r) <= value + r * cost <= hi * (q + r)
  {
    assert lo * (q + r) == lo * q + lo * r && hi * (q + r) == hi * q + hi * r;
    if r > 0 {
      MulMono(r, lo, cost);
      MulMono(r, cost, hi);
    }
  }

  lemma AverageBetween(lots: seq<Lot>)
    requires Remaining(lots) > 0
    ensures forall lo, hi :: LiveWithin(lots, lo, hi) ==>
      lo <= RoundDiv(Value(lots), Remaining(lots)) <= hi
  {
    forall lo, hi | LiveWithin(lots, lo, hi)
      ensures lo <= RoundDiv(Value(lots), Remaining(lots)) <= hi
    {
      ValueBetween(lots, lo, hi);
      RoundDivBetween(lo, Value(lots), hi, Remaining(lots));
    }
  }

  // ---------------------------------------------------------------- every movement keeps the invariant

  lemma AppendMovement(movements: seq<Movement>, m: Movement)
    requires RunningBalance(movements)
    requires m.resulting == Balance(movements) + m.quantity
    ensures RunningBalance(movements + [m]) && Balance(movements + [m]) == Balance(movements) + m.quantity
  {
    var all := movements + [m];
    assert all[..|movements|] == movements;
    forall k | 0 <= k < |all| ensures all[k].resulting == Balance(all[..k + 1]) {
      if k < |movements| {
        assert all[..k + 1] == movements[..k + 1];
      } else {
        assert all[..k + 1] == all;
      }
    }
  }

  lemma ReceivedKeepsAverage(item: Item, date: int, quantity: nat, unitCost: nat, kind: Kind)
    requires AverageInvariant(item) && quantity > 0
    ensures AverageInvariant(Received(item, date, quantity, unitCost, kind,
                                      NextAverage(item.quantity, item.avg, quantity, unitCost)))
  {
    var next := Received(item, date, quantity, unitCost, kind,
                         NextAverage(item.quantity, item.avg, quantity, unitCost));
    assert next.movements[..|item.movements|] == item.movements;
    forall lo, hi | CostsWithin(next, lo, hi) ensures Between(lo, next.avg, hi) {
      if item.valuation == FIFO {
        assert forall l :: l in item.lots ==> l in next.lots;
        assert next.lots[|item.lots|] in next.lots;
      }
      assert item.quantity > 0 ==> CostsWithin(item, lo, hi);
      WeightedBetween(item.quantity, item.avg, quantity, unitCost, lo, hi);
    }
  }

  lemma InboundKeepsInvariant(item: Item, date: int, quantity: int, unitCost: int, kind: Kind)
    requires ItemInvariant(item)
    ensures var r := Inbound(item, date, quantity, unitCost, kind);
      r.Ok? ==> ItemInvariant(r.value) && r.value.quantity == item.quantity + quantity
  {
    if quantity > 0 && unitCost >= 0 {
      ReceivedKeepsAverage(item, date, quantity, unitCost, kind);
      ReceivedKeepsInvariant(item, date, quantity, unitCost, kind,
                             NextAverage(item.quantity, item.avg, quantity, unitCost));
    }
  }

  lemma ReceivedKeepsInvariant(item: Item, date: int, quantity: nat, unitCost: nat, kind: Kind, avg: nat)
    requires ItemInvariant(item) && quantity > 0
    requires AverageInvariant(Received(item, date, quantity, unitCost, kind, avg))
    ensures ItemInvariant(Received(item, date, quantity, unitCost, kind, avg))
  {
    var next := Received(item, date, quantity, unitCost, kind, avg);
    var m := next.movements[|item.movements|];
    AppendMovement(item.movements, m);
    if item.valuation == FIFO {
      ReceivedKeepsLots(item, next, m);
    }
  }

  lemma ReceivedKeepsLots(item: Item, next: Item, m: Movement)
    requires LotInvariant(item) && m.quantity > 0 && m.sourceLots == []
    requires next.lots == item.lots + [Lot(|item.lots|, m.date, m.unitCost, m.quantity, m.quantity)]
    requires next.movements == item.movements + [m] && next.quantity == item.quantity + m.quantity
    ensures LotInvariant(next)
  {
    assert next.movements[..|item.movements|] == item.movements;
    assert next.lots[..|item.lots|] == item.lots;
    assert forall i: nat :: Attributed(next.movements, i) == Attributed(item.movements, i);
    assert TakenFrom([], 0) == 0 && Taken([]) == 0;
  }

  lemma OutboundKeepsInvariant(item: Item, date: int, quantity: int, kind: Kind)
    requires ItemInvariant(item)
    ensures var r := Outbound(item, date, quantity, kind);
      r.Ok? ==> ItemInvariant(r.value) && r.value.quantity == item.quantity - quantity
  {
    if 0 < quantity <= item.quantity {
      if item.valuation == FIFO {
        var takes := Takes(Live(ByReceipt(item.lots)), quantity);
        var avg := if quantity < item.quantity then FifoAverage(Apply(item.lots, takes)) else 0;
        FifoIssueRefinesQueue(item, date, quantity, kind);
        TotalNonNegative(takes);
        IssuedKeepsInvariant(item, date, quantity, kind, UnitCostOf(TotalCents(takes), quantity), TotalCents(takes),
                             avg);
      } else {
        IssuedKeepsCost(item, date, quantity, kind, item.avg, Amount(quantity, item.avg));
      }
    }
  }

  lemma IssuedKeepsCost(item: Item, date: int, quantity: nat, kind: Kind, unitCost: nat, total: int)
    requires ItemInvariant(item) && item.valuation == CMP && 0 < quantity <= item.quantity
    ensures ItemInvariant(Issued(item, date, quantity, kind, [], unitCost, total,
                                 if quantity < item.quantity then item.avg else 0))
  {
    var next := Issued(item, date, quantity, kind, [], unitCost, total,
                       if quantity < item.quantity then item.avg else 0);
    var m := next.movements[|item.movements|];
    hide RunningBalance, Balance, LotInvariant, LiveWithin;
    AppendMovement(item.movements, m);
    assert next.movements[..|item.movements|] == item.movements && next.movements == item.movements + [m];
    assert next.quantity > 0 ==> forall lo, hi :: CostsWithin(next, lo, hi) ==> CostsWithin(item, lo, hi);
  }

  /**
    A FIFO issue of a quantity on hand never reaches the second "insufficient stock" throw, leaves the
    queue without its first units, and charges their exact cost up to half a cent per lot.
  */
  lemma FifoIssueRefinesQueue(item: Item, date: int, quantity: nat, kind: Kind)
    requires ItemInvariant(item) && item.valuation == FIFO && quantity > 0
    ensures var r, queue := Outbound(item, date, quantity, kind), Queue(item.lots);
      && (r.Ok? <==> quantity <= item.quantity == |queue|)
      && (r.Ok? ==>
        var m := r.value.movements[|item.movements|];
        && quantity <= |queue|
        && Queue(r.value.lots) == queue[quantity..]
        && ExactCost(m.sourceLots) == Sum(queue[..quantity])
        && -CENT * |m.sourceLots| <= 2 * (-m.totalCost * CENT - Sum(queue[..quantity])) <= CENT * |m.sourceLots|)
  {
    QueueAggregates(item.lots);
    OutboundDropsFirstUnits(item.lots, quantity);
    TotalWithinHalfCentPerLot(Takes(Live(ByReceipt(item.lots)), quantity));
  }

  /** A FIFO receipt, backdated or not, puts its units behind those received no later and before the rest. */
  lemma FifoReceiptEntersQueue(item: Item, date: int, quantity: int, unitCost: int, kind: Kind)
    requires ItemInvariant(item) && item.valuation == FIFO && Inbound(item, date, quantity, unitCost, kind).Ok?
    ensures var queue, k := Queue(item.lots), UnitsBy(item.lots, date);
      k <= |queue| && Queue(Inbound(item, date, quantity, unitCost, kind).value.lots)
        == queue[..k] + Repeat(unitCost, quantity) + queue[k..]
  {
    ReceiptEntersQueue(item.lots, Lot(|item.lots|, date, unitCost, quantity, quantity));
  }

  /** Taking from the lots keeps their totals, their attribution and the cost they carry. */
  lemma IssuedKeepsLots(item: Item, next: Item, quantity: nat, m: Movement)
    requires LotInvariant(item) && 0 < quantity <= item.quantity && m.quantity + quantity == 0
    requires m.sourceLots == Takes(Live(ByReceipt(item.lots)), quantity)
    requires next.lots == Apply(item.lots, m.sourceLots) && next.quantity == item.quantity - quantity
    requires next.movements == item.movements + [m]
    ensures LotInvariant(next)
  {
    ApplyAggregates(item.lots, quantity);
    SourcedNext(item.movements, m);
    forall i: nat
      ensures i < |item.lots| ==> next.lots[i].initial == next.lots[i].remaining + Attributed(next.movements, i)
      ensures i >= |item.lots| ==> Attributed(next.movements, i) == 0
    {
      AttributionKept(item, next, quantity, m, i);
    }
  }

  lemma SourcedNext(movements: seq<Movement>, m: Movement)
    ensures NetCost(movements + [m]) == NetCost(movements)
      + (if m.quantity > 0 then m.quantity * m.unitCost else 0) - ExactCost(m.sourceLots)
    ensures forall i: nat ::
      Attributed(movements + [m], i) == Attributed(movements, i) + TakenFrom(m.sourceLots, i)
  {
    assert (movements + [m])[..|movements|] == movements;
  }

  lemma AttributionKept(item: Item, next: Item, quantity: nat, m: Movement, i: nat)
    requires LotInvariant(item) && 0 < quantity <= item.quantity
    requires m.sourceLots == Takes(Live(ByReceipt(item.lots)), quantity)
    requires next.lots == Apply(item.lots, m.sourceLots) && next.movements == item.movements + [m]
    ensures i < |item.lots| ==> next.lots[i].initial == next.lots[i].remaining + Attributed(next.movements, i)
    ensures i >= |item.lots| ==> Attributed(next.movements, i) == 0
  {
    SourcedNext(item.movements, m);
    if i < |item.lots| {
      OutboundDropsFirstUnits(item.lots, quantity);
      assert item.lots[i] in item.lots;
    } else {
      LiveAreLots(ByReceipt(item.lots));
      ByReceiptSameLots(item.lots);
      TakesOnlyFrom(Live(ByReceipt(item.lots)), quantity, i);
    }
  }

  /** What the takes remove from the lot table, in quantity and in cost. */
  lemma ApplyAggregates(lots: seq<Lot>, quantity: nat)
    requires Numbered(lots) && quantity <= Remaining(lots)
    ensures var takes := Takes(Live(ByReceipt(lots)), quantity);
      && Taken(takes) == quantity
      && Remaining(Apply(lots, takes)) == Remaining(lots) - quantity
      && Value(Apply(lots, takes)) == Value(lots) - ExactCost(takes)
  {
    var queue := Queue(lots);
    QueueAggregates(lots);
    QueueAggregates(Apply(lots, Takes(Live(ByReceipt(lots)), quantity)));
    OutboundDropsFirstUnits(lots, quantity);
    SumConcat(queue[..quantity], queue[quantity..]);
    assert queue[..quantity] + queue[quantity..] == queue;
  }

  lemma IssuedKeepsInvariant(item: Item, date: int, quantity: nat, kind: Kind, unitCost: nat, total: int, avg: nat)
    requires ItemInvariant(item) && item.valuation == FIFO && 0 < quantity <= item.quantity
    requires quantity < item.quantity ==>
      avg == FifoAverage(Apply(item.lots, Takes(Live(ByReceipt(item.lots)), quantity)))
    ensures ItemInvariant(Issued(item, date, quantity, kind, Takes(Live(ByReceipt(item.lots)), quantity),
                                 unitCost, total, avg))
  {
    var takes := Takes(Live(ByReceipt(item.lots)), quantity);
    var next := Issued(item, date, quantity, kind, takes, unitCost, total, avg);
    var m := next.movements[|item.movements|];
    AppendMovement(item.movements, m);
    IssuedKeepsLots(item, next, quantity, m);
  }

  lemma LineKeepsInvariant(items: Items, date: int, line: Line)
    requires StoreInvariant(items)
    ensures var r := ApplyLine(items, date, line);
      r.Ok? ==> StoreInvariant(r.value)
  {
    if line.item in items {
      var item := items[line.item];
      match line
      case Receipt(_, quantity, unitCost) => InboundKeepsInvariant(item, date, quantity, unitCost, Nir);
      case Issue(_, quantity) => OutboundKeepsInvariant(item, date, quantity, Consumption);
      case Count(_, counted, unitCost) => RecountKeepsInvariant(item, date, counted, unitCost);
    }
  }

  lemma RecountKeepsInvariant(item: Item, date: int, counted: nat, unitCost: Option<nat>)
    requires ItemInvariant(item)
    ensures var r := Recount(item, date, counted, unitCost);
      r.Ok? ==> ItemInvariant(r.value) && r.value.quantity == counted
  {
    hide ItemInvariant, Inbound, Outbound;
    var difference := counted - item.quantity;
    if difference > 0 {
      var cost := if unitCost.Some? then unitCost.value else item.avg;
      InboundKeepsInvariant(item, date, difference, cost, InventoryPlus);
    } else if difference < 0 {
      OutboundKeepsInvariant(item, date, -difference, InventoryMinus);
    }
  }

  lemma {:induction false} LinesKeepInvariant(items: Items, date: int, lines: seq<Line>)
    requires StoreInvariant(items)
    ensures var r := ApplyLines(items, date, lines);
      r.Ok? ==> StoreInvariant(r.value)
  {
    if lines != [] {
      LineKeepsInvariant(items, date, lines[0]);
      var r := ApplyLine(items, date, lines[0]);
      if r.Ok? {
        LinesKeepInvariant(r.value, date, lines[1..]);
      }
    }
  }

  /** In every reachable state every item agrees with its lots, its ledger and its cost bounds. */
  lemma {:induction false} EveryRunKeepsInvariant(requests: seq<Request>)
    ensures StoreInvariant(Run(requests))
  {
    if requests != [] {
      var n := |requests| - 1;
      EveryRunKeepsInvariant(requests[..n]);
      var before := Run(requests[..n]);
      match requests[n]
      case CreateItem(_, valuation, quantity, cost, now) =>
        var created := Item(valuation, 0, 0, [], []);
        if cost.Some? {
          InboundKeepsInvariant(created, now, quantity, cost.value, Nir);
        }
      case Document(date, lines) =>
        LinesKeepInvariant(before, date, lines);
    }
  }

  /** The last count of an item in an inventory document. */
  function LastCount(lines: seq<Line>, id: string): Option<nat>
  {
    if lines == [] then None
    else
      var later := LastCount(lines[1..], id);
      if later.Some? then later
      else if lines[0].Count? && lines[0].item == id then Some(lines[0].counted) else None
  }

  /** After an inventory document every counted item holds its last count and the others did not move. */
  lemma {:induction false} InventorySettlesCounts(items: Items, date: int, lines: seq<Line>, id: string)
    requires StoreInvariant(items)
    requires forall l :: l in lines ==> l.Count?
    requires ApplyLines(items, date, lines).Ok?
    ensures var next, count := ApplyLines(items, date, lines).value, LastCount(lines, id);
      && next.Keys == items.Keys
      && (count.Some? ==> id in next && next[id].quantity == count.value)
      && (count.None? && id in items ==> next[id] == items[id])
  {
    if lines != [] {
      var line := lines[0];
      assert line in lines;
      var r := ApplyLine(items, date, line);
      LineKeepsInvariant(items, date, line);
      RecountKeepsInvariant(items[line.item], date, line.counted, line.cost);
      InventorySettlesCounts(r.value, date, lines[1..], id);
    }
  }
}
