/** What the movements of an item do to its average cost, and what the average is worth over every run. */
module StockCosts {
  import opened Results
  import opened Rounding
  import opened StockLots
  import opened StockLedger

  /** r is n / d to the nearest integer, halves upwards. */
  predicate Nearest(r: int, n: int, d: int)
  {
    2 * n - d < 2 * (d * r) <= 2 * n + d
  }

  /** The item after one movement more: the quantity moved, the row written, and nothing else but average and lots. */
  predicate Moves(item: Item, after: Item, kind: Kind, date: int, quantity: int)
  {
    && after.valuation == item.valuation && after.quantity == item.quantity + quantity
    && |after.movements| == |item.movements| + 1 && after.movements[..|item.movements|] == item.movements
    && var m := LastMovement(after);
       m.kind == kind && m.date == date && m.quantity == quantity && m.resulting == after.quantity
  }

  function LastMovement(item: Item): Movement
    requires item.movements != []
  {
    item.movements[|item.movements| - 1]
  }

  // ---------------------------------------------------------------- one movement

  /**
    A receipt is taken exactly if its quantity is positive and its cost not negative. The quantity on hand at the
    new average is worth, to the nearest, what it was worth before plus the cost of the receipt.
  */
  lemma ReceiptValue(item: Item, date: int, quantity: int, unitCost: int, kind: Kind)
    ensures Inbound(item, date, quantity, unitCost, kind).Ok? <==> quantity > 0 && unitCost >= 0
    ensures quantity > 0 && unitCost >= 0 ==>
      var after := Inbound(item, date, quantity, unitCost, kind).value;
      && Moves(item, after, kind, date, quantity)
      && LastMovement(after).unitCost == unitCost && Nearest(LastMovement(after).totalCost, quantity * unitCost, CENT)
      && Nearest(after.avg, item.quantity * item.avg + quantity * unitCost, after.quantity)
  {
    if quantity > 0 && unitCost >= 0 {
      RoundDivBounds(item.quantity * item.avg + quantity * unitCost, item.quantity + quantity);
      RoundDivBounds(quantity * unitCost, CENT);
      hide RoundDiv;
    }
  }

  /**
    An issue at average cost is taken exactly if the quantity is positive and on hand. It is booked at the average, its
    total to the nearest cent; the average stays while stock is left.
  */
  lemma IssueAtAverage(item: Item, date: int, quantity: int, kind: Kind)
    requires item.valuation == CMP
    ensures Outbound(item, date, quantity, kind).Ok? <==> 0 < quantity <= item.quantity
    ensures 0 < quantity <= item.quantity ==>
      var after := Outbound(item, date, quantity, kind).value;
      && Moves(item, after, kind, date, -quantity)
      && LastMovement(after).unitCost == item.avg && Nearest(-LastMovement(after).totalCost, quantity * item.avg, CENT)
      && after.avg == if after.quantity > 0 then item.avg else 0
  {
    if 0 < quantity <= item.quantity {
      RoundDivBounds(quantity * item.avg, CENT);
      hide RoundDiv;
    }
  }

  /**
    An issue of a FIFO item is taken exactly if the quantity is positive and on hand. Its unit cost is its total over
    its quantity; the new average is that of the units left in the queue, each to the nearest.
  */
  lemma IssueFromLots(item: Item, date: int, quantity: int, kind: Kind)
    requires ItemInvariant(item) && item.valuation == FIFO
    ensures Outbound(item, date, quantity, kind).Ok? <==> 0 < quantity <= item.quantity
    ensures 0 < quantity <= item.quantity ==>
      var after := Outbound(item, date, quantity, kind).value;
      && Moves(item, after, kind, date, -quantity)
      && LastMovement(after).totalCost <= 0
      && Nearest(LastMovement(after).unitCost, -LastMovement(after).totalCost * CENT, quantity)
      && if after.quantity > 0 then Nearest(after.avg, Sum(Queue(after.lots)), after.quantity) else after.avg == 0
  {
    if 0 < quantity <= item.quantity {
      QueueAggregates(item.lots);
      FifoIssueRefinesQueue(item, date, quantity, kind);
      OutboundKeepsInvariant(item, date, quantity, kind);
      var after := Outbound(item, date, quantity, kind).value;
      QueueAggregates(after.lots);
      IssueRow(item, date, quantity, kind);
    }
  }

  lemma IssueRow(item: Item, date: int, quantity: int, kind: Kind)
    requires item.valuation == FIFO && Outbound(item, date, quantity, kind).Ok?
    ensures var after := Outbound(item, date, quantity, kind).value;
      && Moves(item, after, kind, date, -quantity)
      && (after.quantity > 0 && Remaining(after.lots) == after.quantity ==>
            Nearest(after.avg, Value(after.lots), after.quantity))
      && (after.quantity == 0 ==> after.avg == 0)
      && LastMovement(after).totalCost <= 0
      && Nearest(LastMovement(after).unitCost, -LastMovement(after).totalCost * CENT, quantity)
  {
    var takes := Takes(Live(ByReceipt(item.lots)), quantity);
    var after := Outbound(item, date, quantity, kind).value;
    hide ByReceipt, Live, Takes, Missing, Apply, TotalCents, Remaining, Value, RoundDiv;
    TotalNonNegative(takes);
    RoundDivBounds(TotalCents(takes) * CENT, quantity);
    if Remaining(after.lots) > 0 {
      RoundDivBounds(Value(after.lots), Remaining(after.lots));
    }
  }

  /** The cost a counted surplus is received at. */
  function SurplusCost(item: Item, cost: Option<nat>): nat
  {
    if cost.Some? then cost.value else item.avg
  }

  /** A count is refused only for a surplus without a cost above zero; it books the difference, if there is one. */
  lemma CountBooksDifference(item: Item, date: int, counted: nat, cost: Option<nat>)
    requires ItemInvariant(item)
    ensures Recount(item, date, counted, cost).Ok? <==> counted <= item.quantity || SurplusCost(item, cost) > 0
    ensures Recount(item, date, counted, cost).Ok? ==>
      var after, difference := Recount(item, date, counted, cost).value, counted - item.quantity;
      if difference == 0 then after == item
      else
        && Moves(item, after, if difference > 0 then InventoryPlus else InventoryMinus, date, difference)
        && (difference > 0 ==> LastMovement(after).unitCost == SurplusCost(item, cost))
  {
    hide ItemInvariant, Inbound, Outbound;
    var difference := counted - item.quantity;
    if difference > 0 {
      ReceiptValue(item, date, difference, SurplusCost(item, cost), InventoryPlus);
    } else if difference < 0 && item.valuation == CMP {
      IssueAtAverage(item, date, -difference, InventoryMinus);
    } else if difference < 0 {
      IssueFromLots(item, date, -difference, InventoryMinus);
    }
  }

  // ---------------------------------------------------------------- lines and documents

  /** What a line needs of the item it names. */
  predicate Meets(item: Item, line: Line)
  {
    match line
    case Receipt(_, quantity, unitCost) => quantity > 0 && unitCost >= 0
    case Issue(_, quantity) => 0 < quantity <= item.quantity
    case Count(_, counted, cost) => counted <= item.quantity || SurplusCost(item, cost) > 0
  }

  /** What a line adds to the quantity on hand. */
  function Change(item: Item, line: Line): int
  {
    match line
    case Receipt(_, quantity, _) => quantity
    case Issue(_, quantity) => -quantity
    case Count(_, counted, _) => counted - item.quantity
  }

  /** A line is taken exactly if its item exists and meets it; it moves the quantity of that item and no other item. */
  lemma LineMoves(items: Items, date: int, line: Line)
    requires StoreInvariant(items)
    ensures ApplyLine(items, date, line).Ok? <==> line.item in items && Meets(items[line.item], line)
    ensures ApplyLine(items, date, line).Ok? ==>
      var next := ApplyLine(items, date, line).value;
      && next == items[line.item := next[line.item]]
      && next[line.item].quantity == items[line.item].quantity + Change(items[line.item], line)
  {
    if line.item in items {
      var item := items[line.item];
      match line
      case Receipt(_, quantity, unitCost) => ReceiptValue(item, date, quantity, unitCost, Nir);
      case Issue(_, quantity) =>
        if item.valuation == CMP {
          IssueAtAverage(item, date, quantity, Consumption);
        } else {
          IssueFromLots(item, date, quantity, Consumption);
        }
      case Count(_, counted, cost) => CountBooksDifference(item, date, counted, cost);
      hide Inbound, Outbound, Recount, ItemInvariant;
    }
  }

  /** What a consumption asks of an item, all lines together. */
  function Asked(lines: seq<Line>, id: string): int
  {
    if lines == [] then 0
    else (if lines[0].Issue? && lines[0].item == id then lines[0].quantity else 0) + Asked(lines[1..], id)
  }

  predicate IssuesOf(items: Items, lines: seq<Line>)
  {
    forall l :: l in lines ==> l.Issue? && l.quantity > 0 && l.item in items
  }

  predicate OnHand(items: Items, lines: seq<Line>)
  {
    forall id :: id in items ==> Asked(lines, id) <= items[id].quantity
  }

  lemma {:induction false} AskedNonNegative(items: Items, lines: seq<Line>, id: string)
    requires IssuesOf(items, lines)
    ensures Asked(lines, id) >= 0
  {
    if lines != [] {
      assert lines[0] in lines;
      AskedNonNegative(items, lines[1..], id);
    }
  }

  /**
    A consumption is taken if and only if every item exists, every quantity is positive, and of every item all that is
    asked, by however many lines, is on hand; it then takes exactly that.
  */
  lemma {:induction false} ConsumptionTaken(items: Items, date: int, lines: seq<Line>)
    requires StoreInvariant(items) && forall l :: l in lines ==> l.Issue?
    ensures ApplyLines(items, date, lines).Ok? <==> IssuesOf(items, lines) && OnHand(items, lines)
    ensures ApplyLines(items, date, lines).Ok? ==>
      var next := ApplyLines(items, date, lines).value;
      next.Keys == items.Keys && forall id :: id in items ==> next[id].quantity == items[id].quantity - Asked(lines, id)
    decreases |lines|
  {
    hide ApplyLine, StoreInvariant;
    if lines != [] {
      var line, rest := lines[0], lines[1..];
      assert line in lines;
      LineMoves(items, date, line);
      LineKeepsInvariant(items, date, line);
      if ApplyLine(items, date, line).Ok? {
        var next := ApplyLine(items, date, line).value;
        ConsumptionTaken(next, date, rest);
        hide Asked;
        OneLineLess(items, next, lines);
      } else if IssuesOf(items, lines) {
        AskedNonNegative(items, rest, line.item);
      }
    }
  }

  lemma OneLineLess(items: Items, next: Items, lines: seq<Line>)
    requires lines != [] && lines[0].Issue? && lines[0].item in items && 0 < lines[0].quantity
    requires lines[0].item in next && next == items[lines[0].item := next[lines[0].item]]
    requires next[lines[0].item].quantity == items[lines[0].item].quantity - lines[0].quantity
    ensures IssuesOf(items, lines) <==> IssuesOf(next, lines[1..])
    ensures OnHand(items, lines) <==> OnHand(next, lines[1..])
    ensures forall id :: id in items ==>
              id in next && next[id].quantity - Asked(lines[1..], id) == items[id].quantity - Asked(lines, id)
  {
    assert forall l :: l in lines <==> l == lines[0] || l in lines[1..];
    assert next.Keys == items.Keys;
    assert forall id :: id in items ==>
        next[id].quantity - Asked(lines[1..], id) == items[id].quantity - Asked(lines, id);
    if OnHand(items, lines) {
      forall id | id in next ensures Asked(lines[1..], id) <= next[id].quantity {
        assert id in items;
      }
    }
    if OnHand(next, lines[1..]) {
      forall id | id in items ensures Asked(lines, id) <= items[id].quantity {
        assert id in next;
      }
    }
  }

  /** The goods a delivery brings of an item. */
  function Delivered(lines: seq<Line>, id: string): int
  {
    if lines == [] then 0
    else (if lines[0].Receipt? && lines[0].item == id then lines[0].quantity else 0) + Delivered(lines[1..], id)
  }

  predicate DeliveryOf(items: Items, lines: seq<Line>)
  {
    forall l :: l in lines ==> l.Receipt? && l.quantity > 0 && l.unitCost >= 0 && l.item in items
  }

  /** A delivery is taken if and only if every item exists, every quantity is positive and no cost negative. */
  lemma {:induction false} DeliveryTaken(items: Items, date: int, lines: seq<Line>)
    requires StoreInvariant(items) && forall l :: l in lines ==> l.Receipt?
    ensures ApplyLines(items, date, lines).Ok? <==> DeliveryOf(items, lines)
    ensures ApplyLines(items, date, lines).Ok? ==>
      var next := ApplyLines(items, date, lines).value;
      && next.Keys == items.Keys
      && forall id :: id in items ==> next[id].quantity == items[id].quantity + Delivered(lines, id)
    decreases |lines|
  {
    hide ApplyLine, StoreInvariant;
    if lines != [] {
      var line, rest := lines[0], lines[1..];
      assert line in lines;
      LineMoves(items, date, line);
      LineKeepsInvariant(items, date, line);
      if ApplyLine(items, date, line).Ok? {
        DeliveryTaken(ApplyLine(items, date, line).value, date, rest);
        hide Delivered;
        OneDeliveryMore(items, ApplyLine(items, date, line).value, lines);
      }
    }
  }

  lemma OneDeliveryMore(items: Items, next: Items, lines: seq<Line>)
    requires lines != [] && lines[0].Receipt? && lines[0].quantity > 0 && lines[0].unitCost >= 0
    requires lines[0].item in items && lines[0].item in next && next == items[lines[0].item := next[lines[0].item]]
    requires next[lines[0].item].quantity == items[lines[0].item].quantity + lines[0].quantity
    ensures DeliveryOf(items, lines) <==> DeliveryOf(next, lines[1..])
    ensures forall id :: id in items ==>
              id in next && next[id].quantity + Delivered(lines[1..], id) == items[id].quantity + Delivered(lines, id)
  {
    assert forall l :: l in lines <==> l == lines[0] || l in lines[1..];
    assert next.Keys == items.Keys;
  }

  /** A new item starts with its first delivery, at its cost; it is refused only for a taken code or a missing cost. */
  lemma CreationStocks(items: Items, r: Request)
    requires r.CreateItem?
    ensures Create(items, r).Ok? <==> r.code !in items && (r.initialQuantity > 0 ==> r.initialCost.Some?)
    ensures Create(items, r).Ok? ==>
      var next := Create(items, r).value;
      && r.code in next && next == items[r.code := next[r.code]]
      && next[r.code].valuation == r.valuation && next[r.code].quantity == r.initialQuantity
      && (r.initialQuantity > 0 ==> next[r.code].avg == r.initialCost.value)
  {
    if r.initialQuantity > 0 && r.initialCost.Some? {
      var cost := r.initialCost.value;
      ReceiptValue(Item(r.valuation, 0, 0, [], []), r.now, r.initialQuantity, cost, Nir);
      RoundDivUnique(r.initialQuantity * cost, r.initialQuantity, cost);
      hide RoundDiv;
    }
  }

  // ---------------------------------------------------------------- what the average is worth

  /** Exact cost received minus cost issued as it was booked, in cents. */
  function CostBooked(movements: seq<Movement>): int
  {
    if movements == [] then 0
    else
      var last := movements[|movements| - 1];
      CostBooked(movements[..|movements| - 1])
      + if last.quantity > 0 then last.quantity * last.unitCost else last.totalCost * CENT
  }

  /** Twice what rounding can have added: half a step of the average on a receipt, half a cent on an issue. */
  function Roundings(movements: seq<Movement>): nat
  {
    if movements == [] then 0
    else
      var last := movements[|movements| - 1];
      Roundings(movements[..|movements| - 1]) + if last.quantity > 0 then last.resulting else CENT
  }

  /** Of a FIFO item an issue takes the average from the lots again, so that only the receipts since then count. */
  function RoundingsSinceIssue(movements: seq<Movement>): nat
  {
    if movements == [] then 0
    else
      var last := movements[|movements| - 1];
      last.resulting + if last.quantity > 0 then RoundingsSinceIssue(movements[..|movements| - 1]) else 0
  }

  predicate Within(n: int, bound: nat)
  {
    0 - bound <= n <= bound
  }

  /**
    Quantity on hand times average cost is the cost received minus the cost issued, or what is left in the lots, but for
    the roundings.
  */
  predicate WorthTracked(item: Item)
  {
    match item.valuation
    case CMP => Within(2 * (item.quantity * item.avg - CostBooked(item.movements)), Roundings(item.movements))
    case FIFO => Within(2 * (item.quantity * item.avg - Value(item.lots)), RoundingsSinceIssue(item.movements))
  }

  lemma SumsWith(item: Item, after: Item)
    requires |after.movements| == |item.movements| + 1 && after.movements[..|item.movements|] == item.movements
    ensures var m := LastMovement(after);
      && CostBooked(after.movements) == CostBooked(item.movements)
           + (if m.quantity > 0 then m.quantity * m.unitCost else m.totalCost * CENT)
      && Roundings(after.movements) == Roundings(item.movements) + (if m.quantity > 0 then m.resulting else CENT)
      && RoundingsSinceIssue(after.movements)
           == m.resulting + if m.quantity > 0 then RoundingsSinceIssue(item.movements) else 0
  {
  }

  lemma LotReceived(item: Item, date: int, quantity: nat, unitCost: nat, kind: Kind)
    requires quantity > 0 && item.valuation == FIFO
    ensures Value(Inbound(item, date, quantity, unitCost, kind).value.lots) == Value(item.lots) + quantity * unitCost
  {
    hide NextAverage;
    var lot := Lot(|item.lots|, date, unitCost, quantity, quantity);
    assert (item.lots + [lot])[..|item.lots|] == item.lots;
  }

  lemma InboundTracksWorth(item: Item, date: int, quantity: int, unitCost: int, kind: Kind)
    requires WorthTracked(item) && Inbound(item, date, quantity, unitCost, kind).Ok?
    ensures WorthTracked(Inbound(item, date, quantity, unitCost, kind).value)
  {
    ReceiptValue(item, date, quantity, unitCost, kind);
    if item.valuation == FIFO {
      LotReceived(item, date, quantity, unitCost, kind);
    }
    var after := Inbound(item, date, quantity, unitCost, kind).value;
    hide Inbound, CostBooked, Roundings, RoundingsSinceIssue, Value;
    SumsWith(item, after);
  }

  lemma AverageIssueTracksWorth(item: Item, date: int, quantity: int, kind: Kind)
    requires item.valuation == CMP && WorthTracked(item) && Outbound(item, date, quantity, kind).Ok?
    ensures WorthTracked(Outbound(item, date, quantity, kind).value)
  {
    var after := Outbound(item, date, quantity, kind).value;
    IssueAtAverage(item, date, quantity, kind);
    var cost, m := CostBooked(item.movements), LastMovement(after);
    SumsWith(item, after);
    LeftAtAverage(item.quantity, quantity, item.avg, after.avg);
    hide Outbound, CostBooked, Roundings, RoundingsSinceIssue, Value, Nearest, Within;
    IssueWithin(item.quantity * item.avg, cost, Roundings(item.movements), quantity * item.avg, m.totalCost);
  }

  lemma IssueWithin(worth: int, cost: int, bound: nat, issued: int, total: int)
    requires Within(2 * (worth - cost), bound) && Nearest(-total, issued, CENT)
    ensures Within(2 * (worth - issued - (cost + total * CENT)), bound + CENT)
  {
    assert CENT * -total == -(total * CENT);
  }

  lemma LeftAtAverage(onHand: int, quantity: int, avg: int, next: int)
    requires next == if onHand > quantity then avg else 0
    requires quantity <= onHand
    ensures (onHand - quantity) * next == onHand * avg - quantity * avg
  {
    assert (onHand - quantity) * avg == onHand * avg - quantity * avg;
  }

  lemma LotIssueTracksWorth(item: Item, date: int, quantity: int, kind: Kind)
    requires ItemInvariant(item) && item.valuation == FIFO && Outbound(item, date, quantity, kind).Ok?
    ensures WorthTracked(Outbound(item, date, quantity, kind).value)
  {
    var after := Outbound(item, date, quantity, kind).value;
    OutboundKeepsInvariant(item, date, quantity, kind);
    IssueFromLots(item, date, quantity, kind);
    QueueAggregates(after.lots);
    EmptyLotsWorthNothing(after.lots);
    assert Remaining(after.lots) == after.quantity;
    SumsWith(item, after);
    hide Outbound, CostBooked, Roundings, RoundingsSinceIssue, Value, Queue, Remaining, ItemInvariant, Nearest, Within;
    if after.quantity > 0 {
      NearestWithin(after.avg, Value(after.lots), after.quantity);
    } else {
      NearestWithin(0, 0, 1);
    }
  }

  lemma NearestWithin(r: int, n: int, d: nat)
    requires Nearest(r, n, d)
    ensures Within(2 * (d * r - n), d)
    ensures Within(0, 0)
  {
  }

  lemma OutboundTracksWorth(item: Item, date: int, quantity: int, kind: Kind)
    requires ItemInvariant(item) && WorthTracked(item) && Outbound(item, date, quantity, kind).Ok?
    ensures WorthTracked(Outbound(item, date, quantity, kind).value)
  {
    hide ItemInvariant, Outbound;
    if item.valuation == CMP {
      AverageIssueTracksWorth(item, date, quantity, kind);
    } else {
      LotIssueTracksWorth(item, date, quantity, kind);
    }
  }

  lemma {:induction false} EmptyLotsWorthNothing(lots: seq<Lot>)
    ensures Remaining(lots) == 0 ==> Value(lots) == 0
  {
    if lots != [] {
      EmptyLotsWorthNothing(lots[..|lots| - 1]);
    }
  }

  ghost predicate StoreTracked(items: Items)
  {
    forall id :: id in items ==> WorthTracked(items[id])
  }

  lemma LineTracksWorth(items: Items, date: int, line: Line)
    requires StoreInvariant(items) && StoreTracked(items) && ApplyLine(items, date, line).Ok?
    ensures StoreTracked(ApplyLine(items, date, line).value)
  {
    hide ItemInvariant, WorthTracked, Inbound, Outbound;
    var item := items[line.item];
    match line
    case Receipt(_, quantity, unitCost) => InboundTracksWorth(item, date, quantity, unitCost, Nir);
    case Issue(_, quantity) => OutboundTracksWorth(item, date, quantity, Consumption);
    case Count(_, counted, cost) =>
      var difference := counted - item.quantity;
      if difference > 0 {
        InboundTracksWorth(item, date, difference, if cost.Some? then cost.value else item.avg, InventoryPlus);
      } else if difference < 0 {
        OutboundTracksWorth(item, date, -difference, InventoryMinus);
      }
  }

  lemma {:induction false} LinesTrackWorth(items: Items, date: int, lines: seq<Line>)
    requires StoreInvariant(items) && StoreTracked(items) && ApplyLines(items, date, lines).Ok?
    ensures StoreTracked(ApplyLines(items, date, lines).value)
    decreases |lines|
  {
    hide StoreInvariant, StoreTracked, ApplyLine;
    if lines != [] {
      LineTracksWorth(items, date, lines[0]);
      LineKeepsInvariant(items, date, lines[0]);
      LinesTrackWorth(ApplyLine(items, date, lines[0]).value, date, lines[1..]);
    }
  }

  lemma CreationTracksWorth(items: Items, r: Request)
    requires StoreTracked(items) && r.CreateItem? && Create(items, r).Ok?
    ensures StoreTracked(Create(items, r).value)
  {
    var created := Item(r.valuation, 0, 0, [], []);
    assert WorthTracked(created);
    hide WorthTracked, Inbound;
    if r.initialQuantity > 0 {
      InboundTracksWorth(created, r.now, r.initialQuantity, r.initialCost.value, Nir);
    }
  }

  /** In every reachable state the average cost of every item is worth what its ledger or its lots say. */
  lemma {:induction false} EveryRunTracksWorth(requests: seq<Request>)
    ensures StoreTracked(Run(requests))
  {
    if requests != [] {
      var n := |requests| - 1;
      var before := Run(requests[..n]);
      EveryRunTracksWorth(requests[..n]);
      EveryRunKeepsInvariant(requests[..n]);
      hide StoreInvariant, StoreTracked, Create, ApplyLines;
      if Execute(before, requests[n]).Ok? {
        match requests[n]
        case CreateItem(_, _, _, _, _) => CreationTracksWorth(before, requests[n]);
        case Document(date, lines) => LinesTrackWorth(before, date, lines);
      }
    }
  }
}
