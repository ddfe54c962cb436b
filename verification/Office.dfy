/** The routes as they run: rows read, checked and updated in place, one transaction a request. */
module Office {
  import opened Results
  import opened Rounding
  import opened Calendar
  import opened JournalNumbers
  import opened Postings
  import opened Payments
  import opened Ledger
  import opened Books
  import opened BooksSound
  import Sales
  import Purchases
  import Payroll
  import Depreciation

  /** The response of a request: no error and its effect, or its error and no effect. */
  ghost predicate Answers(before: Company, r: Request, after: Company, error: Option<HttpError>)
  {
    match Execute(before, r)
    case Ok(next) => error.None? && after == next
    case Err(e) => error == Some(e) && after == before
  }

  lemma AnswersKeepSound(before: Company, r: Request, after: Company, error: Option<HttpError>)
    requires Sound(before) && Answers(before, r, after, error)
    ensures Sound(after) && after == After(before, r)
  {
    hide Sound, Execute;
    RequestKeepsSound(before, r);
  }

  class Routes {
    var entries: seq<Entry>
    var closed: set<string>
    var accounts: map<string, bool>
    var invoices: seq<Sales.Invoice>
    var bills: seq<Purchases.Bill>
    var lines: seq<BankLine>
    var team: Purchases.Team
    var partners: set<string>
    var suppliers: set<string>
    var assets: seq<Depreciation.Asset>
    var employees: seq<Payroll.Employee>
    var payrolls: map<string, PayrollRun>

    function Value(): Company
      reads this
    {
      Company(Journal(entries, closed, accounts), invoices, bills, lines, team, partners, suppliers,
                    assets, employees, payrolls)
    }

    constructor ()
      ensures Value() == START && Sound(Value())
    {
      entries, closed, accounts := [], {}, map[];
      invoices, bills, lines := [], [], [];
      team := Purchases.Team(map[], []);
      partners, suppliers := {}, {};
      assets, employees, payrolls := [], [], map[];
      new;
      StartIsSound();
    }

    /** Every auto-posting: the next number of the year of the date, and an entry that is VALIDATED by default. */
    method PostEntry(date: Date, period: string, journalLines: seq<Line>) returns (ok: bool)
      modifies `entries
      ensures match Post(old(Value()).journal, date, period, journalLines)
        case Ok(j) => ok && Value().journal == j
        case Err(e) => !ok && e == Conflict && entries == old(entries)
    {
      hide Issue, NextNumber;
      ok := InsertEntry(date, period, VALIDATED, true, None, journalLines);
    }

    method InsertEntry(date: Date, period: string, status: EntryStatus, posted: bool, reversalOf: Option<nat>,
                       journalLines: seq<Line>) returns (ok: bool)
      modifies `entries
      ensures match Insert(old(Value()).journal, date, period, status, posted, reversalOf, journalLines)
        case Ok(j) => ok && Value().journal == j
        case Err(e) => !ok && e == Conflict && entries == old(entries)
    {
      hide NextNumber, Numbers;
      var number := NextNumber(Numbers(entries), Year(date));
      if number in Numbers(entries) {
        return false;
      }
      entries := entries + [Entry(number, date, period, status, posted, reversalOf, journalLines)];
      return true;
    }

    // ---------------------------------------------------------------- journal and periods

    method CreateEntry(date: Date, period: Option<string>, journalLines: seq<Line>, parts: Grid)
      returns (error: Option<HttpError>)
      requires Sound(Value())
      modifies `entries
      ensures Sound(Value())
      ensures Answers(old(Value()), Request.CreateEntry(date, period, journalLines, parts), Value(), error)
    {
      hide Sound, Insert, ValidDoubleEntry, Stored;
      if !ValidDoubleEntry(journalLines, parts) {
        error := Some(BadRequest);
      } else if exists l :: l in journalLines && !(l.account in accounts && accounts[l.account]) {
        error := Some(BadRequest);
      } else {
        var entryPeriod := if period.Some? then period.value else CurrentPeriod(date);
        if entryPeriod in closed {
          error := Some(Conflict);
        } else {
          var ok := InsertEntry(date, entryPeriod, DRAFT, false, None, Stored(journalLines, parts));
          error := if ok then None else Some(Conflict);
        }
      }
      AnswersKeepSound(old(Value()), Request.CreateEntry(date, period, journalLines, parts), Value(), error);
    }

    method ValidateEntry(id: nat) returns (error: Option<HttpError>)
      requires Sound(Value())
      modifies `entries
      ensures Sound(Value())
      ensures Answers(old(Value()), Request.ValidateEntry(id), Value(), error)
    {
      hide Sound, ValidDoubleEntry;
      if id >= |entries| {
        error := Some(NotFound);
      } else {
        var entry := entries[id];
        if entry.status != DRAFT {
          error := Some(Conflict);
        } else if !ValidDoubleEntry(entry.lines, 1) {
          error := Some(BadRequest);
        } else if entry.period in closed {
          error := Some(Conflict);
        } else {
          entries := entries[id := entry.(status := VALIDATED, posted := true)];
          error := None;
        }
      }
      AnswersKeepSound(old(Value()), Request.ValidateEntry(id), Value(), error);
    }

    method StornoEntry(id: nat, date: Date, period: Option<string>) returns (error: Option<HttpError>)
      requires Sound(Value())
      modifies `entries
      ensures Sound(Value())
      ensures Answers(old(Value()), Request.StornoEntry(id, date, period), Value(), error)
    {
      hide Sound, Insert, Mirrored;
      var stornoPeriod := if period.Some? then period.value else CurrentPeriod(date);
      if id >= |entries| {
        error := Some(NotFound);
      } else if entries[id].status == DRAFT {
        error := Some(Conflict);
      } else if entries[id].reversalOf.Some? {
        error := Some(Conflict);
      } else {
        var existing := FindStorno(id);
        if existing.Some? || stornoPeriod in closed {
          error := Some(Conflict);
        } else {
          var ok := InsertEntry(date, stornoPeriod, VALIDATED, true, Some(id), Mirrored(entries[id].lines));
          error := if ok then None else Some(Conflict);
        }
      }
      AnswersKeepSound(old(Value()), Request.StornoEntry(id, date, period), Value(), error);
    }

    method FindStorno(id: nat) returns (found: Option<nat>)
      ensures found.Some? <==> Reversed(entries, id)
      ensures found.Some? ==> found.value < |entries| && entries[found.value].reversalOf == Some(id)
    {
      for k := 0 to |entries|
        invariant forall i :: 0 <= i < k ==> entries[i].reversalOf != Some(id)
      {
        if entries[k].reversalOf == Some(id) {
          return Some(k);
        }
      }
      return None;
    }

    method ClosePeriod(name: string) returns (error: Option<HttpError>)
      requires Sound(Value())
      modifies `entries, `closed
      ensures Sound(Value())
      ensures Answers(old(Value()), Request.ClosePeriod(name), Value(), error)
    {
      hide Sound, ParsePeriod;
      if ParsePeriod(name).Err? {
        error := Some(BadRequest);
      } else {
        var drafts := CountDrafts(name);
        if drafts > 0 {
          error := Some(Conflict);
        } else {
          closed := closed + {name};
          entries := Restatus(entries, name, VALIDATED, CLOSED);
          error := None;
        }
      }
      AnswersKeepSound(old(Value()), Request.ClosePeriod(name), Value(), error);
    }

    method CountDrafts(name: string) returns (count: nat)
      ensures count > 0 <==> HasDraft(entries, name)
    {
      count := 0;
      for k := 0 to |entries|
        invariant count > 0 <==> exists i :: 0 <= i < k && entries[i].period == name && entries[i].status == DRAFT
      {
        if entries[k].period == name && entries[k].status == DRAFT {
          count := count + 1;
        }
      }
    }

    method ReopenPeriod(name: string) returns (error: Option<HttpError>)
      requires Sound(Value())
      modifies `entries, `closed
      ensures Sound(Value())
      ensures Answers(old(Value()), Request.ReopenPeriod(name), Value(), error)
    {
      hide Sound, ParsePeriod;
      if ParsePeriod(name).Err? {
        error := Some(BadRequest);
      } else {
        closed := closed - {name};
        entries := Restatus(entries, name, CLOSED, VALIDATED);
        error := None;
      }
      AnswersKeepSound(old(Value()), Request.ReopenPeriod(name), Value(), error);
    }

    // ---------------------------------------------------------------- customer invoices

    method CreateInvoice(number: string, kind: Sales.InvoiceKind, stornoOf: Option<nat>, details: Option<Sales.Details>,
                         issueDate: Date, autoPost: bool, codes: Sales.Codes) returns (error: Option<HttpError>)
      requires Sound(Value())
      modifies `entries, `invoices
      ensures Sound(Value())
      ensures Answers(old(Value()), Request.CreateInvoice(number, kind, stornoOf, details, issueDate, autoPost, codes),
                      Value(), error)
    {
      hide Sound, Post, CurrentPeriod;
      error := AddInvoice(number, kind, stornoOf, details, issueDate, autoPost, codes);
      AnswersKeepSound(old(Value()), Request.CreateInvoice(number, kind, stornoOf, details, issueDate, autoPost, codes),
                       Value(), error);
    }

    /** The invoice of a well-formed request: amounts from the source of a storno, or from the request. */
    method DraftInvoice(number: string, kind: Sales.InvoiceKind, stornoOf: Option<nat>, details: Option<Sales.Details>,
                        issueDate: Date) returns (made: Result<Sales.Invoice>)
      requires !Sales.Malformed(kind, stornoOf, details, issueDate)
      ensures made == Sales.NewInvoice(invoices, partners, number, kind, stornoOf, details, issueDate)
    {
      var isStorno := kind == Sales.STORNO;
      var partner, subtotal, vat := "", 0, 0;
      if isStorno {
        if stornoOf.value >= |invoices| {
          return Err(BadRequest);
        }
        var source := invoices[stornoOf.value];
        if source.kind != Sales.FISCAL || source.status == Sales.CANCELLED {
          return Err(BadRequest);
        }
        partner, subtotal, vat := source.partner, -Sales.Abs(source.subtotal), -Sales.Abs(source.vat);
      } else {
        if details.value.partner !in partners {
          return Err(BadRequest);
        }
        partner, subtotal, vat := details.value.partner, details.value.subtotal, details.value.vat;
      }
      var status := if kind == Sales.PROFORMA then Sales.DRAFT else Sales.ISSUED;
      return Ok(Sales.Invoice(number, kind, stornoOf, partner, subtotal, vat, subtotal + vat, status, []));
    }

    method AddInvoice(number: string, kind: Sales.InvoiceKind, stornoOf: Option<nat>, details: Option<Sales.Details>,
                      issueDate: Date, autoPost: bool, codes: Sales.Codes) returns (error: Option<HttpError>)
      modifies `entries, `invoices
      ensures Answers(old(Value()), Request.CreateInvoice(number, kind, stornoOf, details, issueDate, autoPost, codes),
                      Value(), error)
    {
      hide Post, CurrentPeriod, Sales.NewInvoice, Sales.InvoiceLines;
      var isStorno := kind == Sales.STORNO;
      if isStorno != stornoOf.Some? {
        return Some(BadRequest);
      }
      if !isStorno && (details.None? || details.value.subtotal < 0 || details.value.vat < 0) {
        return Some(BadRequest);
      }
      if !isStorno && details.value.due.time < issueDate.time {
        return Some(BadRequest);
      }
      var issuePeriod := CurrentPeriod(issueDate);
      if issuePeriod in closed {
        return Some(Conflict);
      }
      var made := DraftInvoice(number, kind, stornoOf, details, issueDate);
      if made.Err? {
        return Some(made.error);
      }
      var created := made.value;
      var shouldAutoPost := autoPost && kind != Sales.PROFORMA;
      if shouldAutoPost && (codes.receivable !in accounts || codes.revenue !in accounts || codes.vat !in accounts) {
        return Some(BadRequest);
      }
      if exists i :: i in invoices && i.number == number {
        return Some(Conflict);
      }
      var saved := invoices;
      invoices := invoices + [created];
      if shouldAutoPost {
        var ok := PostEntry(issueDate, issuePeriod, Sales.InvoiceLines(created, codes));
        if !ok {
          invoices := saved;
          return Some(Conflict);
        }
      }
      return None;
    }

    method PayInvoice(id: nat, date: Date, amount: nat, autoPost: bool, bank: string, receivable: string)
      returns (error: Option<HttpError>)
      requires Sound(Value())
      modifies `entries, `invoices
      ensures Sound(Value())
      ensures Answers(old(Value()), Request.PayInvoice(id, date, amount, autoPost, bank, receivable), Value(), error)
    {
      hide Sound, Answers;
      error := SettleInvoice(id, date, amount, autoPost, bank, receivable);
      AnswersKeepSound(old(Value()), Request.PayInvoice(id, date, amount, autoPost, bank, receivable), Value(), error);
    }

    method SettleInvoice(id: nat, date: Date, amount: nat, autoPost: bool, bank: string, receivable: string)
      returns (error: Option<HttpError>)
      modifies `entries, `invoices
      ensures Answers(old(Value()), Request.PayInvoice(id, date, amount, autoPost, bank, receivable), Value(), error)
    {
      hide Post, CurrentPeriod, Paid;
      var paymentPeriod := CurrentPeriod(date);
      if paymentPeriod in closed {
        return Some(Conflict);
      }
      if id >= |invoices| {
        return Some(NotFound);
      }
      var invoice := invoices[id];
      if invoice.kind != Sales.FISCAL || (invoice.status != Sales.ISSUED && invoice.status != Sales.PARTIALLY_PAID) {
        return Some(BadRequest);
      }
      var paidBefore := Paid(invoice.payments);
      var openAmount := Max(invoice.total - paidBefore, 0);
      if amount > openAmount || (autoPost && (bank !in accounts || receivable !in accounts)) {
        return Some(BadRequest);
      }
      var saved := invoices;
      var paidAfter := paidBefore + amount;
      var nextStatus := if paidAfter >= invoice.total then Sales.PAID else Sales.PARTIALLY_PAID;
      invoices := invoices[id := invoice.(payments := invoice.payments + [Payment(amount, None)],
                                          status := nextStatus)];
      if autoPost {
        var ok := PostEntry(date, paymentPeriod, [Line(bank, amount, 0), Line(receivable, 0, amount)]);
        if !ok {
          invoices := saved;
          return Some(Conflict);
        }
      }
      return None;
    }

    // ---------------------------------------------------------------- supplier invoices

    method CreateBill(number: string, supplier: string, received: Date, due: int, subtotal: int, vat: int, parts: Grid,
                      autoPost: bool, codes: Purchases.Codes) returns (error: Option<HttpError>)
      requires Sound(Value())
      modifies `entries, `bills
      ensures Sound(Value())
      ensures Answers(old(Value()),
                      Request.CreateBill(number, supplier, received, due, subtotal, vat, parts, autoPost, codes),
                      Value(), error)
    {
      hide Sound, Answers;
      error := AddBill(number, supplier, received, due, subtotal, vat, parts, autoPost, codes);
      AnswersKeepSound(old(Value()),
                       Request.CreateBill(number, supplier, received, due, subtotal, vat, parts, autoPost, codes),
                       Value(), error);
    }

    method AddBill(number: string, supplier: string, received: Date, due: int, subtotal: int, vat: int, parts: Grid,
                   autoPost: bool, codes: Purchases.Codes) returns (error: Option<HttpError>)
      modifies `entries, `bills
      ensures Answers(old(Value()),
                      Request.CreateBill(number, supplier, received, due, subtotal, vat, parts, autoPost, codes),
                      Value(), error)
    {
      hide Post, CurrentPeriod;
      if subtotal < 0 || vat < 0 || due < received.time {
        return Some(BadRequest);
      }
      var total := RoundDiv(subtotal + vat, parts);
      var requiredApprovalLevel := if total >= Purchases.LEVEL_4_THRESHOLD then 4 else 3;
      var period := CurrentPeriod(received);
      if period in closed {
        return Some(Conflict);
      }
      if supplier !in suppliers {
        return Some(BadRequest);
      }
      if autoPost && (codes.expense !in accounts || codes.vat !in accounts || codes.payable !in accounts) {
        return Some(BadRequest);
      }
      if exists b :: b in bills && b.number == number {
        return Some(Conflict);
      }
      var saved := bills;
      var created := Purchases.Bill(number, supplier, due, RoundDiv(subtotal, parts), RoundDiv(vat, parts), total,
                                    Purchases.RECEIVED, Purchases.PENDING_LEVEL_1, 1, requiredApprovalLevel, [], []);
      assert Purchases.NewBill(suppliers, number, supplier, received, due, subtotal, vat, parts) == Ok(created);
      bills := bills + [created];
      if autoPost {
        var postingLines := [Line(codes.expense, created.subtotal, 0), Line(codes.payable, 0, total)];
        if vat > 0 {
          postingLines := postingLines[..1] + [Line(codes.vat, created.vat, 0)] + postingLines[1..];
        }
        assert postingLines == Purchases.BillLines(created, vat > 0, codes);
        var ok := PostEntry(received, period, postingLines);
        if !ok {
          bills := saved;
          return Some(Conflict);
        }
      }
      return None;
    }

    /** Who may act on a level of the chain, and for whom. */
    method ResolveActor(actor: Purchases.Actor, level: int, now: int) returns (delegatedFrom: Result<Option<string>>)
      ensures delegatedFrom == Purchases.ResolveActor(team, actor, level, now)
    {
      hide Purchases.RoleAllowed;
      if Purchases.RoleAllowed(actor.role, level) {
        return Ok(None);
      }
      var latest: Option<Purchases.Delegation> := None;
      var delegations := team.delegations;
      for k := 0 to |delegations|
        invariant latest == Purchases.LatestDelegation(delegations[..k], actor.user, now)
      {
        var d := delegations[k];
        assert delegations[..k + 1][..k] == delegations[..k];
        if d.toUser == actor.user && d.startsAt <= now <= d.endsAt
           && (latest.None? || latest.value.startsAt <= d.startsAt) {
          latest := Some(d);
        }
      }
      assert delegations[..|delegations|] == delegations;
      if latest.Some? && latest.value.fromUser in team.members
         && Purchases.RoleAllowed(team.members[latest.value.fromUser], level) {
        return Ok(Some(latest.value.fromUser));
      }
      return Err(Forbidden);
    }

    method ApproveBill(id: nat, actor: Purchases.Actor, now: int) returns (error: Option<HttpError>)
      requires Sound(Value())
      modifies `bills
      ensures Sound(Value())
      ensures Answers(old(Value()), Request.ApproveBill(id, actor, now), Value(), error)
    {
      hide Sound, Answers;
      error := DecideApproval(id, actor, now);
      AnswersKeepSound(old(Value()), Request.ApproveBill(id, actor, now), Value(), error);
    }

    method DecideApproval(id: nat, actor: Purchases.Actor, now: int) returns (error: Option<HttpError>)
      modifies `bills
      ensures Answers(old(Value()), Request.ApproveBill(id, actor, now), Value(), error)
    {
      hide Purchases.ResolveActor;
      if id >= |bills| {
        return Some(NotFound);
      }
      var bill := bills[id];
      if bill.status == Purchases.CANCELLED || bill.status == Purchases.PAID {
        return Some(BadRequest);
      }
      if bill.approval == Purchases.APPROVED {
        return Some(Conflict);
      }
      if bill.approval == Purchases.REJECTED {
        return Some(BadRequest);
      }
      var currentLevel := Min(Max(bill.currentLevel, 1), 4);
      var requiredLevel := Min(Max(if bill.requiredLevel == 0 then 1 else bill.requiredLevel, 1), 4);
      var resolved := ResolveActor(actor, currentLevel, now);
      if resolved.Err? {
        return Some(resolved.error);
      }
      var entry := Purchases.Approval(currentLevel, Purchases.APPROVE, actor.user, resolved.value);
      bill := bill.(log := bill.log + [entry]);
      var isFinalLevel := currentLevel >= requiredLevel;
      var nextLevel := Min(currentLevel + 1, 4);
      if isFinalLevel {
        bill := bill.(approval := Purchases.APPROVED, currentLevel := requiredLevel, requiredLevel := requiredLevel);
      } else {
        bill := bill.(approval := Purchases.Pending(nextLevel), currentLevel := nextLevel,
                      requiredLevel := requiredLevel);
      }
      bills := bills[id := bill];
      return None;
    }

    method RejectBill(id: nat, actor: Purchases.Actor, now: int) returns (error: Option<HttpError>)
      requires Sound(Value())
      modifies `bills
      ensures Sound(Value())
      ensures Answers(old(Value()), Request.RejectBill(id, actor, now), Value(), error)
    {
      hide Sound, Answers;
      error := DecideRejection(id, actor, now);
      AnswersKeepSound(old(Value()), Request.RejectBill(id, actor, now), Value(), error);
    }

    method DecideRejection(id: nat, actor: Purchases.Actor, now: int) returns (error: Option<HttpError>)
      modifies `bills
      ensures Answers(old(Value()), Request.RejectBill(id, actor, now), Value(), error)
    {
      hide Purchases.ResolveActor;
      if id >= |bills| {
        return Some(NotFound);
      }
      var bill := bills[id];
      if bill.status == Purchases.CANCELLED || bill.status == Purchases.PAID {
        return Some(BadRequest);
      }
      if bill.approval == Purchases.APPROVED && |bill.payments| > 0 {
        return Some(BadRequest);
      }
      if bill.approval == Purchases.REJECTED {
        return Some(Conflict);
      }
      var currentLevel := Min(Max(bill.currentLevel, 1), 4);
      var resolved := ResolveActor(actor, currentLevel, now);
      if resolved.Err? {
        return Some(resolved.error);
      }
      var entry := Purchases.Approval(currentLevel, Purchases.REJECT, actor.user, resolved.value);
      bills := bills[id := bill.(log := bill.log + [entry], approval := Purchases.REJECTED)];
      return None;
    }

    method PayBill(id: nat, date: Date, amount: nat, autoPost: bool, bank: string, payable: string)
      returns (error: Option<HttpError>)
      requires Sound(Value())
      modifies `entries, `bills
      ensures Sound(Value())
      ensures Answers(old(Value()), Request.PayBill(id, date, amount, autoPost, bank, payable), Value(), error)
    {
      hide Sound, Answers;
      error := SettleBill(id, date, amount, autoPost, bank, payable);
      AnswersKeepSound(old(Value()), Request.PayBill(id, date, amount, autoPost, bank, payable), Value(), error);
    }

    method SettleBill(id: nat, date: Date, amount: nat, autoPost: bool, bank: string, payable: string)
      returns (error: Option<HttpError>)
      modifies `entries, `bills
      ensures Answers(old(Value()), Request.PayBill(id, date, amount, autoPost, bank, payable), Value(), error)
    {
      hide Post, CurrentPeriod, Paid;
      var paymentPeriod := CurrentPeriod(date);
      if paymentPeriod in closed {
        return Some(Conflict);
      }
      if id >= |bills| {
        return Some(NotFound);
      }
      var bill := bills[id];
      if bill.status != Purchases.RECEIVED && bill.status != Purchases.PARTIALLY_PAID {
        return Some(BadRequest);
      }
      if bill.approval != Purchases.APPROVED {
        return Some(BadRequest);
      }
      var paidBefore := Paid(bill.payments);
      var openAmount := Max(bill.total - paidBefore, 0);
      if amount > openAmount || (autoPost && (bank !in accounts || payable !in accounts)) {
        return Some(BadRequest);
      }
      var saved := bills;
      var paidAfter := paidBefore + amount;
      var nextStatus := if paidAfter >= bill.total then Purchases.PAID else Purchases.PARTIALLY_PAID;
      bills := bills[id := bill.(payments := bill.payments + [Payment(amount, None)], status := nextStatus)];
      if autoPost {
        var ok := PostEntry(date, paymentPeriod, [Line(payable, amount, 0), Line(bank, 0, amount)]);
        if !ok {
          bills := saved;
          return Some(Conflict);
        }
      }
      return None;
    }

    // ---------------------------------------------------------------- bank lines

    method ReconcileLine(id: nat, target: Target, autoPost: bool, bank: string, receivable: string, payable: string)
      returns (error: Option<HttpError>)
      requires Sound(Value())
      modifies `entries, `invoices, `bills, `lines
      ensures Sound(Value())
      ensures Answers(old(Value()), Request.ReconcileLine(id, target, autoPost, bank, receivable, payable), Value(),
                      error)
    {
      hide Sound, Post, CurrentPeriod, Paid;
      if id >= |lines| {
        error := Some(NotFound);
      } else if lines[id].status != UNMATCHED {
        error := Some(Conflict);
      } else if CurrentPeriod(lines[id].date) in closed {
        error := Some(Conflict);
      } else if target.CustomerInvoice? {
        error := MatchCustomer(id, target, autoPost, bank, receivable, payable);
      } else {
        error := MatchSupplier(id, target, autoPost, bank, receivable, payable);
      }
      hide Answers;
      AnswersKeepSound(old(Value()), Request.ReconcileLine(id, target, autoPost, bank, receivable, payable), Value(),
                       error);
    }

    /** The payment a line makes on an invoice, whatever its kind. */
    method TakeReceipt(id: nat, amount: nat, line: nat) returns (paid: Result<Sales.Invoice>)
      ensures paid == if id >= |invoices| then Err(NotFound) else Sales.Reconcile(invoices[id], amount, line)
    {
      if id >= |invoices| {
        return Err(NotFound);
      }
      var invoice := invoices[id];
      var paidBefore := Paid(invoice.payments);
      var openAmount := Max(invoice.total - paidBefore, 0);
      if amount > openAmount {
        return Err(BadRequest);
      }
      var paidAfter := paidBefore + amount;
      var nextStatus := if paidAfter >= invoice.total then Sales.PAID else Sales.PARTIALLY_PAID;
      return Ok(invoice.(payments := invoice.payments + [Payment(amount, Some(line))], status := nextStatus));
    }

    method MatchCustomer(id: nat, target: Target, autoPost: bool, bank: string, receivable: string,
                         ghost payable: string)
      returns (error: Option<HttpError>)
      requires id < |lines| && lines[id].status == UNMATCHED && CurrentPeriod(lines[id].date) !in closed
      requires target.CustomerInvoice?
      modifies `entries, `invoices, `lines
      ensures Answers(old(Value()), Request.ReconcileLine(id, target, autoPost, bank, receivable, payable), Value(),
                      error)
    {
      hide Post, CurrentPeriod, Sales.Reconcile;
      var line := lines[id];
      var lineAmountAbs := Sales.Abs(line.amount);
      if line.amount <= 0 {
        return Some(BadRequest);
      }
      var paid := TakeReceipt(target.id, lineAmountAbs, id);
      if paid.Err? {
        return Some(paid.error);
      }
      if autoPost && (bank !in accounts || receivable !in accounts) {
        return Some(BadRequest);
      }
      var savedInvoices, savedLines := invoices, lines;
      invoices := invoices[target.id := paid.value];
      lines := lines[id := line.(status := MATCHED, matched := Some(target))];
      if autoPost {
        var ok := PostEntry(line.date, CurrentPeriod(line.date),
                            [Line(bank, lineAmountAbs, 0), Line(receivable, 0, lineAmountAbs)]);
        if !ok {
          invoices, lines := savedInvoices, savedLines;
          return Some(Conflict);
        }
      }
      return None;
    }

    /** The payment a line makes on a supplier invoice, approved or not. */
    method TakePayment(id: nat, amount: nat, line: nat) returns (paid: Result<Purchases.Bill>)
      ensures paid == if id >= |bills| then Err(NotFound) else Purchases.Reconcile(bills[id], amount, line)
    {
      if id >= |bills| {
        return Err(NotFound);
      }
      var bill := bills[id];
      var paidBefore := Paid(bill.payments);
      var openAmount := Max(bill.total - paidBefore, 0);
      if amount > openAmount {
        return Err(BadRequest);
      }
      var paidAfter := paidBefore + amount;
      var nextStatus := if paidAfter >= bill.total then Purchases.PAID else Purchases.PARTIALLY_PAID;
      return Ok(bill.(payments := bill.payments + [Payment(amount, Some(line))], status := nextStatus));
    }

    method MatchSupplier(id: nat, target: Target, autoPost: bool, bank: string, ghost receivable: string,
                         payable: string)
      returns (error: Option<HttpError>)
      requires id < |lines| && lines[id].status == UNMATCHED && CurrentPeriod(lines[id].date) !in closed
      requires target.SupplierInvoice?
      modifies `entries, `bills, `lines
      ensures Answers(old(Value()), Request.ReconcileLine(id, target, autoPost, bank, receivable, payable), Value(),
                      error)
    {
      hide Post, CurrentPeriod, Purchases.Reconcile;
      var line := lines[id];
      var lineAmountAbs := Sales.Abs(line.amount);
      if line.amount >= 0 {
        return Some(BadRequest);
      }
      var paid := TakePayment(target.id, lineAmountAbs, id);
      if paid.Err? {
        return Some(paid.error);
      }
      if autoPost && (bank !in accounts || payable !in accounts) {
        return Some(BadRequest);
      }
      var savedBills, savedLines := bills, lines;
      bills := bills[target.id := paid.value];
      lines := lines[id := line.(status := MATCHED, matched := Some(target))];
      if autoPost {
        var ok := PostEntry(line.date, CurrentPeriod(line.date),
                            [Line(payable, lineAmountAbs, 0), Line(bank, 0, lineAmountAbs)]);
        if !ok {
          bills, lines := savedBills, savedLines;
          return Some(Conflict);
        }
      }
      return None;
    }

    method IgnoreLine(id: nat) returns (error: Option<HttpError>)
      requires Sound(Value())
      modifies `lines
      ensures Sound(Value())
      ensures Answers(old(Value()), Request.IgnoreLine(id), Value(), error)
    {
      hide Sound;
      if id >= |lines| {
        error := Some(NotFound);
      } else if lines[id].status != UNMATCHED {
        error := Some(Conflict);
      } else {
        lines := lines[id := lines[id].(status := IGNORED, matched := None)];
        error := None;
      }
      AnswersKeepSound(old(Value()), Request.IgnoreLine(id), Value(), error);
    }

    // ---------------------------------------------------------------- assets and payroll

    method RunDepreciation(name: string, runDate: Option<Date>, autoPost: bool, expense: string, accumulated: string)
      returns (error: Option<HttpError>)
      requires Sound(Value())
      modifies `entries, `assets
      ensures Sound(Value())
      ensures Answers(old(Value()), Request.RunDepreciation(name, runDate, autoPost, expense, accumulated), Value(),
                      error)
    {
      hide Sound, Answers;
      error := Depreciate(name, runDate, autoPost, expense, accumulated);
      AnswersKeepSound(old(Value()), Request.RunDepreciation(name, runDate, autoPost, expense, accumulated), Value(),
                       error);
    }

    /** The records a run plans for an open period, if an asset has started by then. */
    method PlanRun(name: string) returns (planned: Result<seq<Depreciation.PlannedRecord>>)
      ensures match RunOf(Value(), name)
        case Err(e) => planned == Err(e)
        case Ok(after) =>
          && planned.Ok? && Depreciation.Written(assets, planned.value) == after
          && (planned.value == [] <==> after == assets)
          && Depreciation.Total(planned.value)
             == Depreciation.TotalAccumulated(after) - Depreciation.TotalAccumulated(assets)
    {
      hide ParsePeriod, Depreciation.Written, Depreciation.Total, Depreciation.RunAll, Depreciation.TotalAccumulated;
      if ParsePeriod(name).Err? {
        return Err(BadRequest);
      }
      if name in closed {
        return Err(Conflict);
      }
      var end := EndOf(name);
      if !exists a :: a in assets && a.plan.start <= end.month {
        return Err(BadRequest);
      }
      var records := Depreciation.PlanRecords(assets, name);
      return Ok(records);
    }

    method Depreciate(name: string, runDate: Option<Date>, autoPost: bool, expense: string, accumulated: string)
      returns (error: Option<HttpError>)
      modifies `entries, `assets
      ensures Answers(old(Value()), Request.RunDepreciation(name, runDate, autoPost, expense, accumulated), Value(),
                      error)
    {
      hide Post, ParsePeriod, RunOf, EndOf, Depreciation.Written, Depreciation.Total, Depreciation.RunAll,
           Depreciation.TotalAccumulated;
      var planned := PlanRun(name);
      if planned.Err? {
        return Some(planned.error);
      }
      if planned.value == [] {
        return None;
      }
      if autoPost {
        if expense !in accounts || accumulated !in accounts {
          return Some(BadRequest);
        }
        var total := Depreciation.Total(planned.value);
        var date := if runDate.Some? then runDate.value else EndOf(name);
        var ok := PostEntry(date, name, [Line(expense, total, 0), Line(accumulated, 0, total)]);
        if !ok {
          return Some(Conflict);
        }
      }
      assets := Depreciation.Written(assets, planned.value);
      return None;
    }

    method GeneratePayroll(name: string, payDate: Date, autoPost: bool, codes: Payroll.Codes)
      returns (error: Option<HttpError>)
      requires Sound(Value())
      modifies `entries, `payrolls
      ensures Sound(Value())
      ensures Answers(old(Value()), Request.GeneratePayroll(name, payDate, autoPost, codes), Value(), error)
    {
      hide Sound, Answers;
      error := Generate(name, payDate, autoPost, codes);
      AnswersKeepSound(old(Value()), Request.GeneratePayroll(name, payDate, autoPost, codes), Value(), error);
    }

    method Generate(name: string, payDate: Date, autoPost: bool, codes: Payroll.Codes)
      returns (error: Option<HttpError>)
      modifies `entries, `payrolls
      ensures Answers(old(Value()), Request.GeneratePayroll(name, payDate, autoPost, codes), Value(), error)
    {
      hide Post, ParsePeriod, Payroll.Totals, Payroll.PayLines;
      if ParsePeriod(name).Err? {
        return Some(BadRequest);
      }
      if name in closed || name in payrolls {
        return Some(Conflict);
      }
      if employees == [] {
        return Some(BadRequest);
      }
      var payLines := Payroll.PayLines(employees);
      var totals := Payroll.ComputeTotals(payLines);
      if autoPost {
        if codes.expense !in accounts || codes.camExpense !in accounts || codes.payable !in accounts
           || codes.cas !in accounts || codes.cass !in accounts || codes.cam !in accounts || codes.tax !in accounts {
          return Some(BadRequest);
        }
        var journalLines := [Line(codes.expense, totals.gross, 0), Line(codes.camExpense, totals.cam, 0),
                             Line(codes.payable, 0, totals.net), Line(codes.cas, 0, totals.cas),
                             Line(codes.cass, 0, totals.cass), Line(codes.cam, 0, totals.cam)];
        if totals.tax > 0 {
          journalLines := journalLines + [Line(codes.tax, 0, totals.tax)];
        }
        assert journalLines == Payroll.JournalLines(totals, codes);
        var ok := PostEntry(payDate, name, journalLines);
        if !ok {
          return Some(Conflict);
        }
      }
      payrolls := payrolls[name := PayrollRun(payLines, totals, autoPost)];
      return None;
    }
  }
}
