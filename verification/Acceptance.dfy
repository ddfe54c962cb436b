/** Which requests are taken in a reachable state of the books, and what they get done. */
module Acceptance {
  import opened Results
  import opened Rounding
  import opened Calendar
  import opened JournalNumbers
  import opened Payments
  import opened Postings
  import opened Ledger
  import opened Books
  import opened BooksJournal
  import opened BooksDocuments
  import opened BooksSound
  import Sales
  import Purchases
  import Payroll
  import Depreciation
  import Text

  // ---------------------------------------------------------------- posting

  /** The year of the date has a number left. */
  predicate NumberLeft(j: Journal, date: Date)
  {
    |Issued(Numbers(j.entries), Year(date))| < LAST
  }

  lemma InsertTaken(j: Journal, date: Date, period: string, status: EntryStatus, posted: bool,
                    reversalOf: Option<nat>, lines: seq<Line>)
    requires JournalInvariant(j)
    ensures Insert(j, date, period, status, posted, reversalOf, lines).Ok? <==> NumberLeft(j, date)
    ensures var inserted := Insert(j, date, period, status, posted, reversalOf, lines);
      inserted.Err? ==> inserted.error == Conflict
  {
    IssueContinues(Numbers(j.entries), Year(date));
    hide Issue, Numbers, NextNumber;
  }

  /** Nothing to post, or accounts to post to and a number left. */
  predicate CanPost(c: Company, autoPost: bool, date: Date, codes: set<string>)
  {
    autoPost ==> codes <= c.journal.accounts.Keys && NumberLeft(c.journal, date)
  }

  lemma PostTaken(c: Company, autoPost: bool, date: Date, period: string, lines: seq<Line>, codes: set<string>)
    requires JournalInvariant(c.journal)
    ensures (autoPost ==> Known(c.journal, codes)) && Posted(c.journal, autoPost, date, period, lines).Ok?
       <==> CanPost(c, autoPost, date, codes)
  {
    InsertTaken(c.journal, date, period, VALIDATED, true, None, lines);
    hide Insert, NumberLeft, JournalInvariant;
  }

  // ---------------------------------------------------------------- the journal routes

  /** A manual entry is taken exactly if it is valid, on active accounts, in an open period, with a number left. */
  lemma EntryTaken(c: Company, r: Request)
    requires Sound(c) && r.CreateEntry?
    ensures Execute(c, r).Ok? <==>
              && ValidDoubleEntry(r.entryLines, r.parts) && ActiveAccounts(c.journal, r.entryLines)
              && PeriodOpen(c.journal, PeriodFor(r.period, r.date)) && NumberLeft(c.journal, r.date)
  {
    hide Sound, Insert, NumberLeft, ValidDoubleEntry, ActiveAccounts, JournalInvariant;
    SoundParts(c);
    InsertTaken(c.journal, r.date, PeriodFor(r.period, r.date), EntryStatus.DRAFT, false, None,
                Stored(r.entryLines, r.parts));
  }

  /** A draft is validated exactly if its stored lines pass; its period is always open. */
  lemma ValidationTaken(c: Company, r: Request)
    requires Sound(c) && r.ValidateEntry?
    ensures Execute(c, r).Ok? <==>
              && r.id < |c.journal.entries| && c.journal.entries[r.id].status == EntryStatus.DRAFT
              && ValidDoubleEntry(c.journal.entries[r.id].lines, 1)
  {
    hide Sound, ValidDoubleEntry, JournalInvariant, Ledger.ValidateEntry;
    SoundParts(c);
    if r.id < |c.journal.entries| && c.journal.entries[r.id].status == EntryStatus.DRAFT {
      DraftValidates(c.journal, r.id);
    } else {
      NoDraftToValidate(c.journal, r.id);
    }
  }

  lemma NoDraftToValidate(j: Journal, id: nat)
    requires id >= |j.entries| || j.entries[id].status != EntryStatus.DRAFT
    ensures Ledger.ValidateEntry(j, id).Err?
  {
  }

  /** An entry is reversed exactly if it is posted, no storno and not yet reversed, in an open period. */
  lemma StornoTaken(c: Company, r: Request)
    requires Sound(c) && r.StornoEntry?
    ensures Execute(c, r).Ok? <==>
              && r.id < |c.journal.entries| && c.journal.entries[r.id].posted
              && c.journal.entries[r.id].reversalOf.None?
              && (forall i :: 0 <= i < |c.journal.entries| ==> c.journal.entries[i].reversalOf != Some(r.id))
              && PeriodOpen(c.journal, PeriodFor(r.period, r.date)) && NumberLeft(c.journal, r.date)
  {
    hide Sound, Insert, NumberLeft, WellNumbered, StornoMatching, Mirrored;
    SoundParts(c);
    if r.id < |c.journal.entries| {
      assert EntryInvariant(c.journal, c.journal.entries[r.id]);
      InsertTaken(c.journal, r.date, PeriodFor(r.period, r.date), VALIDATED, true, Some(r.id),
                  Mirrored(c.journal.entries[r.id].lines));
    }
  }

  /** A period is closed exactly if its name is one and none of its entries is a draft; reopened if its name is one. */
  lemma PeriodTaken(c: Company, r: Request)
    requires r.ClosePeriod? || r.ReopenPeriod?
    ensures Execute(c, r).Ok? <==>
              && ParsePeriod(r.name).Ok?
              && (r.ClosePeriod? ==>
                    forall i :: 0 <= i < |c.journal.entries| && c.journal.entries[i].period == r.name ==>
                      c.journal.entries[i].status != EntryStatus.DRAFT)
  {
    hide ParsePeriod, Restatus;
    var entries := c.journal.entries;
    if HasDraft(entries, r.name) {
      var e :| e in entries && e.period == r.name && e.status == EntryStatus.DRAFT;
      var i :| 0 <= i < |entries| && entries[i] == e;
    }
  }

  // ---------------------------------------------------------------- sales

  /** What a new invoice needs of the books: a fiscal source, or a partner and amounts that are not negative. */
  predicate InvoiceFits(c: Company, r: Request)
    requires r.CreateInvoice?
  {
    if r.kind == Sales.STORNO
    then r.stornoOf.Some? && r.stornoOf.value < |c.invoices| && c.invoices[r.stornoOf.value].kind == Sales.FISCAL
    else
      && r.stornoOf.None? && r.details.Some? && r.details.value.partner in c.partners
      && r.details.value.subtotal >= 0 && r.details.value.vat >= 0 && r.details.value.due.time >= r.date.time
  }

  lemma InvoiceFitsIffNew(c: Company, r: Request)
    requires InvoicesSound(c.invoices) && r.CreateInvoice?
    ensures InvoiceFits(c, r) <==>
              Sales.NewInvoice(c.invoices, c.partners, r.number, r.kind, r.stornoOf, r.details, r.date).Ok?
    ensures InvoiceFits(c, r) ==> !Sales.Malformed(r.kind, r.stornoOf, r.details, r.date)
  {
    if r.kind == Sales.STORNO && r.stornoOf.Some? && r.stornoOf.value < |c.invoices| {
      assert Sales.InvoiceInvariant(c.invoices[r.stornoOf.value]);
    }
  }

  /** An invoice or credit note is taken exactly if it fits, in an open period, with a new number, and can be posted. */
  lemma InvoiceTaken(c: Company, r: Request)
    requires Sound(c) && r.CreateInvoice?
    ensures Execute(c, r).Ok? <==>
              && InvoiceFits(c, r) && PeriodOpen(c.journal, CurrentPeriod(r.date))
              && (forall i :: 0 <= i < |c.invoices| ==> c.invoices[i].number != r.number)
              && CanPost(c, r.autoPost && r.kind != Sales.PROFORMA, r.date,
                         {r.saleCodes.receivable, r.saleCodes.revenue, r.saleCodes.vat})
  {
    hide Sound, Posted, InvoiceFits, CanPost, Known, Sales.NewInvoice, Sales.Malformed, Sales.InvoiceLines,
         CurrentPeriod, JournalInvariant, InvoicesSound;
    SoundParts(c);
    InvoiceFitsIffNew(c, r);
    var codes := r.saleCodes;
    var made := Sales.NewInvoice(c.invoices, c.partners, r.number, r.kind, r.stornoOf, r.details, r.date);
    if made.Ok? {
      PostTaken(c, AutoPosted(r.kind, r.autoPost), r.date, CurrentPeriod(r.date),
                Sales.InvoiceLines(made.value, codes), {codes.receivable, codes.revenue, codes.vat});
    }
    assert (exists i :: i in c.invoices && i.number == r.number) <==>
           (exists i :: 0 <= i < |c.invoices| && c.invoices[i].number == r.number);
  }

  /** A payment is taken exactly up to what is open on a fiscal invoice, in an open period, and is recorded on it. */
  lemma InvoicePaymentTaken(c: Company, r: Request)
    requires Sound(c) && r.PayInvoice?
    ensures Execute(c, r).Ok? <==>
              && r.id < |c.invoices| && c.invoices[r.id].kind == Sales.FISCAL && !Sales.PaidInFull(c.invoices[r.id])
              && Paid(c.invoices[r.id].payments) + r.amount <= c.invoices[r.id].total
              && PeriodOpen(c.journal, CurrentPeriod(r.date)) && CanPost(c, r.autoPost, r.date, {r.bank, r.receivable})
    ensures Execute(c, r).Ok? ==>
      var after := Execute(c, r).value.invoices;
      && r.id < |after| && after == c.invoices[r.id := after[r.id]]
      && Sales.PaidMore(c.invoices[r.id], after[r.id], Payment(r.amount, None))
  {
    hide Sound, Posted, CanPost, Known, Sales.Pay, Sales.PaidInFull, Sales.PaidMore, Sales.ReceiptLines, Paid,
         CurrentPeriod, JournalInvariant;
    SoundParts(c);
    if r.id < |c.invoices| {
      hide Sales.InvoiceInvariant;
      assert Sales.InvoiceInvariant(c.invoices[r.id]);
      Sales.PaymentTaken(c.invoices[r.id], r.amount);
      PostTaken(c, r.autoPost, r.date, CurrentPeriod(r.date), Sales.ReceiptLines(r.amount, r.bank, r.receivable),
                {r.bank, r.receivable});
    }
  }

  // ---------------------------------------------------------------- purchases

  /** A supplier invoice is taken exactly if supplier, amounts and dates fit, with a new number, and can be posted. */
  lemma BillTaken(c: Company, r: Request)
    requires Sound(c) && r.CreateBill?
    ensures Execute(c, r).Ok? <==>
              && r.supplier in c.suppliers && r.subtotal >= 0 && r.vat >= 0 && r.due >= r.date.time
              && PeriodOpen(c.journal, CurrentPeriod(r.date))
              && (forall i :: 0 <= i < |c.bills| ==> c.bills[i].number != r.number)
              && CanPost(c, r.autoPost, r.date, {r.billCodes.expense, r.billCodes.vat, r.billCodes.payable})
    ensures Execute(c, r).Ok? ==>
      var after := Execute(c, r).value.bills;
      && |after| == |c.bills| + 1 && after[|c.bills|].approval == Purchases.PENDING_LEVEL_1
      && after[|c.bills|].currentLevel == 1 && after[|c.bills|].log == [] && after[|c.bills|].payments == []
  {
    hide Sound, Posted, CanPost, Known, RoundDiv, Purchases.BillLines, CurrentPeriod, JournalInvariant;
    SoundParts(c);
    var codes := r.billCodes;
    var made := Purchases.NewBill(c.suppliers, r.number, r.supplier, r.date, r.due, r.subtotal, r.vat, r.parts);
    if made.Ok? {
      PostTaken(c, r.autoPost, r.date, CurrentPeriod(r.date), Purchases.BillLines(made.value, r.vat > 0, codes),
                {codes.expense, codes.vat, codes.payable});
    }
    assert (exists b :: b in c.bills && b.number == r.number) <==>
           (exists i :: 0 <= i < |c.bills| && c.bills[i].number == r.number);
  }

  /** The invoice is decided: the others stay, and so does everything but the log and the approval. */
  predicate DecidedAt(before: seq<Purchases.Bill>, after: seq<Purchases.Bill>, r: Request, team: Purchases.Team,
                      action: Purchases.Action)
    requires (r.ApproveBill? || r.RejectBill?) && r.id < |before|
  {
    && r.id < |after| && after == before[r.id := after[r.id]]
    && Purchases.Decided(before[r.id], after[r.id], team, r.actor, action, r.now)
  }

  /** An approval is taken exactly on a pending invoice, not paid in full, of a caller entitled for its level. */
  lemma ApprovalTaken(c: Company, r: Request)
    requires Sound(c) && r.ApproveBill?
    ensures Execute(c, r).Ok? <==>
              && r.id < |c.bills| && c.bills[r.id].approval !in {Purchases.APPROVED, Purchases.REJECTED}
              && !Purchases.PaidInFull(c.bills[r.id])
              && Purchases.Entitled(c.team, r.actor, c.bills[r.id].currentLevel, r.now)
    ensures Execute(c, r).Ok? ==> DecidedAt(c.bills, Execute(c, r).value.bills, r, c.team, Purchases.APPROVE)
  {
    hide Sound, Purchases.Approve, Purchases.PaidInFull, Purchases.Entitled, Purchases.Decided;
    SoundParts(c);
    if r.id < |c.bills| {
      hide Purchases.BillInvariant;
      assert Purchases.BillInvariant(c.bills[r.id]);
      Purchases.ApprovalTaken(c.bills[r.id], c.team, r.actor, r.now);
      if Execute(c, r).Ok? {
        Purchases.ApproveKeepsInvariant(c.bills[r.id], c.team, r.actor, r.now);
      }
    }
  }

  /** A rejection likewise, and on an approved invoice as long as nothing is paid. */
  lemma RejectionTaken(c: Company, r: Request)
    requires Sound(c) && r.RejectBill?
    ensures Execute(c, r).Ok? <==>
              && r.id < |c.bills| && c.bills[r.id].approval != Purchases.REJECTED
              && (c.bills[r.id].approval == Purchases.APPROVED ==> c.bills[r.id].payments == [])
              && !Purchases.PaidInFull(c.bills[r.id])
              && Purchases.Entitled(c.team, r.actor, c.bills[r.id].currentLevel, r.now)
    ensures Execute(c, r).Ok? ==> DecidedAt(c.bills, Execute(c, r).value.bills, r, c.team, Purchases.REJECT)
  {
    hide Sound, Purchases.Reject, Purchases.PaidInFull, Purchases.Entitled, Purchases.Decided;
    SoundParts(c);
    if r.id < |c.bills| {
      hide Purchases.BillInvariant;
      assert Purchases.BillInvariant(c.bills[r.id]);
      Purchases.RejectionTaken(c.bills[r.id], c.team, r.actor, r.now);
      if Execute(c, r).Ok? {
        Purchases.RejectKeepsInvariant(c.bills[r.id], c.team, r.actor, r.now);
      }
    }
  }

  /** A payment is taken exactly up to what is open on an approved invoice, in an open period, and is recorded on it. */
  lemma BillPaymentTaken(c: Company, r: Request)
    requires Sound(c) && r.PayBill?
    ensures Execute(c, r).Ok? <==>
              && r.id < |c.bills| && c.bills[r.id].approval == Purchases.APPROVED
              && !Purchases.PaidInFull(c.bills[r.id])
              && Paid(c.bills[r.id].payments) + r.amount <= c.bills[r.id].total
              && PeriodOpen(c.journal, CurrentPeriod(r.date)) && CanPost(c, r.autoPost, r.date, {r.bank, r.payable})
    ensures Execute(c, r).Ok? ==>
      var after := Execute(c, r).value.bills;
      && r.id < |after| && after == c.bills[r.id := after[r.id]]
      && Purchases.PaidMore(c.bills[r.id], after[r.id], Payment(r.amount, None))
  {
    hide Sound, Posted, CanPost, Known, Purchases.Pay, Purchases.PaidInFull, Purchases.PaidMore,
         Purchases.PaymentLines, Paid, CurrentPeriod, JournalInvariant;
    SoundParts(c);
    if r.id < |c.bills| {
      hide Purchases.BillInvariant;
      assert Purchases.BillInvariant(c.bills[r.id]);
      Purchases.PaymentTaken(c.bills[r.id], r.amount);
      PostTaken(c, r.autoPost, r.date, CurrentPeriod(r.date), Purchases.PaymentLines(r.amount, r.bank, r.payable),
                {r.bank, r.payable});
    }
  }

  /** A delegation is stored exactly if an approver, himself or an administrator, gives it forward to another member. */
  lemma DelegationTaken(c: Company, r: Request)
    requires r.CreateDelegation?
    ensures Execute(c, r).Ok? <==>
              var d, members := r.delegation, c.team.members;
              && d.startsAt < d.endsAt && d.fromUser != d.toUser && d.fromUser in members && d.toUser in members
              && members[d.fromUser] !in {Purchases.CASHIER, Purchases.AUDITOR}
              && (d.fromUser == r.actor.user || r.actor.role == Purchases.ADMIN)
              && forall k :: 0 <= k < |c.team.delegations| ==>
                   var e := c.team.delegations[k];
                   !(e.fromUser == d.fromUser && e.toUser == d.toUser && e.startsAt == d.startsAt)
  {
    var d, all := r.delegation, c.team.delegations;
    if d.fromUser in c.team.members {
      Purchases.RoleLevels(c.team.members[d.fromUser], 1);
    }
    hide Purchases.Approver;
    assert (exists e :: e in all && e.fromUser == d.fromUser && e.toUser == d.toUser && e.startsAt == d.startsAt) <==>
           (exists k :: 0 <= k < |all| && all[k].fromUser == d.fromUser && all[k].toUser == d.toUser
                        && all[k].startsAt == d.startsAt);
  }

  // ---------------------------------------------------------------- bank lines

  /** What the line pays is open on the document it is reconciled with. */
  predicate Covers(c: Company, line: BankLine, target: Target)
  {
    match target
    case CustomerInvoice(id) =>
      && line.amount > 0 && id < |c.invoices| && c.invoices[id].kind != Sales.STORNO
      && Paid(c.invoices[id].payments) + line.amount <= c.invoices[id].total
    case SupplierInvoice(id) =>
      line.amount < 0 && id < |c.bills| && Paid(c.bills[id].payments) - line.amount <= c.bills[id].total
  }

  /** The document has one payment more, of the line, and the line is matched with it. */
  predicate PaidByLine(c: Company, after: Company, id: nat, target: Target)
    requires id < |c.lines|
  {
    && after.lines == c.lines[id := BankLine(c.lines[id].date, c.lines[id].amount, MATCHED, Some(target))]
    && match target
       case CustomerInvoice(i) =>
         && i < |c.invoices| == |after.invoices| && after.bills == c.bills && c.lines[id].amount >= 0
         && after.invoices == c.invoices[i := after.invoices[i]]
         && Sales.PaidMore(c.invoices[i], after.invoices[i], Payment(c.lines[id].amount, Some(id)))
       case SupplierInvoice(i) =>
         && i < |c.bills| == |after.bills| && after.invoices == c.invoices && c.lines[id].amount <= 0
         && after.bills == c.bills[i := after.bills[i]]
         && Purchases.PaidMore(c.bills[i], after.bills[i], Payment(-c.lines[id].amount, Some(id)))
  }

  lemma CustomerLineTaken(c: Company, r: Request)
    requires Sound(c) && r.ReconcileLine? && r.id < |c.lines| && r.target.CustomerInvoice?
    ensures ReconcileCustomer(c, r, c.lines[r.id]).Ok? <==>
              && Covers(c, c.lines[r.id], r.target)
              && CanPost(c, r.autoPost, c.lines[r.id].date, {r.bank, r.receivable})
    ensures ReconcileCustomer(c, r, c.lines[r.id]).Ok? ==>
              PaidByLine(c, ReconcileCustomer(c, r, c.lines[r.id]).value, r.id, r.target)
  {
    hide Sound, Posted, CanPost, Known, Sales.Reconcile, Sales.PaidMore, Sales.ReceiptLines, Paid, CurrentPeriod,
         JournalInvariant;
    SoundParts(c);
    var line := c.lines[r.id];
    if line.amount > 0 && r.target.id < |c.invoices| {
      hide Sales.InvoiceInvariant;
      assert Sales.InvoiceInvariant(c.invoices[r.target.id]);
      Sales.ReconciliationTaken(c.invoices[r.target.id], line.amount, r.id);
      PostTaken(c, r.autoPost, line.date, CurrentPeriod(line.date),
                Sales.ReceiptLines(line.amount, r.bank, r.receivable), {r.bank, r.receivable});
    }
  }

  lemma SupplierLineTaken(c: Company, r: Request)
    requires Sound(c) && r.ReconcileLine? && r.id < |c.lines| && r.target.SupplierInvoice?
    ensures ReconcileSupplier(c, r, c.lines[r.id]).Ok? <==>
              && Covers(c, c.lines[r.id], r.target)
              && CanPost(c, r.autoPost, c.lines[r.id].date, {r.bank, r.payable})
    ensures ReconcileSupplier(c, r, c.lines[r.id]).Ok? ==>
              PaidByLine(c, ReconcileSupplier(c, r, c.lines[r.id]).value, r.id, r.target)
  {
    hide Sound, Posted, CanPost, Known, Purchases.Reconcile, Purchases.PaidMore, Purchases.PaymentLines, Paid,
         CurrentPeriod, JournalInvariant;
    SoundParts(c);
    var line := c.lines[r.id];
    if line.amount < 0 && r.target.id < |c.bills| {
      hide Purchases.BillInvariant;
      assert Purchases.BillInvariant(c.bills[r.target.id]);
      Purchases.ReconciliationTaken(c.bills[r.target.id], -line.amount, r.id);
      PostTaken(c, r.autoPost, line.date, CurrentPeriod(line.date),
                Purchases.PaymentLines(-line.amount, r.bank, r.payable), {r.bank, r.payable});
    }
  }

  /** A bank line is reconciled exactly if it is unmatched, in an open period, and covers the document; that is paid. */
  lemma ReconciliationTaken(c: Company, r: Request)
    requires Sound(c) && r.ReconcileLine?
    ensures Execute(c, r).Ok? <==>
              && r.id < |c.lines| && c.lines[r.id].status == UNMATCHED
              && PeriodOpen(c.journal, CurrentPeriod(c.lines[r.id].date)) && Covers(c, c.lines[r.id], r.target)
              && CanPost(c, r.autoPost, c.lines[r.id].date,
                         {r.bank, if r.target.CustomerInvoice? then r.receivable else r.payable})
    ensures Execute(c, r).Ok? ==> PaidByLine(c, Execute(c, r).value, r.id, r.target)
  {
    hide Sound, CanPost, Covers, PaidByLine, ReconcileCustomer, ReconcileSupplier, CurrentPeriod;
    if r.id < |c.lines| && r.target.CustomerInvoice? {
      CustomerLineTaken(c, r);
    } else if r.id < |c.lines| {
      SupplierLineTaken(c, r);
    }
  }

  /** A line is imported as unmatched; an unmatched line, and no other, can be ignored. */
  lemma LinesComeAndGo(c: Company, r: Request)
    requires r.ImportLine? || r.IgnoreLine?
    ensures r.ImportLine? ==>
              Execute(c, r) == Ok(c.(lines := c.lines + [BankLine(r.date, r.signedAmount, UNMATCHED, None)]))
    ensures r.IgnoreLine? ==> (Execute(c, r).Ok? <==> r.id < |c.lines| && c.lines[r.id].status == UNMATCHED)
    ensures r.IgnoreLine? && Execute(c, r).Ok? ==>
              var line := c.lines[r.id];
              Execute(c, r).value.lines == c.lines[r.id := BankLine(line.date, line.amount, IGNORED, None)]
  {
  }

  // ---------------------------------------------------------------- assets and payroll

  /** An asset is taken exactly if it lasts a month or more and is worth more than is left of it; it has no records. */
  lemma AssetTaken(c: Company, r: Request)
    requires r.CreateAsset?
    ensures Execute(c, r).Ok? <==> 0 <= r.plan.residual < r.plan.value && r.plan.life > 0
    ensures Execute(c, r).Ok? ==> Execute(c, r).value == c.(assets := c.assets + [Depreciation.Asset(r.plan, [])])
  {
  }

  /** A run is taken exactly for an open period by whose end some asset has started, if what it adds can be posted. */
  lemma RunTaken(c: Company, r: Request)
    requires Sound(c) && r.RunDepreciation?
    ensures Execute(c, r).Ok? <==>
              && ParsePeriod(r.name).Ok? && PeriodOpen(c.journal, r.name)
              && (exists i :: 0 <= i < |c.assets| && c.assets[i].plan.start <= EndOf(r.name).month)
              && (Depreciation.RunAll(c.assets, r.name) == c.assets
                  || CanPost(c, r.autoPost, if r.runDate.Some? then r.runDate.value else EndOf(r.name),
                             {r.expense, r.accumulated}))
  {
    hide Sound, Posted, CanPost, Known, ParsePeriod, EndOf, Depreciation.RunAll, Depreciation.TotalAccumulated,
         DepreciationLines, JournalInvariant;
    SoundParts(c);
    var after := Depreciation.RunAll(c.assets, r.name);
    if ParsePeriod(r.name).Ok? {
      var date := if r.runDate.Some? then r.runDate.value else EndOf(r.name);
      var total := Depreciation.TotalAccumulated(after) - Depreciation.TotalAccumulated(c.assets);
      PostTaken(c, r.autoPost, date, r.name, DepreciationLines(total, r.expense, r.accumulated),
                {r.expense, r.accumulated});
      assert (forall a :: a in c.assets ==> a.plan.start > EndOf(r.name).month) <==>
             !(exists i :: 0 <= i < |c.assets| && c.assets[i].plan.start <= EndOf(r.name).month);
    }
  }

  /** A payroll is taken exactly for an open period that has none, with at least one employee, if it can be posted. */
  lemma PayrollTaken(c: Company, r: Request)
    requires Sound(c) && r.GeneratePayroll?
    ensures Execute(c, r).Ok? <==>
              && ParsePeriod(r.name).Ok? && PeriodOpen(c.journal, r.name) && r.name !in c.payrolls && c.employees != []
              && CanPost(c, r.autoPost, r.date, Payroll.CodeSet(r.payCodes))
  {
    hide Sound, Posted, CanPost, Known, ParsePeriod, Payroll.Totals, Payroll.PayLines, Payroll.JournalLines,
         Payroll.CodeSet, JournalInvariant;
    SoundParts(c);
    PostTaken(c, r.autoPost, r.date, r.name,
              Payroll.JournalLines(Payroll.Totals(Payroll.PayLines(c.employees)), r.payCodes),
              Payroll.CodeSet(r.payCodes));
  }

  // ---------------------------------------------------------------- progress of the approval chain

  function Approvals(id: nat, actor: Purchases.Actor, now: int, n: int): seq<Request>
  {
    if n <= 0 then [] else Approvals(id, actor, now, n - 1) + [ApproveBill(id, actor, now)]
  }

  predicate Pending(bill: Purchases.Bill)
  {
    bill.approval != Purchases.APPROVED && bill.approval != Purchases.REJECTED
  }

  /** The invoice after n approvals: approved if that makes one at every level, else waiting n levels on. */
  predicate MovedOn(bill: Purchases.Bill, after: Purchases.Bill, n: nat)
  {
    && after == bill.(log := after.log, approval := after.approval, currentLevel := after.currentLevel)
    && |after.log| == |bill.log| + n
    && if n > bill.requiredLevel - bill.currentLevel
       then after.approval == Purchases.APPROVED
       else Pending(after) && after.currentLevel == bill.currentLevel + n
  }

  /** Nothing but that invoice is different. */
  predicate Advanced(before: Company, after: Company, id: nat, n: nat)
  {
    && id < |before.bills| == |after.bills| && after == before.(bills := before.bills[id := after.bills[id]])
    && MovedOn(before.bills[id], after.bills[id], n)
  }

  predicate Approvable(c: Company, id: nat)
  {
    id < |c.bills| && Pending(c.bills[id]) && !Purchases.PaidInFull(c.bills[id])
  }

  function LevelsLeft(c: Company, id: nat): int
    requires id < |c.bills|
  {
    c.bills[id].requiredLevel - c.bills[id].currentLevel + 1
  }

  lemma LevelsInRange(c: Company, id: nat)
    requires Sound(c) && id < |c.bills|
    ensures 1 <= c.bills[id].currentLevel <= c.bills[id].requiredLevel <= 4
    ensures Purchases.BillInvariant(c.bills[id]) && Paid(c.bills[id].payments) <= c.bills[id].total
  {
    SoundParts(c);
    assert Purchases.BillInvariant(c.bills[id]);
  }

  lemma OneApproval(c: Company, r: Request)
    requires Sound(c) && r.ApproveBill? && r.actor.role == Purchases.ADMIN && Approvable(c, r.id)
    ensures Advanced(c, After(c, r), r.id, 1)
  {
    var bill := c.bills[r.id];
    LevelsInRange(c, r.id);
    Purchases.RoleLevels(Purchases.ADMIN, bill.currentLevel);
    hide Sound, Purchases.BillInvariant, Purchases.Approve, Purchases.PaidInFull, Purchases.RoleAllowed,
         Purchases.Authorised;
    Purchases.ApprovalTaken(bill, c.team, r.actor, r.now);
    Purchases.ApproveKeepsInvariant(bill, c.team, r.actor, r.now);
  }

  lemma AdvancedMore(a: Company, b: Company, c: Company, id: nat, n: nat)
    requires Advanced(a, b, id, n) && Advanced(b, c, id, 1) && n < LevelsLeft(a, id)
    ensures Advanced(a, c, id, n + 1)
  {
  }

  lemma StillApprovable(a: Company, b: Company, id: nat, n: nat)
    requires Advanced(a, b, id, n) && Approvable(a, id) && n < LevelsLeft(a, id)
    ensures Approvable(b, id)
  {
  }

  lemma NotYetAdvanced(c: Company, id: nat)
    requires Sound(c) && Approvable(c, id)
    ensures Advanced(c, c, id, 0)
  {
    LevelsInRange(c, id);
  }

  /**
    From every reachable state, an administrator brings a pending supplier invoice that is not paid in full to APPROVED
    by one approval for each level from the current to the required one; fewer leave it pending. Nothing else changes.
  */
  lemma {:induction false} ApprovalsApprove(requests: seq<Request>, id: nat, actor: Purchases.Actor, now: int, n: nat)
    requires actor.role == Purchases.ADMIN && Approvable(Run(requests), id) && n <= LevelsLeft(Run(requests), id)
    ensures Advanced(Run(requests), Run(requests + Approvals(id, actor, now, n)), id, n)
  {
    hide After, Run, Sound, Advanced, Approvable, LevelsLeft;
    EveryRunIsSound(requests);
    if n == 0 {
      assert requests + Approvals(id, actor, now, 0) == requests;
      NotYetAdvanced(Run(requests), id);
    } else {
      var front, last := Approvals(id, actor, now, n - 1), ApproveBill(id, actor, now);
      ApprovalsApprove(requests, id, actor, now, n - 1);
      EveryRunIsSound(requests + front);
      RunSnoc(requests + front, last);
      Text.Assoc(requests, front, [last]);
      StillApprovable(Run(requests), Run(requests + front), id, n - 1);
      OneApproval(Run(requests + front), last);
      AdvancedMore(Run(requests), Run(requests + front), Run(requests + (front + [last])), id, n - 1);
    }
  }

  /** Paying what is open on an approved invoice, in an open period and without posting, makes it PAID. */
  lemma FullPayment(c: Company, r: Request)
    requires Sound(c) && r.PayBill? && !r.autoPost && PeriodOpen(c.journal, CurrentPeriod(r.date))
    requires r.id < |c.bills| && c.bills[r.id].approval == Purchases.APPROVED && !Purchases.PaidInFull(c.bills[r.id])
    requires r.amount == c.bills[r.id].total - Paid(c.bills[r.id].payments)
    ensures var after := After(c, r).bills;
      && r.id < |after| && after[r.id].approval == Purchases.APPROVED && after[r.id].status == Purchases.PAID
      && Paid(after[r.id].payments) == c.bills[r.id].total
  {
    hide Sound, Execute, Paid, Purchases.PaidInFull, CurrentPeriod;
    BillPaymentTaken(c, r);
    PaidAppend(c.bills[r.id].payments, Payment(r.amount, None));
  }

  /** So every pending supplier invoice that is not paid in full can be approved and then paid. */
  lemma PendingBillGetsPaid(requests: seq<Request>, id: nat, actor: Purchases.Actor, now: int, pay: Request)
    requires actor.role == Purchases.ADMIN && Approvable(Run(requests), id)
    requires pay.PayBill? && pay.id == id && !pay.autoPost
    requires pay.amount == Run(requests).bills[id].total - Paid(Run(requests).bills[id].payments)
    requires PeriodOpen(Run(requests).journal, CurrentPeriod(pay.date))
    ensures var after := Run(requests + Approvals(id, actor, now, LevelsLeft(Run(requests), id)) + [pay]);
      && id < |after.bills| && after.bills[id].approval == Purchases.APPROVED
      && after.bills[id].status == Purchases.PAID
      && Paid(after.bills[id].payments) == Run(requests).bills[id].total
  {
    hide Sound, Run, After, Paid, CurrentPeriod;
    EveryRunIsSound(requests);
    LevelsInRange(Run(requests), id);
    var steps := Approvals(id, actor, now, LevelsLeft(Run(requests), id));
    ApprovalsApprove(requests, id, actor, now, LevelsLeft(Run(requests), id));
    EveryRunIsSound(requests + steps);
    RunSnoc(requests + steps, pay);
    FullPayment(Run(requests + steps), pay);
  }

  // ---------------------------------------------------------------- why a request is refused

  /** The record the request names does not exist. */
  predicate Missing(c: Company, r: Request)
  {
    match r
    case ValidateEntry(id) => id >= |c.journal.entries|
    case StornoEntry(id, _, _) => id >= |c.journal.entries|
    case PayInvoice(id, _, _, _, _, _) => id >= |c.invoices|
    case ApproveBill(id, _, _) => id >= |c.bills|
    case RejectBill(id, _, _) => id >= |c.bills|
    case PayBill(id, _, _, _, _, _) => id >= |c.bills|
    case ReconcileLine(id, target, _, _, _, _) =>
      id >= |c.lines| || target.id >= if target.CustomerInvoice? then |c.invoices| else |c.bills|
    case IgnoreLine(id) => id >= |c.lines|
    case _ => false
  }

  predicate Closed(c: Company, date: Date)
  {
    !PeriodOpen(c.journal, CurrentPeriod(date))
  }

  /** The period is closed, the record has moved on or exists already, or the numbers of the year have run out. */
  predicate Clashing(c: Company, r: Request)
  {
    match r
    case CreateEntry(date, period, _, _) =>
      !PeriodOpen(c.journal, PeriodFor(period, date)) || !NumberLeft(c.journal, date)
    case ValidateEntry(id) => id < |c.journal.entries| && c.journal.entries[id].posted
    case StornoEntry(id, date, period) =>
      || !PeriodOpen(c.journal, PeriodFor(period, date)) || !NumberLeft(c.journal, date)
      || (id < |c.journal.entries|
          && (!c.journal.entries[id].posted || c.journal.entries[id].reversalOf.Some?
              || Reversed(c.journal.entries, id)))
    case ClosePeriod(name) => HasDraft(c.journal.entries, name)
    case CreateInvoice(number, _, _, _, date, autoPost, _) =>
      Closed(c, date) || (exists i :: i in c.invoices && i.number == number)
      || (autoPost && !NumberLeft(c.journal, date))
    case PayInvoice(_, date, _, autoPost, _, _) => Closed(c, date) || (autoPost && !NumberLeft(c.journal, date))
    case CreateBill(number, _, date, _, _, _, _, autoPost, _) =>
      Closed(c, date) || (exists b :: b in c.bills && b.number == number)
      || (autoPost && !NumberLeft(c.journal, date))
    case ApproveBill(id, _, _) => id < |c.bills| && c.bills[id].approval == Purchases.APPROVED
    case RejectBill(id, _, _) => id < |c.bills| && c.bills[id].approval == Purchases.REJECTED
    case PayBill(_, date, _, autoPost, _, _) => Closed(c, date) || (autoPost && !NumberLeft(c.journal, date))
    case CreateDelegation(_, d) =>
      exists e :: e in c.team.delegations && e.fromUser == d.fromUser && e.toUser == d.toUser
                  && e.startsAt == d.startsAt
    case ReconcileLine(id, _, autoPost, _, _, _) =>
      id < |c.lines|
      && (c.lines[id].status != UNMATCHED || Closed(c, c.lines[id].date)
          || (autoPost && !NumberLeft(c.journal, c.lines[id].date)))
    case IgnoreLine(id) => id < |c.lines| && c.lines[id].status != UNMATCHED
    case RunDepreciation(name, runDate, autoPost, _, _) =>
      !PeriodOpen(c.journal, name) || (autoPost && ParsePeriod(name).Ok?
        && !NumberLeft(c.journal, if runDate.Some? then runDate.value else EndOf(name)))
    case GeneratePayroll(name, date, autoPost, _) =>
      !PeriodOpen(c.journal, name) || name in c.payrolls || (autoPost && !NumberLeft(c.journal, date))
    case _ => false
  }

  /** The caller is not entitled to the step. */
  ghost predicate Denied(c: Company, r: Request)
  {
    match r
    case ApproveBill(id, actor, now) =>
      id < |c.bills| && !Purchases.Entitled(c.team, actor, c.bills[id].currentLevel, now)
    case RejectBill(id, actor, now) =>
      id < |c.bills| && !Purchases.Entitled(c.team, actor, c.bills[id].currentLevel, now)
    case CreateDelegation(actor, d) => d.fromUser != actor.user && actor.role != Purchases.ADMIN
    case _ => false
  }

  /** An error that is answered has its reason in the state. */
  ghost predicate Justified(c: Company, r: Request, e: HttpError)
  {
    match e
    case NotFound => Missing(c, r)
    case Conflict => Clashing(c, r)
    case Forbidden => Denied(c, r)
    case BadRequest => true
  }

  lemma JournalRefused(c: Company, r: Request)
    requires Sound(c) && Execute(c, r).Err?
    requires r.CreateEntry? || r.ValidateEntry? || r.StornoEntry? || r.ClosePeriod? || r.ReopenPeriod?
    ensures Justified(c, r, Execute(c, r).error)
  {
    hide Sound, Insert, NumberLeft, ValidDoubleEntry, ActiveAccounts, WellNumbered, StornoMatching, Stored, Mirrored,
         ParsePeriod, HasDraft, Restatus;
    SoundParts(c);
    match r {
      case CreateEntry(date, period, lines, parts) =>
        InsertTaken(c.journal, date, PeriodFor(period, date), EntryStatus.DRAFT, false, None, Stored(lines, parts));
      case ValidateEntry(id) =>
        if id < |c.journal.entries| {
          assert EntryInvariant(c.journal, c.journal.entries[id]);
        }
      case StornoEntry(id, date, period) =>
        if id < |c.journal.entries| {
          assert EntryInvariant(c.journal, c.journal.entries[id]);
          InsertTaken(c.journal, date, PeriodFor(period, date), VALIDATED, true, Some(id),
                      Mirrored(c.journal.entries[id].lines));
        }
      case _ =>
    }
  }

  lemma PostRefused(j: Journal, autoPost: bool, date: Date, period: string, lines: seq<Line>)
    requires JournalInvariant(j) && Posted(j, autoPost, date, period, lines).Err?
    ensures autoPost && !NumberLeft(j, date) && Posted(j, autoPost, date, period, lines).error == Conflict
  {
    InsertTaken(j, date, period, VALIDATED, true, None, lines);
    hide NumberLeft, JournalInvariant, Issue, NextNumber;
  }

  lemma SalesRefused(c: Company, r: Request)
    requires Sound(c) && Execute(c, r).Err? && (r.CreateInvoice? || r.PayInvoice?)
    ensures Justified(c, r, Execute(c, r).error)
  {
    hide Sound, Posted, NumberLeft, Known, Paid, Sales.InvoiceLines, Sales.ReceiptLines, CurrentPeriod,
         JournalInvariant;
    SoundParts(c);
    if r.CreateInvoice? {
      var made := Sales.NewInvoice(c.invoices, c.partners, r.number, r.kind, r.stornoOf, r.details, r.date);
      if made.Ok? && Posted(c.journal, AutoPosted(r.kind, r.autoPost), r.date, CurrentPeriod(r.date),
                            Sales.InvoiceLines(made.value, r.saleCodes)).Err? {
        PostRefused(c.journal, AutoPosted(r.kind, r.autoPost), r.date, CurrentPeriod(r.date),
                    Sales.InvoiceLines(made.value, r.saleCodes));
      }
    } else if Posted(c.journal, r.autoPost, r.date, CurrentPeriod(r.date),
                     Sales.ReceiptLines(r.amount, r.bank, r.receivable)).Err? {
      PostRefused(c.journal, r.autoPost, r.date, CurrentPeriod(r.date),
                  Sales.ReceiptLines(r.amount, r.bank, r.receivable));
    }
  }

  lemma PurchasesRefused(c: Company, r: Request)
    requires Sound(c) && Execute(c, r).Err? && (r.CreateBill? || r.PayBill?)
    ensures Justified(c, r, Execute(c, r).error)
  {
    hide Sound, Posted, NumberLeft, Known, Paid, Purchases.BillLines, Purchases.PaymentLines, CurrentPeriod,
         JournalInvariant, RoundDiv;
    SoundParts(c);
    if r.CreateBill? {
      var made := Purchases.NewBill(c.suppliers, r.number, r.supplier, r.date, r.due, r.subtotal, r.vat, r.parts);
      if made.Ok? && Posted(c.journal, r.autoPost, r.date, CurrentPeriod(r.date),
                            Purchases.BillLines(made.value, r.vat > 0, r.billCodes)).Err? {
        PostRefused(c.journal, r.autoPost, r.date, CurrentPeriod(r.date),
                    Purchases.BillLines(made.value, r.vat > 0, r.billCodes));
      }
    } else if Posted(c.journal, r.autoPost, r.date, CurrentPeriod(r.date),
                     Purchases.PaymentLines(r.amount, r.bank, r.payable)).Err? {
      PostRefused(c.journal, r.autoPost, r.date, CurrentPeriod(r.date),
                  Purchases.PaymentLines(r.amount, r.bank, r.payable));
    }
  }

  lemma DecisionRefused(bill: Purchases.Bill, team: Purchases.Team, actor: Purchases.Actor, now: int)
    requires Purchases.BillInvariant(bill)
    ensures var approved, rejected :=
              Purchases.Approve(bill, team, actor, now), Purchases.Reject(bill, team, actor, now);
      var denied := !Purchases.Entitled(team, actor, bill.currentLevel, now);
      && (approved.Err? ==>
            match approved.error
            case Forbidden => denied
            case Conflict => bill.approval == Purchases.APPROVED
            case NotFound => false
            case BadRequest => true)
      && (rejected.Err? ==>
            match rejected.error
            case Forbidden => denied
            case Conflict => bill.approval == Purchases.REJECTED
            case NotFound => false
            case BadRequest => true)
  {
    Purchases.ResolvesIffEntitled(team, actor, bill.currentLevel, now);
    Purchases.ClampsNeverBite(bill);
    ResolveRefused(team, actor, bill.currentLevel, now);
    hide Purchases.ResolveActor, Purchases.Entitled, Paid;
  }

  lemma ResolveRefused(team: Purchases.Team, actor: Purchases.Actor, level: int, now: int)
    ensures Purchases.ResolveActor(team, actor, level, now).Err? ==>
              Purchases.ResolveActor(team, actor, level, now).error == Forbidden
  {
  }

  lemma ApprovalRefused(c: Company, r: Request)
    requires Sound(c) && Execute(c, r).Err? && (r.ApproveBill? || r.RejectBill?)
    ensures Justified(c, r, Execute(c, r).error)
  {
    hide Sound, Purchases.Approve, Purchases.Reject, Purchases.Entitled;
    SoundParts(c);
    if r.id < |c.bills| {
      hide Purchases.BillInvariant;
      assert Purchases.BillInvariant(c.bills[r.id]);
      DecisionRefused(c.bills[r.id], c.team, r.actor, r.now);
    }
  }

  lemma LineRefused(c: Company, r: Request)
    requires Sound(c) && Execute(c, r).Err? && r.ReconcileLine?
    ensures Justified(c, r, Execute(c, r).error)
  {
    hide Sound, Posted, NumberLeft, Known, Paid, Sales.ReceiptLines, Purchases.PaymentLines, CurrentPeriod,
         JournalInvariant, Sales.Settle, Purchases.Settle;
    SoundParts(c);
    if r.id < |c.lines| {
      var line := c.lines[r.id];
      var amount := Sales.Abs(line.amount);
      var lines := if r.target.CustomerInvoice? then Sales.ReceiptLines(amount, r.bank, r.receivable)
                   else Purchases.PaymentLines(amount, r.bank, r.payable);
      if Posted(c.journal, r.autoPost, line.date, CurrentPeriod(line.date), lines).Err? {
        PostRefused(c.journal, r.autoPost, line.date, CurrentPeriod(line.date), lines);
      }
    }
  }

  lemma RunRefused(c: Company, r: Request)
    requires Sound(c) && Execute(c, r).Err? && r.RunDepreciation?
    ensures Justified(c, r, Execute(c, r).error)
  {
    hide Sound, Posted, NumberLeft, Known, ParsePeriod, EndOf, Depreciation.RunAll, Depreciation.TotalAccumulated,
         DepreciationLines, JournalInvariant;
    SoundParts(c);
    var after := Depreciation.RunAll(c.assets, r.name);
    if ParsePeriod(r.name).Ok? {
      var date := if r.runDate.Some? then r.runDate.value else EndOf(r.name);
      var lines := DepreciationLines(Depreciation.TotalAccumulated(after) - Depreciation.TotalAccumulated(c.assets),
                                     r.expense, r.accumulated);
      if Posted(c.journal, r.autoPost, date, r.name, lines).Err? {
        PostRefused(c.journal, r.autoPost, date, r.name, lines);
      }
    }
  }

  lemma PayrollRefused(c: Company, r: Request)
    requires Sound(c) && Execute(c, r).Err? && r.GeneratePayroll?
    ensures Justified(c, r, Execute(c, r).error)
  {
    hide Sound, Posted, NumberLeft, Known, ParsePeriod, Payroll.Totals, Payroll.PayLines, Payroll.JournalLines,
         JournalInvariant;
    SoundParts(c);
    var lines := Payroll.JournalLines(Payroll.Totals(Payroll.PayLines(c.employees)), r.payCodes);
    if Posted(c.journal, r.autoPost, r.date, r.name, lines).Err? {
      PostRefused(c.journal, r.autoPost, r.date, r.name, lines);
    }
  }

  lemma OtherRefused(c: Company, r: Request)
    requires Execute(c, r).Err?
    requires r.CreateDelegation? || r.ImportLine? || r.IgnoreLine? || r.CreateAsset? || r.Maintain?
    ensures Justified(c, r, Execute(c, r).error)
  {
    hide Purchases.Approver;
  }

  /**
    In every reachable state a refused request is answered by an error that tells why: 404 only if the record it names
    does not exist, 403 only if the caller is not entitled, 409 only if the period is closed, the record has moved on or
    exists, or the numbers have run out.
  */
  lemma RefusalsAreJustified(c: Company, r: Request)
    requires Sound(c) && Execute(c, r).Err?
    ensures Justified(c, r, Execute(c, r).error)
  {
    hide Sound, Execute, Justified;
    if r.CreateEntry? || r.ValidateEntry? || r.StornoEntry? || r.ClosePeriod? || r.ReopenPeriod? {
      JournalRefused(c, r);
    } else if r.CreateInvoice? || r.PayInvoice? {
      SalesRefused(c, r);
    } else if r.CreateBill? || r.PayBill? {
      PurchasesRefused(c, r);
    } else if r.ApproveBill? || r.RejectBill? {
      ApprovalRefused(c, r);
    } else if r.ReconcileLine? {
      LineRefused(c, r);
    } else if r.RunDepreciation? {
      RunRefused(c, r);
    } else if r.GeneratePayroll? {
      PayrollRefused(c, r);
    } else {
      OtherRefused(c, r);
    }
  }
}
