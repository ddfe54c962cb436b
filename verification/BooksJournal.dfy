/** What every run of requests keeps about the journal: locks, stornos, numbers, balance. */
module BooksJournal {
  import opened Results
  import opened Rounding
  import opened Calendar
  import opened JournalNumbers
  import opened Postings
  import opened Ledger
  import opened Books
  import Sales
  import Purchases
  import Payroll
  import Depreciation

  lemma PostedKeepsInvariant(j: Journal, autoPost: bool, date: Date, period: string, lines: seq<Line>)
    requires JournalInvariant(j) && PeriodOpen(j, period)
    requires Posted(j, autoPost, date, period, lines).Ok?
    ensures JournalInvariant(Posted(j, autoPost, date, period, lines).value)
    ensures Grows(j.entries, Posted(j, autoPost, date, period, lines).value.entries)
    ensures RespectsLocks(j, Posted(j, autoPost, date, period, lines).value, None)
  {
    hide JournalInvariant, Post;
    if autoPost {
      PostKeepsInvariant(j, date, period, lines);
    }
  }

  function Reopened(r: Request): Option<string>
  {
    if r.ReopenPeriod? then Some(r.name) else None
  }

  /** The journal is in order, holds what it held before, and closed periods are left alone. */
  ghost predicate JournalContinues(j: Journal, after: Journal, r: Request)
  {
    JournalInvariant(after) && Grows(j.entries, after.entries) && RespectsLocks(j, after, Reopened(r))
  }

  lemma SalesStep(c: Company, r: Request)
    requires JournalInvariant(c.journal) && Execute(c, r).Ok? && (r.CreateInvoice? || r.PayInvoice?)
    ensures JournalContinues(c.journal, Execute(c, r).value.journal, r)
  {
    hide JournalInvariant, Posted, Grows, RespectsLocks, Sales.NewInvoice, Sales.Pay, Sales.InvoiceLines,
         Sales.ReceiptLines, CurrentPeriod;
    if r.CreateInvoice? {
      var made := Sales.NewInvoice(c.invoices, c.partners, r.number, r.kind, r.stornoOf, r.details, r.date);
      PostedKeepsInvariant(c.journal, AutoPosted(r.kind, r.autoPost), r.date, CurrentPeriod(r.date),
                           Sales.InvoiceLines(made.value, r.saleCodes));
    } else {
      PostedKeepsInvariant(c.journal, r.autoPost, r.date, CurrentPeriod(r.date),
                           Sales.ReceiptLines(r.amount, r.bank, r.receivable));
    }
  }

  lemma PurchasesStep(c: Company, r: Request)
    requires JournalInvariant(c.journal) && Execute(c, r).Ok? && (r.CreateBill? || r.PayBill?)
    ensures JournalContinues(c.journal, Execute(c, r).value.journal, r)
  {
    hide JournalInvariant, Posted, Grows, RespectsLocks, Purchases.NewBill, Purchases.Pay, Purchases.BillLines,
         Purchases.PaymentLines, CurrentPeriod;
    if r.CreateBill? {
      var made := Purchases.NewBill(c.suppliers, r.number, r.supplier, r.date, r.due, r.subtotal, r.vat, r.parts);
      PostedKeepsInvariant(c.journal, r.autoPost, r.date, CurrentPeriod(r.date),
                           Purchases.BillLines(made.value, r.vat > 0, r.billCodes));
    } else {
      PostedKeepsInvariant(c.journal, r.autoPost, r.date, CurrentPeriod(r.date),
                           Purchases.PaymentLines(r.amount, r.bank, r.payable));
    }
  }

  lemma ReconcileStep(c: Company, r: Request)
    requires JournalInvariant(c.journal) && Execute(c, r).Ok? && r.ReconcileLine?
    ensures JournalContinues(c.journal, Execute(c, r).value.journal, r)
  {
    hide JournalInvariant, Posted, Grows, RespectsLocks, Sales.Reconcile, Sales.ReceiptLines, Purchases.Reconcile,
         Purchases.PaymentLines, CurrentPeriod;
    var line := c.lines[r.id];
    var amount := Sales.Abs(line.amount);
    if r.target.CustomerInvoice? {
      PostedKeepsInvariant(c.journal, r.autoPost, line.date, CurrentPeriod(line.date),
                           Sales.ReceiptLines(amount, r.bank, r.receivable));
    } else {
      PostedKeepsInvariant(c.journal, r.autoPost, line.date, CurrentPeriod(line.date),
                           Purchases.PaymentLines(amount, r.bank, r.payable));
    }
  }

  lemma PeriodicStep(c: Company, r: Request)
    requires JournalInvariant(c.journal) && Execute(c, r).Ok? && (r.RunDepreciation? || r.GeneratePayroll?)
    ensures JournalContinues(c.journal, Execute(c, r).value.journal, r)
  {
    hide JournalInvariant, Posted, Grows, RespectsLocks, Depreciation.RunAll, Depreciation.TotalAccumulated,
         DepreciationLines, Payroll.Totals, Payroll.PayLines, Payroll.JournalLines, ParsePeriod;
    if r.RunDepreciation? {
      var after := Depreciation.RunAll(c.assets, r.name);
      if after != c.assets {
        var total := Depreciation.TotalAccumulated(after) - Depreciation.TotalAccumulated(c.assets);
        var date := if r.runDate.Some? then r.runDate.value else EndOf(r.name);
        PostedKeepsInvariant(c.journal, r.autoPost, date, r.name, DepreciationLines(total, r.expense, r.accumulated));
      } else {
        SameEntries(c.journal, c.journal.accounts);
      }
    } else {
      PostedKeepsInvariant(c.journal, r.autoPost, r.date, r.name,
                           Payroll.JournalLines(Payroll.Totals(Payroll.PayLines(c.employees)), r.payCodes));
    }
  }

  lemma SameEntries(j: Journal, accounts: map<string, bool>)
    ensures Grows(j.entries, j.entries) && RespectsLocks(j, j.(accounts := accounts), None)
  {
  }

  lemma JournalStep(c: Company, r: Request)
    requires JournalInvariant(c.journal) && Execute(c, r).Ok?
    requires r.CreateEntry? || r.ValidateEntry? || r.StornoEntry? || r.ClosePeriod? || r.ReopenPeriod?
    ensures JournalContinues(c.journal, Execute(c, r).value.journal, r)
  {
    hide JournalInvariant, Grows, RespectsLocks, Ledger.CreateEntry, Ledger.ValidateEntry, Ledger.StornoEntry,
         Ledger.ClosePeriod, Ledger.ReopenPeriod;
    match r {
      case CreateEntry(date, period, lines, parts) => CreateKeepsInvariant(c.journal, date, period, lines, parts);
      case ValidateEntry(id) => ValidateKeepsInvariant(c.journal, id);
      case StornoEntry(id, date, period) => StornoKeepsInvariant(c.journal, id, date, period);
      case ClosePeriod(name) => CloseKeepsInvariant(c.journal, name);
      case ReopenPeriod(name) => ReopenKeepsInvariant(c.journal, name);
    }
  }

  lemma OtherStep(c: Company, r: Request)
    requires JournalInvariant(c.journal) && Execute(c, r).Ok?
    requires r.ApproveBill? || r.RejectBill? || r.CreateDelegation? || r.ImportLine? || r.IgnoreLine? || r.CreateAsset?
             || r.Maintain?
    ensures JournalContinues(c.journal, Execute(c, r).value.journal, r)
  {
    hide JournalInvariant, Grows, RespectsLocks, Purchases.Approve, Purchases.Reject, Purchases.Delegate,
         Depreciation.Sound;
    SameEntries(c.journal, c.journal.accounts);
    if r.Maintain? {
      SameEntries(c.journal, r.accounts);
      OtherAccountsKept(c.journal, r.accounts);
    }
  }

  lemma OtherAccountsKept(j: Journal, accounts: map<string, bool>)
    requires JournalInvariant(j)
    ensures JournalInvariant(j.(accounts := accounts))
  {
    hide WellNumbered, StornoMatching;
    var after := j.(accounts := accounts);
    forall i | 0 <= i < |after.entries| ensures EntryInvariant(after, after.entries[i]) {
      assert EntryInvariant(j, j.entries[i]);
    }
  }

  lemma EveryStep(c: Company, r: Request)
    requires JournalInvariant(c.journal)
    ensures JournalContinues(c.journal, After(c, r).journal, r)
  {
    hide JournalInvariant, Execute, SameContent;
    if Execute(c, r).Err? {
      SameEntries(c.journal, c.journal.accounts);
      assert RespectsLocks(c.journal, c.journal, Reopened(r));
    } else if r.CreateInvoice? || r.PayInvoice? {
      SalesStep(c, r);
    } else if r.CreateBill? || r.PayBill? {
      PurchasesStep(c, r);
    } else if r.ReconcileLine? {
      ReconcileStep(c, r);
    } else if r.RunDepreciation? || r.GeneratePayroll? {
      PeriodicStep(c, r);
    } else if r.CreateEntry? || r.ValidateEntry? || r.StornoEntry? || r.ClosePeriod? || r.ReopenPeriod? {
      JournalStep(c, r);
    } else {
      OtherStep(c, r);
    }
  }

  lemma {:induction false} EveryRunKeepsJournal(requests: seq<Request>)
    ensures JournalInvariant(Run(requests).journal)
  {
    if requests == [] {
      EmptyJournal();
    } else {
      hide JournalInvariant, After;
      EveryRunKeepsJournal(requests[..|requests| - 1]);
      EveryStep(Run(requests[..|requests| - 1]), requests[|requests| - 1]);
    }
  }

  lemma EmptyJournal()
    ensures JournalInvariant(START.journal)
  {
    NoNumbers(0);
    hide WellNumbered;
  }

  // ---------------------------------------------------------------- what that says about every run

  /** In every reachable state an entry is CLOSED exactly when its period is, and posted unless a DRAFT. */
  lemma PeriodLock(requests: seq<Request>, i: nat)
    requires i < |Run(requests).journal.entries|
    ensures var j := Run(requests).journal; var e := j.entries[i];
      && (e.status == CLOSED <==> !PeriodOpen(j, e.period))
      && (e.posted <==> e.status != DRAFT)
  {
    EveryRunKeepsJournal(requests);
    hide Run, WellNumbered, StornoMatching;
    assert EntryInvariant(Run(requests).journal, Run(requests).journal.entries[i]);
  }

  /** Over every run stornos form a matching, and each cancels its entry on every account. */
  lemma StornosMatch(requests: seq<Request>, i: nat, account: string)
    requires i < |Run(requests).journal.entries| && Run(requests).journal.entries[i].reversalOf.Some?
    ensures var entries := Run(requests).journal.entries; var id := entries[i].reversalOf.value;
      && id < i && entries[id].status != DRAFT && entries[id].reversalOf.None?
      && (forall k :: 0 <= k < |entries| && entries[k].reversalOf == Some(id) ==> k == i)
      && OnAccount(entries[id].lines, account) + OnAccount(entries[i].lines, account) == 0
  {
    EveryRunKeepsJournal(requests);
    hide Run, WellNumbered, OnAccount;
    var j := Run(requests).journal;
    StornoCancels(j, i, account);
    assert StornoOf(j.entries, i, j.entries[i].reversalOf.value);
  }

  /** Over every run the numbers of a year are 1, 2, 3, ... without gap or repeat. */
  lemma NumbersGapless(requests: seq<Request>, year: nat)
    ensures var numbers := Numbers(Run(requests).journal.entries);
      NumberedTo(numbers, year, |Issued(numbers, year)|)
  {
    EveryRunKeepsJournal(requests);
    hide Run, NumberedTo;
  }

  /** Whatever happens later, an entry keeps its number, date, period, link and lines, and is validated only on them. */
  lemma {:induction false} EntriesAreKept(requests: seq<Request>, more: seq<Request>, i: nat)
    requires i < |Run(requests).journal.entries|
    ensures i < |Run(requests + more).journal.entries|
    ensures SameContent(Run(requests).journal.entries[i], Run(requests + more).journal.entries[i])
  {
    if more == [] {
      assert requests + more == requests;
    } else {
      var front, last := more[..|more| - 1], more[|more| - 1];
      EntriesAreKept(requests, front, i);
      EveryRunKeepsJournal(requests + front);
      EveryStep(Run(requests + front), last);
      RunContinues(requests, more);
      hide After, JournalInvariant, Run;
      assert Grows(Run(requests + front).journal.entries, Run(requests + more).journal.entries);
    }
  }

  // ---------------------------------------------------------------- what becomes of a manual entry

  /** A draft in a journal in order can be validated exactly when its lines, as stored, pass validateDoubleEntry. */
  lemma DraftValidates(j: Journal, id: nat)
    requires JournalInvariant(j) && id < |j.entries| && j.entries[id].status == DRAFT
    ensures Ledger.ValidateEntry(j, id).Ok? <==> ValidDoubleEntry(j.entries[id].lines, 1)
  {
    hide StornoMatching, WellNumbered, ValidDoubleEntry;
    assert EntryInvariant(j, j.entries[id]);
  }

  /** A period with a draft is open and cannot be closed. */
  lemma DraftHoldsPeriod(j: Journal, id: nat)
    requires JournalInvariant(j) && id < |j.entries| && j.entries[id].status == DRAFT
    ensures PeriodOpen(j, j.entries[id].period) && Ledger.ClosePeriod(j, j.entries[id].period).Err?
  {
    hide StornoMatching, WellNumbered, ParsePeriod;
    assert EntryInvariant(j, j.entries[id]) && j.entries[id] in j.entries;
  }

  /**
    Whatever follows the creation of a manual entry: while it is a draft it can be validated if and only if its lines
    keep valid when they are rounded one by one. If they do not, it stays a draft for good, and its period, open, can
    never be closed.
  */
  lemma ManualEntryValidates(requests: seq<Request>, r: Request, more: seq<Request>)
    requires r.CreateEntry? && Execute(Run(requests), r).Ok?
    ensures var j, n := Run(requests + [r] + more).journal, |Run(requests).journal.entries|;
      && n < |j.entries| && j.entries[n].period == PeriodFor(r.period, r.date)
      && j.entries[n].lines == Stored(r.entryLines, r.parts) && (more == [] ==> j.entries[n].status == DRAFT)
      && (j.entries[n].status == DRAFT ==>
            (Ledger.ValidateEntry(j, n).Ok? <==> KeepsValid(r.entryLines, r.parts)))
      && (!KeepsValid(r.entryLines, r.parts) ==>
            && j.entries[n].status == DRAFT && PeriodOpen(j, j.entries[n].period)
            && Ledger.ClosePeriod(j, j.entries[n].period).Err?)
  {
    var before, n := Run(requests), |Run(requests).journal.entries|;
    EveryRunKeepsJournal(requests);
    EveryRunKeepsJournal(requests + [r] + more);
    RunSnoc(requests, r);
    hide Run, JournalInvariant, Stored, ValidDoubleEntry, KeepsValid, Ledger.CreateEntry, Ledger.ValidateEntry,
         Ledger.ClosePeriod;
    CreateKeepsInvariant(before.journal, r.date, r.period, r.entryLines, r.parts);
    StoredPasses(r.entryLines, r.parts);
    EntriesAreKept(requests + [r], more, n);
    assert more == [] ==> requests + [r] + more == requests + [r];
    var j := Run(requests + [r] + more).journal;
    if j.entries[n].status == DRAFT {
      DraftValidates(j, n);
      DraftHoldsPeriod(j, n);
    }
  }

  // ---------------------------------------------------------------- what closing a period means

  /** The entries of a period. */
  function EntriesIn(entries: seq<Entry>, period: string): seq<Entry>
  {
    if entries == [] then []
    else
      var last := entries[|entries| - 1];
      EntriesIn(entries[..|entries| - 1], period) + if last.period == period then [last] else []
  }

  lemma {:induction false} LockedPeriodUnchanged(before: seq<Entry>, after: seq<Entry>, period: string)
    requires |before| <= |after|
    requires forall i :: 0 <= i < |before| && before[i].period == period ==> after[i] == before[i]
    requires forall i :: 0 <= i < |before| ==> after[i].period == before[i].period
    requires forall i :: |before| <= i < |after| ==> after[i].period != period
    ensures EntriesIn(after, period) == EntriesIn(before, period)
  {
    if after != [] {
      var n := |after| - 1;
      if |before| == |after| {
        LockedPeriodUnchanged(before[..n], after[..n], period);
      } else {
        LockedPeriodUnchanged(before, after[..n], period);
      }
    }
  }

  lemma ClosedPeriodStep(c: Company, r: Request, period: string)
    requires JournalInvariant(c.journal) && !PeriodOpen(c.journal, period) && r != Request.ReopenPeriod(period)
    ensures !PeriodOpen(After(c, r).journal, period)
    ensures EntriesIn(After(c, r).journal.entries, period) == EntriesIn(c.journal.entries, period)
  {
    EveryStep(c, r);
    hide After, JournalInvariant;
    var j, after := c.journal, After(c, r).journal;
    forall i | 0 <= i < |j.entries| ensures after.entries[i].period == j.entries[i].period {
      assert SameContent(j.entries[i], after.entries[i]);
    }
    LockedPeriodUnchanged(j.entries, after.entries, period);
  }

  /** While a closed period is not reopened, no request of any kind adds, changes or removes an entry in it. */
  lemma {:induction false} ClosedPeriodIsFrozen(requests: seq<Request>, more: seq<Request>, period: string)
    requires !PeriodOpen(Run(requests).journal, period) && Request.ReopenPeriod(period) !in more
    ensures !PeriodOpen(Run(requests + more).journal, period)
    ensures EntriesIn(Run(requests + more).journal.entries, period) == EntriesIn(Run(requests).journal.entries, period)
  {
    if more == [] {
      assert requests + more == requests;
    } else {
      var front, last := more[..|more| - 1], more[|more| - 1];
      assert last in more && forall r :: r in front ==> r in more;
      ClosedPeriodIsFrozen(requests, front, period);
      EveryRunKeepsJournal(requests + front);
      RunContinues(requests, more);
      hide After, JournalInvariant, Run, EntriesIn;
      ClosedPeriodStep(Run(requests + front), last, period);
    }
  }

  // ---------------------------------------------------------------- the trial balance

  lemma DepreciationLinesBalance(total: int, expense: string, accumulated: string)
    ensures Balanced(DepreciationLines(total, expense, accumulated))
  {
    SumsOfTwo(DepreciationLines(total, expense, accumulated));
    hide Debits, Credits;
  }

  /** An auto-posted supplier invoice whose subtotal and VAT round apart as they do together; any other request. */
  predicate PostsBalanced(c: Company, r: Request)
  {
    r.CreateBill? && r.autoPost && Execute(c, r).Ok? ==> PartsAgree(r.subtotal, r.vat, r.parts)
  }

  /** The request changes the posted entries in balance by this and nothing else. */
  ghost predicate BalanceGoesBy(j: Journal, after: Journal, balanced: bool)
  {
    PostedBalanced(after.entries) <==> PostedBalanced(j.entries) && balanced
  }

  lemma PostedBalance(j: Journal, autoPost: bool, date: Date, period: string, lines: seq<Line>)
    requires Posted(j, autoPost, date, period, lines).Ok?
    ensures BalanceGoesBy(j, Posted(j, autoPost, date, period, lines).value, !autoPost || Balanced(lines))
  {
    hide Insert, Balanced, PostedBalanced;
    if autoPost {
      InsertBalance(j, date, period, VALIDATED, true, None, lines);
    }
  }

  lemma SalesBalance(c: Company, r: Request)
    requires Execute(c, r).Ok? && (r.CreateInvoice? || r.PayInvoice?)
    ensures BalanceGoesBy(c.journal, Execute(c, r).value.journal, true)
  {
    hide Balanced, Posted, PostedBalanced, Sales.NewInvoice, Sales.Pay, Sales.InvoiceLines, Sales.ReceiptLines,
         Sales.InvoiceInvariant, CurrentPeriod;
    if r.CreateInvoice? {
      var made := Sales.NewInvoice(c.invoices, c.partners, r.number, r.kind, r.stornoOf, r.details, r.date);
      Sales.NewInvoiceInvariant(c.invoices, c.partners, r.number, r.kind, r.stornoOf, r.details, r.date);
      Sales.InvoiceLinesBalance(made.value, r.saleCodes);
      PostedBalance(c.journal, AutoPosted(r.kind, r.autoPost), r.date, CurrentPeriod(r.date),
                    Sales.InvoiceLines(made.value, r.saleCodes));
    } else {
      Sales.ReceiptLinesBalance(r.amount, r.bank, r.receivable);
      PostedBalance(c.journal, r.autoPost, r.date, CurrentPeriod(r.date),
                    Sales.ReceiptLines(r.amount, r.bank, r.receivable));
    }
  }

  lemma PurchasesBalance(c: Company, r: Request)
    requires Execute(c, r).Ok? && (r.CreateBill? || r.PayBill?)
    ensures BalanceGoesBy(c.journal, Execute(c, r).value.journal, PostsBalanced(c, r))
  {
    hide Balanced, Posted, PostedBalanced, Purchases.NewBill, Purchases.Pay, Purchases.BillLines,
         Purchases.PaymentLines, PartsAgree, CurrentPeriod;
    if r.CreateBill? {
      var made := Purchases.NewBill(c.suppliers, r.number, r.supplier, r.date, r.due, r.subtotal, r.vat, r.parts);
      Purchases.BillLinesBalance(c.suppliers, r.number, r.supplier, r.date, r.due, r.subtotal, r.vat, r.parts,
                                 r.billCodes);
      PostedBalance(c.journal, r.autoPost, r.date, CurrentPeriod(r.date),
                    Purchases.BillLines(made.value, r.vat > 0, r.billCodes));
    } else {
      Purchases.PaymentLinesBalance(r.amount, r.bank, r.payable);
      PostedBalance(c.journal, r.autoPost, r.date, CurrentPeriod(r.date),
                    Purchases.PaymentLines(r.amount, r.bank, r.payable));
    }
  }

  lemma ReconcileBalance(c: Company, r: Request)
    requires Execute(c, r).Ok? && r.ReconcileLine?
    ensures BalanceGoesBy(c.journal, Execute(c, r).value.journal, true)
  {
    hide Balanced, Posted, PostedBalanced, Sales.Reconcile, Sales.ReceiptLines, Purchases.Reconcile,
         Purchases.PaymentLines, CurrentPeriod;
    var line := c.lines[r.id];
    var amount := Sales.Abs(line.amount);
    if r.target.CustomerInvoice? {
      Sales.ReceiptLinesBalance(amount, r.bank, r.receivable);
      PostedBalance(c.journal, r.autoPost, line.date, CurrentPeriod(line.date),
                    Sales.ReceiptLines(amount, r.bank, r.receivable));
    } else {
      Purchases.PaymentLinesBalance(amount, r.bank, r.payable);
      PostedBalance(c.journal, r.autoPost, line.date, CurrentPeriod(line.date),
                    Purchases.PaymentLines(amount, r.bank, r.payable));
    }
  }

  lemma PeriodicBalance(c: Company, r: Request)
    requires Execute(c, r).Ok? && (r.RunDepreciation? || r.GeneratePayroll?)
    ensures BalanceGoesBy(c.journal, Execute(c, r).value.journal, true)
  {
    hide Balanced, Posted, PostedBalanced, Depreciation.RunAll, Depreciation.TotalAccumulated, DepreciationLines,
         Payroll.Totals, Payroll.PayLines, Payroll.JournalLines, ParsePeriod;
    if r.RunDepreciation? {
      var after := Depreciation.RunAll(c.assets, r.name);
      if after != c.assets {
        var total := Depreciation.TotalAccumulated(after) - Depreciation.TotalAccumulated(c.assets);
        var date := if r.runDate.Some? then r.runDate.value else EndOf(r.name);
        DepreciationLinesBalance(total, r.expense, r.accumulated);
        PostedBalance(c.journal, r.autoPost, date, r.name, DepreciationLines(total, r.expense, r.accumulated));
      }
    } else {
      Payroll.PayrollBalances(c.employees, r.payCodes);
      PostedBalance(c.journal, r.autoPost, r.date, r.name,
                    Payroll.JournalLines(Payroll.Totals(Payroll.PayLines(c.employees)), r.payCodes));
    }
  }

  lemma JournalBalance(c: Company, r: Request)
    requires Execute(c, r).Ok?
    requires r.CreateEntry? || r.ValidateEntry? || r.StornoEntry? || r.ClosePeriod? || r.ReopenPeriod?
    ensures BalanceGoesBy(c.journal, Execute(c, r).value.journal, true)
  {
    hide PostedBalanced, Insert, Stored, Mirrored, ValidDoubleEntry, ParsePeriod, HasDraft;
    match r {
      case CreateEntry(date, period, lines, parts) =>
        InsertBalance(c.journal, date, PeriodFor(period, date), DRAFT, false, None, Stored(lines, parts));
      case ValidateEntry(id) => ValidateBalance(c.journal, id);
      case StornoEntry(id, date, period) => StornoBalance(c.journal, id, date, period);
      case ClosePeriod(name) => RestatusBalance(c.journal.entries, name, VALIDATED, CLOSED);
      case ReopenPeriod(name) => RestatusBalance(c.journal.entries, name, CLOSED, VALIDATED);
    }
  }

  lemma OtherBalance(c: Company, r: Request)
    requires Execute(c, r).Ok?
    requires r.ApproveBill? || r.RejectBill? || r.CreateDelegation? || r.ImportLine? || r.IgnoreLine? || r.CreateAsset?
             || r.Maintain?
    ensures BalanceGoesBy(c.journal, Execute(c, r).value.journal, true)
  {
    hide PostedBalanced, Purchases.Approve, Purchases.Reject, Purchases.Delegate, Depreciation.Sound;
  }

  lemma EveryBalance(c: Company, r: Request)
    ensures BalanceGoesBy(c.journal, After(c, r).journal, PostsBalanced(c, r))
  {
    hide Execute, PartsAgree, PostedBalanced;
    if Execute(c, r).Ok? {
      if r.CreateInvoice? || r.PayInvoice? {
        SalesBalance(c, r);
      } else if r.CreateBill? || r.PayBill? {
        PurchasesBalance(c, r);
      } else if r.ReconcileLine? {
        ReconcileBalance(c, r);
      } else if r.RunDepreciation? || r.GeneratePayroll? {
        PeriodicBalance(c, r);
      } else if r.CreateEntry? || r.ValidateEntry? || r.StornoEntry? || r.ClosePeriod? || r.ReopenPeriod? {
        JournalBalance(c, r);
      } else {
        OtherBalance(c, r);
      }
    }
  }

  predicate EveryPostBalanced(requests: seq<Request>)
  {
    requests == [] ||
    var front, last := requests[..|requests| - 1], requests[|requests| - 1];
    EveryPostBalanced(front) && PostsBalanced(Run(front), last)
  }

  /**
    Over every run every posted entry balances, and so do all together, if and only if every supplier invoice posted
    had a subtotal and a VAT that round apart as they do together. No other request can post out of balance.
  */
  lemma {:induction false} RunBalances(requests: seq<Request>)
    ensures PostedBalanced(Run(requests).journal.entries) <==> EveryPostBalanced(requests)
    ensures EveryPostBalanced(requests) ==>
              var posted := PostedEntries(Run(requests).journal.entries);
              TotalDebit(posted) == TotalCredit(posted)
  {
    if requests != [] {
      var front, last := requests[..|requests| - 1], requests[|requests| - 1];
      RunBalances(front);
      EveryBalance(Run(front), last);
    }
    hide After, PostedBalanced, PostsBalanced, PostedEntries;
    if EveryPostBalanced(requests) {
      NothingPosted();
      PostedTrialBalance(Run(requests).journal.entries);
    }
  }

  lemma NothingPosted()
    ensures PostedBalanced(START.journal.entries) && EveryPostBalanced([])
  {
  }

  lemma {:induction false} WholeCentsAreBalanced(requests: seq<Request>)
    requires forall r :: r in requests && r.CreateBill? ==> r.parts == 1
    ensures EveryPostBalanced(requests)
  {
    if requests != [] {
      var front, last := requests[..|requests| - 1], requests[|requests| - 1];
      assert last in requests && forall r :: r in front ==> r in requests;
      WholeCentsAreBalanced(front);
      hide Run, Execute;
      if last.CreateBill? {
        WholeCentsAgree(last.subtotal, last.vat);
      }
    }
  }

  /** With supplier invoices in whole cents every run balances. */
  lemma WholeCentsBalance(requests: seq<Request>)
    requires forall r :: r in requests && r.CreateBill? ==> r.parts == 1
    ensures PostedBalanced(Run(requests).journal.entries)
  {
    hide Run, PostedBalanced;
    WholeCentsAreBalanced(requests);
    RunBalances(requests);
  }
}
