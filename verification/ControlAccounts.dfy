/** Control accounts: the balance of the payable and of the receivable account is what the sub-ledgers say is open. */
module ControlAccounts {
  import opened Results
  import opened Rounding
  import opened Calendar
  import opened Payments
  import opened Postings
  import opened Ledger
  import opened Books
  import opened BooksDocuments
  import opened PayablesReport
  import Sales
  import Purchases
  import Payroll
  import Depreciation

  // ---------------------------------------------------------------- what a request moves on an account

  function Moved(autoPost: bool, lines: seq<Line>, account: string): int
  {
    if autoPost then OnAccount(lines, account) else 0
  }

  function DepreciationTotal(c: Company, period: string): int
  {
    Depreciation.TotalAccumulated(Depreciation.RunAll(c.assets, period)) - Depreciation.TotalAccumulated(c.assets)
  }

  /** Debit minus credit that a successful request brings to an account. */
  function Movement(c: Company, r: Request, account: string): int
    requires Execute(c, r).Ok?
  {
    match r
    case CreateEntry(_, _, lines, parts) => OnAccount(Stored(lines, parts), account)
    case StornoEntry(id, _, _) => -OnAccount(c.journal.entries[id].lines, account)
    case CreateInvoice(_, _, _, _, _, _, _) =>
      Moved(AutoPosted(r.kind, r.autoPost), Sales.InvoiceLines(Execute(c, r).value.invoices[|c.invoices|], r.saleCodes),
            account)
    case PayInvoice(_, _, amount, autoPost, bank, receivable) =>
      Moved(autoPost, Sales.ReceiptLines(amount, bank, receivable), account)
    case CreateBill(_, _, _, _, _, vat, _, autoPost, codes) =>
      Moved(autoPost, Purchases.BillLines(Execute(c, r).value.bills[|c.bills|], vat > 0, codes), account)
    case PayBill(_, _, amount, autoPost, bank, payable) =>
      Moved(autoPost, Purchases.PaymentLines(amount, bank, payable), account)
    case ReconcileLine(id, target, autoPost, bank, receivable, payable) =>
      var amount := Sales.Abs(c.lines[id].amount);
      Moved(autoPost, if target.CustomerInvoice? then Sales.ReceiptLines(amount, bank, receivable)
                      else Purchases.PaymentLines(amount, bank, payable), account)
    case RunDepreciation(name, _, autoPost, expense, accumulated) =>
      if Depreciation.RunAll(c.assets, name) == c.assets then 0
      else Moved(autoPost, DepreciationLines(DepreciationTotal(c, name), expense, accumulated), account)
    case GeneratePayroll(_, _, autoPost, codes) =>
      Moved(autoPost, Payroll.JournalLines(Payroll.Totals(Payroll.PayLines(c.employees)), codes), account)
    case _ => 0
  }

  lemma PostedMoves(j: Journal, autoPost: bool, date: Date, period: string, lines: seq<Line>, account: string)
    requires Posted(j, autoPost, date, period, lines).Ok?
    ensures AccountBalance(Posted(j, autoPost, date, period, lines).value.entries, account)
         == AccountBalance(j.entries, account) + Moved(autoPost, lines, account)
  {
    hide Post, AccountBalance, OnAccount;
    if autoPost {
      PostOnAccount(j, date, period, lines, account);
    }
  }

  lemma EntryMoves(j: Journal, date: Date, period: Option<string>, lines: seq<Line>, parts: Grid, account: string)
    requires Ledger.CreateEntry(j, date, period, lines, parts).Ok?
    ensures AccountBalance(Ledger.CreateEntry(j, date, period, lines, parts).value.entries, account)
         == AccountBalance(j.entries, account) + OnAccount(Stored(lines, parts), account)
  {
    hide Insert, AccountBalance, OnAccount, ValidDoubleEntry, Stored;
    InsertAppends(j, date, PeriodFor(period, date), EntryStatus.DRAFT, false, None, Stored(lines, parts));
    var after := Ledger.CreateEntry(j, date, period, lines, parts).value.entries;
    BalanceAppend(j.entries, after[|j.entries|], account);
    assert after == after[..|j.entries|] + [after[|j.entries|]];
  }

  lemma StatusRoutesMoveNothing(c: Company, r: Request, account: string)
    requires Execute(c, r).Ok? && (r.ValidateEntry? || r.ClosePeriod? || r.ReopenPeriod?)
    ensures AccountBalance(Execute(c, r).value.journal.entries, account) == AccountBalance(c.journal.entries, account)
  {
    hide AccountBalance, ParsePeriod, HasDraft, ValidDoubleEntry;
    SameBalance(c.journal.entries, Execute(c, r).value.journal.entries, account);
  }

  lemma StornoMoves(j: Journal, id: nat, date: Date, period: Option<string>, account: string)
    requires Ledger.StornoEntry(j, id, date, period).Ok?
    ensures AccountBalance(Ledger.StornoEntry(j, id, date, period).value.entries, account)
         == AccountBalance(j.entries, account) - OnAccount(j.entries[id].lines, account)
  {
    StornoUndoes(j, id, date, period, account);
  }

  lemma JournalMoves(c: Company, r: Request, account: string)
    requires Execute(c, r).Ok?
    requires r.CreateEntry? || r.ValidateEntry? || r.StornoEntry? || r.ClosePeriod? || r.ReopenPeriod?
    ensures AccountBalance(Execute(c, r).value.journal.entries, account)
         == AccountBalance(c.journal.entries, account) + Movement(c, r, account)
  {
    if r.ValidateEntry? || r.ClosePeriod? || r.ReopenPeriod? {
      StatusRoutesMoveNothing(c, r, account);
    }
    hide AccountBalance, OnAccount, Ledger.CreateEntry, Ledger.ValidateEntry, Ledger.ClosePeriod, Ledger.ReopenPeriod,
         Insert;
    match r {
      case CreateEntry(date, period, lines, parts) => EntryMoves(c.journal, date, period, lines, parts, account);
      case StornoEntry(id, date, period) => StornoMoves(c.journal, id, date, period, account);
      case _ =>
    }
  }

  lemma DocumentsMove(c: Company, r: Request, account: string)
    requires Execute(c, r).Ok? && (r.CreateInvoice? || r.PayInvoice? || r.CreateBill? || r.PayBill?)
    ensures AccountBalance(Execute(c, r).value.journal.entries, account)
         == AccountBalance(c.journal.entries, account) + Movement(c, r, account)
  {
    hide AccountBalance, Moved, Posted, Sales.NewInvoice, Sales.Pay, Sales.InvoiceLines, Sales.ReceiptLines,
         Purchases.NewBill, Purchases.Pay, Purchases.BillLines, Purchases.PaymentLines, Known, CurrentPeriod;
    match r {
      case CreateInvoice(_, _, _, _, _, _, _) =>
        var made := Sales.NewInvoice(c.invoices, c.partners, r.number, r.kind, r.stornoOf, r.details, r.date).value;
        PostedMoves(c.journal, AutoPosted(r.kind, r.autoPost), r.date, CurrentPeriod(r.date),
                    Sales.InvoiceLines(made, r.saleCodes), account);
      case PayInvoice(_, _, _, _, _, _) =>
        PostedMoves(c.journal, r.autoPost, r.date, CurrentPeriod(r.date),
                    Sales.ReceiptLines(r.amount, r.bank, r.receivable), account);
      case CreateBill(_, _, _, _, _, _, _, _, _) =>
        var made :=
          Purchases.NewBill(c.suppliers, r.number, r.supplier, r.date, r.due, r.subtotal, r.vat, r.parts).value;
        PostedMoves(c.journal, r.autoPost, r.date, CurrentPeriod(r.date),
                    Purchases.BillLines(made, r.vat > 0, r.billCodes), account);
      case PayBill(_, _, _, _, _, _) =>
        PostedMoves(c.journal, r.autoPost, r.date, CurrentPeriod(r.date),
                    Purchases.PaymentLines(r.amount, r.bank, r.payable), account);
    }
  }

  lemma ReconcileMoves(c: Company, r: Request, account: string)
    requires Execute(c, r).Ok? && r.ReconcileLine?
    ensures AccountBalance(Execute(c, r).value.journal.entries, account)
         == AccountBalance(c.journal.entries, account) + Movement(c, r, account)
  {
    hide AccountBalance, Moved, Posted, Sales.Reconcile, Sales.ReceiptLines, Purchases.Reconcile,
         Purchases.PaymentLines, Known, CurrentPeriod;
    var line := c.lines[r.id];
    var amount := Sales.Abs(line.amount);
    if r.target.CustomerInvoice? {
      PostedMoves(c.journal, r.autoPost, line.date, CurrentPeriod(line.date),
                  Sales.ReceiptLines(amount, r.bank, r.receivable), account);
    } else {
      PostedMoves(c.journal, r.autoPost, line.date, CurrentPeriod(line.date),
                  Purchases.PaymentLines(amount, r.bank, r.payable), account);
    }
  }

  lemma PayrollMoves(c: Company, r: Request, account: string)
    requires r.GeneratePayroll? && Execute(c, r).Ok?
    ensures AccountBalance(Execute(c, r).value.journal.entries, account)
         == AccountBalance(c.journal.entries, account) + Movement(c, r, account)
  {
    hide AccountBalance, Moved, Posted, Payroll.Totals, Payroll.PayLines, Payroll.JournalLines, Known, ParsePeriod;
    PostedMoves(c.journal, r.autoPost, r.date, r.name,
                Payroll.JournalLines(Payroll.Totals(Payroll.PayLines(c.employees)), r.payCodes), account);
  }

  lemma DepreciationMoves(c: Company, r: Request, account: string)
    requires r.RunDepreciation? && Execute(c, r).Ok?
    ensures AccountBalance(Execute(c, r).value.journal.entries, account)
         == AccountBalance(c.journal.entries, account) + Movement(c, r, account)
  {
    hide AccountBalance, Moved, Posted, Depreciation.RunAll, Depreciation.TotalAccumulated, DepreciationLines, Known,
         ParsePeriod;
    if Depreciation.RunAll(c.assets, r.name) != c.assets {
      var date := if r.runDate.Some? then r.runDate.value else EndOf(r.name);
      PostedMoves(c.journal, r.autoPost, date, r.name,
                  DepreciationLines(DepreciationTotal(c, r.name), r.expense, r.accumulated), account);
    }
  }

  lemma OthersMoveNothing(c: Company, r: Request)
    requires Execute(c, r).Ok?
    requires r.ApproveBill? || r.RejectBill? || r.CreateDelegation? || r.ImportLine? || r.IgnoreLine? || r.CreateAsset?
             || r.Maintain?
    ensures Execute(c, r).value.journal.entries == c.journal.entries
  {
    hide Purchases.Approve, Purchases.Reject, Purchases.Delegate, Depreciation.Sound;
  }

  /** Every request moves every account by exactly what it posts. */
  lemma EveryRequestMoves(c: Company, r: Request, account: string)
    requires Execute(c, r).Ok?
    ensures AccountBalance(Execute(c, r).value.journal.entries, account)
         == AccountBalance(c.journal.entries, account) + Movement(c, r, account)
  {
    hide Execute, AccountBalance;
    if r.CreateEntry? || r.ValidateEntry? || r.StornoEntry? || r.ClosePeriod? || r.ReopenPeriod? {
      JournalMoves(c, r, account);
    } else if r.CreateInvoice? || r.PayInvoice? || r.CreateBill? || r.PayBill? {
      DocumentsMove(c, r, account);
    } else if r.ReconcileLine? {
      ReconcileMoves(c, r, account);
    } else if r.GeneratePayroll? {
      PayrollMoves(c, r, account);
    } else if r.RunDepreciation? {
      DepreciationMoves(c, r, account);
    } else {
      OthersMoveNothing(c, r);
    }
  }

  // ---------------------------------------------------------------- lines that leave an account alone

  lemma NoneOfThese(lines: seq<Line>, account: string)
    requires forall l :: l in lines ==> l.account != account
    ensures OnAccount(lines, account) == 0
  {
    OtherAccounts(lines, account);
  }

  lemma SaleLinesElsewhere(invoice: Sales.Invoice, codes: Sales.Codes, account: string)
    requires account !in {codes.receivable, codes.revenue, codes.vat}
    ensures OnAccount(Sales.InvoiceLines(invoice, codes), account) == 0
  {
    NoneOfThese(Sales.InvoiceLines(invoice, codes), account);
  }

  lemma BillLinesElsewhere(bill: Purchases.Bill, vatLine: bool, codes: Purchases.Codes, account: string)
    requires account !in {codes.expense, codes.vat, codes.payable}
    ensures OnAccount(Purchases.BillLines(bill, vatLine, codes), account) == 0
  {
    NoneOfThese(Purchases.BillLines(bill, vatLine, codes), account);
  }

  lemma PaymentsElsewhere(amount: nat, bank: string, other: string, account: string)
    requires account != bank && account != other
    ensures OnAccount(Sales.ReceiptLines(amount, bank, other), account) == 0
    ensures OnAccount(Purchases.PaymentLines(amount, bank, other), account) == 0
  {
    NoneOfThese(Sales.ReceiptLines(amount, bank, other), account);
    NoneOfThese(Purchases.PaymentLines(amount, bank, other), account);
  }

  /** Depreciation and payroll post to other accounts. */
  predicate PeriodicElsewhere(r: Request, account: string)
  {
    && (r.RunDepreciation? && r.autoPost ==> account != r.expense && account != r.accumulated)
    && (r.GeneratePayroll? && r.autoPost ==> account !in Payroll.CodeSet(r.payCodes))
  }

  /** Manual entries, and the entries reversed, do not move the account. */
  predicate ManualElsewhere(c: Company, r: Request, account: string)
  {
    && (r.CreateEntry? ==> OnAccount(Stored(r.entryLines, r.parts), account) == 0)
    && (r.StornoEntry? && r.id < |c.journal.entries| ==> OnAccount(c.journal.entries[r.id].lines, account) == 0)
  }

  lemma ElsewhereMovesNothing(c: Company, r: Request, account: string)
    requires Execute(c, r).Ok? && PeriodicElsewhere(r, account) && ManualElsewhere(c, r, account)
    requires !r.CreateInvoice? && !r.PayInvoice? && !r.CreateBill? && !r.PayBill? && !r.ReconcileLine?
    ensures Movement(c, r, account) == 0
  {
    hide OnAccount, Depreciation.RunAll, Depreciation.TotalAccumulated, Payroll.Totals, Payroll.PayLines;
    if r.RunDepreciation? && r.autoPost {
      NoneOfThese(DepreciationLines(DepreciationTotal(c, r.name), r.expense, r.accumulated), account);
    } else if r.GeneratePayroll? && r.autoPost {
      PayrollElsewhere(Payroll.Totals(Payroll.PayLines(c.employees)), r.payCodes, account);
    } else if r.StornoEntry? {
      StornoInRange(c, r);
    }
  }

  lemma StornoInRange(c: Company, r: Request)
    requires r.StornoEntry? && Execute(c, r).Ok?
    ensures r.id < |c.journal.entries|
  {
    hide Insert;
  }

  lemma PayrollElsewhere(totals: Payroll.Pay, codes: Payroll.Codes, account: string)
    requires account !in Payroll.CodeSet(codes)
    ensures OnAccount(Payroll.JournalLines(totals, codes), account) == 0
  {
    NoneOfThese(Payroll.JournalLines(totals, codes), account);
  }

  // ---------------------------------------------------------------- payables

  /**
    Supplier invoices and their payments are auto-posted to one payable code, which is neither their expense, VAT
    nor bank code; nothing else is posted to it.
  */
  predicate PayablesOn(c: Company, r: Request, payable: string)
  {
    && PeriodicElsewhere(r, payable) && ManualElsewhere(c, r, payable)
    && (r.CreateInvoice? && AutoPosted(r.kind, r.autoPost) ==>
          payable !in {r.saleCodes.receivable, r.saleCodes.revenue, r.saleCodes.vat})
    && (r.PayInvoice? && r.autoPost ==> payable != r.bank && payable != r.receivable)
    && (r.CreateBill? ==>
          r.autoPost && r.billCodes.payable == payable && payable !in {r.billCodes.expense, r.billCodes.vat})
    && (r.PayBill? ==> r.autoPost && r.payable == payable && r.bank != payable)
    && (r.ReconcileLine? && r.target.SupplierInvoice? ==> r.autoPost && r.payable == payable && r.bank != payable)
    && (r.ReconcileLine? && r.target.CustomerInvoice? && r.autoPost ==> payable != r.bank && payable != r.receivable)
  }

  /** Credit minus debit on the payable account is what is open on the supplier invoices. */
  predicate PayablesAgree(c: Company, payable: string)
  {
    -AccountBalance(c.journal.entries, payable) == OpenIn(c.bills, EVERYTHING)
  }

  lemma {:induction false} OpenReplaced(bills: seq<Purchases.Bill>, id: nat, bill: Purchases.Bill)
    requires id < |bills|
    ensures OpenIn(bills[id := bill], EVERYTHING) == OpenIn(bills, EVERYTHING) - OpenOf(bills[id]) + OpenOf(bill)
  {
    var n := |bills| - 1;
    if id < n {
      OpenReplaced(bills[..n], id, bill);
      assert bills[id := bill][..n] == bills[..n][id := bill];
    } else {
      assert bills[id := bill][..n] == bills[..n];
    }
  }

  /** A payment takes its amount off what is open. */
  lemma BillPaid(bills: seq<Purchases.Bill>, id: nat, p: Payment)
    requires id < |bills| && p.amount <= Open(bills[id].total, bills[id].payments)
    ensures OpenIn(bills[id := Purchases.Settle(bills[id], p)], EVERYTHING) == OpenIn(bills, EVERYTHING) - p.amount
  {
    PaidAppend(bills[id].payments, p);
    hide Paid;
    OpenReplaced(bills, id, Purchases.Settle(bills[id], p));
  }

  lemma BillAdds(c: Company, r: Request)
    requires r.CreateBill? && Execute(c, r).Ok?
    ensures var after := Execute(c, r).value.bills;
      |after| == |c.bills| + 1 && after == c.bills + [after[|c.bills|]]
      && after[|c.bills|].payments == [] && after[|c.bills|].total >= 0
  {
    Purchases.NewBillInvariant(c.suppliers, r.number, r.supplier, r.date, r.due, r.subtotal, r.vat, r.parts);
    BillStartsUnpaid(c, r);
    hide Purchases.NewBill, Purchases.BillLines, Known, CurrentPeriod, Posted, Purchases.ChainInvariant,
         Purchases.PaidAfterApproval;
  }

  lemma BillReceived(c: Company, r: Request, payable: string)
    requires r.CreateBill? && Execute(c, r).Ok? && PayablesOn(c, r, payable)
    ensures OpenIn(Execute(c, r).value.bills, EVERYTHING) == OpenIn(c.bills, EVERYTHING) - Movement(c, r, payable)
  {
    BillAdds(c, r);
    var bill := Execute(c, r).value.bills[|c.bills|];
    Purchases.BillLinesSums(bill, r.vat > 0, r.billCodes);
    hide Execute, OpenIn, OnAccount, Purchases.BillLines, ManualElsewhere, PeriodicElsewhere;
    OpenAppend(c.bills, bill, EVERYTHING);
    assert Paid([]) == 0;
  }

  lemma BillPaymentMoves(c: Company, r: Request, payable: string)
    requires Execute(c, r).Ok? && PayablesOn(c, r, payable)
    requires r.PayBill? || (r.ReconcileLine? && r.target.SupplierInvoice?)
    ensures OpenIn(Execute(c, r).value.bills, EVERYTHING) == OpenIn(c.bills, EVERYTHING) - Movement(c, r, payable)
  {
    hide OpenIn, OnAccount, Purchases.Pay, Purchases.Reconcile, Purchases.PaymentLines, Known, CurrentPeriod, Posted,
         Purchases.Settle, Open;
    if r.PayBill? {
      BillSettled(c.bills, r.id, Payment(r.amount, None), Purchases.Pay(c.bills[r.id], r.amount));
      BillPaid(c.bills, r.id, Payment(r.amount, None));
      Purchases.PaymentLinesBalance(r.amount, r.bank, payable);
    } else {
      var amount := Sales.Abs(c.lines[r.id].amount);
      BillSettled(c.bills, r.target.id, Payment(amount, Some(r.id)),
                  Purchases.Reconcile(c.bills[r.target.id], amount, r.id));
      BillPaid(c.bills, r.target.id, Payment(amount, Some(r.id)));
      Purchases.PaymentLinesBalance(amount, r.bank, payable);
    }
  }

  lemma DecisionOpensNothing(c: Company, r: Request)
    requires Execute(c, r).Ok? && (r.ApproveBill? || r.RejectBill?)
    ensures OpenIn(Execute(c, r).value.bills, EVERYTHING) == OpenIn(c.bills, EVERYTHING)
  {
    DecisionKeepsAmounts(c.bills[r.id], c.team, r.actor, r.now);
    hide OpenIn, Purchases.Approve, Purchases.Reject;
    OpenReplaced(c.bills, r.id, Execute(c, r).value.bills[r.id]);
  }

  lemma DecisionKeepsAmounts(bill: Purchases.Bill, team: Purchases.Team, actor: Purchases.Actor, now: int)
    ensures var approved, rejected :=
              Purchases.Approve(bill, team, actor, now), Purchases.Reject(bill, team, actor, now);
      && (approved.Ok? ==> OpenOf(approved.value) == OpenOf(bill))
      && (rejected.Ok? ==> OpenOf(rejected.value) == OpenOf(bill))
  {
  }

  lemma InRange(c: Company, r: Request)
    requires Execute(c, r).Ok?
    ensures r.CreateInvoice? ==> |Execute(c, r).value.invoices| == |c.invoices| + 1
    ensures r.CreateBill? ==> |Execute(c, r).value.bills| == |c.bills| + 1
    ensures r.ReconcileLine? ==> r.id < |c.lines|
  {
    hide Posted, Sales.NewInvoice, Purchases.NewBill, Known, CurrentPeriod, ReconcileCustomer, ReconcileSupplier;
  }

  lemma SalesLeavePayables(c: Company, r: Request, payable: string)
    requires Execute(c, r).Ok? && PayablesOn(c, r, payable)
    requires r.CreateInvoice? || r.PayInvoice? || (r.ReconcileLine? && r.target.CustomerInvoice?)
    ensures Movement(c, r, payable) == 0
  {
    InRange(c, r);
    hide Execute, OnAccount, Sales.InvoiceLines, Sales.ReceiptLines;
    if r.CreateInvoice? {
      if AutoPosted(r.kind, r.autoPost) {
        SaleLinesElsewhere(Execute(c, r).value.invoices[|c.invoices|], r.saleCodes, payable);
      }
    } else if r.autoPost {
      var amount := if r.PayInvoice? then r.amount else Sales.Abs(c.lines[r.id].amount);
      PaymentsElsewhere(amount, r.bank, r.receivable, payable);
    }
  }

  lemma PayablesStep(c: Company, r: Request, payable: string)
    requires PayablesAgree(c, payable) && PayablesOn(c, r, payable)
    ensures PayablesAgree(After(c, r), payable)
  {
    hide Execute, AccountBalance, OpenIn, Movement;
    if Execute(c, r).Ok? {
      EveryRequestMoves(c, r, payable);
      if r.CreateBill? {
        BillReceived(c, r, payable);
      } else if r.PayBill? || (r.ReconcileLine? && r.target.SupplierInvoice?) {
        BillPaymentMoves(c, r, payable);
      } else if r.ApproveBill? || r.RejectBill? {
        DecisionOpensNothing(c, r);
        ElsewhereMovesNothing(c, r, payable);
      } else {
        BillsUntouched(c, r);
        if r.CreateInvoice? || r.PayInvoice? || r.ReconcileLine? {
          SalesLeavePayables(c, r, payable);
        } else {
          ElsewhereMovesNothing(c, r, payable);
        }
      }
    }
  }

  /** Over every run that posts supplier documents to one payable code, that account agrees with what is open. */
  lemma {:induction false} PayablesControl(requests: seq<Request>, payable: string)
    requires forall n :: 0 <= n < |requests| ==> PayablesOn(Run(requests[..n]), requests[n], payable)
    ensures PayablesAgree(Run(requests), payable)
  {
    if requests != [] {
      var front, last := requests[..|requests| - 1], requests[|requests| - 1];
      forall n | 0 <= n < |front| ensures PayablesOn(Run(front[..n]), front[n], payable) {
        assert front[..n] == requests[..n];
      }
      hide After, PayablesOn, PayablesAgree;
      PayablesControl(front, payable);
      PayablesStep(Run(front), last, payable);
    }
  }

  /** The dashboard's total, and the sum of its supplier rows, is the balance of the payable account. */
  method DashboardOfRun(ghost requests: seq<Request>, bills: seq<Purchases.Bill>, ghost payable: string, asOf: int,
                        until: int)
    returns (totals: Totals, table: Table)
    requires forall n :: 0 <= n < |requests| ==> PayablesOn(Run(requests[..n]), requests[n], payable)
    requires multiset(bills) == multiset(Listed(Run(requests).bills))
    ensures totals == TotalsOf(bills, asOf, until) && RowsDescribe(table, bills, asOf)
    ensures totals.open == -AccountBalance(Run(requests).journal.entries, payable)
    ensures RowsAddUpTo(table, totals.open)
  {
    totals, table := Dashboard(bills, asOf, until);
    PayablesControl(requests, payable);
    EveryRunKeepsBills(requests);
    hide Run, OpenIn, AccountBalance, Listed, RowsDescribe, RowsAddUpTo;
    ghost var all := Run(requests).bills;
    OrderIrrelevant(bills, Listed(all), EVERYTHING);
    AllSoundlyPaid(all);
    ListedHoldsAllOpen(all);
    TotalsOpen(bills, asOf, until);
  }

  lemma AllSoundlyPaid(bills: seq<Purchases.Bill>)
    requires BillsSound(bills)
    ensures forall b :: b in bills ==> Purchases.PaymentInvariant(b)
  {
    hide Purchases.PaymentInvariant, Purchases.ChainInvariant, Purchases.PaidAfterApproval;
    forall b | b in bills ensures Purchases.PaymentInvariant(b) {
      var i :| 0 <= i < |bills| && bills[i] == b;
      assert Purchases.BillInvariant(bills[i]);
    }
  }

  // ---------------------------------------------------------------- receivables

  /** What an invoice contributes to the receivable account: a proforma is never posted but can be paid. */
  function Receivable(invoice: Sales.Invoice): int
  {
    (if invoice.kind == Sales.PROFORMA then 0 else invoice.total) - Paid(invoice.payments)
  }

  function ReceivableIn(invoices: seq<Sales.Invoice>): int
  {
    if invoices == [] then 0
    else ReceivableIn(invoices[..|invoices| - 1]) + Receivable(invoices[|invoices| - 1])
  }

  predicate ReceivablesOn(c: Company, r: Request, receivable: string)
  {
    && PeriodicElsewhere(r, receivable) && ManualElsewhere(c, r, receivable)
    && (r.CreateInvoice? ==> (r.autoPost || r.kind == Sales.PROFORMA) && r.saleCodes.receivable == receivable
                             && receivable !in {r.saleCodes.revenue, r.saleCodes.vat})
    && (r.PayInvoice? ==> r.autoPost && r.receivable == receivable && r.bank != receivable)
    && (r.CreateBill? && r.autoPost ==>
          receivable !in {r.billCodes.expense, r.billCodes.vat, r.billCodes.payable})
    && (r.PayBill? && r.autoPost ==> receivable != r.bank && receivable != r.payable)
    && (r.ReconcileLine? && r.target.CustomerInvoice? ==>
          r.autoPost && r.receivable == receivable && r.bank != receivable)
    && (r.ReconcileLine? && r.target.SupplierInvoice? && r.autoPost ==> receivable != r.bank && receivable != r.payable)
  }

  predicate ReceivablesAgree(c: Company, receivable: string)
  {
    AccountBalance(c.journal.entries, receivable) == ReceivableIn(c.invoices)
  }

  lemma {:induction false} ReceivableReplaced(invoices: seq<Sales.Invoice>, id: nat, invoice: Sales.Invoice)
    requires id < |invoices|
    ensures ReceivableIn(invoices[id := invoice])
              == ReceivableIn(invoices) - Receivable(invoices[id]) + Receivable(invoice)
  {
    var n := |invoices| - 1;
    if id < n {
      ReceivableReplaced(invoices[..n], id, invoice);
      assert invoices[id := invoice][..n] == invoices[..n][id := invoice];
    } else {
      assert invoices[id := invoice][..n] == invoices[..n];
    }
  }

  lemma InvoicePaid(invoices: seq<Sales.Invoice>, id: nat, p: Payment)
    requires id < |invoices|
    ensures ReceivableIn(invoices[id := Sales.Settle(invoices[id], p)]) == ReceivableIn(invoices) - p.amount
  {
    PaidAppend(invoices[id].payments, p);
    hide Paid;
    ReceivableReplaced(invoices, id, Sales.Settle(invoices[id], p));
  }

  lemma SettledByRoute(invoice: Sales.Invoice, amount: nat, line: nat)
    ensures Sales.Pay(invoice, amount).Ok? ==>
              Sales.Pay(invoice, amount).value == Sales.Settle(invoice, Payment(amount, None))
    ensures Sales.Reconcile(invoice, amount, line).Ok? ==>
              Sales.Reconcile(invoice, amount, line).value == Sales.Settle(invoice, Payment(amount, Some(line)))
  {
    hide Sales.Settle, Open;
  }

  lemma ReceiptMoves(c: Company, r: Request, receivable: string)
    requires Execute(c, r).Ok? && ReceivablesOn(c, r, receivable)
    requires r.PayInvoice? || (r.ReconcileLine? && r.target.CustomerInvoice?)
    ensures ReceivableIn(Execute(c, r).value.invoices) == ReceivableIn(c.invoices) + Movement(c, r, receivable)
  {
    hide ReceivableIn, OnAccount, Sales.Pay, Sales.Reconcile, Sales.ReceiptLines, Known, CurrentPeriod, Posted,
         Sales.Settle;
    if r.PayInvoice? {
      SettledByRoute(c.invoices[r.id], r.amount, 0);
      InvoicePaid(c.invoices, r.id, Payment(r.amount, None));
      Sales.ReceiptLinesBalance(r.amount, r.bank, receivable);
    } else {
      var amount := Sales.Abs(c.lines[r.id].amount);
      SettledByRoute(c.invoices[r.target.id], amount, r.id);
      InvoicePaid(c.invoices, r.target.id, Payment(amount, Some(r.id)));
      Sales.ReceiptLinesBalance(amount, r.bank, receivable);
    }
  }

  lemma InvoiceIssued(c: Company, r: Request, receivable: string)
    requires r.CreateInvoice? && Execute(c, r).Ok? && ReceivablesOn(c, r, receivable)
    ensures ReceivableIn(Execute(c, r).value.invoices) == ReceivableIn(c.invoices) + Movement(c, r, receivable)
  {
    var invoice := Sales.NewInvoice(c.invoices, c.partners, r.number, r.kind, r.stornoOf, r.details, r.date).value;
    Sales.NewInvoiceInvariant(c.invoices, c.partners, r.number, r.kind, r.stornoOf, r.details, r.date);
    assert invoice.kind == r.kind;
    Sales.InvoiceLinesBalance(invoice, r.saleCodes);
    assert (c.invoices + [invoice])[..|c.invoices|] == c.invoices;
    assert ReceivableIn(c.invoices + [invoice]) == ReceivableIn(c.invoices) + Receivable(invoice);
    hide ReceivableIn, OnAccount, Sales.NewInvoice, Sales.InvoiceLines, Sales.InvoiceInvariant, Known, CurrentPeriod,
         Posted;
    assert Paid([]) == 0;
  }

  lemma PurchasesLeaveReceivables(c: Company, r: Request, receivable: string)
    requires Execute(c, r).Ok? && ReceivablesOn(c, r, receivable)
    requires r.CreateBill? || r.PayBill? || (r.ReconcileLine? && r.target.SupplierInvoice?)
    ensures Movement(c, r, receivable) == 0
  {
    InRange(c, r);
    hide Execute, OnAccount, Purchases.BillLines, Purchases.PaymentLines;
    if r.CreateBill? {
      if r.autoPost {
        BillLinesElsewhere(Execute(c, r).value.bills[|c.bills|], r.vat > 0, r.billCodes, receivable);
      }
    } else if r.autoPost {
      var amount := if r.PayBill? then r.amount else Sales.Abs(c.lines[r.id].amount);
      PaymentsElsewhere(amount, r.bank, r.payable, receivable);
    }
  }

  lemma ReceivablesStep(c: Company, r: Request, receivable: string)
    requires ReceivablesAgree(c, receivable) && ReceivablesOn(c, r, receivable)
    ensures ReceivablesAgree(After(c, r), receivable)
  {
    hide Execute, AccountBalance, ReceivableIn, Movement;
    if Execute(c, r).Ok? {
      EveryRequestMoves(c, r, receivable);
      if r.CreateInvoice? {
        InvoiceIssued(c, r, receivable);
      } else if r.PayInvoice? || (r.ReconcileLine? && r.target.CustomerInvoice?) {
        ReceiptMoves(c, r, receivable);
      } else {
        InvoicesUntouched(c, r);
        if r.CreateBill? || r.PayBill? || r.ReconcileLine? {
          PurchasesLeaveReceivables(c, r, receivable);
        } else {
          ElsewhereMovesNothing(c, r, receivable);
        }
      }
    }
  }

  /**
    Over every run that posts sales documents to one receivable code, that account is what is open on fiscal invoices,
    less credit notes and less what was paid on proformas.
  */
  lemma {:induction false} ReceivablesControl(requests: seq<Request>, receivable: string)
    requires forall n :: 0 <= n < |requests| ==> ReceivablesOn(Run(requests[..n]), requests[n], receivable)
    ensures ReceivablesAgree(Run(requests), receivable)
  {
    if requests != [] {
      var front, last := requests[..|requests| - 1], requests[|requests| - 1];
      forall n | 0 <= n < |front| ensures ReceivablesOn(Run(front[..n]), front[n], receivable) {
        assert front[..n] == requests[..n];
      }
      hide After, ReceivablesOn, ReceivablesAgree;
      ReceivablesControl(front, receivable);
      ReceivablesStep(Run(front), last, receivable);
    }
  }
}
