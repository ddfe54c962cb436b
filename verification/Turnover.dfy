/** What every request posts, amount by amount, and what that makes of the revenue, expense and VAT accounts. */
module Turnover {
  import opened Results
  import opened Rounding
  import opened Calendar
  import opened Postings
  import opened Ledger
  import opened Books
  import opened BooksDocuments
  import opened ControlAccounts
  import Sales
  import Purchases
  import Payroll
  import Depreciation

  // ---------------------------------------------------------------- what a request posts

  /** Subtotal and VAT of the invoice a request makes: its own, or those of the source of a credit note negated. */
  function SaleAmounts(c: Company, r: Request): (int, int)
    requires r.CreateInvoice? && Execute(c, r).Ok?
  {
    InvoiceInRange(c, r);
    if r.kind == Sales.STORNO
    then (-c.invoices[r.stornoOf.value].subtotal, -c.invoices[r.stornoOf.value].vat)
    else (r.details.value.subtotal, r.details.value.vat)
  }

  lemma InvoiceInRange(c: Company, r: Request)
    requires r.CreateInvoice? && Execute(c, r).Ok?
    ensures if r.kind == Sales.STORNO then r.stornoOf.Some? && r.stornoOf.value < |c.invoices| else r.details.Some?
  {
    hide Posted, Sales.InvoiceLines, Known, CurrentPeriod;
  }

  lemma InvoiceMade(c: Company, r: Request)
    requires InvoicesSound(c.invoices) && r.CreateInvoice? && Execute(c, r).Ok?
    ensures var after := Execute(c, r).value.invoices;
      && |after| == |c.invoices| + 1 && after[..|c.invoices|] == c.invoices
      && var made := after[|c.invoices|];
         && made.number == r.number && made.kind == r.kind && made.stornoOf == r.stornoOf && made.payments == []
         && (made.subtotal, made.vat) == SaleAmounts(c, r) && Sales.InvoiceInvariant(made)
  {
    Sales.NewInvoiceAmounts(c.invoices, c.partners, r.number, r.kind, r.stornoOf, r.details, r.date);
    Sales.NewInvoiceInvariant(c.invoices, c.partners, r.number, r.kind, r.stornoOf, r.details, r.date);
    hide Posted, Sales.InvoiceLines, Known, CurrentPeriod, Sales.NewInvoice, Sales.InvoiceInvariant;
  }

  lemma InvoiceMoves(c: Company, r: Request, account: string)
    requires InvoicesSound(c.invoices) && r.CreateInvoice? && Execute(c, r).Ok?
    ensures var (subtotal, vat) := SaleAmounts(c, r);
      Movement(c, r, account) ==
        if r.autoPost && r.kind != Sales.PROFORMA
        then At(account, r.saleCodes.receivable, subtotal + vat) - At(account, r.saleCodes.revenue, subtotal)
             - At(account, r.saleCodes.vat, vat)
        else 0
  {
    InvoiceMade(c, r);
    hide Execute, OnAccount, Sales.InvoiceLines, Sales.InvoiceInvariant, At;
    Sales.InvoicePosts(Execute(c, r).value.invoices[|c.invoices|], r.saleCodes, account);
  }

  lemma BillMade(c: Company, r: Request)
    requires r.CreateBill? && Execute(c, r).Ok?
    ensures var after := Execute(c, r).value.bills;
      && |after| == |c.bills| + 1 && after[..|c.bills|] == c.bills
      && var made := after[|c.bills|];
         && made.number == r.number && made.supplier == r.supplier && made.due == r.due && made.payments == []
         && made.subtotal == RoundDiv(r.subtotal, r.parts) && made.vat == RoundDiv(r.vat, r.parts)
         && made.total == RoundDiv(r.subtotal + r.vat, r.parts) && (r.vat <= 0 ==> made.vat == 0)
  {
    Purchases.NewBillAmounts(c.suppliers, r.number, r.supplier, r.date, r.due, r.subtotal, r.vat, r.parts);
    hide Posted, Purchases.BillLines, Known, CurrentPeriod, RoundDiv;
  }

  lemma BillMoves(c: Company, r: Request, account: string)
    requires r.CreateBill? && Execute(c, r).Ok?
    ensures Movement(c, r, account) ==
      if r.autoPost
      then At(account, r.billCodes.expense, RoundDiv(r.subtotal, r.parts))
           + At(account, r.billCodes.vat, RoundDiv(r.vat, r.parts))
           - At(account, r.billCodes.payable, RoundDiv(r.subtotal + r.vat, r.parts))
      else 0
  {
    BillMade(c, r);
    hide Execute, OnAccount, Purchases.BillLines, At, RoundDiv;
    Purchases.BillPosts(Execute(c, r).value.bills[|c.bills|], r.vat > 0, r.billCodes, account);
  }

  lemma PaymentMoves(c: Company, r: Request, account: string)
    requires Execute(c, r).Ok? && (r.PayInvoice? || r.PayBill?)
    ensures Movement(c, r, account) ==
      if !r.autoPost then 0
      else if r.PayInvoice? then At(account, r.bank, r.amount) - At(account, r.receivable, r.amount)
      else At(account, r.payable, r.amount) - At(account, r.bank, r.amount)
  {
    hide Execute, OnAccount, Sales.ReceiptLines, Purchases.PaymentLines, At;
    if r.PayInvoice? {
      Sales.ReceiptPosts(r.amount, r.bank, r.receivable, account);
    } else {
      Purchases.PaymentPosts(r.amount, r.bank, r.payable, account);
    }
  }

  /** A reconciled line moves its signed amount to the bank and off the account of its document. */
  lemma LineMoves(c: Company, r: Request, account: string)
    requires Execute(c, r).Ok? && r.ReconcileLine?
    ensures r.id < |c.lines|
    ensures Movement(c, r, account) ==
      if !r.autoPost then 0
      else
        At(account, r.bank, c.lines[r.id].amount)
        - At(account, if r.target.CustomerInvoice? then r.receivable else r.payable, c.lines[r.id].amount)
  {
    LineSign(c, r);
    hide Execute, OnAccount, Sales.ReceiptLines, Purchases.PaymentLines;
    var amount := Sales.Abs(c.lines[r.id].amount);
    Sales.ReceiptPosts(amount, r.bank, r.receivable, account);
    Purchases.PaymentPosts(amount, r.bank, r.payable, account);
  }

  lemma LineSign(c: Company, r: Request)
    requires Execute(c, r).Ok? && r.ReconcileLine?
    ensures r.id < |c.lines|
    ensures if r.target.CustomerInvoice? then c.lines[r.id].amount > 0 else c.lines[r.id].amount < 0
  {
    hide Posted, Sales.Reconcile, Sales.ReceiptLines, Purchases.Reconcile, Purchases.PaymentLines, Known,
         CurrentPeriod;
  }

  lemma AssetsRun(c: Company, r: Request)
    requires Execute(c, r).Ok? && r.RunDepreciation?
    ensures Execute(c, r).value.assets == Depreciation.RunAll(c.assets, r.name)
  {
    hide Posted, Depreciation.TotalAccumulated, DepreciationLines, ParsePeriod, Known;
  }

  lemma TotalMoves(c: Company, r: Request, account: string)
    requires Execute(c, r).Ok? && r.RunDepreciation?
    ensures var total := DepreciationTotal(c, r.name);
      Movement(c, r, account) ==
        if r.autoPost then At(account, r.expense, total) - At(account, r.accumulated, total) else 0
  {
    hide *;
    var total := DepreciationTotal(c, r.name);
    DepreciationMovement(c, r, account);
    DepreciationPosts(total, r.expense, r.accumulated, account);
    NothingAt(account, r.expense);
    NothingAt(account, r.accumulated);
  }

  lemma DepreciationMovement(c: Company, r: Request, account: string)
    requires Execute(c, r).Ok? && r.RunDepreciation?
    ensures Depreciation.RunAll(c.assets, r.name) == c.assets ==> DepreciationTotal(c, r.name) == 0
    ensures Movement(c, r, account) ==
      if Depreciation.RunAll(c.assets, r.name) == c.assets || !r.autoPost then 0
      else OnAccount(DepreciationLines(DepreciationTotal(c, r.name), r.expense, r.accumulated), account)
  {
    hide Execute, OnAccount, DepreciationLines, Depreciation.RunAll, Depreciation.TotalAccumulated;
  }

  /** A depreciation run posts what it adds to the accumulated depreciation of all assets. */
  lemma RunMoves(c: Company, r: Request, account: string)
    requires Execute(c, r).Ok? && r.RunDepreciation?
    ensures var added := Depreciation.TotalAccumulated(Execute(c, r).value.assets)
                           - Depreciation.TotalAccumulated(c.assets);
      Movement(c, r, account) ==
        if r.autoPost then At(account, r.expense, added) - At(account, r.accumulated, added) else 0
  {
    hide Execute, At, Movement, Depreciation.RunAll, Depreciation.TotalAccumulated;
    AssetsRun(c, r);
    TotalMoves(c, r, account);
  }

  lemma NothingAt(account: string, code: string)
    ensures At(account, code, 0) == 0
  {
  }

  lemma DepreciationPosts(total: int, expense: string, accumulated: string, account: string)
    ensures OnAccount(DepreciationLines(total, expense, accumulated), account)
         == At(account, expense, total) - At(account, accumulated, total)
  {
    SumsOfTwo(DepreciationLines(total, expense, accumulated));
    hide Debits, Credits, OnAccount;
  }

  lemma PayrollMade(c: Company, r: Request)
    requires Execute(c, r).Ok? && r.GeneratePayroll?
    ensures r.name !in c.payrolls && r.name in Execute(c, r).value.payrolls
    ensures var run := Execute(c, r).value.payrolls[r.name];
      run.lines == Payroll.PayLines(c.employees) && run.totals == Payroll.Totals(run.lines) && run.posted == r.autoPost
  {
    hide Posted, Payroll.Totals, Payroll.PayLines, Payroll.JournalLines, ParsePeriod, Known;
  }

  /** A payroll posts the totals it stores. */
  lemma PayrollPostsTotals(c: Company, r: Request, account: string)
    requires Execute(c, r).Ok? && r.GeneratePayroll?
    ensures r.name in Execute(c, r).value.payrolls
    ensures var t, codes := Execute(c, r).value.payrolls[r.name].totals, r.payCodes;
      Movement(c, r, account) ==
        if r.autoPost
        then At(account, codes.expense, t.gross) + At(account, codes.camExpense, t.cam)
             - At(account, codes.payable, t.net) - At(account, codes.cas, t.cas) - At(account, codes.cass, t.cass)
             - At(account, codes.cam, t.cam) - At(account, codes.tax, t.tax)
        else 0
  {
    PayrollMade(c, r);
    hide Execute, OnAccount, Payroll.Totals, Payroll.PayLines, Payroll.JournalLines, At, Movement;
    PayrollMovement(c, r, account);
    Payroll.TotalsAddUp(c.employees);
    Payroll.PayrollPosts(Payroll.Totals(Payroll.PayLines(c.employees)), r.payCodes, account);
  }

  lemma PayrollMovement(c: Company, r: Request, account: string)
    requires Execute(c, r).Ok? && r.GeneratePayroll?
    ensures Movement(c, r, account) ==
      if r.autoPost
      then OnAccount(Payroll.JournalLines(Payroll.Totals(Payroll.PayLines(c.employees)), r.payCodes), account) else 0
  {
    hide Execute, OnAccount, Payroll.JournalLines, Payroll.Totals, Payroll.PayLines;
  }

  // ---------------------------------------------------------------- when and where it is posted

  /** The date and period of the entry a successful request posts of itself, if it posts one. */
  function PostingOf(c: Company, r: Request): Option<(Date, string)>
  {
    match r
    case CreateInvoice(_, kind, _, _, date, autoPost, _) =>
      if autoPost && kind != Sales.PROFORMA then Some((date, CurrentPeriod(date))) else None
    case PayInvoice(_, date, _, autoPost, _, _) => if autoPost then Some((date, CurrentPeriod(date))) else None
    case CreateBill(_, _, date, _, _, _, _, autoPost, _) =>
      if autoPost then Some((date, CurrentPeriod(date))) else None
    case PayBill(_, date, _, autoPost, _, _) => if autoPost then Some((date, CurrentPeriod(date))) else None
    case ReconcileLine(id, _, autoPost, _, _, _) =>
      if autoPost && id < |c.lines| then Some((c.lines[id].date, CurrentPeriod(c.lines[id].date))) else None
    case RunDepreciation(name, runDate, autoPost, _, _) =>
      if autoPost && Depreciation.RunAll(c.assets, name) != c.assets && ParsePeriod(name).Ok?
      then Some((if runDate.Some? then runDate.value else EndOf(name), name)) else None
    case GeneratePayroll(name, date, autoPost, _) => if autoPost then Some((date, name)) else None
    case _ => None
  }

  /** One validated entry more, of that date and period; without one the journal is as it was. */
  predicate PostedAs(j: Journal, after: Journal, posting: Option<(Date, string)>)
  {
    if posting.None? then after == j
    else
      && |after.entries| == |j.entries| + 1
      && Appended(j, after, posting.value.0, posting.value.1, VALIDATED, true, None, after.entries[|j.entries|].lines)
  }

  lemma PostedOnDate(j: Journal, autoPost: bool, date: Date, period: string, lines: seq<Line>)
    requires Posted(j, autoPost, date, period, lines).Ok?
    ensures PostedAs(j, Posted(j, autoPost, date, period, lines).value, if autoPost then Some((date, period)) else None)
  {
    hide Insert;
    if autoPost {
      InsertAppends(j, date, period, VALIDATED, true, None, lines);
    }
  }

  lemma SalePosted(c: Company, r: Request)
    requires Execute(c, r).Ok? && (r.CreateInvoice? || r.PayInvoice?)
    ensures PostedAs(c.journal, Execute(c, r).value.journal, PostingOf(c, r))
  {
    hide Posted, PostedAs, Known, Sales.NewInvoice, Sales.Pay, Sales.InvoiceLines, Sales.ReceiptLines, CurrentPeriod;
    if r.CreateInvoice? {
      var made := Sales.NewInvoice(c.invoices, c.partners, r.number, r.kind, r.stornoOf, r.details, r.date);
      PostedOnDate(c.journal, AutoPosted(r.kind, r.autoPost), r.date, CurrentPeriod(r.date),
                   Sales.InvoiceLines(made.value, r.saleCodes));
    } else {
      PostedOnDate(c.journal, r.autoPost, r.date, CurrentPeriod(r.date),
                   Sales.ReceiptLines(r.amount, r.bank, r.receivable));
    }
  }

  lemma PurchasePosted(c: Company, r: Request)
    requires Execute(c, r).Ok? && (r.CreateBill? || r.PayBill?)
    ensures PostedAs(c.journal, Execute(c, r).value.journal, PostingOf(c, r))
  {
    hide Posted, PostedAs, Known, Purchases.NewBill, Purchases.Pay, Purchases.BillLines, Purchases.PaymentLines,
         CurrentPeriod;
    if r.CreateBill? {
      var made := Purchases.NewBill(c.suppliers, r.number, r.supplier, r.date, r.due, r.subtotal, r.vat, r.parts);
      PostedOnDate(c.journal, r.autoPost, r.date, CurrentPeriod(r.date),
                   Purchases.BillLines(made.value, r.vat > 0, r.billCodes));
    } else {
      PostedOnDate(c.journal, r.autoPost, r.date, CurrentPeriod(r.date),
                   Purchases.PaymentLines(r.amount, r.bank, r.payable));
    }
  }

  lemma LinePosted(c: Company, r: Request)
    requires Execute(c, r).Ok? && r.ReconcileLine?
    ensures PostedAs(c.journal, Execute(c, r).value.journal, PostingOf(c, r))
  {
    hide Posted, PostedAs, Known, Sales.Reconcile, Sales.ReceiptLines, Purchases.Reconcile, Purchases.PaymentLines,
         CurrentPeriod;
    var line := c.lines[r.id];
    var amount := Sales.Abs(line.amount);
    if r.target.CustomerInvoice? {
      PostedOnDate(c.journal, r.autoPost, line.date, CurrentPeriod(line.date),
                   Sales.ReceiptLines(amount, r.bank, r.receivable));
    } else {
      PostedOnDate(c.journal, r.autoPost, line.date, CurrentPeriod(line.date),
                   Purchases.PaymentLines(amount, r.bank, r.payable));
    }
  }

  lemma RunPosted(c: Company, r: Request)
    requires Execute(c, r).Ok? && r.RunDepreciation?
    ensures PostedAs(c.journal, Execute(c, r).value.journal, PostingOf(c, r))
  {
    hide Posted, Known, Depreciation.RunAll, Depreciation.TotalAccumulated, DepreciationLines, ParsePeriod, EndOf,
         Appended;
    var after := Depreciation.RunAll(c.assets, r.name);
    if after != c.assets {
      var total := Depreciation.TotalAccumulated(after) - Depreciation.TotalAccumulated(c.assets);
      PostedOnDate(c.journal, r.autoPost, if r.runDate.Some? then r.runDate.value else EndOf(r.name), r.name,
                   DepreciationLines(total, r.expense, r.accumulated));
    }
  }

  lemma PayrollPosted(c: Company, r: Request)
    requires Execute(c, r).Ok? && r.GeneratePayroll?
    ensures PostedAs(c.journal, Execute(c, r).value.journal, PostingOf(c, r))
  {
    hide Posted, PostedAs, Known, Payroll.Totals, Payroll.PayLines, Payroll.JournalLines, ParsePeriod;
    PostedOnDate(c.journal, r.autoPost, r.date, r.name,
                 Payroll.JournalLines(Payroll.Totals(Payroll.PayLines(c.employees)), r.payCodes));
  }

  /**
    A document, payment, reconciliation, depreciation run or payroll that posts appends one validated entry of its own
    date and period; if it does not post, and for a proforma, the journal stays as it is.
  */
  lemma PostsOneEntry(c: Company, r: Request)
    requires Execute(c, r).Ok?
    requires r.CreateInvoice? || r.PayInvoice? || r.CreateBill? || r.PayBill? || r.ReconcileLine? || r.RunDepreciation?
             || r.GeneratePayroll?
    ensures PostedAs(c.journal, Execute(c, r).value.journal, PostingOf(c, r))
  {
    hide Execute, PostedAs, PostingOf;
    if r.CreateInvoice? || r.PayInvoice? {
      SalePosted(c, r);
    } else if r.CreateBill? || r.PayBill? {
      PurchasePosted(c, r);
    } else if r.ReconcileLine? {
      LinePosted(c, r);
    } else if r.RunDepreciation? {
      RunPosted(c, r);
    } else {
      PayrollPosted(c, r);
    }
  }

  // ---------------------------------------------------------------- one column of the documents on one account

  datatype Column = Revenue | SalesVat | Expense | PurchaseVat

  predicate OfSales(column: Column)
  {
    column.Revenue? || column.SalesVat?
  }

  /** What an invoice adds to the column: a proforma is never posted. */
  function SaleIn(column: Column, invoice: Sales.Invoice): int
  {
    if invoice.kind == Sales.PROFORMA then 0
    else match column
      case Revenue => invoice.subtotal
      case SalesVat => invoice.vat
      case _ => 0
  }

  function BillIn(column: Column, bill: Purchases.Bill): int
  {
    match column
    case Expense => bill.subtotal
    case PurchaseVat => bill.vat
    case _ => 0
  }

  function SalesTotal(column: Column, invoices: seq<Sales.Invoice>): int
  {
    if invoices == [] then 0
    else SalesTotal(column, invoices[..|invoices| - 1]) + SaleIn(column, invoices[|invoices| - 1])
  }

  function BillsTotal(column: Column, bills: seq<Purchases.Bill>): int
  {
    if bills == [] then 0 else BillsTotal(column, bills[..|bills| - 1]) + BillIn(column, bills[|bills| - 1])
  }

  /**
    Documents of the column's side are auto-posted with this account as its code and no other code of theirs; nothing
    else is posted to it.
  */
  predicate PostsOnly(c: Company, r: Request, column: Column, account: string)
  {
    && PeriodicElsewhere(r, account) && ManualElsewhere(c, r, account)
    && (r.CreateInvoice? && OfSales(column) ==>
          && (r.autoPost || r.kind == Sales.PROFORMA) && account != r.saleCodes.receivable
          && (account == r.saleCodes.revenue <==> column == Revenue)
          && (account == r.saleCodes.vat <==> column == SalesVat))
    && (r.CreateInvoice? && !OfSales(column) && r.autoPost ==>
          account !in {r.saleCodes.receivable, r.saleCodes.revenue, r.saleCodes.vat})
    && (r.CreateBill? && !OfSales(column) ==>
          && r.autoPost && account != r.billCodes.payable
          && (account == r.billCodes.expense <==> column == Expense)
          && (account == r.billCodes.vat <==> column == PurchaseVat))
    && (r.CreateBill? && OfSales(column) && r.autoPost ==>
          account !in {r.billCodes.expense, r.billCodes.vat, r.billCodes.payable})
    && (r.PayInvoice? && r.autoPost ==> account != r.bank && account != r.receivable)
    && (r.PayBill? && r.autoPost ==> account != r.bank && account != r.payable)
    && (r.ReconcileLine? && r.autoPost ==>
          account != r.bank && account != if r.target.CustomerInvoice? then r.receivable else r.payable)
  }

  /** Sales are credited, purchases debited. */
  predicate ColumnAgrees(c: Company, column: Column, account: string)
  {
    AccountBalance(c.journal.entries, account) == BillsTotal(column, c.bills) - SalesTotal(column, c.invoices)
  }

  lemma {:induction false} SalesKept(column: Column, before: seq<Sales.Invoice>, after: seq<Sales.Invoice>)
    requires |after| == |before|
    requires forall i :: 0 <= i < |before| ==> SaleIn(column, after[i]) == SaleIn(column, before[i])
    ensures SalesTotal(column, after) == SalesTotal(column, before)
  {
    if before != [] {
      SalesKept(column, before[..|before| - 1], after[..|after| - 1]);
    }
  }

  lemma {:induction false} BillsKept(column: Column, before: seq<Purchases.Bill>, after: seq<Purchases.Bill>)
    requires |after| == |before|
    requires forall i :: 0 <= i < |before| ==> BillIn(column, after[i]) == BillIn(column, before[i])
    ensures BillsTotal(column, after) == BillsTotal(column, before)
  {
    if before != [] {
      BillsKept(column, before[..|before| - 1], after[..|after| - 1]);
    }
  }

  lemma SalesWith(column: Column, before: seq<Sales.Invoice>, after: seq<Sales.Invoice>)
    requires |after| == |before| + 1 && after[..|before|] == before
    ensures SalesTotal(column, after) == SalesTotal(column, before) + SaleIn(column, after[|before|])
  {
  }

  lemma BillsWith(column: Column, before: seq<Purchases.Bill>, after: seq<Purchases.Bill>)
    requires |after| == |before| + 1 && after[..|before|] == before
    ensures BillsTotal(column, after) == BillsTotal(column, before) + BillIn(column, after[|before|])
  {
  }

  lemma DecisionKeepsAmounts(bill: Purchases.Bill, team: Purchases.Team, actor: Purchases.Actor, now: int,
                             column: Column)
    ensures var approved, rejected :=
              Purchases.Approve(bill, team, actor, now), Purchases.Reject(bill, team, actor, now);
      && (approved.Ok? ==> BillIn(column, approved.value) == BillIn(column, bill))
      && (rejected.Ok? ==> BillIn(column, rejected.value) == BillIn(column, bill))
  {
  }

  lemma PaymentKeepsAmounts(bill: Purchases.Bill, amount: nat, line: nat, column: Column)
    ensures var paid, reconciled := Purchases.Pay(bill, amount), Purchases.Reconcile(bill, amount, line);
      && (paid.Ok? ==> BillIn(column, paid.value) == BillIn(column, bill))
      && (reconciled.Ok? ==> BillIn(column, reconciled.value) == BillIn(column, bill))
  {
  }

  /** No request but a new supplier invoice changes amounts of supplier invoices. */
  lemma BillAmountsStay(c: Company, r: Request, column: Column)
    requires Execute(c, r).Ok? && !r.CreateBill?
    ensures BillsTotal(column, Execute(c, r).value.bills) == BillsTotal(column, c.bills)
  {
    hide Posted, Known, CurrentPeriod, Purchases.Approve, Purchases.Reject, Purchases.Pay, Purchases.Reconcile,
         Purchases.PaymentLines, BillsTotal, BillIn;
    var before, after := c.bills, Execute(c, r).value.bills;
    if r.ApproveBill? || r.RejectBill? {
      DecisionKeepsAmounts(before[r.id], c.team, r.actor, r.now, column);
      BillsKept(column, before, after);
    } else if r.PayBill? {
      PaymentKeepsAmounts(before[r.id], r.amount, 0, column);
      BillsKept(column, before, after);
    } else if r.ReconcileLine? && r.target.SupplierInvoice? {
      PaymentKeepsAmounts(before[r.target.id], Sales.Abs(c.lines[r.id].amount), r.id, column);
      BillsKept(column, before, after);
    } else {
      BillsUntouched(c, r);
    }
  }

  /** No request but a new invoice changes amounts of invoices. */
  lemma SaleAmountsStay(c: Company, r: Request, column: Column)
    requires Execute(c, r).Ok? && !r.CreateInvoice?
    ensures SalesTotal(column, Execute(c, r).value.invoices) == SalesTotal(column, c.invoices)
  {
    InvoicesOnlyPaid(c, r);
    hide Execute, SalesTotal;
    SalesKept(column, c.invoices, Execute(c, r).value.invoices);
  }

  lemma SaleStep(c: Company, r: Request, column: Column, account: string)
    requires InvoicesSound(c.invoices) && PostsOnly(c, r, column, account) && r.CreateInvoice? && Execute(c, r).Ok?
    ensures Movement(c, r, account)
         == SalesTotal(column, c.invoices) - SalesTotal(column, Execute(c, r).value.invoices)
  {
    InvoiceMade(c, r);
    InvoiceMoves(c, r, account);
    hide Execute, Movement, SalesTotal, InvoicesSound, Sales.InvoiceInvariant, PeriodicElsewhere, ManualElsewhere;
    SalesWith(column, c.invoices, Execute(c, r).value.invoices);
  }

  lemma BillStep(c: Company, r: Request, column: Column, account: string)
    requires PostsOnly(c, r, column, account) && r.CreateBill? && Execute(c, r).Ok?
    ensures Movement(c, r, account) == BillsTotal(column, Execute(c, r).value.bills) - BillsTotal(column, c.bills)
  {
    BillMade(c, r);
    BillMoves(c, r, account);
    hide Execute, Movement, BillsTotal, RoundDiv, PeriodicElsewhere, ManualElsewhere;
    BillsWith(column, c.bills, Execute(c, r).value.bills);
  }

  lemma PaymentsElsewhereMoveNothing(c: Company, r: Request, column: Column, account: string)
    requires PostsOnly(c, r, column, account) && Execute(c, r).Ok?
    requires !r.CreateInvoice? && !r.CreateBill?
    ensures Movement(c, r, account) == 0
  {
    hide Execute, Movement;
    if r.PayInvoice? || r.PayBill? {
      PaymentMoves(c, r, account);
    } else if r.ReconcileLine? {
      LineMoves(c, r, account);
    } else {
      ElsewhereMovesNothing(c, r, account);
    }
  }

  lemma ColumnStep(c: Company, r: Request, column: Column, account: string)
    requires InvoicesSound(c.invoices) && ColumnAgrees(c, column, account) && PostsOnly(c, r, column, account)
    ensures ColumnAgrees(After(c, r), column, account)
  {
    hide Execute, Movement, AccountBalance, SalesTotal, BillsTotal, InvoicesSound, PostsOnly;
    if Execute(c, r).Ok? {
      EveryRequestMoves(c, r, account);
      if r.CreateInvoice? {
        SaleStep(c, r, column, account);
        BillAmountsStay(c, r, column);
      } else if r.CreateBill? {
        BillStep(c, r, column, account);
        SaleAmountsStay(c, r, column);
      } else {
        PaymentsElsewhereMoveNothing(c, r, column, account);
        BillAmountsStay(c, r, column);
        SaleAmountsStay(c, r, column);
      }
    }
  }

  /**
    Over every run that posts one column of the documents, and nothing else, to an account: its balance is the sum of
    that column, on the credit side for sales with their credit notes, on the debit side for purchases.
  */
  lemma {:induction false} ColumnControl(requests: seq<Request>, column: Column, account: string)
    requires forall n :: 0 <= n < |requests| ==> PostsOnly(Run(requests[..n]), requests[n], column, account)
    ensures ColumnAgrees(Run(requests), column, account)
  {
    if requests != [] {
      var front, last := requests[..|requests| - 1], requests[|requests| - 1];
      forall n | 0 <= n < |front| ensures PostsOnly(Run(front[..n]), front[n], column, account) {
        assert front[..n] == requests[..n];
      }
      hide After, PostsOnly, ColumnAgrees, InvoicesSound;
      ColumnControl(front, column, account);
      EveryRunKeepsInvoices(front);
      ColumnStep(Run(front), last, column, account);
    }
  }
}
