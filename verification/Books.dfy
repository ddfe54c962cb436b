/** The books of one company: every route that posts, pays, approves or closes, each an atomic step. */
module Books {
  import opened Results
  import opened Rounding
  import opened Calendar
  import opened Postings
  import opened Ledger
  import Sales
  import Purchases
  import Payroll
  import Depreciation

  datatype LineStatus = UNMATCHED | MATCHED | IGNORED

  /** What a bank line is reconciled with. */
  datatype Target = CustomerInvoice(id: nat) | SupplierInvoice(id: nat)

  datatype BankLine = BankLine(date: Date, amount: int, status: LineStatus, matched: Option<Target>)

  datatype PayrollRun = PayrollRun(lines: seq<Payroll.PayLine>, totals: Payroll.Pay, posted: bool)

  datatype Company = Company(
    journal: Journal, invoices: seq<Sales.Invoice>, bills: seq<Purchases.Bill>, lines: seq<BankLine>,
    team: Purchases.Team, partners: set<string>, suppliers: set<string>,
    assets: seq<Depreciation.Asset>, employees: seq<Payroll.Employee>, payrolls: map<string, PayrollRun>)

  /**
    Manual entries and supplier invoices carry amounts in parts of a cent, everything else whole cents.
    Maintain stands for the routes that keep accounts, partners, members and employees, whatever they set.
  */
  datatype Request =
    | CreateEntry(date: Date, period: Option<string>, entryLines: seq<Line>, parts: Grid)
    | ValidateEntry(id: nat)
    | StornoEntry(id: nat, date: Date, period: Option<string>)
    | ClosePeriod(name: string)
    | ReopenPeriod(name: string)
    | CreateInvoice(number: string, kind: Sales.InvoiceKind, stornoOf: Option<nat>, details: Option<Sales.Details>,
                    date: Date, autoPost: bool, saleCodes: Sales.Codes)
    | PayInvoice(id: nat, date: Date, amount: nat, autoPost: bool, bank: string, receivable: string)
    | CreateBill(number: string, supplier: string, date: Date, due: int, subtotal: int, vat: int, parts: Grid,
                 autoPost: bool, billCodes: Purchases.Codes)
    | ApproveBill(id: nat, actor: Purchases.Actor, now: int)
    | RejectBill(id: nat, actor: Purchases.Actor, now: int)
    | PayBill(id: nat, date: Date, amount: nat, autoPost: bool, bank: string, payable: string)
    | CreateDelegation(actor: Purchases.Actor, delegation: Purchases.Delegation)
    | ImportLine(date: Date, signedAmount: int)
    | ReconcileLine(id: nat, target: Target, autoPost: bool, bank: string, receivable: string, payable: string)
    | IgnoreLine(id: nat)
    | CreateAsset(plan: Depreciation.Plan)
    | RunDepreciation(name: string, runDate: Option<Date>, autoPost: bool, expense: string, accumulated: string)
    | GeneratePayroll(name: string, date: Date, autoPost: bool, payCodes: Payroll.Codes)
    | Maintain(accounts: map<string, bool>, partners: set<string>, suppliers: set<string>,
               members: map<string, Purchases.Role>, employees: seq<Payroll.Employee>)

  const START := Company(Journal([], {}, map[]), [], [], [], Purchases.Team(map[], []), {}, {}, [], [], map[])

  // ---------------------------------------------------------------- pieces the routes share

  predicate Known(j: Journal, codes: set<string>)
  {
    forall code :: code in codes ==> code in j.accounts
  }

  /** The entry of a route, when it posts one. */
  function Posted(j: Journal, autoPost: bool, date: Date, period: string, lines: seq<Line>): Result<Journal>
  {
    if autoPost then Post(j, date, period, lines) else Ok(j)
  }

  function WithJournal(c: Company, journal: Result<Journal>): Result<Company>
  {
    if journal.Err? then Err(journal.error) else Ok(c.(journal := journal.value))
  }

  // ---------------------------------------------------------------- sales

  predicate AutoPosted(kind: Sales.InvoiceKind, autoPost: bool)
  {
    autoPost && kind != Sales.PROFORMA
  }

  function DoCreateInvoice(c: Company, r: Request): Result<Company>
    requires r.CreateInvoice?
  {
    if Sales.Malformed(r.kind, r.stornoOf, r.details, r.date) then Err(BadRequest)
    else if !PeriodOpen(c.journal, CurrentPeriod(r.date)) then Err(Conflict)
    else
      var made := Sales.NewInvoice(c.invoices, c.partners, r.number, r.kind, r.stornoOf, r.details, r.date);
      var codes := r.saleCodes;
      if made.Err? then Err(made.error)
      else if AutoPosted(r.kind, r.autoPost) && !Known(c.journal, {codes.receivable, codes.revenue, codes.vat})
      then Err(BadRequest)
      else if exists i :: i in c.invoices && i.number == r.number then Err(Conflict)
      else
        WithJournal(c.(invoices := c.invoices + [made.value]),
                    Posted(c.journal, AutoPosted(r.kind, r.autoPost), r.date, CurrentPeriod(r.date),
                           Sales.InvoiceLines(made.value, codes)))
  }

  function DoPayInvoice(c: Company, r: Request): Result<Company>
    requires r.PayInvoice?
  {
    if !PeriodOpen(c.journal, CurrentPeriod(r.date)) then Err(Conflict)
    else if r.id >= |c.invoices| then Err(NotFound)
    else
      var paid := Sales.Pay(c.invoices[r.id], r.amount);
      if paid.Err? then Err(paid.error)
      else if r.autoPost && !Known(c.journal, {r.bank, r.receivable}) then Err(BadRequest)
      else
        WithJournal(c.(invoices := c.invoices[r.id := paid.value]),
                    Posted(c.journal, r.autoPost, r.date, CurrentPeriod(r.date),
                           Sales.ReceiptLines(r.amount, r.bank, r.receivable)))
  }

  // ---------------------------------------------------------------- purchases

  function DoCreateBill(c: Company, r: Request): Result<Company>
    requires r.CreateBill?
  {
    if Purchases.Malformed(r.date, r.due, r.subtotal, r.vat) then Err(BadRequest)
    else if !PeriodOpen(c.journal, CurrentPeriod(r.date)) then Err(Conflict)
    else
      var made := Purchases.NewBill(c.suppliers, r.number, r.supplier, r.date, r.due, r.subtotal, r.vat, r.parts);
      var codes := r.billCodes;
      if made.Err? then Err(made.error)
      else if r.autoPost && !Known(c.journal, {codes.expense, codes.vat, codes.payable}) then Err(BadRequest)
      else if exists b :: b in c.bills && b.number == r.number then Err(Conflict)
      else
        WithJournal(c.(bills := c.bills + [made.value]),
                    Posted(c.journal, r.autoPost, r.date, CurrentPeriod(r.date),
                           Purchases.BillLines(made.value, r.vat > 0, codes)))
  }

  function DoApproveBill(c: Company, r: Request): Result<Company>
    requires r.ApproveBill?
  {
    if r.id >= |c.bills| then Err(NotFound)
    else
      var approved := Purchases.Approve(c.bills[r.id], c.team, r.actor, r.now);
      if approved.Err? then Err(approved.error) else Ok(c.(bills := c.bills[r.id := approved.value]))
  }

  function DoRejectBill(c: Company, r: Request): Result<Company>
    requires r.RejectBill?
  {
    if r.id >= |c.bills| then Err(NotFound)
    else
      var rejected := Purchases.Reject(c.bills[r.id], c.team, r.actor, r.now);
      if rejected.Err? then Err(rejected.error) else Ok(c.(bills := c.bills[r.id := rejected.value]))
  }

  function DoPayBill(c: Company, r: Request): Result<Company>
    requires r.PayBill?
  {
    if !PeriodOpen(c.journal, CurrentPeriod(r.date)) then Err(Conflict)
    else if r.id >= |c.bills| then Err(NotFound)
    else
      var paid := Purchases.Pay(c.bills[r.id], r.amount);
      if paid.Err? then Err(paid.error)
      else if r.autoPost && !Known(c.journal, {r.bank, r.payable}) then Err(BadRequest)
      else
        WithJournal(c.(bills := c.bills[r.id := paid.value]),
                    Posted(c.journal, r.autoPost, r.date, CurrentPeriod(r.date),
                           Purchases.PaymentLines(r.amount, r.bank, r.payable)))
  }

  function DoCreateDelegation(c: Company, r: Request): Result<Company>
    requires r.CreateDelegation?
  {
    var team := Purchases.Delegate(c.team, r.actor, r.delegation);
    if team.Err? then Err(team.error) else Ok(c.(team := team.value))
  }

  // ---------------------------------------------------------------- bank reconciliation

  function Matched(line: BankLine, target: Target): BankLine
  {
    line.(status := MATCHED, matched := Some(target))
  }

  function ReconcileCustomer(c: Company, r: Request, line: BankLine): Result<Company>
    requires r.ReconcileLine? && r.id < |c.lines| && r.target.CustomerInvoice?
  {
    if line.amount <= 0 then Err(BadRequest)
    else if r.target.id >= |c.invoices| then Err(NotFound)
    else
      var amount := Sales.Abs(line.amount);
      var paid := Sales.Reconcile(c.invoices[r.target.id], amount, r.id);
      if paid.Err? then Err(paid.error)
      else if r.autoPost && !Known(c.journal, {r.bank, r.receivable}) then Err(BadRequest)
      else
        WithJournal(c.(invoices := c.invoices[r.target.id := paid.value],
                       lines := c.lines[r.id := Matched(line, r.target)]),
                    Posted(c.journal, r.autoPost, line.date, CurrentPeriod(line.date),
                           Sales.ReceiptLines(amount, r.bank, r.receivable)))
  }

  function ReconcileSupplier(c: Company, r: Request, line: BankLine): Result<Company>
    requires r.ReconcileLine? && r.id < |c.lines| && r.target.SupplierInvoice?
  {
    if line.amount >= 0 then Err(BadRequest)
    else if r.target.id >= |c.bills| then Err(NotFound)
    else
      var amount := Sales.Abs(line.amount);
      var paid := Purchases.Reconcile(c.bills[r.target.id], amount, r.id);
      if paid.Err? then Err(paid.error)
      else if r.autoPost && !Known(c.journal, {r.bank, r.payable}) then Err(BadRequest)
      else
        WithJournal(c.(bills := c.bills[r.target.id := paid.value], lines := c.lines[r.id := Matched(line, r.target)]),
                    Posted(c.journal, r.autoPost, line.date, CurrentPeriod(line.date),
                           Purchases.PaymentLines(amount, r.bank, r.payable)))
  }

  function DoReconcileLine(c: Company, r: Request): Result<Company>
    requires r.ReconcileLine?
  {
    if r.id >= |c.lines| then Err(NotFound)
    else
      var line := c.lines[r.id];
      if line.status != UNMATCHED || !PeriodOpen(c.journal, CurrentPeriod(line.date)) then Err(Conflict)
      else if r.target.CustomerInvoice? then ReconcileCustomer(c, r, line)
      else ReconcileSupplier(c, r, line)
  }

  function DoIgnoreLine(c: Company, r: Request): Result<Company>
    requires r.IgnoreLine?
  {
    if r.id >= |c.lines| then Err(NotFound)
    else if c.lines[r.id].status != UNMATCHED then Err(Conflict)
    else Ok(c.(lines := c.lines[r.id := c.lines[r.id].(status := IGNORED, matched := None)]))
  }

  // ---------------------------------------------------------------- assets and payroll

  function DepreciationLines(total: int, expense: string, accumulated: string): seq<Line>
  {
    [Line(expense, total, 0), Line(accumulated, 0, total)]
  }

  function DoCreateAsset(c: Company, r: Request): Result<Company>
    requires r.CreateAsset?
  {
    if !Depreciation.Sound(r.plan) then Err(BadRequest)
    else Ok(c.(assets := c.assets + [Depreciation.Asset(r.plan, [])]))
  }

  function EndOf(period: string): Date
    requires ParsePeriod(period).Ok?
  {
    var (year, month) := ParsePeriod(period).value;
    Date(EndMonth(year, month), 0)
  }

  /** The assets after the run of an open period, if one has started by then. */
  function RunOf(c: Company, period: string): (after: Result<seq<Depreciation.Asset>>)
    ensures after.Ok? ==> ParsePeriod(period).Ok? && PeriodOpen(c.journal, period)
    ensures after.Ok? ==> after.value == Depreciation.RunAll(c.assets, period)
  {
    if ParsePeriod(period).Err? then Err(BadRequest)
    else if !PeriodOpen(c.journal, period) then Err(Conflict)
    else if forall a :: a in c.assets ==> a.plan.start > EndOf(period).month then Err(BadRequest)
    else Ok(Depreciation.RunAll(c.assets, period))
  }

  function DoRunDepreciation(c: Company, r: Request): Result<Company>
    requires r.RunDepreciation?
  {
    var run := RunOf(c, r.name);
    if run.Err? then Err(run.error)
    else if run.value == c.assets then Ok(c)
    else if r.autoPost && !Known(c.journal, {r.expense, r.accumulated}) then Err(BadRequest)
    else
      var total := Depreciation.TotalAccumulated(run.value) - Depreciation.TotalAccumulated(c.assets);
      var date := if r.runDate.Some? then r.runDate.value else EndOf(r.name);
      WithJournal(c.(assets := run.value),
                  Posted(c.journal, r.autoPost, date, r.name, DepreciationLines(total, r.expense, r.accumulated)))
  }

  function DoGeneratePayroll(c: Company, r: Request): Result<Company>
    requires r.GeneratePayroll?
  {
    if ParsePeriod(r.name).Err? then Err(BadRequest)
    else if !PeriodOpen(c.journal, r.name) || r.name in c.payrolls then Err(Conflict)
    else if c.employees == [] then Err(BadRequest)
    else if r.autoPost && !Known(c.journal, Payroll.CodeSet(r.payCodes)) then Err(BadRequest)
    else
      var lines := Payroll.PayLines(c.employees);
      var totals := Payroll.Totals(lines);
      WithJournal(c.(payrolls := c.payrolls[r.name := PayrollRun(lines, totals, r.autoPost)]),
                  Posted(c.journal, r.autoPost, r.date, r.name, Payroll.JournalLines(totals, r.payCodes)))
  }

  // ---------------------------------------------------------------- any request, any run

  function Execute(c: Company, r: Request): Result<Company>
  {
    match r
    case CreateEntry(date, period, lines, parts) =>
      WithJournal(c, Ledger.CreateEntry(c.journal, date, period, lines, parts))
    case ValidateEntry(id) => WithJournal(c, Ledger.ValidateEntry(c.journal, id))
    case StornoEntry(id, date, period) => WithJournal(c, Ledger.StornoEntry(c.journal, id, date, period))
    case ClosePeriod(name) => WithJournal(c, Ledger.ClosePeriod(c.journal, name))
    case ReopenPeriod(name) => WithJournal(c, Ledger.ReopenPeriod(c.journal, name))
    case CreateInvoice(_, _, _, _, _, _, _) => DoCreateInvoice(c, r)
    case PayInvoice(_, _, _, _, _, _) => DoPayInvoice(c, r)
    case CreateBill(_, _, _, _, _, _, _, _, _) => DoCreateBill(c, r)
    case ApproveBill(_, _, _) => DoApproveBill(c, r)
    case RejectBill(_, _, _) => DoRejectBill(c, r)
    case PayBill(_, _, _, _, _, _) => DoPayBill(c, r)
    case CreateDelegation(_, _) => DoCreateDelegation(c, r)
    case ImportLine(date, amount) => Ok(c.(lines := c.lines + [BankLine(date, amount, UNMATCHED, None)]))
    case ReconcileLine(_, _, _, _, _, _) => DoReconcileLine(c, r)
    case IgnoreLine(_) => DoIgnoreLine(c, r)
    case CreateAsset(_) => DoCreateAsset(c, r)
    case RunDepreciation(_, _, _, _, _) => DoRunDepreciation(c, r)
    case GeneratePayroll(_, _, _, _) => DoGeneratePayroll(c, r)
    case Maintain(accounts, partners, suppliers, members, employees) =>
      Ok(c.(journal := c.journal.(accounts := accounts), partners := partners, suppliers := suppliers,
            team := c.team.(members := members), employees := employees))
  }

  /** A request that fails is rolled back. */
  function After(c: Company, r: Request): Company
  {
    var done := Execute(c, r);
    if done.Ok? then done.value else c
  }

  function Run(requests: seq<Request>): Company
  {
    if requests == [] then START else After(Run(requests[..|requests| - 1]), requests[|requests| - 1])
  }

  lemma RunSnoc(requests: seq<Request>, last: Request)
    ensures Run(requests + [last]) == After(Run(requests), last)
  {
    hide After;
    var all := requests + [last];
    assert all[..|all| - 1] == requests;
  }

  lemma RunContinues(requests: seq<Request>, more: seq<Request>)
    requires more != []
    ensures Run(requests + more) == After(Run(requests + more[..|more| - 1]), more[|more| - 1])
  {
    hide After, Run;
    RunSnoc(requests + more[..|more| - 1], more[|more| - 1]);
    assert requests + more == requests + more[..|more| - 1] + [more[|more| - 1]];
  }
}
