/** Bank lines and the payments they become: one for one, over every run of requests. */
module BooksBank {
  import opened Results
  import opened Calendar
  import opened Payments
  import opened Ledger
  import opened Books
  import opened BooksDocuments
  import Sales
  import Purchases
  import Depreciation

  // ---------------------------------------------------------------- payments that came from a line

  function From(payments: seq<Payment>, line: nat): nat
  {
    if payments == [] then 0
    else From(payments[..|payments| - 1], line) + if payments[|payments| - 1].line == Some(line) then 1 else 0
  }

  function SumFrom(payments: seq<Payment>, line: nat): nat
  {
    if payments == [] then 0
    else
      var last := payments[|payments| - 1];
      SumFrom(payments[..|payments| - 1], line) + if last.line == Some(line) then last.amount else 0
  }

  function FromInvoices(invoices: seq<Sales.Invoice>, line: nat): nat
  {
    if invoices == [] then 0
    else FromInvoices(invoices[..|invoices| - 1], line) + From(invoices[|invoices| - 1].payments, line)
  }

  function FromBills(bills: seq<Purchases.Bill>, line: nat): nat
  {
    if bills == [] then 0 else FromBills(bills[..|bills| - 1], line) + From(bills[|bills| - 1].payments, line)
  }

  lemma FromAppend(payments: seq<Payment>, p: Payment, line: nat)
    ensures From(payments + [p], line) == From(payments, line) + if p.line == Some(line) then 1 else 0
    ensures SumFrom(payments + [p], line) == SumFrom(payments, line) + if p.line == Some(line) then p.amount else 0
  {
    assert (payments + [p])[..|payments|] == payments;
  }

  lemma {:induction false} NothingFrom(payments: seq<Payment>, line: nat)
    requires From(payments, line) == 0
    ensures SumFrom(payments, line) == 0
  {
    if payments != [] {
      NothingFrom(payments[..|payments| - 1], line);
    }
  }

  lemma {:induction false} InvoiceReplaced(invoices: seq<Sales.Invoice>, id: nat, invoice: Sales.Invoice, line: nat)
    requires id < |invoices|
    ensures FromInvoices(invoices[id := invoice], line)
         == FromInvoices(invoices, line) - From(invoices[id].payments, line) + From(invoice.payments, line)
  {
    var n := |invoices| - 1;
    if id < n {
      InvoiceReplaced(invoices[..n], id, invoice, line);
      assert invoices[id := invoice][..n] == invoices[..n][id := invoice];
    } else {
      assert invoices[id := invoice][..n] == invoices[..n];
    }
  }

  lemma {:induction false} BillReplaced(bills: seq<Purchases.Bill>, id: nat, bill: Purchases.Bill, line: nat)
    requires id < |bills|
    ensures FromBills(bills[id := bill], line)
         == FromBills(bills, line) - From(bills[id].payments, line) + From(bill.payments, line)
  {
    var n := |bills| - 1;
    if id < n {
      BillReplaced(bills[..n], id, bill, line);
      assert bills[id := bill][..n] == bills[..n][id := bill];
    } else {
      assert bills[id := bill][..n] == bills[..n];
    }
  }

  /** An invoice settled, one payment more; or one without payments appended. */
  lemma InvoicesCount(invoices: seq<Sales.Invoice>, id: nat, p: Payment, added: Sales.Invoice, line: nat)
    ensures id < |invoices| ==>
              FromInvoices(invoices[id := Sales.Settle(invoices[id], p)], line)
              == FromInvoices(invoices, line) + if p.line == Some(line) then 1 else 0
    ensures added.payments == [] ==> FromInvoices(invoices + [added], line) == FromInvoices(invoices, line)
  {
    if id < |invoices| {
      InvoiceReplaced(invoices, id, Sales.Settle(invoices[id], p), line);
      FromAppend(invoices[id].payments, p, line);
    }
    assert (invoices + [added])[..|invoices|] == invoices;
  }

  lemma BillsCount(bills: seq<Purchases.Bill>, id: nat, p: Payment, added: Purchases.Bill, line: nat)
    ensures id < |bills| ==>
              FromBills(bills[id := Purchases.Settle(bills[id], p)], line)
              == FromBills(bills, line) + if p.line == Some(line) then 1 else 0
    ensures added.payments == [] ==> FromBills(bills + [added], line) == FromBills(bills, line)
  {
    if id < |bills| {
      BillReplaced(bills, id, Purchases.Settle(bills[id], p), line);
      FromAppend(bills[id].payments, p, line);
    }
    assert (bills + [added])[..|bills|] == bills;
  }

  // ---------------------------------------------------------------- the invariant of a line

  function AllFrom(c: Company, line: nat): nat
  {
    FromInvoices(c.invoices, line) + FromBills(c.bills, line)
  }

  /** The payments of the document a line is matched with. */
  function TargetPayments(c: Company, target: Target): seq<Payment>
  {
    match target
    case CustomerInvoice(id) => if id < |c.invoices| then c.invoices[id].payments else []
    case SupplierInvoice(id) => if id < |c.bills| then c.bills[id].payments else []
  }

  /** A matched line became exactly one payment, of its absolute amount, on the document it names; others none. */
  predicate LineSound(c: Company, line: nat)
  {
    if line >= |c.lines| || c.lines[line].status != MATCHED then
      AllFrom(c, line) == 0 && (line < |c.lines| ==> c.lines[line].matched.None?)
    else
      && AllFrom(c, line) == 1
      && var l := c.lines[line];
         && l.matched.Some?
         && (if l.matched.value.CustomerInvoice? then l.amount > 0 else l.amount < 0)
         && From(TargetPayments(c, l.matched.value), line) == 1
         && SumFrom(TargetPayments(c, l.matched.value), line) == Sales.Abs(l.amount)
  }

  ghost predicate BankSound(c: Company)
  {
    forall line: nat :: LineSound(c, line)
  }

  /** Nothing about the line or about the payments made from it has changed. */
  ghost predicate LineUntouched(c: Company, d: Company, line: nat)
  {
    && AllFrom(d, line) == AllFrom(c, line)
    && (line < |d.lines| <==> line < |c.lines|) && (line < |c.lines| ==> d.lines[line] == c.lines[line])
    && forall t: Target :: From(TargetPayments(c, t), line) == From(TargetPayments(d, t), line)
                        && SumFrom(TargetPayments(c, t), line) == SumFrom(TargetPayments(d, t), line)
  }

  lemma UntouchedStaysSound(c: Company, d: Company, line: nat)
    requires LineSound(c, line) && LineUntouched(c, d, line)
    ensures LineSound(d, line)
  {
    hide AllFrom, From, SumFrom, TargetPayments;
  }

  /** A payment that did not come from the line, on some invoice. */
  lemma OtherInvoicePayment(c: Company, d: Company, id: nat, p: Payment, line: nat)
    requires id < |c.invoices| && p.line != Some(line)
    requires d.invoices == c.invoices[id := Sales.Settle(c.invoices[id], p)] && d.bills == c.bills
    requires (line < |d.lines| <==> line < |c.lines|) && (line < |c.lines| ==> d.lines[line] == c.lines[line])
    ensures LineUntouched(c, d, line)
  {
    InvoicesCount(c.invoices, id, p, c.invoices[id], line);
    FromAppend(c.invoices[id].payments, p, line);
    hide FromInvoices, FromBills, From, SumFrom;
  }

  lemma OtherBillPayment(c: Company, d: Company, id: nat, p: Payment, line: nat)
    requires id < |c.bills| && p.line != Some(line)
    requires d.bills == c.bills[id := Purchases.Settle(c.bills[id], p)] && d.invoices == c.invoices
    requires (line < |d.lines| <==> line < |c.lines|) && (line < |c.lines| ==> d.lines[line] == c.lines[line])
    ensures LineUntouched(c, d, line)
  {
    BillsCount(c.bills, id, p, c.bills[id], line);
    FromAppend(c.bills[id].payments, p, line);
    hide FromInvoices, FromBills, From, SumFrom;
  }

  lemma SamePayments(c: Company, d: Company, line: nat)
    requires d.invoices == c.invoices && d.bills == c.bills
    requires (line < |d.lines| <==> line < |c.lines|) && (line < |c.lines| ==> d.lines[line] == c.lines[line])
    ensures LineUntouched(c, d, line)
  {
  }

  lemma DocumentAdded(c: Company, d: Company, line: nat)
    requires d.lines == c.lines
    requires (d.bills == c.bills && |d.invoices| == |c.invoices| + 1 && d.invoices[..|c.invoices|] == c.invoices
              && d.invoices[|c.invoices|].payments == [])
          || (d.invoices == c.invoices && |d.bills| == |c.bills| + 1 && d.bills[..|c.bills|] == c.bills
              && d.bills[|c.bills|].payments == [])
    ensures LineUntouched(c, d, line)
  {
    NonePaid(line);
    hide From, SumFrom;
    forall t: Target
      ensures From(TargetPayments(c, t), line) == From(TargetPayments(d, t), line)
      ensures SumFrom(TargetPayments(c, t), line) == SumFrom(TargetPayments(d, t), line)
    {
      assert t.CustomerInvoice? && t.id < |c.invoices| ==> d.invoices[..|c.invoices|][t.id] == d.invoices[t.id];
      assert t.SupplierInvoice? && t.id < |c.bills| ==> d.bills[..|c.bills|][t.id] == d.bills[t.id];
    }
  }

  lemma NonePaid(line: nat)
    ensures From([], line) == 0 && SumFrom([], line) == 0
  {
  }

  lemma BillDecided(c: Company, d: Company, id: nat, line: nat)
    requires id < |c.bills| && |d.bills| == |c.bills| && d.bills == c.bills[id := d.bills[id]]
    requires d.bills[id].payments == c.bills[id].payments
    requires d.invoices == c.invoices && d.lines == c.lines
    ensures LineUntouched(c, d, line)
  {
    BillReplaced(c.bills, id, d.bills[id], line);
    hide FromInvoices, FromBills, From, SumFrom;
  }

  /** The line that is being reconciled itself, with an invoice. */
  lemma LineMatchedInvoice(c: Company, d: Company, line: nat, id: nat)
    requires LineSound(c, line) && line < |c.lines| && c.lines[line].status == UNMATCHED
    requires d.lines == c.lines[line := Matched(c.lines[line], CustomerInvoice(id))]
    requires c.lines[line].amount > 0 && id < |c.invoices| && d.bills == c.bills
    requires d.invoices
              == c.invoices[id := Sales.Settle(c.invoices[id], Payment(Sales.Abs(c.lines[line].amount), Some(line)))]
    ensures LineSound(d, line)
  {
    var p := Payment(Sales.Abs(c.lines[line].amount), Some(line));
    InvoicesCount(c.invoices, id, p, c.invoices[id], line);
    PaymentsBounded(c.invoices, id, line);
    FromAppend(c.invoices[id].payments, p, line);
    NothingFrom(c.invoices[id].payments, line);
    hide FromInvoices, FromBills, From, SumFrom, Paid;
  }

  lemma LineMatchedBill(c: Company, d: Company, line: nat, id: nat)
    requires LineSound(c, line) && line < |c.lines| && c.lines[line].status == UNMATCHED
    requires d.lines == c.lines[line := Matched(c.lines[line], SupplierInvoice(id))]
    requires c.lines[line].amount < 0 && id < |c.bills| && d.invoices == c.invoices
    requires d.bills
              == c.bills[id := Purchases.Settle(c.bills[id], Payment(Sales.Abs(c.lines[line].amount), Some(line)))]
    ensures LineSound(d, line)
  {
    var p := Payment(Sales.Abs(c.lines[line].amount), Some(line));
    BillsCount(c.bills, id, p, c.bills[id], line);
    BillPaymentsBounded(c.bills, id, line);
    FromAppend(c.bills[id].payments, p, line);
    NothingFrom(c.bills[id].payments, line);
    hide FromInvoices, FromBills, From, SumFrom, Paid;
  }

  lemma {:induction false} PaymentsBounded(invoices: seq<Sales.Invoice>, id: nat, line: nat)
    requires id < |invoices|
    ensures From(invoices[id].payments, line) <= FromInvoices(invoices, line)
  {
    if id < |invoices| - 1 {
      PaymentsBounded(invoices[..|invoices| - 1], id, line);
    }
  }

  lemma {:induction false} BillPaymentsBounded(bills: seq<Purchases.Bill>, id: nat, line: nat)
    requires id < |bills|
    ensures From(bills[id].payments, line) <= FromBills(bills, line)
  {
    if id < |bills| - 1 {
      BillPaymentsBounded(bills[..|bills| - 1], id, line);
    }
  }

  // ---------------------------------------------------------------- every step, every run

  lemma ReconcileKeepsLines(c: Company, r: Request, line: nat)
    requires LineSound(c, line) && r.ReconcileLine? && Execute(c, r).Ok?
    ensures LineSound(Execute(c, r).value, line)
  {
    hide LineSound, LineUntouched, Posted, Sales.Reconcile, Purchases.Reconcile, Sales.Settle, Purchases.Settle,
         Known, CurrentPeriod;
    var d := Execute(c, r).value;
    var p := Payment(Sales.Abs(c.lines[r.id].amount), Some(r.id));
    if r.target.CustomerInvoice? {
      ReconciledInvoice(c.invoices[r.target.id], p.amount, r.id);
      if line != r.id {
        OtherInvoicePayment(c, d, r.target.id, p, line);
        UntouchedStaysSound(c, d, line);
      } else {
        LineMatchedInvoice(c, d, line, r.target.id);
      }
    } else {
      ReconciledBill(c.bills[r.target.id], p.amount, r.id);
      if line != r.id {
        OtherBillPayment(c, d, r.target.id, p, line);
        UntouchedStaysSound(c, d, line);
      } else {
        LineMatchedBill(c, d, line, r.target.id);
      }
    }
  }

  lemma ReconciledInvoice(invoice: Sales.Invoice, amount: nat, line: nat)
    ensures var paid := Sales.Reconcile(invoice, amount, line);
      paid.Ok? ==> paid.value == Sales.Settle(invoice, Payment(amount, Some(line)))
    ensures var paid := Sales.Pay(invoice, amount);
      paid.Ok? ==> paid.value == Sales.Settle(invoice, Payment(amount, None))
  {
    hide Sales.Settle, Open;
  }

  lemma ReconciledBill(bill: Purchases.Bill, amount: nat, line: nat)
    ensures var paid := Purchases.Reconcile(bill, amount, line);
      paid.Ok? ==> paid.value == Purchases.Settle(bill, Payment(amount, Some(line)))
    ensures var paid := Purchases.Pay(bill, amount);
      paid.Ok? ==> paid.value == Purchases.Settle(bill, Payment(amount, None))
  {
    hide Purchases.Settle, Open;
  }

  lemma BankRoutesKeepLines(c: Company, r: Request, line: nat)
    requires LineSound(c, line) && Execute(c, r).Ok? && (r.ImportLine? || r.IgnoreLine?)
    ensures LineSound(Execute(c, r).value, line)
  {
    hide AllFrom, From, SumFrom;
    var d := Execute(c, r).value;
    assert AllFrom(d, line) == AllFrom(c, line) by {
      SameDocuments(c, d, line);
    }
  }

  lemma SameDocuments(c: Company, d: Company, line: nat)
    requires d.invoices == c.invoices && d.bills == c.bills
    ensures AllFrom(d, line) == AllFrom(c, line)
  {
  }

  lemma DocumentsKeepLines(c: Company, r: Request, line: nat)
    requires LineSound(c, line) && Execute(c, r).Ok?
    requires r.CreateInvoice? || r.PayInvoice? || r.CreateBill? || r.PayBill? || r.ApproveBill? || r.RejectBill?
    ensures LineSound(Execute(c, r).value, line)
  {
    hide LineSound, LineUntouched, Posted, Sales.NewInvoice, Sales.Pay, Sales.Settle, Purchases.NewBill, Purchases.Pay,
         Purchases.Settle, Purchases.Approve, Purchases.Reject, Sales.InvoiceInvariant, Known, CurrentPeriod;
    var d := Execute(c, r).value;
    if r.CreateInvoice? {
      Sales.NewInvoiceInvariant(c.invoices, c.partners, r.number, r.kind, r.stornoOf, r.details, r.date);
      DocumentAdded(c, d, line);
    } else if r.CreateBill? {
      BillStartsUnpaid(c, r);
      DocumentAdded(c, d, line);
    } else if r.PayInvoice? {
      ReconciledInvoice(c.invoices[r.id], r.amount, 0);
      OtherInvoicePayment(c, d, r.id, Payment(r.amount, None), line);
    } else if r.PayBill? {
      ReconciledBill(c.bills[r.id], r.amount, 0);
      OtherBillPayment(c, d, r.id, Payment(r.amount, None), line);
    } else {
      DecisionPaysNothing(c.bills[r.id], c.team, r.actor, r.now);
      BillDecided(c, d, r.id, line);
    }
    UntouchedStaysSound(c, d, line);
  }

  lemma DecisionPaysNothing(bill: Purchases.Bill, team: Purchases.Team, actor: Purchases.Actor, now: int)
    ensures var approved, rejected :=
              Purchases.Approve(bill, team, actor, now), Purchases.Reject(bill, team, actor, now);
      && (approved.Ok? ==> approved.value.payments == bill.payments)
      && (rejected.Ok? ==> rejected.value.payments == bill.payments)
  {
  }

  lemma OthersKeepLines(c: Company, r: Request, line: nat)
    requires !r.ReconcileLine? && !r.ImportLine? && !r.IgnoreLine? && !r.CreateInvoice? && !r.PayInvoice?
             && !r.CreateBill? && !r.PayBill? && !r.ApproveBill? && !r.RejectBill?
    ensures LineSound(c, line) && Execute(c, r).Ok? ==> LineSound(Execute(c, r).value, line)
  {
    if LineSound(c, line) && Execute(c, r).Ok? {
      InvoicesUntouched(c, r);
      BillsUntouched(c, r);
      LinesUntouched(c, r);
      hide Execute, LineSound, LineUntouched;
      SamePayments(c, Execute(c, r).value, line);
      UntouchedStaysSound(c, Execute(c, r).value, line);
    }
  }

  lemma LinesUntouched(c: Company, r: Request)
    requires Execute(c, r).Ok? && !r.ReconcileLine? && !r.ImportLine? && !r.IgnoreLine?
    ensures Execute(c, r).value.lines == c.lines
  {
    hide Posted, Ledger.CreateEntry, Ledger.ValidateEntry, Ledger.StornoEntry, Ledger.ClosePeriod, Ledger.ReopenPeriod,
         Sales.NewInvoice, Sales.Pay, Purchases.NewBill, Purchases.Approve, Purchases.Reject, Purchases.Pay,
         Purchases.Delegate, Depreciation.RunAll, Depreciation.Sound, ParsePeriod, CurrentPeriod, Known;
  }

  lemma EveryStepKeepsLines(c: Company, r: Request)
    requires BankSound(c)
    ensures BankSound(After(c, r))
  {
    hide Execute, LineSound;
    if Execute(c, r).Ok? {
      forall line: nat ensures LineSound(Execute(c, r).value, line) {
        if r.ReconcileLine? {
          ReconcileKeepsLines(c, r, line);
        } else if r.ImportLine? || r.IgnoreLine? {
          BankRoutesKeepLines(c, r, line);
        } else if r.CreateInvoice? || r.PayInvoice? || r.CreateBill? || r.PayBill? || r.ApproveBill? || r.RejectBill? {
          DocumentsKeepLines(c, r, line);
        } else {
          OthersKeepLines(c, r, line);
        }
      }
    }
  }

  /** Over every run each MATCHED line is exactly one payment of its absolute amount, and no other line is any. */
  lemma {:induction false} EveryRunMatchesLines(requests: seq<Request>)
    ensures BankSound(Run(requests))
  {
    if requests != [] {
      hide After, LineSound;
      EveryRunMatchesLines(requests[..|requests| - 1]);
      EveryStepKeepsLines(Run(requests[..|requests| - 1]), requests[|requests| - 1]);
    } else {
      forall line: nat ensures LineSound(START, line) {
      }
    }
  }

  lemma LineFinalStep(c: Company, r: Request, line: nat)
    requires line < |c.lines|
    ensures line < |After(c, r).lines|
    ensures After(c, r).lines[line].date == c.lines[line].date && After(c, r).lines[line].amount == c.lines[line].amount
    ensures c.lines[line].status != UNMATCHED ==> After(c, r).lines[line] == c.lines[line]
  {
    hide Posted, Sales.Reconcile, Purchases.Reconcile, Known, CurrentPeriod, PeriodOpen;
    if Execute(c, r).Ok? && !r.ReconcileLine? && !r.ImportLine? && !r.IgnoreLine? {
      LinesUntouched(c, r);
    }
  }

  /** MATCHED and IGNORED lines never change again. */
  lemma {:induction false} ProcessedLinesAreFinal(requests: seq<Request>, more: seq<Request>, line: nat)
    requires line < |Run(requests).lines|
    ensures line < |Run(requests + more).lines|
    ensures Run(requests + more).lines[line].amount == Run(requests).lines[line].amount
    ensures Run(requests).lines[line].status != UNMATCHED ==>
              Run(requests + more).lines[line] == Run(requests).lines[line]
  {
    if more == [] {
      assert requests + more == requests;
    } else {
      var front, last := more[..|more| - 1], more[|more| - 1];
      ProcessedLinesAreFinal(requests, front, line);
      LineFinalStep(Run(requests + front), last, line);
      RunContinues(requests, more);
      hide After, Run;
    }
  }
}
