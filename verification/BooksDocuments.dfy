/** What every run of requests keeps about invoices, supplier invoices and delegations. */
module BooksDocuments {
  import opened Results
  import opened Calendar
  import opened JournalNumbers
  import opened Payments
  import opened Ledger
  import opened Books
  import Sales
  import Purchases
  import Depreciation

  // ---------------------------------------------------------------- how documents change

  /** An invoice is new and unpaid, or has one more payment within its open amount; the others stay. */
  ghost predicate InvoicesChange(before: seq<Sales.Invoice>, after: seq<Sales.Invoice>)
  {
    || after == before
    || (|after| == |before| + 1 && after == before + [after[|before|]]
        && Sales.InvoiceInvariant(after[|before|]) && after[|before|].payments == [])
    || exists id: nat, p: Payment :: id < |before| && p.amount <= Open(before[id].total, before[id].payments)
         && after == before[id := Sales.Settle(before[id], p)]
  }

  lemma SettledInvoice(before: seq<Sales.Invoice>, id: nat, p: Payment)
    requires id < |before| && p.amount <= Open(before[id].total, before[id].payments)
    ensures InvoicesChange(before, before[id := Sales.Settle(before[id], p)])
  {
    hide Sales.Settle, Open, Sales.InvoiceInvariant;
  }

  lemma InvoicesStep(c: Company, r: Request)
    ensures InvoicesChange(c.invoices, After(c, r).invoices)
  {
    hide InvoicesChange, Posted, Sales.InvoiceInvariant, Sales.Settle, Open, Ledger.CreateEntry, Ledger.ValidateEntry,
         Ledger.StornoEntry, Ledger.ClosePeriod, Ledger.ReopenPeriod, DoCreateBill, DoApproveBill, DoRejectBill,
         DoPayBill, DoCreateDelegation, DoCreateAsset, DoRunDepreciation, DoGeneratePayroll;
    InvoicesSame(c.invoices);
    if Execute(c, r).Ok? {
      if r.CreateInvoice? {
        InvoiceAdded(c, r);
      } else if r.PayInvoice? {
        SettledInvoice(c.invoices, r.id, Payment(r.amount, None));
      } else if r.ReconcileLine? && r.target.CustomerInvoice? {
        SettledInvoice(c.invoices, r.target.id, Payment(Sales.Abs(c.lines[r.id].amount), Some(r.id)));
      } else {
        InvoicesUntouched(c, r);
      }
    }
  }

  lemma InvoicesSame(invoices: seq<Sales.Invoice>)
    ensures InvoicesChange(invoices, invoices)
  {
  }

  lemma InvoiceAdded(c: Company, r: Request)
    requires r.CreateInvoice? && Execute(c, r).Ok?
    ensures InvoicesChange(c.invoices, Execute(c, r).value.invoices)
  {
    hide Posted, Sales.NewInvoice, Sales.InvoiceInvariant, Sales.InvoiceLines;
    var after := Execute(c, r).value.invoices;
    Sales.NewInvoiceInvariant(c.invoices, c.partners, r.number, r.kind, r.stornoOf, r.details, r.date);
    assert after == c.invoices + [after[|c.invoices|]];
  }

  lemma InvoicesUntouched(c: Company, r: Request)
    requires Execute(c, r).Ok? && !r.CreateInvoice? && !r.PayInvoice?
    requires !(r.ReconcileLine? && r.target.CustomerInvoice?)
    ensures Execute(c, r).value.invoices == c.invoices
  {
    hide Posted, Ledger.CreateEntry, Ledger.ValidateEntry, Ledger.StornoEntry, Ledger.ClosePeriod, Ledger.ReopenPeriod,
         Purchases.NewBill, Purchases.Approve, Purchases.Reject, Purchases.Pay, Purchases.Reconcile, Purchases.Delegate,
         Depreciation.RunAll, Depreciation.Sound, ParsePeriod, CurrentPeriod, Known;
  }

  // ---------------------------------------------------------------- invoices

  ghost predicate InvoicesSound(invoices: seq<Sales.Invoice>)
  {
    forall i :: 0 <= i < |invoices| ==> Sales.InvoiceInvariant(invoices[i])
  }

  lemma InvoicesStaySound(before: seq<Sales.Invoice>, after: seq<Sales.Invoice>)
    requires InvoicesSound(before) && InvoicesChange(before, after)
    ensures InvoicesSound(after) && |before| <= |after|
  {
    hide Sales.InvoiceInvariant, Sales.Settle, Open;
    if after != before && !(|after| == |before| + 1 && after == before + [after[|before|]]
                            && Sales.InvoiceInvariant(after[|before|]) && after[|before|].payments == []) {
      var id: nat, p: Payment :| id < |before| && p.amount <= Open(before[id].total, before[id].payments)
        && after == before[id := Sales.Settle(before[id], p)];
      Sales.SettleKeepsInvariant(before[id], p);
    }
  }

  /**
    Over every run payments never exceed an invoice's total, credit notes are never paid, and the status follows:
    of a fiscal invoice it tells what is paid unless the only payments were rounded to 0.
  */
  lemma {:induction false} EveryRunKeepsInvoices(requests: seq<Request>)
    ensures InvoicesSound(Run(requests).invoices)
  {
    if requests != [] {
      EveryRunKeepsInvoices(requests[..|requests| - 1]);
      InvoicesStep(Run(requests[..|requests| - 1]), requests[|requests| - 1]);
      hide After, InvoicesSound, InvoicesChange;
      InvoicesStaySound(Run(requests[..|requests| - 1]).invoices, Run(requests).invoices);
    }
  }

  lemma PaymentsWithinTotal(requests: seq<Request>, i: nat)
    requires i < |Run(requests).invoices|
    ensures var invoice := Run(requests).invoices[i];
      && Paid(invoice.payments) <= (if invoice.kind == Sales.STORNO then 0 else invoice.total)
      && (invoice.kind == Sales.FISCAL ==>
            (Sales.StatusTellsPaid(invoice) <==> invoice.payments == [] || Paid(invoice.payments) > 0))
  {
    EveryRunKeepsInvoices(requests);
    hide Run, Paid, Sales.StatusTellsPaid;
    if Run(requests).invoices[i].kind == Sales.FISCAL {
      Sales.StatusMeansPaid(Run(requests).invoices[i]);
    }
  }

  /** A credit note is the exact negative of an earlier fiscal invoice. */
  predicate CreditNote(invoices: seq<Sales.Invoice>, i: nat)
    requires i < |invoices|
  {
    invoices[i].kind == Sales.STORNO ==>
      && invoices[i].stornoOf.Some? && invoices[i].stornoOf.value < i
      && var source := invoices[invoices[i].stornoOf.value];
         && source.kind == Sales.FISCAL && source.partner == invoices[i].partner
         && invoices[i].subtotal == -source.subtotal && invoices[i].vat == -source.vat
         && invoices[i].total == -source.total
  }

  ghost predicate CreditNotesSound(invoices: seq<Sales.Invoice>)
  {
    forall i :: 0 <= i < |invoices| ==> CreditNote(invoices, i)
  }

  lemma NewCreditNote(c: Company, r: Request)
    requires r.CreateInvoice? && Execute(c, r).Ok? && InvoicesSound(c.invoices)
    ensures var after := Execute(c, r).value.invoices;
      |after| == |c.invoices| + 1 && after[..|c.invoices|] == c.invoices && CreditNote(after, |c.invoices|)
  {
    hide Posted, Sales.InvoiceLines, Known, CurrentPeriod;
    assert r.kind == Sales.STORNO ==> Sales.InvoiceInvariant(c.invoices[r.stornoOf.value]);
  }

  lemma CreditNotesStep(c: Company, r: Request)
    requires CreditNotesSound(c.invoices) && InvoicesSound(c.invoices)
    ensures CreditNotesSound(After(c, r).invoices)
  {
    InvoicesStep(c, r);
    var before, after := c.invoices, After(c, r).invoices;
    if Execute(c, r).Ok? && r.CreateInvoice? {
      NewCreditNote(c, r);
      hide After, InvoicesSound;
      forall i | 0 <= i < |before| ensures CreditNote(after, i) {
        assert after[..|before|][i] == after[i];
        assert CreditNote(before, i);
      }
    } else if after != before {
      InvoicesOnlyPaid(c, r);
      hide Execute, InvoicesSound, Sales.Settle, Open;
      forall i | 0 <= i < |after| ensures CreditNote(after, i) {
        assert CreditNote(before, i);
      }
    }
  }

  lemma InvoicesOnlyPaid(c: Company, r: Request)
    requires !(r.CreateInvoice? && Execute(c, r).Ok?)
    ensures var after := After(c, r).invoices;
      |after| == |c.invoices| && forall i :: 0 <= i < |after| ==>
        after[i] == c.invoices[i].(payments := after[i].payments, status := after[i].status)
  {
    hide Posted, Known, CurrentPeriod, Paid, Sales.ReceiptLines;
    if Execute(c, r).Ok? && !r.PayInvoice? && !(r.ReconcileLine? && r.target.CustomerInvoice?) {
      InvoicesUntouched(c, r);
    }
  }

  /** Over every run each credit note cancels exactly one earlier fiscal invoice of the same partner. */
  lemma {:induction false} EveryCreditNoteCancels(requests: seq<Request>)
    ensures CreditNotesSound(Run(requests).invoices)
  {
    if requests != [] {
      hide After, CreditNotesSound, InvoicesSound;
      EveryCreditNoteCancels(requests[..|requests| - 1]);
      EveryRunKeepsInvoices(requests[..|requests| - 1]);
      CreditNotesStep(Run(requests[..|requests| - 1]), requests[|requests| - 1]);
    }
  }

  // ---------------------------------------------------------------- credited at most once

  predicate Credited(invoices: seq<Sales.Invoice>, id: nat)
  {
    exists i :: 0 <= i < |invoices| && invoices[i].kind == Sales.STORNO && invoices[i].stornoOf == Some(id)
  }

  /** No two credit notes name the same invoice. */
  ghost predicate CreditedOnce(invoices: seq<Sales.Invoice>)
  {
    forall i, k :: 0 <= i < k < |invoices| && invoices[i].kind == Sales.STORNO && invoices[k].kind == Sales.STORNO ==>
      invoices[i].stornoOf != invoices[k].stornoOf
  }

  /** The request does not credit an invoice that has a credit note. */
  predicate CreditsFresh(c: Company, r: Request)
  {
    r.CreateInvoice? && r.kind == Sales.STORNO && Execute(c, r).Ok? && r.stornoOf.Some? ==>
      !Credited(c.invoices, r.stornoOf.value)
  }

  lemma NewInvoiceSource(c: Company, r: Request)
    requires r.CreateInvoice? && Execute(c, r).Ok?
    ensures var after := Execute(c, r).value.invoices;
      && |after| == |c.invoices| + 1 && after[..|c.invoices|] == c.invoices
      && after[|c.invoices|].kind == r.kind && after[|c.invoices|].payments == []
      && (r.kind == Sales.STORNO ==> r.stornoOf.Some? && after[|c.invoices|].stornoOf == r.stornoOf)
  {
    hide Posted, Sales.InvoiceLines, Known, CurrentPeriod;
  }

  lemma CreditedOnceStep(c: Company, r: Request)
    requires CreditNotesSound(c.invoices)
    ensures CreditedOnce(After(c, r).invoices) <==> CreditedOnce(c.invoices) && CreditsFresh(c, r)
  {
    var before, after := c.invoices, After(c, r).invoices;
    if Execute(c, r).Ok? && r.CreateInvoice? {
      NewInvoiceSource(c, r);
      hide After, Execute;
      CreditedOnceAppend(before, after);
      if r.kind == Sales.STORNO && !CreditsFresh(c, r) {
        var i :| 0 <= i < |before| && before[i].kind == Sales.STORNO && before[i].stornoOf == r.stornoOf;
        assert Clashes(before, after[|before|], i);
      }
    } else {
      InvoicesOnlyPaid(c, r);
      hide Execute, After;
      assert forall i :: 0 <= i < |after| ==>
          after[i].kind == before[i].kind && after[i].stornoOf == before[i].stornoOf;
      if CreditedOnce(after) {
        forall i, k | 0 <= i < k < |before| && before[i].kind == Sales.STORNO && before[k].kind == Sales.STORNO
          ensures before[i].stornoOf != before[k].stornoOf
        {
          assert after[i].kind == Sales.STORNO && after[k].kind == Sales.STORNO;
        }
      }
    }
  }

  predicate Clashes(before: seq<Sales.Invoice>, added: Sales.Invoice, i: nat)
  {
    && i < |before| && before[i].kind == Sales.STORNO && added.kind == Sales.STORNO
    && before[i].stornoOf == added.stornoOf
  }

  lemma CreditedOnceAppend(before: seq<Sales.Invoice>, after: seq<Sales.Invoice>)
    requires |after| == |before| + 1 && after[..|before|] == before
    ensures CreditedOnce(after) <==> CreditedOnce(before) && forall i: nat :: !Clashes(before, after[|before|], i)
  {
    var n := |before|;
    assert forall i :: 0 <= i < n ==> after[..n][i] == after[i];
    if CreditedOnce(after) {
      forall i: nat ensures !Clashes(before, after[n], i) {
        assert i < n ==> after[i] == before[i];
      }
      forall i, k | 0 <= i < k < n && before[i].kind == Sales.STORNO && before[k].kind == Sales.STORNO
        ensures before[i].stornoOf != before[k].stornoOf
      {
        assert after[i] == before[i] && after[k] == before[k];
      }
    }
    if CreditedOnce(before) && forall i: nat :: !Clashes(before, after[n], i) {
      forall i, k | 0 <= i < k < n + 1 && after[i].kind == Sales.STORNO && after[k].kind == Sales.STORNO
        ensures after[i].stornoOf != after[k].stornoOf
      {
        assert k == n ==> !Clashes(before, after[n], i);
      }
    }
  }

  /** No credit note of the run was made for an invoice that had one. */
  predicate EveryCreditFresh(requests: seq<Request>)
  {
    requests == [] ||
    var front, last := requests[..|requests| - 1], requests[|requests| - 1];
    EveryCreditFresh(front) && CreditsFresh(Run(front), last)
  }

  /** Over every run no invoice is credited twice if and only if no credit note was made for an invoice that had one. */
  lemma {:induction false} EveryInvoiceCreditedOnce(requests: seq<Request>)
    ensures CreditedOnce(Run(requests).invoices) <==> EveryCreditFresh(requests)
  {
    if requests != [] {
      var front, last := requests[..|requests| - 1], requests[|requests| - 1];
      EveryInvoiceCreditedOnce(front);
      EveryCreditNoteCancels(front);
      hide After, CreditNotesSound, CreditedOnce, CreditsFresh;
      CreditedOnceStep(Run(front), last);
    }
  }

  function Renumbered(r: Request, number: string): Request
    requires r.CreateInvoice?
  {
    CreateInvoice(number, r.kind, r.stornoOf, r.details, r.date, r.autoPost, r.saleCodes)
  }

  /** Whether the journal has a number left for the entry the request posts, if it posts one. */
  predicate CanNumber(c: Company, r: Request)
    requires r.CreateInvoice?
  {
    r.autoPost ==> Issue(Numbers(c.journal.entries), Year(r.date)).Ok?
  }

  /**
    Nothing refuses a second credit note: from any state that takes one, the same request with a free number is taken
    too, unless it posts an entry and the numbers of the year have run out.
  */
  lemma CreditedTwice(c: Company, r: Request, number: string)
    requires r.CreateInvoice? && r.kind == Sales.STORNO && Execute(c, r).Ok?
    requires forall i :: i in After(c, r).invoices ==> i.number != number
    ensures var once, again := After(c, r), Renumbered(r, number);
      && (Execute(once, again).Ok? <==> CanNumber(once, again))
      && (Execute(once, again).Ok? ==> !CreditedOnce(After(once, again).invoices))
  {
    var once, again := After(c, r), Renumbered(r, number);
    NewInvoiceSource(c, r);
    TakenAgain(c, r, number);
    if Execute(once, again).Ok? {
      NewInvoiceSource(once, again);
      hide Execute, After;
      var n := |c.invoices|;
      assert After(once, again).invoices[..n + 1][n] == once.invoices[n];
      assert After(once, again).invoices[n].kind == After(once, again).invoices[n + 1].kind == Sales.STORNO;
    }
  }

  lemma TakenAgain(c: Company, r: Request, number: string)
    requires r.CreateInvoice? && r.kind == Sales.STORNO && Execute(c, r).Ok?
    requires forall i :: i in After(c, r).invoices ==> i.number != number
    ensures Execute(After(c, r), Renumbered(r, number)).Ok? <==> CanNumber(After(c, r), Renumbered(r, number))
  {
    hide Sales.InvoiceLines, Issue, Numbers, CurrentPeriod;
    var source := r.stornoOf.value;
    assert After(c, r).invoices[source] == c.invoices[source];
  }

  // ---------------------------------------------------------------- only fiscal invoices are paid

  ghost predicate OnlyFiscalPaid(invoices: seq<Sales.Invoice>)
  {
    forall i :: 0 <= i < |invoices| ==> Sales.PaidMeansFiscal(invoices[i])
  }

  /** The request does not pay a proforma or a credit note by reconciling a line with it. */
  predicate ReconcilesFiscal(c: Company, r: Request)
  {
    r.ReconcileLine? && r.target.CustomerInvoice? && r.target.id < |c.invoices| && Execute(c, r).Ok? ==>
      c.invoices[r.target.id].kind == Sales.FISCAL
  }

  lemma OnlyFiscalPaidUpdate(before: seq<Sales.Invoice>, id: nat, invoice: Sales.Invoice)
    requires id < |before|
    requires Sales.PaidMeansFiscal(invoice) ==> Sales.PaidMeansFiscal(before[id])
    ensures OnlyFiscalPaid(before[id := invoice]) <==> OnlyFiscalPaid(before) && Sales.PaidMeansFiscal(invoice)
  {
    hide Sales.PaidMeansFiscal;
    var after := before[id := invoice];
    if OnlyFiscalPaid(after) {
      forall i | 0 <= i < |before| ensures Sales.PaidMeansFiscal(before[i]) {
        assert Sales.PaidMeansFiscal(after[i]);
      }
      assert Sales.PaidMeansFiscal(after[id]);
    }
  }

  lemma OnlyFiscalPaidAppend(before: seq<Sales.Invoice>, after: seq<Sales.Invoice>)
    requires |after| == |before| + 1 && after[..|before|] == before && after[|before|].payments == []
    ensures OnlyFiscalPaid(after) <==> OnlyFiscalPaid(before)
  {
    forall i | 0 <= i < |before| ensures after[i] == before[i] {
      assert after[..|before|][i] == before[i];
    }
    if OnlyFiscalPaid(after) {
      forall i | 0 <= i < |before| ensures Sales.PaidMeansFiscal(before[i]) {
        assert Sales.PaidMeansFiscal(after[i]);
      }
    }
  }

  lemma SettledKind(invoice: Sales.Invoice, amount: nat, line: nat)
    ensures Sales.Pay(invoice, amount).Ok? ==>
              Sales.PaidMeansFiscal(invoice) && Sales.PaidMeansFiscal(Sales.Pay(invoice, amount).value)
    ensures Sales.Reconcile(invoice, amount, line).Ok? && invoice.kind == Sales.FISCAL ==>
              Sales.PaidMeansFiscal(invoice)
  {
  }

  lemma OnlyFiscalPaidStep(c: Company, r: Request)
    ensures OnlyFiscalPaid(After(c, r).invoices) <==> OnlyFiscalPaid(c.invoices) && ReconcilesFiscal(c, r)
  {
    hide Posted, Known, CurrentPeriod, Sales.NewInvoice, Sales.Pay, Sales.Reconcile, Sales.InvoiceLines,
         Sales.ReceiptLines, OnlyFiscalPaid, Sales.PaidMeansFiscal;
    if Execute(c, r).Ok? {
      if r.CreateInvoice? {
        NewInvoiceSource(c, r);
        OnlyFiscalPaidAppend(c.invoices, After(c, r).invoices);
      } else if r.PayInvoice? {
        SettledKind(c.invoices[r.id], r.amount, 0);
        OnlyFiscalPaidUpdate(c.invoices, r.id, Sales.Pay(c.invoices[r.id], r.amount).value);
      } else if r.ReconcileLine? && r.target.CustomerInvoice? {
        var amount := Sales.Abs(c.lines[r.id].amount);
        SettledKind(c.invoices[r.target.id], amount, r.id);
        Sales.ReconcileKeepsKind(c.invoices[r.target.id], amount, r.id);
        OnlyFiscalPaidUpdate(c.invoices, r.target.id, Sales.Reconcile(c.invoices[r.target.id], amount, r.id).value);
      } else {
        InvoicesUntouched(c, r);
      }
    }
  }

  predicate EveryReconcileFiscal(requests: seq<Request>)
  {
    requests == [] ||
    var front, last := requests[..|requests| - 1], requests[|requests| - 1];
    EveryReconcileFiscal(front) && ReconcilesFiscal(Run(front), last)
  }

  /** Over every run only fiscal invoices carry payments if and only if only such were reconciled with a bank line. */
  lemma {:induction false} OnlyFiscalInvoicesPaid(requests: seq<Request>)
    ensures OnlyFiscalPaid(Run(requests).invoices) <==> EveryReconcileFiscal(requests)
  {
    if requests != [] {
      var front, last := requests[..|requests| - 1], requests[|requests| - 1];
      OnlyFiscalInvoicesPaid(front);
      hide After, OnlyFiscalPaid, ReconcilesFiscal;
      OnlyFiscalPaidStep(Run(front), last);
    }
  }

  /** Reconciliation asks no invoice for its kind: a proforma, never payable, becomes PAID. */
  lemma ProformaPaidByReconciling(partner: string, number: string, date: Date, amount: nat)
    requires amount > 0
    ensures var proforma := Sales.NewInvoice([], {partner}, number, Sales.PROFORMA, None,
                                             Some(Sales.Details(partner, date, amount, 0)), date);
      && proforma.Ok? && Sales.Pay(proforma.value, amount).Err?
      && Sales.Reconcile(proforma.value, amount, 0).Ok?
      && Sales.Reconcile(proforma.value, amount, 0).value.status == Sales.PAID
  {
    assert Paid([]) == 0;
  }

  // ---------------------------------------------------------------- supplier invoices

  /** Every supplier invoice has its chain and its payments in order. */
  ghost predicate BillsSound(bills: seq<Purchases.Bill>)
  {
    forall i :: 0 <= i < |bills| ==> Purchases.BillInvariant(bills[i])
  }

  /** One supplier invoice appended, unpaid, or one changed. */
  ghost predicate BillsChange(before: seq<Purchases.Bill>, after: seq<Purchases.Bill>)
  {
    || after == before
    || (|after| == |before| + 1 && after == before + [after[|before|]] && Purchases.BillInvariant(after[|before|])
        && after[|before|].payments == [])
    || exists id: nat :: id < |before| && BillChanges(before, after, id)
  }

  /** Still sound, with payments and log only extended, and still approved if it was approved and paid. */
  predicate BillChanges(before: seq<Purchases.Bill>, after: seq<Purchases.Bill>, id: nat)
    requires id < |before|
  {
    && |after| == |before| && after == before[id := after[id]]
    && (Purchases.BillInvariant(before[id]) ==> Purchases.BillInvariant(after[id]))
    && before[id].payments <= after[id].payments
    && (before[id].approval == Purchases.APPROVED && before[id].payments != [] ==>
          after[id].approval == Purchases.APPROVED)
    && before[id].log <= after[id].log
  }

  lemma BillsStep(c: Company, r: Request)
    ensures BillsChange(c.bills, After(c, r).bills)
  {
    hide BillsChange, Posted, DoCreateInvoice, DoPayInvoice, ReconcileCustomer, Purchases.NewBill, Purchases.Approve,
         Purchases.Reject, Purchases.Pay, Purchases.Reconcile, Known, CurrentPeriod;
    BillsSame(c.bills);
    if Execute(c, r).Ok? {
      if r.CreateBill? {
        BillAdded(c, r);
      } else if r.ApproveBill? {
        BillApproved(c, r);
      } else if r.RejectBill? {
        BillRejected(c, r);
      } else if r.PayBill? {
        BillSettled(c.bills, r.id, Payment(r.amount, None), Purchases.Pay(c.bills[r.id], r.amount));
      } else if r.ReconcileLine? && r.target.SupplierInvoice? {
        var amount := Sales.Abs(c.lines[r.id].amount);
        BillSettled(c.bills, r.target.id, Payment(amount, Some(r.id)),
                    Purchases.Reconcile(c.bills[r.target.id], amount, r.id));
      } else {
        BillsUntouched(c, r);
      }
    }
  }

  lemma BillsSame(bills: seq<Purchases.Bill>)
    ensures BillsChange(bills, bills)
  {
  }

  lemma BillAdded(c: Company, r: Request)
    requires r.CreateBill? && Execute(c, r).Ok?
    ensures BillsChange(c.bills, Execute(c, r).value.bills)
  {
    hide Posted, Purchases.NewBill, Purchases.BillInvariant, Purchases.BillLines;
    var after := Execute(c, r).value.bills;
    BillStartsUnpaid(c, r);
    Purchases.NewBillInvariant(c.suppliers, r.number, r.supplier, r.date, r.due, r.subtotal, r.vat, r.parts);
    assert after == c.bills + [after[|c.bills|]];
  }

  lemma BillStartsUnpaid(c: Company, r: Request)
    requires r.CreateBill?
    ensures var made := Purchases.NewBill(c.suppliers, r.number, r.supplier, r.date, r.due, r.subtotal, r.vat, r.parts);
      made.Ok? ==> made.value.payments == []
  {
  }

  lemma OneBillChanged(before: seq<Purchases.Bill>, id: nat, bill: Purchases.Bill)
    requires id < |before|
    requires Purchases.BillInvariant(before[id]) ==> Purchases.BillInvariant(bill)
    requires before[id].payments <= bill.payments && before[id].log <= bill.log
    requires before[id].approval == Purchases.APPROVED && before[id].payments != [] ==>
              bill.approval == Purchases.APPROVED
    ensures BillsChange(before, before[id := bill])
  {
    hide Purchases.BillInvariant;
    assert BillChanges(before, before[id := bill], id);
  }

  lemma BillApproved(c: Company, r: Request)
    requires r.ApproveBill? && Execute(c, r).Ok?
    ensures BillsChange(c.bills, Execute(c, r).value.bills)
  {
    var bill := c.bills[r.id];
    var after := Purchases.Approve(bill, c.team, r.actor, r.now).value;
    assert bill.log <= after.log && bill.payments == after.payments;
    Purchases.PaidApprovalIsFinal(bill, c.team, r.actor, r.now);
    hide Purchases.BillInvariant, Purchases.Approve, BillsChange;
    if Purchases.BillInvariant(bill) {
      Purchases.ApproveKeepsInvariant(bill, c.team, r.actor, r.now);
    }
    OneBillChanged(c.bills, r.id, after);
  }

  lemma BillRejected(c: Company, r: Request)
    requires r.RejectBill? && Execute(c, r).Ok?
    ensures BillsChange(c.bills, Execute(c, r).value.bills)
  {
    var bill := c.bills[r.id];
    var after := Purchases.Reject(bill, c.team, r.actor, r.now).value;
    assert bill.log <= after.log && bill.payments == after.payments;
    Purchases.PaidApprovalIsFinal(bill, c.team, r.actor, r.now);
    hide Purchases.BillInvariant, Purchases.Reject, BillsChange;
    if Purchases.BillInvariant(bill) {
      Purchases.RejectKeepsInvariant(bill, c.team, r.actor, r.now);
    }
    OneBillChanged(c.bills, r.id, after);
  }

  lemma BillSettled(bills: seq<Purchases.Bill>, id: nat, p: Payment, paid: Result<Purchases.Bill>)
    requires id < |bills| && paid.Ok?
    requires paid == if p.line.None? then Purchases.Pay(bills[id], p.amount)
                     else Purchases.Reconcile(bills[id], p.amount, p.line.value)
    ensures BillsChange(bills, bills[id := paid.value])
    ensures paid.value == Purchases.Settle(bills[id], p) && p.amount <= Open(bills[id].total, bills[id].payments)
  {
    assert paid.value == Purchases.Settle(bills[id], p);
    hide Purchases.BillInvariant, Open, BillsChange;
    if Purchases.BillInvariant(bills[id]) {
      Purchases.SettleKeepsInvariant(bills[id], p);
    }
    OneBillChanged(bills, id, paid.value);
  }

  lemma BillsUntouched(c: Company, r: Request)
    requires Execute(c, r).Ok? && !r.CreateBill? && !r.ApproveBill? && !r.RejectBill? && !r.PayBill?
    requires !(r.ReconcileLine? && r.target.SupplierInvoice?)
    ensures Execute(c, r).value.bills == c.bills
  {
    hide Posted, Ledger.CreateEntry, Ledger.ValidateEntry, Ledger.StornoEntry, Ledger.ClosePeriod, Ledger.ReopenPeriod,
         Sales.NewInvoice, Sales.Pay, Sales.Reconcile, Purchases.Delegate, Depreciation.RunAll, Depreciation.Sound,
         ParsePeriod, CurrentPeriod, Known;
  }

  lemma BillsStaySound(before: seq<Purchases.Bill>, after: seq<Purchases.Bill>)
    requires BillsSound(before) && BillsChange(before, after)
    ensures BillsSound(after)
  {
    hide Purchases.BillInvariant;
  }

  /**
    Over every run, of every supplier invoice: the level is 4 from 50000 on and 3 below, the log matches the status,
    payments never exceed the total, and one made through the purchases routes means it is approved.
  */
  lemma {:induction false} EveryRunKeepsBills(requests: seq<Request>)
    ensures BillsSound(Run(requests).bills)
  {
    if requests != [] {
      EveryRunKeepsBills(requests[..|requests| - 1]);
      BillsStep(Run(requests[..|requests| - 1]), requests[|requests| - 1]);
      hide After, BillsSound, BillsChange;
      BillsStaySound(Run(requests[..|requests| - 1]).bills, Run(requests).bills);
    }
  }

  /**
    Over every run no supplier invoice is overpaid, and its status is truthful unless all its payments were rounded
    to 0.
  */
  lemma BillPaymentsWithinTotal(requests: seq<Request>, i: nat)
    requires i < |Run(requests).bills|
    ensures var bill := Run(requests).bills[i];
      && Paid(bill.payments) <= bill.total
      && (Purchases.StatusTellsPaid(bill) <==> bill.payments == [] || Paid(bill.payments) > 0)
  {
    EveryRunKeepsBills(requests);
    hide Run, Paid, Purchases.StatusTellsPaid, Purchases.ChainInvariant, Purchases.PaidAfterApproval;
    assert Purchases.BillInvariant(Run(requests).bills[i]);
    Purchases.StatusMeansPaid(Run(requests).bills[i]);
  }

  /** Approved and paid, an invoice stays approved for good; payments and log entries are never lost. */
  lemma {:induction false} PaidBillsStayApproved(requests: seq<Request>, more: seq<Request>, i: nat)
    requires i < |Run(requests).bills|
    ensures i < |Run(requests + more).bills|
    ensures var before, after := Run(requests).bills[i], Run(requests + more).bills[i];
      && before.payments <= after.payments && before.log <= after.log
      && (before.approval == Purchases.APPROVED && before.payments != [] ==> after.approval == Purchases.APPROVED)
  {
    if more == [] {
      assert requests + more == requests;
    } else {
      var front, last := more[..|more| - 1], more[|more| - 1];
      PaidBillsStayApproved(requests, front, i);
      BillsStep(Run(requests + front), last);
      RunContinues(requests, more);
      hide After, Run;
    }
  }

  // ---------------------------------------------------------------- paid means approved

  /** The request does not pay, by reconciling a line, a supplier invoice that is not approved. */
  predicate ReconcilesApproved(c: Company, r: Request)
  {
    r.ReconcileLine? && r.target.SupplierInvoice? && r.target.id < |c.bills| && Execute(c, r).Ok? ==>
      c.bills[r.target.id].approval == Purchases.APPROVED
  }

  ghost predicate PaidBillsApproved(bills: seq<Purchases.Bill>)
  {
    forall i :: 0 <= i < |bills| ==> Purchases.PaidMeansApproved(bills[i])
  }

  lemma PaidBillsApprovedStep(c: Company, r: Request)
    requires PaidBillsApproved(c.bills)
    ensures PaidBillsApproved(After(c, r).bills) <==> ReconcilesApproved(c, r)
  {
    hide Posted, DoCreateInvoice, DoPayInvoice, ReconcileCustomer, Known, CurrentPeriod, Purchases.NewBill,
         Purchases.Approve, Purchases.Reject, Purchases.Pay, Purchases.Reconcile;
    if Execute(c, r).Ok? {
      if r.CreateBill? {
        BillStartsUnpaid(c, r);
      } else if r.ApproveBill? || r.RejectBill? {
        assert Purchases.PaidMeansApproved(c.bills[r.id]);
        ApprovalKeepsPaidApproved(c.bills[r.id], c.team, r.actor, r.now);
      } else if r.PayBill? {
        PaymentKeepsPaidApproved(c.bills[r.id], r.amount);
      } else if r.ReconcileLine? && r.target.SupplierInvoice? {
        Purchases.ReconcileKeepsApproval(c.bills[r.target.id], Sales.Abs(c.lines[r.id].amount), r.id);
        if PaidBillsApproved(After(c, r).bills) {
          assert Purchases.PaidMeansApproved(After(c, r).bills[r.target.id]);
        }
      } else {
        BillsUntouched(c, r);
      }
    }
  }

  lemma ApprovalKeepsPaidApproved(bill: Purchases.Bill, team: Purchases.Team, actor: Purchases.Actor, now: int)
    requires Purchases.PaidMeansApproved(bill)
    ensures var approved, rejected :=
              Purchases.Approve(bill, team, actor, now), Purchases.Reject(bill, team, actor, now);
      && (approved.Ok? ==> Purchases.PaidMeansApproved(approved.value))
      && (rejected.Ok? ==> Purchases.PaidMeansApproved(rejected.value))
  {
  }

  lemma PaymentKeepsPaidApproved(bill: Purchases.Bill, amount: nat)
    ensures Purchases.Pay(bill, amount).Ok? ==> Purchases.PaidMeansApproved(Purchases.Pay(bill, amount).value)
  {
  }

  predicate EveryReconcileApproved(requests: seq<Request>)
  {
    requests == [] ||
    var front, last := requests[..|requests| - 1], requests[|requests| - 1];
    EveryReconcileApproved(front) && ReconcilesApproved(Run(front), last)
  }

  /** After each request of the run every invoice with a payment is approved. */
  ghost predicate AlwaysPaidApproved(requests: seq<Request>)
  {
    requests == [] ||
    (AlwaysPaidApproved(requests[..|requests| - 1]) && PaidBillsApproved(Run(requests).bills))
  }

  /** At all times every paid supplier invoice is approved if and only if only approved ones were reconciled. */
  lemma {:induction false} EveryPaidBillIsApproved(requests: seq<Request>)
    ensures AlwaysPaidApproved(requests) <==> EveryReconcileApproved(requests)
    ensures AlwaysPaidApproved(requests) ==> PaidBillsApproved(Run(requests).bills)
  {
    if requests != [] {
      var front, last := requests[..|requests| - 1], requests[|requests| - 1];
      EveryPaidBillIsApproved(front);
      hide After, ReconcilesApproved, PaidBillsApproved;
      if AlwaysPaidApproved(front) {
        PaidBillsApprovedStep(Run(front), last);
      }
    }
  }

  // ---------------------------------------------------------------- who approved

  /** Request n acted on supplier invoice i and left this log entry, its caller authorised at that moment. */
  ghost predicate ActedAt(requests: seq<Request>, n: nat, i: nat, entry: Purchases.Approval)
  {
    && n < |requests|
    && var c, r := Run(requests[..n]), requests[n];
       && (if entry.action == Purchases.APPROVE then r.ApproveBill? else r.RejectBill?)
       && r.id == i && r.actor.user == entry.approvedBy
       && Purchases.Authorised(c.team, r.actor, entry.delegatedFrom, entry.level, r.now)
  }

  lemma NewLogEntry(c: Company, r: Request, i: nat)
    requires i < |After(c, r).bills|
    ensures var bill := After(c, r).bills[i];
      || (i < |c.bills| && bill.log == c.bills[i].log)
      || bill.log == []
      || (&& (r.ApproveBill? || r.RejectBill?) && r.id == i && i < |c.bills| && |bill.log| == |c.bills[i].log| + 1
          && var entry := bill.log[|c.bills[i].log|];
             && bill.log == c.bills[i].log + [entry]
             && (entry.action == Purchases.APPROVE <==> r.ApproveBill?) && entry.approvedBy == r.actor.user
             && Purchases.Authorised(c.team, r.actor, entry.delegatedFrom, entry.level, r.now))
  {
    hide Posted, DoCreateInvoice, DoPayInvoice, ReconcileCustomer, Known, CurrentPeriod, Purchases.NewBill,
         Purchases.Approve, Purchases.Reject, Purchases.Pay, Purchases.Reconcile, Purchases.Authorised;
    if Execute(c, r).Ok? {
      if r.CreateBill? {
        NewBillHasNoLog(c, r);
      } else if r.ApproveBill? || r.RejectBill? {
        DecisionLogged(c.bills[r.id], c.team, r.actor, r.now);
      } else if r.PayBill? {
        SettleKeepsLog(c.bills[r.id], r.amount, 0);
      } else if r.ReconcileLine? && r.target.SupplierInvoice? {
        SettleKeepsLog(c.bills[r.target.id], Sales.Abs(c.lines[r.id].amount), r.id);
      } else {
        BillsUntouched(c, r);
      }
    }
  }

  lemma NewBillHasNoLog(c: Company, r: Request)
    requires r.CreateBill?
    ensures var made := Purchases.NewBill(c.suppliers, r.number, r.supplier, r.date, r.due, r.subtotal, r.vat, r.parts);
      made.Ok? ==> made.value.log == []
  {
  }

  lemma SettleKeepsLog(bill: Purchases.Bill, amount: nat, line: nat)
    ensures Purchases.Pay(bill, amount).Ok? ==> Purchases.Pay(bill, amount).value.log == bill.log
    ensures Purchases.Reconcile(bill, amount, line).Ok? ==>
              Purchases.Reconcile(bill, amount, line).value.log == bill.log
  {
  }

  predicate Logged(before: Purchases.Bill, after: Purchases.Bill, action: Purchases.Action, team: Purchases.Team,
                   actor: Purchases.Actor, now: int)
  {
    && |after.log| == |before.log| + 1
    && var entry := after.log[|before.log|];
       && after.log == before.log + [entry] && entry.action == action && entry.approvedBy == actor.user
       && Purchases.Authorised(team, actor, entry.delegatedFrom, entry.level, now)
  }

  lemma DecisionLogged(bill: Purchases.Bill, team: Purchases.Team, actor: Purchases.Actor, now: int)
    ensures var approved, rejected :=
              Purchases.Approve(bill, team, actor, now), Purchases.Reject(bill, team, actor, now);
      && (approved.Ok? ==> Logged(bill, approved.value, Purchases.APPROVE, team, actor, now))
      && (rejected.Ok? ==> Logged(bill, rejected.value, Purchases.REJECT, team, actor, now))
  {
    hide Purchases.ResolveActor, Purchases.Authorised;
    Purchases.ResolvedActorIsAuthorised(team, actor, Purchases.Clamp(bill.currentLevel), now);
  }

  /** Every log entry was made by a caller who, when he made it, held the role or a live delegation from one who did. */
  lemma {:induction false} EveryDecisionWasAuthorised(requests: seq<Request>, i: nat, k: nat)
    requires i < |Run(requests).bills| && k < |Run(requests).bills[i].log|
    ensures exists n: nat :: ActedAt(requests, n, i, Run(requests).bills[i].log[k])
  {
    var front, last := requests[..|requests| - 1], requests[|requests| - 1];
    var c, entry := Run(front), Run(requests).bills[i].log[k];
    NewLogEntry(c, last, i);
    hide After, Purchases.Authorised;
    if i < |c.bills| && k < |c.bills[i].log| {
      assert c.bills[i].log[k] == entry;
      EveryDecisionWasAuthorised(front, i, k);
      var n: nat :| ActedAt(front, n, i, entry);
      assert front[..n] == requests[..n];
      assert ActedAt(requests, n, i, entry);
    } else {
      assert requests[..|front|] == front;
      assert ActedAt(requests, |front|, i, entry);
    }
  }

  // ---------------------------------------------------------------- delegations

  /** Delegations run forward, to somebody else, and none is stored twice. */
  ghost predicate DelegationsSound(delegations: seq<Purchases.Delegation>)
  {
    && (forall i :: 0 <= i < |delegations| ==>
          delegations[i].startsAt < delegations[i].endsAt && delegations[i].fromUser != delegations[i].toUser)
    && (forall i, k :: 0 <= i < k < |delegations| ==>
          !(delegations[i].fromUser == delegations[k].fromUser && delegations[i].toUser == delegations[k].toUser
            && delegations[i].startsAt == delegations[k].startsAt))
  }

  lemma DelegationsStep(c: Company, r: Request)
    ensures var before, after := c.team.delegations, After(c, r).team.delegations;
      if r.CreateDelegation? && Execute(c, r).Ok? then
        && after == before + [r.delegation]
        && r.delegation.fromUser in c.team.members && r.delegation.toUser in c.team.members
        && Purchases.Approver(c.team.members[r.delegation.fromUser])
        && (r.delegation.fromUser == r.actor.user || r.actor.role == Purchases.ADMIN)
        && (DelegationsSound(before) ==> DelegationsSound(after))
      else after == before
  {
    hide Posted, Ledger.CreateEntry, Ledger.ValidateEntry, Ledger.StornoEntry, Ledger.ClosePeriod, Ledger.ReopenPeriod,
         Sales.NewInvoice, Sales.Pay, Sales.Reconcile, Purchases.NewBill, Purchases.Approve, Purchases.Reject,
         Purchases.Pay, Purchases.Reconcile, Depreciation.RunAll, Depreciation.Sound, ParsePeriod, CurrentPeriod,
         Known, Purchases.Approver;
  }

  /** A delegation comes from an approver of the company, entered by himself or by an administrator. */
  lemma {:induction false} EveryRunKeepsDelegations(requests: seq<Request>)
    ensures DelegationsSound(Run(requests).team.delegations)
  {
    if requests != [] {
      EveryRunKeepsDelegations(requests[..|requests| - 1]);
      DelegationsStep(Run(requests[..|requests| - 1]), requests[|requests| - 1]);
      hide After, Execute, DelegationsSound;
    }
  }
}
