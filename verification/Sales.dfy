/** Customer invoices: fiscal, proforma and credit notes, and the payments they receive. */
module Sales {
  import opened Results
  import opened Rounding
  import opened Calendar
  import opened Payments
  import opened Postings

  datatype InvoiceKind = FISCAL | PROFORMA | STORNO

  datatype InvoiceStatus = DRAFT | ISSUED | PARTIALLY_PAID | PAID | CANCELLED

  datatype Invoice = Invoice(number: string, kind: InvoiceKind, stornoOf: Option<nat>, partner: string,
                             subtotal: int, vat: int, total: int, status: InvoiceStatus, payments: seq<Payment>)

  /** The fields a FISCAL or PROFORMA invoice must carry; amounts already rounded to cents. */
  datatype Details = Details(partner: string, due: Date, subtotal: int, vat: int)

  datatype Codes = Codes(receivable: string, revenue: string, vat: string)

  function Abs(n: int): int { if n < 0 then -n else n }

  // ---------------------------------------------------------------- create and pay

  /** What is refused before the database is looked at. */
  predicate Malformed(kind: InvoiceKind, stornoOf: Option<nat>, details: Option<Details>, issued: Date)
  {
    || (kind == STORNO) != stornoOf.Some?
    || (kind != STORNO && (details.None? || details.value.subtotal < 0 || details.value.vat < 0
                           || details.value.due.time < issued.time))
  }

  /** The invoice a create request makes. */
  function NewInvoice(invoices: seq<Invoice>, partners: set<string>, number: string, kind: InvoiceKind,
                      stornoOf: Option<nat>, details: Option<Details>, issued: Date): Result<Invoice>
  {
    if Malformed(kind, stornoOf, details, issued) then Err(BadRequest)
    else if kind == STORNO then
      var id := stornoOf.value;
      if id >= |invoices| || invoices[id].kind != FISCAL || invoices[id].status == CANCELLED then Err(BadRequest)
      else
        var subtotal, vat := -Abs(invoices[id].subtotal), -Abs(invoices[id].vat);
        Ok(Invoice(number, kind, stornoOf, invoices[id].partner, subtotal, vat, subtotal + vat, ISSUED, []))
    else
      var d := details.value;
      if d.partner !in partners then Err(BadRequest)
      else Ok(Invoice(number, kind, None, d.partner, d.subtotal, d.vat, d.subtotal + d.vat,
                      if kind == PROFORMA then DRAFT else ISSUED, []))
  }

  function Settle(invoice: Invoice, payment: Payment): Invoice
  {
    var paidAfter := Paid(invoice.payments) + payment.amount;
    invoice.(payments := invoice.payments + [payment],
             status := if paidAfter >= invoice.total then PAID else PARTIALLY_PAID)
  }

  /** The pay route takes fiscal invoices that are issued or partially paid. */
  function Pay(invoice: Invoice, amount: nat): Result<Invoice>
  {
    if invoice.kind != FISCAL then Err(BadRequest)
    else if invoice.status != ISSUED && invoice.status != PARTIALLY_PAID then Err(BadRequest)
    else if amount > Open(invoice.total, invoice.payments) then Err(BadRequest)
    else Ok(Settle(invoice, Payment(amount, None)))
  }

  /** Reconciling a bank line looks at nothing but the open amount. */
  function Reconcile(invoice: Invoice, amount: nat, line: nat): Result<Invoice>
  {
    if amount > Open(invoice.total, invoice.payments) then Err(BadRequest)
    else Ok(Settle(invoice, Payment(amount, Some(line))))
  }

  // ---------------------------------------------------------------- what every step keeps

  function FirstStatus(kind: InvoiceKind): InvoiceStatus
  {
    if kind == PROFORMA then DRAFT else ISSUED
  }

  predicate InvoiceInvariant(invoice: Invoice)
  {
    && invoice.total == invoice.subtotal + invoice.vat
    && (invoice.kind == STORNO ==> invoice.subtotal <= 0 && invoice.vat <= 0 && Paid(invoice.payments) == 0)
    && (invoice.kind != STORNO ==>
          0 <= invoice.subtotal && 0 <= invoice.vat && Paid(invoice.payments) <= invoice.total)
    && (if invoice.payments == [] then invoice.status == FirstStatus(invoice.kind)
        else if Paid(invoice.payments) >= invoice.total then invoice.status == PAID
        else invoice.status == PARTIALLY_PAID)
  }

  lemma NewInvoiceInvariant(invoices: seq<Invoice>, partners: set<string>, number: string, kind: InvoiceKind,
                            stornoOf: Option<nat>, details: Option<Details>, issued: Date)
    requires NewInvoice(invoices, partners, number, kind, stornoOf, details, issued).Ok?
    ensures var invoice := NewInvoice(invoices, partners, number, kind, stornoOf, details, issued).value;
      && InvoiceInvariant(invoice) && invoice.payments == []
      && (kind == STORNO ==> stornoOf.Some? && stornoOf.value < |invoices|)
      && (kind == STORNO && InvoiceInvariant(invoices[stornoOf.value]) ==>
            invoice.total == -invoices[stornoOf.value].total)
  {
  }

  /** A new invoice carries the amounts of its request, a credit note those of its source with the opposite sign. */
  lemma NewInvoiceAmounts(invoices: seq<Invoice>, partners: set<string>, number: string, kind: InvoiceKind,
                          stornoOf: Option<nat>, details: Option<Details>, issued: Date)
    requires NewInvoice(invoices, partners, number, kind, stornoOf, details, issued).Ok?
    requires forall i :: 0 <= i < |invoices| ==> InvoiceInvariant(invoices[i])
    ensures var invoice := NewInvoice(invoices, partners, number, kind, stornoOf, details, issued).value;
      && invoice.number == number && invoice.kind == kind && invoice.stornoOf == stornoOf
      && if kind == STORNO
         then stornoOf.Some? && stornoOf.value < |invoices|
              && invoice.subtotal == -invoices[stornoOf.value].subtotal && invoice.vat == -invoices[stornoOf.value].vat
              && invoice.partner == invoices[stornoOf.value].partner
         else details.Some? && invoice.subtotal == details.value.subtotal && invoice.vat == details.value.vat
              && invoice.partner == details.value.partner
  {
    hide Paid;
    if kind == STORNO {
      assert InvoiceInvariant(invoices[stornoOf.value]);
    }
  }

  lemma SettleKeepsInvariant(invoice: Invoice, payment: Payment)
    requires InvoiceInvariant(invoice) && payment.amount <= Open(invoice.total, invoice.payments)
    ensures InvoiceInvariant(Settle(invoice, payment))
    ensures Open(invoice.total, Settle(invoice, payment).payments)
              == Open(invoice.total, invoice.payments) - payment.amount
  {
    PaidAppend(invoice.payments, payment);
    hide Paid;
  }

  /** Paid in full: with one payment at least, even if the total is 0. */
  predicate PaidInFull(invoice: Invoice)
  {
    invoice.payments != [] && Paid(invoice.payments) >= invoice.total
  }

  /** The invoice with one payment more: PAID if that is all of the total, PARTIALLY_PAID if it is less. */
  predicate PaidMore(invoice: Invoice, after: Invoice, payment: Payment)
  {
    && after == invoice.(payments := after.payments, status := after.status)
    && after.payments == invoice.payments + [payment]
    && (invoice.kind != STORNO ==>
          after.status == if Paid(invoice.payments) + payment.amount == invoice.total then PAID else PARTIALLY_PAID)
  }

  /** The pay route takes any amount up to what is open on a fiscal invoice that is not paid in full. */
  lemma PaymentTaken(invoice: Invoice, amount: nat)
    requires InvoiceInvariant(invoice)
    ensures Pay(invoice, amount).Ok? <==>
              invoice.kind == FISCAL && !PaidInFull(invoice) && Paid(invoice.payments) + amount <= invoice.total
    ensures Pay(invoice, amount).Ok? ==> PaidMore(invoice, Pay(invoice, amount).value, Payment(amount, None))
  {
    hide Paid;
  }

  /** Reconciling takes any amount up to what is open, whatever the kind; of a credit note nothing is. */
  lemma ReconciliationTaken(invoice: Invoice, amount: nat, line: nat)
    requires InvoiceInvariant(invoice) && amount > 0
    ensures Reconcile(invoice, amount, line).Ok? <==>
              invoice.kind != STORNO && Paid(invoice.payments) + amount <= invoice.total
    ensures Reconcile(invoice, amount, line).Ok? ==>
              PaidMore(invoice, Reconcile(invoice, amount, line).value, Payment(amount, Some(line)))
  {
    hide Paid;
  }

  predicate PaidMeansFiscal(invoice: Invoice)
  {
    invoice.payments != [] ==> invoice.kind == FISCAL
  }

  /** Reconciling keeps payments to fiscal invoices exactly when the invoice is one, which it does not check. */
  lemma ReconcileKeepsKind(invoice: Invoice, amount: nat, line: nat)
    requires Reconcile(invoice, amount, line).Ok?
    ensures PaidMeansFiscal(Reconcile(invoice, amount, line).value) <==> invoice.kind == FISCAL
  {
    assert Reconcile(invoice, amount, line).value.payments[|invoice.payments|] == Payment(amount, Some(line));
  }

  /** ISSUED, PARTIALLY_PAID and PAID say that nothing, a part, or all of the total is paid. */
  predicate StatusTellsPaid(invoice: Invoice)
  {
    && (invoice.status == ISSUED <==> Paid(invoice.payments) == 0)
    && (invoice.status == PARTIALLY_PAID <==> 0 < Paid(invoice.payments) < invoice.total)
    && (invoice.status == PAID <==> 0 < Paid(invoice.payments) == invoice.total)
  }

  /** Of a fiscal invoice they do exactly while no payment below half a cent was rounded to an only payment of 0. */
  lemma StatusMeansPaid(invoice: Invoice)
    requires InvoiceInvariant(invoice) && invoice.kind == FISCAL
    ensures StatusTellsPaid(invoice) <==> invoice.payments == [] || Paid(invoice.payments) > 0
    ensures (forall p :: p in invoice.payments ==> p.amount >= 1) ==> StatusTellsPaid(invoice)
  {
    if invoice.payments != [] && forall p :: p in invoice.payments ==> p.amount >= 1 {
      PaidPositive(invoice.payments);
    }
    hide Paid;
    if invoice.payments == [] {
      NothingPaid();
    }
  }

  lemma NothingPaid()
    ensures Paid([]) == 0
  {
  }

  /** After a payment by either route the status is truthful if and only if at least a cent is paid in all. */
  lemma PaymentKeepsStatusTrue(invoice: Invoice, payment: Payment)
    requires InvoiceInvariant(invoice) && invoice.kind == FISCAL
    requires payment.amount <= Open(invoice.total, invoice.payments)
    ensures StatusTellsPaid(Settle(invoice, payment)) <==> Paid(invoice.payments) + payment.amount >= 1
    ensures invoice.status == ISSUED ==> (StatusTellsPaid(Settle(invoice, payment)) <==> payment.amount >= 1)
  {
    SettleKeepsInvariant(invoice, payment);
    PaidAppend(invoice.payments, payment);
    StatusMeansPaid(Settle(invoice, payment));
    NothingPaid();
    hide Paid;
  }

  // ---------------------------------------------------------------- what the routes post

  function InvoiceLines(invoice: Invoice, codes: Codes): seq<Line>
  {
    if invoice.kind == STORNO then
      [Line(codes.receivable, 0, Abs(invoice.total)), Line(codes.revenue, Abs(invoice.subtotal), 0),
       Line(codes.vat, Abs(invoice.vat), 0)]
    else
      [Line(codes.receivable, invoice.total, 0), Line(codes.revenue, 0, invoice.subtotal),
       Line(codes.vat, 0, invoice.vat)]
  }

  function ReceiptLines(amount: nat, bank: string, receivable: string): seq<Line>
  {
    [Line(bank, amount, 0), Line(receivable, 0, amount)]
  }

  lemma InvoiceLinesBalance(invoice: Invoice, codes: Codes)
    requires InvoiceInvariant(invoice)
    ensures Balanced(InvoiceLines(invoice, codes))
    ensures codes.revenue != codes.receivable && codes.vat != codes.receivable ==>
      OnAccount(InvoiceLines(invoice, codes), codes.receivable) == invoice.total
  {
    SumsOfThree(InvoiceLines(invoice, codes));
    hide Debits, Credits, OnAccount;
  }

  lemma ReceiptLinesBalance(amount: nat, bank: string, receivable: string)
    ensures Balanced(ReceiptLines(amount, bank, receivable))
    ensures bank != receivable ==> OnAccount(ReceiptLines(amount, bank, receivable), receivable) == 0 - amount
  {
    SumsOfTwo(ReceiptLines(amount, bank, receivable));
    hide Debits, Credits, OnAccount;
  }

  /** An invoice debits its worth and credits its subtotal to revenue and its VAT to VAT; a credit note the reverse. */
  lemma InvoicePosts(invoice: Invoice, codes: Codes, account: string)
    requires InvoiceInvariant(invoice)
    ensures OnAccount(InvoiceLines(invoice, codes), account)
         == At(account, codes.receivable, invoice.subtotal + invoice.vat)
            - At(account, codes.revenue, invoice.subtotal) - At(account, codes.vat, invoice.vat)
  {
    SumsOfThree(InvoiceLines(invoice, codes));
    hide Debits, Credits, OnAccount;
  }

  /** A receipt brings its amount to the bank and takes it off the receivables. */
  lemma ReceiptPosts(amount: nat, bank: string, receivable: string, account: string)
    ensures OnAccount(ReceiptLines(amount, bank, receivable), account)
         == At(account, bank, amount) - At(account, receivable, amount)
  {
    SumsOfTwo(ReceiptLines(amount, bank, receivable));
    hide Debits, Credits, OnAccount;
  }

  /** The entry of an invoice would pass validateDoubleEntry only if neither the subtotal nor the VAT is zero. */
  lemma ZeroVatLineIsRefused(invoice: Invoice, codes: Codes)
    requires InvoiceInvariant(invoice)
    ensures ValidDoubleEntry(InvoiceLines(invoice, codes), 1) <==> invoice.vat != 0 && invoice.subtotal != 0
  {
    var lines := InvoiceLines(invoice, codes);
    SumsOfThree(lines);
    WholeCentsAgree(Debits(lines), Credits(lines));
    WholeCentsAgree(Credits(lines), Debits(lines));
    assert lines[0] in lines && lines[1] in lines && lines[2] in lines;
    hide Debits, Credits, RoundDiv;
  }
}
