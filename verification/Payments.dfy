/** Payments against a document: what is paid, what is open, which line of a bank statement it came from. */
module Payments {
  import opened Results
  import opened Rounding

  /** Cents; line is the bank statement line that was reconciled, None for a payment entered directly. */
  datatype Payment = Payment(amount: nat, line: Option<nat>)

  function Paid(payments: seq<Payment>): nat
  {
    if payments == [] then 0 else Paid(payments[..|payments| - 1]) + payments[|payments| - 1].amount
  }

  function Open(total: int, payments: seq<Payment>): nat
  {
    Max(total - Paid(payments), 0)
  }

  lemma PaidAppend(payments: seq<Payment>, payment: Payment)
    ensures Paid(payments + [payment]) == Paid(payments) + payment.amount
  {
    assert (payments + [payment])[..|payments|] == payments;
  }

  lemma {:induction false} PaidPositive(payments: seq<Payment>)
    requires payments != [] && forall p :: p in payments ==> p.amount >= 1
    ensures Paid(payments) >= 1
  {
    assert payments[|payments| - 1] in payments;
  }
}
