/** Payroll of a month: contributions and tax of every employee, the totals and the entry they are posted with. */
module Payroll {
  import opened Rounding
  import opened Postings

  /** An active employee's gross salary and personal deduction, in cents. */
  datatype Employee = Employee(id: string, gross: nat, deduction: nat)

  datatype Pay = Pay(gross: int, cas: int, cass: int, tax: int, cam: int, net: int)

  /** The line of an employee in a payroll; the gross is in its pay. */
  datatype PayLine = PayLine(employee: string, deduction: int, pay: Pay)

  function Cas(gross: int): int { RoundDiv(gross * 25, 100) }

  function Cass(gross: int): int { RoundDiv(gross * 10, 100) }

  function TaxableBase(gross: int, deduction: int): int
  {
    Max(gross - Cas(gross) - Cass(gross) - deduction, 0)
  }

  function Tax(gross: int, deduction: int): int
  {
    RoundDiv(TaxableBase(gross, deduction) * 10, 100)
  }

  function Cam(gross: int): int { RoundDiv(gross * 225, 10_000) }

  function PayOf(employee: Employee): Pay
  {
    var g := employee.gross;
    var tax := Tax(g, employee.deduction);
    Pay(g, Cas(g), Cass(g), tax, Cam(g), g - Cas(g) - Cass(g) - tax)
  }

  function Net(gross: int, deduction: int): int
  {
    gross - Cas(gross) - Cass(gross) - Tax(gross, deduction)
  }

  // ---------------------------------------------------------------- one employee

  /** One cent more of gross never raises CAS and CASS at once. */
  lemma ContributionsStepApart(gross: nat)
    ensures 0 <= Cas(gross + 1) - Cas(gross) <= 1 && 0 <= Cass(gross + 1) - Cass(gross) <= 1
    ensures Cas(gross + 1) == Cas(gross) || Cass(gross + 1) == Cass(gross)
  {
    hide *;
    CasCents(gross);
    CasCents(gross + 1);
    QuartersAndTenths(gross);
  }

  /** (g + 2) / 4 steps up at odd cents, (g + 5) / 10 at even ones. */
  lemma QuartersAndTenths(g: nat)
    ensures 0 <= (g + 3) / 4 - (g + 2) / 4 <= 1 && 0 <= (g + 6) / 10 - (g + 5) / 10 <= 1
    ensures (g + 3) / 4 == (g + 2) / 4 || (g + 6) / 10 == (g + 5) / 10
  {
    var q, t := (g + 2) / 4, (g + 5) / 10;
    assert g + 2 == 4 * q + (g + 2) % 4 && g + 5 == 10 * t + (g + 5) % 10;
    assert (g + 3) / 4 != q ==> g == 2 * (2 * q) + 1;
    assert (g + 6) / 10 != t ==> g == 2 * (5 * t + 2);
  }

  lemma CasCents(gross: nat)
    ensures Cas(gross) == (gross + 2) / 4 && Cass(gross) == (gross + 5) / 10
  {
  }

  /**
    The columns of an employee's line: CAS is 25% of the gross, CASS 10%, CAM 2.25%, the tax 10% of what the gross
    leaves after CAS, CASS and the deduction, each to the nearest cent; the net is what is left of the gross.
  */
  lemma Rates(employee: Employee)
    ensures var p, g := PayOf(employee), employee.gross;
      && p.gross == g && p.net == g - p.cas - p.cass - p.tax
      && 25 * g - 50 < 100 * p.cas <= 25 * g + 50
      && 10 * g - 50 < 100 * p.cass <= 10 * g + 50
      && 225 * g - 5000 < 10_000 * p.cam <= 225 * g + 5000
      && var base := g - p.cas - p.cass - employee.deduction;
         if base <= 0 then p.tax == 0 else 10 * base - 50 < 100 * p.tax <= 10 * base + 50
  {
    var g := employee.gross;
    RoundDivBounds(g * 25, 100);
    RoundDivBounds(g * 10, 100);
    RoundDivBounds(g * 225, 10_000);
    RoundDivBounds(TaxableBase(g, employee.deduction) * 10, 100);
    hide RoundDiv;
  }

  lemma TaxCents(gross: int, deduction: int)
    ensures Tax(gross, deduction) == (TaxableBase(gross, deduction) + 5) / 10
  {
  }

  lemma {:induction false} NetMonotone(low: nat, high: nat, deduction: nat)
    requires low <= high
    ensures Net(low, deduction) <= Net(high, deduction)
  {
    if low < high {
      NetMonotone(low, high - 1, deduction);
      ContributionsStepApart(high - 1);
      TaxCents(high - 1, deduction);
      TaxCents(high, deduction);
      hide Cas, Cass, Tax;
    }
  }

  /** Net pay is never negative, and a raise never lowers it. */
  lemma NetPay(low: nat, high: nat, deduction: nat)
    requires low <= high
    ensures 0 <= Net(low, deduction) <= Net(high, deduction)
  {
    NetOfNothing(deduction);
    NetMonotone(0, low, deduction);
    NetMonotone(low, high, deduction);
    hide Net;
  }

  lemma NetOfNothing(deduction: nat)
    ensures Net(0, deduction) == 0
  {
    hide Cas, Cass, Tax;
    CasCents(0);
    TaxCents(0, deduction);
    assert TaxableBase(0, deduction) == 0;
  }

  lemma PayNonNegative(employee: Employee)
    ensures var l := PayOf(employee);
      l.net >= 0 && l.cas >= 0 && l.cass >= 0 && l.tax >= 0 && l.cam >= 0
    ensures var l := PayOf(employee); l.gross == l.net + l.cas + l.cass + l.tax
  {
    var g := employee.gross;
    NetPay(g, g, employee.deduction);
    CasCents(g);
    TaxCents(g, employee.deduction);
  }

  // ---------------------------------------------------------------- the run

  function PayLines(employees: seq<Employee>): (lines: seq<PayLine>)
    ensures |lines| == |employees|
    ensures forall i :: 0 <= i < |employees| ==>
              lines[i] == PayLine(employees[i].id, employees[i].deduction, PayOf(employees[i]))
  {
    if employees == [] then []
    else
      var last := employees[|employees| - 1];
      PayLines(employees[..|employees| - 1]) + [PayLine(last.id, last.deduction, PayOf(last))]
  }

  function Plus(a: Pay, b: Pay): Pay
  {
    Pay(a.gross + b.gross, a.cas + b.cas, a.cass + b.cass, a.tax + b.tax, a.cam + b.cam, a.net + b.net)
  }

  /** Column by column. */
  function Totals(lines: seq<PayLine>): Pay
  {
    if lines == [] then Pay(0, 0, 0, 0, 0, 0)
    else Plus(Totals(lines[..|lines| - 1]), lines[|lines| - 1].pay)
  }

  lemma {:induction false} TotalsAddUp(employees: seq<Employee>)
    ensures var t := Totals(PayLines(employees));
      && t.net >= 0 && t.cas >= 0 && t.cass >= 0 && t.tax >= 0 && t.cam >= 0
      && t.gross == t.net + t.cas + t.cass + t.tax
  {
    if employees != [] {
      var front, last := employees[..|employees| - 1], employees[|employees| - 1];
      TotalsAddUp(front);
      PayNonNegative(last);
      hide PayOf;
      assert PayLines(employees)[..|PayLines(front)|] == PayLines(front);
    }
  }

  /** salary expense, CAM expense, salaries payable, CAS, CASS, CAM, tax */
  datatype Codes = Codes(expense: string, camExpense: string, payable: string, cas: string, cass: string,
                         cam: string, tax: string)

  function CodeSet(codes: Codes): set<string>
  {
    {codes.expense, codes.camExpense, codes.payable, codes.cas, codes.cass, codes.cam, codes.tax}
  }

  function JournalLines(totals: Pay, codes: Codes): seq<Line>
  {
    [Line(codes.expense, totals.gross, 0), Line(codes.camExpense, totals.cam, 0), Line(codes.payable, 0, totals.net),
     Line(codes.cas, 0, totals.cas), Line(codes.cass, 0, totals.cass), Line(codes.cam, 0, totals.cam)]
    + if totals.tax > 0 then [Line(codes.tax, 0, totals.tax)] else []
  }

  /** The entry of every payroll balances, with the tax line or, when no tax is due, without it. */
  lemma PayrollBalances(employees: seq<Employee>, codes: Codes)
    ensures Balanced(JournalLines(Totals(PayLines(employees)), codes))
    ensures forall l :: l in JournalLines(Totals(PayLines(employees)), codes) ==> l.debit >= 0 && l.credit >= 0
  {
    hide Totals, PayLines;
    var t := Totals(PayLines(employees));
    TotalsAddUp(employees);
    var six := [Line(codes.expense, t.gross, 0), Line(codes.camExpense, t.cam, 0), Line(codes.payable, 0, t.net),
                Line(codes.cas, 0, t.cas), Line(codes.cass, 0, t.cass), Line(codes.cam, 0, t.cam)];
    SumsOfSix(six);
    if t.tax > 0 {
      SumsAppend(six, Line(codes.tax, 0, t.tax));
    } else {
      assert six + [] == six;
    }
  }

  /** One column of the lines, added up. */
  function Column(lines: seq<PayLine>, column: Pay -> int): int
  {
    if lines == [] then 0 else column(lines[0].pay) + Column(lines[1..], column)
  }

  lemma {:induction false} ColumnSnoc(lines: seq<PayLine>, last: PayLine, column: Pay -> int)
    ensures Column(lines + [last], column) == Column(lines, column) + column(last.pay)
  {
    if lines == [] {
      assert [] + [last] == [last];
    } else {
      ColumnSnoc(lines[1..], last, column);
      assert (lines + [last])[1..] == lines[1..] + [last];
    }
  }

  /** Every total is the sum of its own column. */
  lemma {:induction false} TotalsAreColumns(lines: seq<PayLine>)
    ensures var t := Totals(lines);
      && t.gross == Column(lines, (p: Pay) => p.gross) && t.cas == Column(lines, (p: Pay) => p.cas)
      && t.cass == Column(lines, (p: Pay) => p.cass) && t.tax == Column(lines, (p: Pay) => p.tax)
      && t.cam == Column(lines, (p: Pay) => p.cam) && t.net == Column(lines, (p: Pay) => p.net)
  {
    if lines != [] {
      var front, last := lines[..|lines| - 1], lines[|lines| - 1];
      assert lines == front + [last];
      TotalsAreColumns(front);
      hide Column;
      ColumnSnoc(front, last, (p: Pay) => p.gross);
      ColumnSnoc(front, last, (p: Pay) => p.cas);
      ColumnSnoc(front, last, (p: Pay) => p.cass);
      ColumnSnoc(front, last, (p: Pay) => p.tax);
      ColumnSnoc(front, last, (p: Pay) => p.cam);
      ColumnSnoc(front, last, (p: Pay) => p.net);
    }
  }

  /** What a payroll posts to each account. */
  lemma PayrollPosts(totals: Pay, codes: Codes, account: string)
    requires totals.tax >= 0
    ensures OnAccount(JournalLines(totals, codes), account)
         == At(account, codes.expense, totals.gross) + At(account, codes.camExpense, totals.cam)
            - At(account, codes.payable, totals.net) - At(account, codes.cas, totals.cas)
            - At(account, codes.cass, totals.cass) - At(account, codes.cam, totals.cam)
            - At(account, codes.tax, totals.tax)
  {
    var six := [Line(codes.expense, totals.gross, 0), Line(codes.camExpense, totals.cam, 0),
                Line(codes.payable, 0, totals.net), Line(codes.cas, 0, totals.cas), Line(codes.cass, 0, totals.cass),
                Line(codes.cam, 0, totals.cam)];
    Credited(account, codes.payable, totals.net);
    Credited(account, codes.cas, totals.cas);
    Credited(account, codes.cass, totals.cass);
    Credited(account, codes.cam, totals.cam);
    SixOnAccount(six, account);
    TaxOnAccount(six, totals.tax, codes.tax, account);
    hide OnAccount, At;
  }

  lemma Credited(account: string, code: string, amount: int)
    ensures At(account, code, 0 - amount) == -At(account, code, amount)
  {
  }

  lemma TaxOnAccount(six: seq<Line>, tax: int, code: string, account: string)
    requires tax >= 0
    ensures OnAccount(six + if tax > 0 then [Line(code, 0, tax)] else [], account)
         == OnAccount(six, account) - At(account, code, tax)
  {
    if tax > 0 {
      SumsAppend(six, Line(code, 0, tax));
    } else {
      assert six + [] == six;
    }
    hide OnAccount;
  }

  lemma SixOnAccount(l: seq<Line>, account: string)
    requires |l| == 6
    ensures OnAccount(l, account)
         == At(account, l[0].account, l[0].debit - l[0].credit) + At(account, l[1].account, l[1].debit - l[1].credit)
            + At(account, l[2].account, l[2].debit - l[2].credit) + At(account, l[3].account, l[3].debit - l[3].credit)
            + At(account, l[4].account, l[4].debit - l[4].credit) + At(account, l[5].account, l[5].debit - l[5].credit)
  {
    hide Debits, Credits, OnAccount;
    SumsOfThree(l[..3]);
    SumsAppend(l[..3], l[3]);
    SumsAppend(l[..4], l[4]);
    SumsAppend(l[..5], l[5]);
    assert l[..3] + [l[3]] == l[..4] && l[..4] + [l[4]] == l[..5] && l[..5] + [l[5]] == l;
  }

  /** The accumulator of the reduce: one running total per column. */
  method ComputeTotals(lines: seq<PayLine>) returns (totals: Pay)
    ensures totals == Totals(lines)
  {
    var gross, cas, cass, tax, cam, net := 0, 0, 0, 0, 0, 0;
    for k := 0 to |lines|
      invariant Pay(gross, cas, cass, tax, cam, net) == Totals(lines[..k])
    {
      var pay := lines[k].pay;
      assert lines[..k + 1][..k] == lines[..k];
      gross, net := gross + pay.gross, net + pay.net;
      cas, cass := cas + pay.cas, cass + pay.cass;
      tax, cam := tax + pay.tax, cam + pay.cam;
    }
    assert lines[..|lines|] == lines;
    return Pay(gross, cas, cass, tax, cam, net);
  }
}
