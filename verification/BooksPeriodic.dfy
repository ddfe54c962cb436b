/** What every run of requests keeps about assets and payrolls. */
module BooksPeriodic {
  import opened Results
  import opened Calendar
  import opened Ledger
  import opened Books
  import Sales
  import Purchases
  import Depreciation
  import Payroll

  // ---------------------------------------------------------------- assets

  /** The periods of the runs that went through after the asset was created. */
  function History(requests: seq<Request>, i: nat): seq<string>
  {
    if requests == [] then []
    else
      var front, last := requests[..|requests| - 1], requests[|requests| - 1];
      if last.RunDepreciation? && i < |Run(front).assets| && Execute(Run(front), last).Ok?
      then History(front, i) + [last.name] else History(front, i)
  }

  lemma AssetsStep(c: Company, r: Request)
    ensures var after := After(c, r).assets;
      if Execute(c, r).Err? then after == c.assets
      else if r.CreateAsset? then after == c.assets + [Depreciation.Asset(r.plan, [])] && Depreciation.Sound(r.plan)
      else if r.RunDepreciation? then after == Depreciation.RunAll(c.assets, r.name)
      else after == c.assets
  {
    hide Posted, Ledger.CreateEntry, Ledger.ValidateEntry, Ledger.StornoEntry, Ledger.ClosePeriod, Ledger.ReopenPeriod,
         Sales.NewInvoice, Sales.Pay, Sales.Reconcile, Purchases.NewBill, Purchases.Approve, Purchases.Reject,
         Purchases.Pay, Purchases.Reconcile, Purchases.Delegate, Depreciation.RunAll, Depreciation.Sound, ParsePeriod,
         CurrentPeriod, Known;
  }

  lemma {:induction false} NoHistoryYet(requests: seq<Request>, i: nat)
    requires i >= |Run(requests).assets|
    ensures History(requests, i) == []
  {
    if requests != [] {
      var front, last := requests[..|requests| - 1], requests[|requests| - 1];
      AssetsStep(Run(front), last);
      hide After, Execute;
      NoHistoryYet(front, i);
    }
  }

  /**
    Over every run an asset is what replaying its runs in their order makes of its plan; so all said of replays
    holds.
  */
  lemma {:induction false} AssetsAreReplays(requests: seq<Request>, i: nat)
    requires i < |Run(requests).assets|
    ensures var a := Run(requests).assets[i];
      a == Depreciation.Replay(a.plan, History(requests, i)) && Depreciation.AssetInvariant(a)
  {
    var front, last := requests[..|requests| - 1], requests[|requests| - 1];
    var c := Run(front);
    AssetsStep(c, last);
    hide After, Execute, Depreciation.AssetInvariant, Depreciation.RunPeriod, Depreciation.Replay;
    if i < |c.assets| {
      AssetsAreReplays(front, i);
      if last.RunDepreciation? {
        Depreciation.ReplaySnoc(c.assets[i].plan, History(front, i), last.name);
      }
    } else {
      Depreciation.ReplayNothing(Run(requests).assets[i].plan);
      NoHistoryYet(front, i);
    }
    Depreciation.EveryOrderKeepsInvariant(Run(requests).assets[i].plan, History(requests, i));
  }

  // ---------------------------------------------------------------- payroll

  /** The totals of every payroll are the sums of its lines, and its gross is what it pays out and withholds. */
  ghost predicate PayrollsSound(payrolls: map<string, PayrollRun>)
  {
    forall name :: name in payrolls ==>
      var run := payrolls[name];
      && run.totals == Payroll.Totals(run.lines)
      && run.totals.gross == run.totals.net + run.totals.cas + run.totals.cass + run.totals.tax
  }

  lemma PayrollsStep(c: Company, r: Request)
    ensures PayrollsSound(c.payrolls) ==> PayrollsSound(After(c, r).payrolls)
    ensures forall name :: name in c.payrolls ==>
              name in After(c, r).payrolls && After(c, r).payrolls[name] == c.payrolls[name]
  {
    hide Posted, Ledger.CreateEntry, Ledger.ValidateEntry, Ledger.StornoEntry, Ledger.ClosePeriod, Ledger.ReopenPeriod,
         Sales.NewInvoice, Sales.Pay, Sales.Reconcile, Purchases.NewBill, Purchases.Approve, Purchases.Reject,
         Purchases.Pay, Purchases.Reconcile, Purchases.Delegate, Depreciation.RunAll, Depreciation.Sound, ParsePeriod,
         CurrentPeriod, Known, Payroll.Totals, Payroll.PayLines, Payroll.JournalLines;
    Payroll.TotalsAddUp(c.employees);
  }

  /** Over every run payrolls add up; there is one for a period and it never changes. */
  lemma {:induction false} EveryRunKeepsPayrolls(requests: seq<Request>, more: seq<Request>, name: string)
    ensures PayrollsSound(Run(requests).payrolls)
    ensures name in Run(requests).payrolls ==>
              && name in Run(requests + more).payrolls
              && Run(requests + more).payrolls[name] == Run(requests).payrolls[name]
    decreases |requests| + |more|
  {
    if more != [] {
      var front, last := more[..|more| - 1], more[|more| - 1];
      EveryRunKeepsPayrolls(requests, front, name);
      PayrollsStep(Run(requests + front), last);
      RunContinues(requests, more);
      hide After, Run, PayrollsSound;
    } else {
      assert requests + more == requests;
      if requests != [] {
        EveryRunKeepsPayrolls(requests[..|requests| - 1], [], name);
        PayrollsStep(Run(requests[..|requests| - 1]), requests[|requests| - 1]);
        hide After, PayrollsSound;
      }
    }
  }
}
