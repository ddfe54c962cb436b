/** Fixed assets: the depreciation of a month, the records it leaves, and what any order of runs adds up to. */
module Depreciation {
  import opened Results
  import opened Rounding
  import opened Calendar

  datatype Method = LINEAR | DEGRESSIVE | ACCELERATED

  /** Amounts in cents; start is the calendar month of the start date. */
  datatype Plan = Plan(value: int, residual: int, life: int, kind: Method, start: nat)

  datatype Record = Record(period: string, amount: int, accumulated: int, bookValue: int)

  datatype Asset = Asset(plan: Plan, records: seq<Record>)

  /** What creating an asset demands. */
  predicate Sound(plan: Plan)
  {
    0 <= plan.residual < plan.value && plan.life > 0
  }

  function Depreciable(plan: Plan): int
  {
    plan.value - plan.residual
  }

  function Compute(plan: Plan, index: int, accumulatedBefore: int): int
  {
    var depreciable, remaining := Depreciable(plan), Depreciable(plan) - accumulatedBefore;
    if remaining <= 0 || index < 0 || index >= plan.life then 0
    else
      var months := Max(plan.life - index, 1);
      var amount := match plan.kind
        case LINEAR => RoundDiv(depreciable, plan.life)
        case DEGRESSIVE => RoundDiv(remaining * 5, months * 4)
        case ACCELERATED => if index == 0 then RoundDiv(depreciable, 2) else RoundDiv(remaining, months);
      Min(Max(amount, 0), remaining)
  }

  function Accumulated(records: seq<Record>): int
  {
    if records == [] then 0 else Accumulated(records[..|records| - 1]) + records[|records| - 1].amount
  }

  predicate HasPeriod(records: seq<Record>, period: string)
  {
    exists r :: r in records && r.period == period
  }

  /** The record of a month, if the asset has none yet and something is left to depreciate. */
  function Planned(asset: Asset, period: string, month: nat): Option<Record>
  {
    var before := Accumulated(asset.records);
    var amount := Compute(asset.plan, month - asset.plan.start, before);
    if HasPeriod(asset.records, period) || amount <= 0 then None
    else Some(Record(period, amount, before + amount,
                     Max(asset.plan.value - (before + amount), asset.plan.residual)))
  }

  function Depreciate(asset: Asset, period: string, month: nat): Asset
  {
    var record := Planned(asset, period, month);
    if record.None? then asset else asset.(records := asset.records + [record.value])
  }

  /** An asset in a run: assets that start after the period are not selected. */
  function RunPeriod(asset: Asset, period: string): Asset
  {
    match ParsePeriod(period)
    case Err(_) => asset
    case Ok((year, month)) =>
      if asset.plan.start <= EndMonth(year, month) then Depreciate(asset, period, EndMonth(year, month)) else asset
  }

  /** An asset after runs for the given periods, in the given order, repeats included. */
  function Replay(plan: Plan, periods: seq<string>): (asset: Asset)
    ensures asset.plan == plan
  {
    if periods == [] then Asset(plan, [])
    else RunPeriod(Replay(plan, periods[..|periods| - 1]), periods[|periods| - 1])
  }

  lemma ReplayNothing(plan: Plan)
    ensures Replay(plan, []) == Asset(plan, [])
  {
  }

  lemma ReplaySnoc(plan: Plan, periods: seq<string>, last: string)
    ensures Replay(plan, periods + [last]) == RunPeriod(Replay(plan, periods), last)
  {
    hide RunPeriod;
    assert (periods + [last])[..|periods|] == periods;
  }

  // ---------------------------------------------------------------- what every order of runs keeps

  function MonthIndex(plan: Plan, period: string): Option<int>
  {
    match ParsePeriod(period)
    case Err(_) => None
    case Ok((year, month)) => Some(EndMonth(year, month) - plan.start)
  }

  predicate InLife(plan: Plan, period: string)
  {
    var index := MonthIndex(plan, period);
    index.Some? && 0 <= index.value < plan.life
  }

  predicate RecordsAddUp(asset: Asset)
  {
    forall k :: 0 <= k < |asset.records| ==>
      var r := asset.records[k];
      && r.amount > 0 && InLife(asset.plan, r.period)
      && r.accumulated == Accumulated(asset.records[..k + 1])
      && r.bookValue == asset.plan.value - r.accumulated
  }

  predicate OnePerPeriod(records: seq<Record>)
  {
    forall i, j :: 0 <= i < j < |records| ==> records[i].period != records[j].period
  }

  /** Never more than the depreciable amount; each book value is value minus accumulated: its max never bites. */
  predicate AssetInvariant(asset: Asset)
  {
    && Sound(asset.plan)
    && 0 <= Accumulated(asset.records) <= Depreciable(asset.plan)
    && RecordsAddUp(asset)
    && OnePerPeriod(asset.records)
  }

  lemma ComputeBounds(plan: Plan, index: int, accumulatedBefore: int)
    requires Sound(plan) && accumulatedBefore <= Depreciable(plan)
    ensures 0 <= Compute(plan, index, accumulatedBefore) <= Depreciable(plan) - accumulatedBefore
  {
    hide RoundDiv;
  }

  lemma ComputeInLife(plan: Plan, index: int, accumulatedBefore: int)
    ensures Compute(plan, index, accumulatedBefore) > 0 ==> 0 <= index < plan.life
  {
    hide RoundDiv;
  }

  /** A run adds one record, of the computed amount, or changes nothing. */
  lemma RunEffect(asset: Asset, period: string)
    ensures var after, before := RunPeriod(asset, period), Accumulated(asset.records);
      if InLife(asset.plan, period) && !HasPeriod(asset.records, period)
           && Compute(asset.plan, MonthIndex(asset.plan, period).value, before) > 0
      then
        var amount := Compute(asset.plan, MonthIndex(asset.plan, period).value, before);
        && after.plan == asset.plan
        && after.records == asset.records + [Record(period, amount, before + amount,
                                                    Max(asset.plan.value - (before + amount), asset.plan.residual))]
        && Accumulated(after.records) == before + amount
      else after == asset
  {
    hide Compute, ParsePeriod, EndMonth, HasPeriod;
    var after := RunPeriod(asset, period);
    if MonthIndex(asset.plan, period).Some? {
      ComputeInLife(asset.plan, MonthIndex(asset.plan, period).value, Accumulated(asset.records));
    }
    if after != asset {
      assert after.records[..|asset.records|] == asset.records;
    }
  }

  lemma RunKeepsInvariant(asset: Asset, period: string)
    requires AssetInvariant(asset)
    ensures AssetInvariant(RunPeriod(asset, period))
    ensures Accumulated(asset.records) <= Accumulated(RunPeriod(asset, period).records)
  {
    hide RunPeriod, Compute, MonthIndex, Accumulated;
    var after := RunPeriod(asset, period);
    RunEffect(asset, period);
    if after != asset {
      ComputeBounds(asset.plan, MonthIndex(asset.plan, period).value, Accumulated(asset.records));
      var n := |asset.records|;
      assert after.records[..n + 1] == after.records;
      forall k | 0 <= k < n
        ensures var r := after.records[k];
          && r == asset.records[k] && r.amount > 0 && InLife(asset.plan, r.period)
          && r.accumulated == Accumulated(after.records[..k + 1])
          && r.bookValue == asset.plan.value - r.accumulated
      {
        assert after.records[..k + 1] == asset.records[..k + 1];
      }
    }
  }

  lemma {:induction false} EveryOrderKeepsInvariant(plan: Plan, periods: seq<string>)
    requires Sound(plan)
    ensures AssetInvariant(Replay(plan, periods))
    ensures forall r :: r in Replay(plan, periods).records ==> r.period in periods
  {
    hide RunPeriod, Compute, InLife, MonthIndex, AssetInvariant;
    if periods == [] {
      FreshAsset(plan);
    } else {
      var front, last := periods[..|periods| - 1], periods[|periods| - 1];
      EveryOrderKeepsInvariant(plan, front);
      RunKeepsInvariant(Replay(plan, front), last);
      RunEffect(Replay(plan, front), last);
    }
  }

  lemma FreshAsset(plan: Plan)
    requires Sound(plan)
    ensures AssetInvariant(Asset(plan, []))
  {
  }

  // ---------------------------------------------------------------- schedules that end at zero

  /** The methods that write everything off with the last month. */
  predicate Closing(plan: Plan)
  {
    plan.kind == DEGRESSIVE || (plan.kind == ACCELERATED && plan.life >= 2)
  }

  lemma LastMonthTakesAll(plan: Plan, accumulatedBefore: int)
    requires Sound(plan) && Closing(plan) && accumulatedBefore <= Depreciable(plan)
    ensures Compute(plan, plan.life - 1, accumulatedBefore) == Depreciable(plan) - accumulatedBefore
  {
    hide RoundDiv;
    var remaining := Depreciable(plan) - accumulatedBefore;
    if plan.kind == DEGRESSIVE {
      RoundDivBetween(remaining, remaining * 5, remaining * 2, 4);
    } else {
      RoundDivBetween(remaining, remaining, remaining, 1);
    }
  }

  /** Once the last month is run, before or after any other, nothing is left. */
  lemma {:induction false} WrittenOff(plan: Plan, periods: seq<string>, last: string)
    requires Sound(plan) && Closing(plan)
    requires last in periods && MonthIndex(plan, last) == Some(plan.life - 1)
    ensures Accumulated(Replay(plan, periods).records) == Depreciable(plan)
  {
    hide RunPeriod, Compute, MonthIndex, Accumulated;
    var front, p := periods[..|periods| - 1], periods[|periods| - 1];
    var before := Replay(plan, front);
    EveryOrderKeepsInvariant(plan, front);
    RunKeepsInvariant(before, p);
    if last in front {
      WrittenOff(plan, front, last);
    } else {
      LastMonthTakesAll(plan, Accumulated(before.records));
      RunEffect(before, p);
    }
  }

  /** Unless it takes all that remains, a degressive month is 5/4 of the equal share, to the nearest cent. */
  lemma DegressiveRate(plan: Plan, index: int, accumulatedBefore: int)
    requires plan.kind == DEGRESSIVE && 0 <= index < plan.life && accumulatedBefore < Depreciable(plan)
    ensures var amount, remaining := Compute(plan, index, accumulatedBefore), Depreciable(plan) - accumulatedBefore;
      var months := plan.life - index;
      if amount == remaining then 5 * remaining + 2 * months >= 4 * (months * remaining)
      else 5 * remaining - 2 * months < 4 * (months * amount) <= 5 * remaining + 2 * months
  {
    hide RoundDiv;
    var remaining, months := Depreciable(plan) - accumulatedBefore, plan.life - index;
    var rounded := RoundDiv(remaining * 5, months * 4);
    RoundDivBounds(remaining * 5, months * 4);
    RoundDivBetween(0, remaining * 5, remaining * 5, months * 4) by {
      MulMono(remaining * 5, 1, months * 4);
    }
    assert (months * 4) * rounded == 4 * (months * rounded);
    MulMono(months, remaining, Max(remaining, rounded));
  }

  /** The first accelerated month takes half, every later one an equal share of what remains, to the nearest cent. */
  lemma AcceleratedRate(plan: Plan, index: int, accumulatedBefore: int)
    requires Sound(plan) && plan.kind == ACCELERATED && 0 <= index < plan.life
    requires accumulatedBefore < Depreciable(plan)
    ensures var amount, remaining := Compute(plan, index, accumulatedBefore), Depreciable(plan) - accumulatedBefore;
      var months := plan.life - index;
      if index == 0 then amount == Min(Depreciable(plan) - Depreciable(plan) / 2, remaining)
      else 2 * remaining - months < 2 * (months * amount) <= 2 * remaining + months
  {
    var remaining, months := Depreciable(plan) - accumulatedBefore, plan.life - index;
    if index == 0 {
      assert RoundDiv(Depreciable(plan), 2) == Depreciable(plan) - Depreciable(plan) / 2;
    } else {
      hide RoundDiv;
      RoundDivBounds(remaining, months);
      RoundDivBetween(0, remaining, remaining, months) by {
        MulMono(remaining, 1, months);
      }
    }
  }

  // ---------------------------------------------------------------- schedules of equal instalments

  /** LINEAR, and ACCELERATED over a single month, take the same amount every month. */
  predicate Level(plan: Plan)
  {
    plan.kind == LINEAR || (plan.kind == ACCELERATED && plan.life == 1)
  }

  function Instalment(plan: Plan): int
    requires plan.life > 0
  {
    if plan.kind == LINEAR then RoundDiv(Depreciable(plan), plan.life) else RoundDiv(Depreciable(plan), 2)
  }

  /** The periods of the asset's life that were run. */
  function Due(plan: Plan, periods: seq<string>): set<string>
  {
    set p | p in periods && InLife(plan, p)
  }

  predicate Taken(asset: Asset, period: string)
    requires asset.plan.life > 0
  {
    || HasPeriod(asset.records, period)
    || Instalment(asset.plan) == 0
    || Accumulated(asset.records) == Depreciable(asset.plan)
  }

  lemma InstalmentTaken(plan: Plan, period: string, accumulatedBefore: int)
    requires Sound(plan) && Level(plan) && InLife(plan, period) && accumulatedBefore <= Depreciable(plan)
    ensures Instalment(plan) >= 0
    ensures Compute(plan, MonthIndex(plan, period).value, accumulatedBefore)
         == Min(Instalment(plan), Depreciable(plan) - accumulatedBefore)
  {
    hide RoundDiv, ParsePeriod;
    var d := Depreciable(plan);
    var n := if plan.kind == LINEAR then plan.life else 2;
    assert d <= n * d by { MulMono(d, 1, n); }
    RoundDivBetween(0, d, d, n);
  }

  lemma OneMoreInstalment(k: nat, instalment: int, depreciable: int)
    requires instalment >= 0 && depreciable >= 0
    ensures var before := Min(k * instalment, depreciable);
      before + Min(instalment, depreciable - before) == Min((k + 1) * instalment, depreciable)
  {
    assert (k + 1) * instalment == k * instalment + instalment;
  }

  /** An instalment for each of the due periods, until nothing is left. */
  predicate LevelState(asset: Asset, due: set<string>)
    requires asset.plan.life > 0
  {
    && Accumulated(asset.records) == Min(|due| * Instalment(asset.plan), Depreciable(asset.plan))
    && forall p :: p in due ==> Taken(asset, p)
  }

  lemma LevelAgain(asset: Asset, due: set<string>, p: string)
    requires AssetInvariant(asset) && Level(asset.plan) && LevelState(asset, due)
    requires !InLife(asset.plan, p) || p in due
    ensures RunPeriod(asset, p) == asset
  {
    hide RunPeriod, Compute, MonthIndex, Accumulated, Instalment, Depreciable;
    RunEffect(asset, p);
    if InLife(asset.plan, p) {
      InstalmentTaken(asset.plan, p, Accumulated(asset.records));
      assert Taken(asset, p);
    }
  }

  lemma LevelAdds(asset: Asset, due: set<string>, p: string)
    requires AssetInvariant(asset) && Level(asset.plan) && LevelState(asset, due)
    requires InLife(asset.plan, p) && p !in due
    requires forall r :: r in asset.records ==> r.period != p
    ensures RunPeriod(asset, p).plan == asset.plan
    ensures LevelState(RunPeriod(asset, p), due + {p})
  {
    hide RunPeriod, Compute, MonthIndex, Accumulated, Instalment, Depreciable, RecordsAddUp, OnePerPeriod;
    var after := RunPeriod(asset, p);
    RunEffect(asset, p);
    InstalmentTaken(asset.plan, p, Accumulated(asset.records));
    OneMoreInstalment(|due|, Instalment(asset.plan), Depreciable(asset.plan));
    if after != asset {
      assert after.records[|asset.records|] in after.records;
      forall r | r in asset.records ensures r in after.records {
      }
    }
  }

  /** Equal instalments, one for every distinct period of the life that was run, until nothing is left. */
  lemma {:induction false} LevelSchedule(plan: Plan, periods: seq<string>)
    requires Sound(plan) && Level(plan)
    ensures Accumulated(Replay(plan, periods).records)
              == Min(|Due(plan, periods)| * Instalment(plan), Depreciable(plan))
    ensures LevelState(Replay(plan, periods), Due(plan, periods))
  {
    hide RunPeriod, Compute, InLife, MonthIndex, AssetInvariant, Instalment, Taken, Depreciable;
    if periods == [] {
      assert Due(plan, periods) == {};
      NothingTaken(plan);
    } else {
      var front, p := periods[..|periods| - 1], periods[|periods| - 1];
      LevelSchedule(plan, front);
      EveryOrderKeepsInvariant(plan, front);
      assert periods == front + [p];
      if !InLife(plan, p) || p in Due(plan, front) {
        assert Due(plan, periods) == Due(plan, front);
        LevelAgain(Replay(plan, front), Due(plan, front), p);
      } else {
        assert Due(plan, periods) == Due(plan, front) + {p};
        LevelAdds(Replay(plan, front), Due(plan, front), p);
      }
    }
  }

  lemma NothingTaken(plan: Plan)
    requires Sound(plan)
    ensures Min(0 * Instalment(plan), Depreciable(plan)) == 0
  {
    hide RoundDiv;
  }

  predicate MonthRun(plan: Plan, periods: set<string>, k: int)
  {
    exists p :: p in periods && MonthIndex(plan, p) == Some(k)
  }

  function Distinct(periods: seq<string>): set<string>
  {
    set p | p in periods
  }

  predicate AllMonthsRun(plan: Plan, periods: seq<string>)
  {
    forall k :: 0 <= k < plan.life ==> MonthRun(plan, Distinct(periods), k)
  }

  lemma {:induction false} AsManyPeriodsAsMonths(plan: Plan, due: set<string>, n: nat)
    requires forall k :: 0 <= k < n ==> MonthRun(plan, due, k)
    ensures |due| >= n
  {
    hide MonthIndex;
    if n > 0 {
      assert MonthRun(plan, due, n - 1);
      var p :| p in due && MonthIndex(plan, p) == Some(n - 1);
      var rest := due - {p};
      forall k | 0 <= k < n - 1 ensures MonthRun(plan, rest, k) {
        assert MonthRun(plan, due, k);
        var q :| q in due && MonthIndex(plan, q) == Some(k);
        assert q in rest;
      }
      AsManyPeriodsAsMonths(plan, rest, n - 1);
    }
  }

  /** LINEAR with every month run leaves less than half a cent per month of life. */
  lemma LinearLeavesCents(plan: Plan, periods: seq<string>)
    requires Sound(plan) && plan.kind == LINEAR && AllMonthsRun(plan, periods)
    ensures var left := Depreciable(plan) - Accumulated(Replay(plan, periods).records);
      0 <= left && 2 * left < plan.life
  {
    LevelSchedule(plan, periods);
    hide Replay, MonthIndex, Accumulated;
    var due := Due(plan, periods);
    forall k | 0 <= k < plan.life ensures MonthRun(plan, due, k) {
      assert MonthRun(plan, Distinct(periods), k);
      var p :| p in periods && MonthIndex(plan, p) == Some(k);
      assert p in due;
    }
    AsManyPeriodsAsMonths(plan, due, plan.life);
    RoundedInstalments(Depreciable(plan), plan.life, |due|);
  }

  lemma RoundedInstalments(depreciable: int, life: int, k: int)
    requires depreciable > 0 && 0 < life <= k
    ensures 0 <= 2 * (depreciable - Min(k * RoundDiv(depreciable, life), depreciable)) < life
  {
    hide RoundDiv;
    RoundDivBounds(depreciable, life);
    RoundDivBetween(0, depreciable, depreciable, life) by {
      MulMono(depreciable, 1, life);
    }
    MulMono(RoundDiv(depreciable, life), life, k);
  }

  /**
    ACCELERATED over a single month takes half and leaves the smaller half behind, unless the month was run
    under two names (years 00yy and 19yy end in the same month): then nothing is left.
  */
  lemma SingleAcceleratedMonth(plan: Plan, periods: seq<string>)
    requires Sound(plan) && plan.kind == ACCELERATED && plan.life == 1
    ensures var left := Depreciable(plan) - Accumulated(Replay(plan, periods).records);
      left == match |Due(plan, periods)| case 0 => Depreciable(plan) case 1 => Depreciable(plan) / 2 case _ => 0
  {
    hide *;
    LevelSingle(plan);
    LevelSchedule(plan, periods);
    Halves(Depreciable(plan), |Due(plan, periods)|);
  }

  lemma LevelSingle(plan: Plan)
    requires Sound(plan) && plan.kind == ACCELERATED && plan.life == 1
    ensures Level(plan) && Depreciable(plan) > 0 && Instalment(plan) == Depreciable(plan) - Depreciable(plan) / 2
  {
  }

  lemma Halves(depreciable: int, k: nat)
    requires depreciable > 0
    ensures depreciable - Min(k * (depreciable - depreciable / 2), depreciable) ==
      match k case 0 => depreciable case 1 => depreciable / 2 case _ => 0
  {
    var half := depreciable - depreciable / 2;
    if k >= 2 {
      MulMono(half, 2, k);
    } else {
      assert k * half == if k == 0 then 0 else half;
    }
  }

  // ---------------------------------------------------------------- two records for one month

  /** Two records of an asset are for one calendar month only if their periods name it as years 00yy and 19yy. */
  lemma RecordsOfOneMonth(asset: Asset, i: nat, k: nat)
    requires AssetInvariant(asset) && i < k < |asset.records|
    requires MonthIndex(asset.plan, asset.records[i].period) == MonthIndex(asset.plan, asset.records[k].period)
    ensures var p, q := ParsePeriod(asset.records[i].period), ParsePeriod(asset.records[k].period);
      && p.Ok? && q.Ok? && p.value.1 == q.value.1
      && ((p.value.0 < 100 && q.value.0 == 1900 + p.value.0) || (q.value.0 < 100 && p.value.0 == 1900 + q.value.0))
  {
    var p, q := asset.records[i].period, asset.records[k].period;
    assert InLife(asset.plan, p) && InLife(asset.plan, q);
    ParsedPeriods(p, q);
    ParsedPeriods(q, p);
    hide ParsePeriod, EndMonth;
    var (a, m) := ParsePeriod(p).value;
    var (b, n) := ParsePeriod(q).value;
    EndMonthsCoincide(a, m, b, n);
  }

  /** What is left rounds to at least a cent for the month. */
  predicate TakesSomething(plan: Plan, index: int, remaining: int)
  {
    && remaining > 0
    && match plan.kind
       case LINEAR => 2 * Depreciable(plan) >= plan.life
       case DEGRESSIVE => 5 * remaining >= 2 * (plan.life - index)
       case ACCELERATED => index == 0 || 2 * remaining >= plan.life - index
  }

  lemma ComputeTakes(plan: Plan, index: int, accumulatedBefore: int)
    requires Sound(plan) && 0 <= index < plan.life
    ensures Compute(plan, index, accumulatedBefore) > 0
       <==> TakesSomething(plan, index, Depreciable(plan) - accumulatedBefore)
  {
    hide RoundDiv;
    var remaining, months := Depreciable(plan) - accumulatedBefore, plan.life - index;
    if remaining > 0 {
      match plan.kind {
        case LINEAR => RoundsToNothing(Depreciable(plan), plan.life);
        case DEGRESSIVE => RoundsToNothing(remaining * 5, months * 4);
        case ACCELERATED =>
          RoundsToNothing(Depreciable(plan), 2);
          RoundsToNothing(remaining, months);
      }
    }
  }

  /**
    After a record for a month, a run under the other name of that month adds a second one if and only if something
    is left that rounds to a cent or more; otherwise it changes nothing. For any method and after any runs before.
  */
  lemma SecondNameAddsRecord(asset: Asset, p: string, q: string)
    requires AssetInvariant(asset) && MonthIndex(asset.plan, p) == MonthIndex(asset.plan, q)
    requires HasPeriod(asset.records, p) && !HasPeriod(asset.records, q)
    ensures InLife(asset.plan, q)
    ensures var after := RunPeriod(asset, q);
      var left := Depreciable(asset.plan) - Accumulated(asset.records);
      if TakesSomething(asset.plan, MonthIndex(asset.plan, q).value, left)
      then |after.records| == |asset.records| + 1 && after.records[|asset.records|].period == q
      else after == asset
  {
    hide RunPeriod, Compute, MonthIndex, Accumulated, TakesSomething;
    var i :| 0 <= i < |asset.records| && asset.records[i].period == p;
    assert InLife(asset.plan, p);
    ComputeTakes(asset.plan, MonthIndex(asset.plan, q).value, Accumulated(asset.records));
    RunEffect(asset, q);
  }

  lemma LevelRun(asset: Asset, p: string)
    requires AssetInvariant(asset) && Level(asset.plan) && InLife(asset.plan, p)
    requires forall r :: r in asset.records ==> r.period != p
    ensures var after, before := RunPeriod(asset, p), Accumulated(asset.records);
      var amount := Min(Instalment(asset.plan), Depreciable(asset.plan) - before);
      && after.plan == asset.plan && AssetInvariant(after) && Accumulated(after.records) == before + amount
      && |after.records| == |asset.records| + (if amount > 0 then 1 else 0)
      && forall r :: r in after.records ==> r in asset.records || r.period == p
  {
    hide RunPeriod, Compute, MonthIndex, Instalment, Depreciable, Accumulated, RecordsAddUp, OnePerPeriod;
    RunKeepsInvariant(asset, p);
    RunEffect(asset, p);
    InstalmentTaken(asset.plan, p, Accumulated(asset.records));
  }

  /** And such a pair of names does leave two linear records, as long as one instalment does not take everything. */
  lemma TwoNamesTwoRecords(plan: Plan, p: string, q: string)
    requires Sound(plan) && plan.kind == LINEAR && p != q && InLife(plan, p) && InLife(plan, q)
    ensures |Replay(plan, [p, q]).records| == 2 <==> 0 < Instalment(plan) < Depreciable(plan)
  {
    hide Replay, RunPeriod, InLife, Instalment, Depreciable, AssetInvariant, Accumulated;
    var none := Asset(plan, []);
    var first := RunPeriod(none, p);
    var second := RunPeriod(first, q);
    TwoRuns(plan, p, q);
    FreshAsset(plan);
    LevelRun(none, p);
    LevelRun(first, q);
    TwoInstalments(Instalment(plan), Depreciable(plan));
  }

  lemma TwoRuns(plan: Plan, p: string, q: string)
    ensures Replay(plan, [p, q]) == RunPeriod(RunPeriod(Asset(plan, []), p), q)
    ensures Accumulated(Asset(plan, []).records) == 0
  {
    ReplayNothing(plan);
    ReplaySnoc(plan, [], p);
    ReplaySnoc(plan, [p], q);
    hide RunPeriod, Replay;
    assert [] + [p] == [p] && [p] + [q] == [p, q];
  }

  lemma TwoInstalments(instalment: int, depreciable: int)
    ensures var one := Min(instalment, depreciable);
      one > 0 && Min(instalment, depreciable - one) > 0 <==> 0 < instalment < depreciable
  {
  }

  // ---------------------------------------------------------------- the run over all assets

  datatype PlannedRecord = PlannedRecord(asset: nat, record: Record)

  function RunAll(assets: seq<Asset>, period: string): (after: seq<Asset>)
    ensures |after| == |assets|
    ensures forall i :: 0 <= i < |assets| ==> after[i] == RunPeriod(assets[i], period)
  {
    if assets == [] then []
    else RunAll(assets[..|assets| - 1], period) + [RunPeriod(assets[|assets| - 1], period)]
  }

  function TotalAccumulated(assets: seq<Asset>): int
  {
    if assets == [] then 0
    else TotalAccumulated(assets[..|assets| - 1]) + Accumulated(assets[|assets| - 1].records)
  }

  function Total(planned: seq<PlannedRecord>): int
  {
    if planned == [] then 0 else Total(planned[..|planned| - 1]) + planned[|planned| - 1].record.amount
  }

  /** The planned records written to their assets. */
  function Written(assets: seq<Asset>, planned: seq<PlannedRecord>): (after: seq<Asset>)
    ensures |after| == |assets|
  {
    if planned == [] then assets
    else
      var before, last := Written(assets, planned[..|planned| - 1]), planned[|planned| - 1];
      if last.asset < |before|
      then before[last.asset := before[last.asset].(records := before[last.asset].records + [last.record])]
      else before
  }

  lemma {:induction false} WrittenToPrefix(assets: seq<Asset>, planned: seq<PlannedRecord>, more: seq<Asset>)
    requires forall p :: p in planned ==> p.asset < |assets|
    ensures Written(assets + more, planned) == Written(assets, planned) + more
  {
    if planned != [] {
      WrittenToPrefix(assets, planned[..|planned| - 1], more);
    }
  }

  /** After k assets: the records planned so far, what writing them does, and what they come to. */
  predicate Planning(assets: seq<Asset>, period: string, planned: seq<PlannedRecord>)
  {
    && (forall p :: p in planned ==> p.asset < |assets|)
    && Written(assets, planned) == RunAll(assets, period)
    && Total(planned) == TotalAccumulated(RunAll(assets, period)) - TotalAccumulated(assets)
    && Total(planned) >= |planned|
    && (planned == [] <==> RunAll(assets, period) == assets)
  }

  lemma PlanningStarts(period: string)
    ensures Planning([], period, [])
  {
  }

  lemma PlanningEnds(assets: seq<Asset>, period: string, planned: seq<PlannedRecord>)
    ensures Planning(assets, period, planned) ==>
      && Written(assets, planned) == RunAll(assets, period)
      && Total(planned) == TotalAccumulated(RunAll(assets, period)) - TotalAccumulated(assets)
      && (planned == [] <==> RunAll(assets, period) == assets)
      && (planned != [] ==> Total(planned) > 0)
  {
    hide Written, RunAll, Total, TotalAccumulated;
  }

  lemma PlanningSkips(assets: seq<Asset>, asset: Asset, period: string, planned: seq<PlannedRecord>)
    ensures Planning(assets, period, planned) && RunPeriod(asset, period) == asset ==>
      Planning(assets + [asset], period, planned)
  {
    hide RunPeriod, Accumulated, Written, RunAll, Total, TotalAccumulated;
    if Planning(assets, period, planned) && RunPeriod(asset, period) == asset {
      Extended(assets, asset, period);
      WrittenToPrefix(assets, planned, [asset]);
      var done := RunAll(assets, period);
      assert done + [asset] == assets + [asset] ==> done == (done + [asset])[..|assets|] == assets;
    }
  }

  lemma Extended(assets: seq<Asset>, asset: Asset, period: string)
    ensures var after := RunPeriod(asset, period);
      && RunAll(assets + [asset], period) == RunAll(assets, period) + [after]
      && TotalAccumulated(assets + [asset]) == TotalAccumulated(assets) + Accumulated(asset.records)
      && TotalAccumulated(RunAll(assets, period) + [after])
           == TotalAccumulated(RunAll(assets, period)) + Accumulated(after.records)
  {
    hide RunPeriod, Accumulated;
    var done := RunAll(assets, period);
    assert (assets + [asset])[..|assets|] == assets;
    assert (done + [RunPeriod(asset, period)])[..|done|] == done;
  }

  lemma PlannedSnoc(assets: seq<Asset>, planned: seq<PlannedRecord>, last: PlannedRecord)
    requires last.asset < |assets|
    ensures var before := Written(assets, planned);
      Written(assets, planned + [last])
        == before[last.asset := before[last.asset].(records := before[last.asset].records + [last.record])]
    ensures Total(planned + [last]) == Total(planned) + last.record.amount
  {
    assert (planned + [last])[..|planned|] == planned;
  }

  lemma AccumulatedSnoc(records: seq<Record>, last: Record)
    ensures Accumulated(records + [last]) == Accumulated(records) + last.amount
  {
    assert (records + [last])[..|records|] == records;
  }

  lemma PlanningAdds(assets: seq<Asset>, asset: Asset, period: string, planned: seq<PlannedRecord>, record: Record)
    requires Planning(assets, period, planned)
    requires RunPeriod(asset, period) == asset.(records := asset.records + [record]) && record.amount > 0
    ensures Planning(assets + [asset], period, planned + [PlannedRecord(|assets|, record)])
  {
    hide RunPeriod, RunAll, Accumulated, Written, Total, TotalAccumulated;
    var last, after := PlannedRecord(|assets|, record), asset.(records := asset.records + [record]);
    Extended(assets, asset, period);
    WrittenToPrefix(assets, planned, [asset]);
    PlannedSnoc(assets + [asset], planned, last);
    AccumulatedSnoc(asset.records, record);
    assert Written(assets + [asset], planned + [last]) == Written(assets, planned) + [after];
    assert after.records != asset.records;
    assert (RunAll(assets, period) + [after])[|assets|] != (assets + [asset])[|assets|];
  }

  /** The loop of a run: which records it plans, and what they come to. */
  method PlanRecords(assets: seq<Asset>, period: string) returns (planned: seq<PlannedRecord>)
    requires ParsePeriod(period).Ok?
    ensures Written(assets, planned) == RunAll(assets, period)
    ensures Total(planned) == TotalAccumulated(RunAll(assets, period)) - TotalAccumulated(assets)
    ensures planned == [] <==> RunAll(assets, period) == assets
    ensures planned != [] ==> Total(planned) > 0
  {
    hide Compute, Accumulated, HasPeriod, Written, Total, TotalAccumulated, RunAll, Planning;
    var (year, month) := ParsePeriod(period).value;
    var end := EndMonth(year, month);
    planned := [];
    PlanningStarts(period);
    assert assets[..0] == [];
    for k := 0 to |assets|
      invariant Planning(assets[..k], period, planned)
    {
      var asset := assets[k];
      assert assets[..k + 1] == assets[..k] + [asset];
      var record := if asset.plan.start <= end then Planned(asset, period, end) else None;
      if record.Some? {
        PlanningAdds(assets[..k], asset, period, planned, record.value);
        planned := planned + [PlannedRecord(k, record.value)];
      } else {
        PlanningSkips(assets[..k], asset, period, planned);
      }
    }
    assert assets[..|assets|] == assets;
    PlanningEnds(assets, period, planned);
  }
}
