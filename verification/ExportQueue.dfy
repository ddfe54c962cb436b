/**
  The export job queue: any number of workers, interleaved between any two of their database calls.
  A worker selects a queued job, claims it by a compare-and-set on its status, reads it back, executes
  it and finishes or requeues it; it may also crash at any point.
*/
module ExportQueue {
  import opened Results

  datatype Status = QUEUED | PROCESSING | DONE | FAILED

  datatype Job = Job(status: Status, attempts: nat, maxAttempts: nat)

  /** Where a worker stands; `Running` carries the row it read after its claim. */
  datatype Worker = Idle | Selected(job: nat) | Claimed(job: nat) | Running(job: nat, row: Job)

  /** Jobs are in the order of creation; `lost` holds those whose worker crashed. */
  datatype State = State(jobs: seq<Job>, workers: map<nat, Worker>, lost: set<nat>)

  datatype Step =
    | Submit(maxAttempts: nat)
    | Select(worker: nat, forced: Option<nat>)
    | Claim(worker: nat)
    | Read(worker: nat)
    | FinishDone(worker: nat)
    | FinishFailed(worker: nat)
    | Crash(worker: nat)

  const Start := State([], map[], {})

  function At(s: State, w: nat): Worker
  {
    if w in s.workers then s.workers[w] else Idle
  }

  /** The oldest queued job. */
  function FirstQueued(jobs: seq<Job>, from: nat): (r: Option<nat>)
    requires from <= |jobs|
    ensures r.Some? ==> from <= r.value < |jobs| && jobs[r.value].status == QUEUED
    ensures forall j :: from <= j < |jobs| && jobs[j].status == QUEUED ==> r.Some? && r.value <= j
    decreases |jobs| - from
  {
    if from == |jobs| then None
    else if jobs[from].status == QUEUED then Some(from)
    else FirstQueued(jobs, from + 1)
  }

  function Candidate(jobs: seq<Job>, forced: Option<nat>): Option<nat>
  {
    if forced.None? then FirstQueued(jobs, 0)
    else if forced.value < |jobs| && jobs[forced.value].status == QUEUED then forced
    else None
  }

  /** The row after a failed execution, decided on the attempts read after the claim. */
  function AfterFailure(job: Job, read: Job): Job
  {
    job.(status := if read.attempts < read.maxAttempts then QUEUED else FAILED)
  }

  function Put(s: State, w: nat, worker: Worker): State
  {
    s.(workers := s.workers[w := worker])
  }

  function PutJob(s: State, j: nat, job: Job): State
  {
    if j < |s.jobs| then s.(jobs := s.jobs[j := job]) else s
  }

  /** One atomic step; a step its worker is not ready for changes nothing. */
  function Next(s: State, step: Step): State
  {
    match step
    case Submit(maxAttempts) =>
      if 1 <= maxAttempts <= 10 then s.(jobs := s.jobs + [Job(QUEUED, 0, maxAttempts)]) else s
    case Select(w, forced) =>
      var found := Candidate(s.jobs, forced);
      if At(s, w).Idle? && found.Some? then Put(s, w, Selected(found.value)) else s
    case Claim(w) =>
      if !At(s, w).Selected? then s
      else
        var j := At(s, w).job;
        if Claims(s, step, j) then
          var job := s.jobs[j];
          PutJob(Put(s, w, Claimed(j)), j, job.(status := PROCESSING, attempts := job.attempts + 1))
        else Put(s, w, Idle)
    case Read(w) =>
      if At(s, w).Claimed? && At(s, w).job < |s.jobs|
      then Put(s, w, Running(At(s, w).job, s.jobs[At(s, w).job])) else s
    case FinishDone(w) =>
      if At(s, w).Running? && At(s, w).job < |s.jobs|
      then PutJob(Put(s, w, Idle), At(s, w).job, s.jobs[At(s, w).job].(status := DONE)) else s
    case FinishFailed(w) =>
      if At(s, w).Running? && At(s, w).job < |s.jobs|
      then PutJob(Put(s, w, Idle), At(s, w).job, AfterFailure(s.jobs[At(s, w).job], At(s, w).row)) else s
    case Crash(w) =>
      if At(s, w).Claimed? || At(s, w).Running?
      then Put(s, w, Idle).(lost := s.lost + {At(s, w).job}) else Put(s, w, Idle)
  }

  /** The step is a claim of job j that wins its compare-and-set. */
  predicate Claims(s: State, step: Step, j: nat)
  {
    step.Claim? && At(s, step.worker) == Selected(j) && j < |s.jobs| && s.jobs[j].status == QUEUED
  }

  /** The step ends an execution. */
  predicate Finishes(s: State, step: Step)
  {
    (step.FinishDone? || step.FinishFailed?) && At(s, step.worker).Running? && At(s, step.worker).job < |s.jobs|
  }

  function Run(steps: seq<Step>): State
  {
    if steps == [] then Start else Next(Run(steps[..|steps| - 1]), steps[|steps| - 1])
  }

  lemma RunSnoc(steps: seq<Step>, last: Step)
    ensures Run(steps + [last]) == Next(Run(steps), last)
  {
    hide Next;
    var all := steps + [last];
    assert all[..|all| - 1] == steps;
  }

  lemma RunContinues(steps: seq<Step>, more: seq<Step>)
    requires more != []
    ensures Run(steps + more) == Next(Run(steps + more[..|more| - 1]), more[|more| - 1])
  {
    hide Next, Run;
    RunSnoc(steps + more[..|more| - 1], more[|more| - 1]);
    assert steps + more == steps + more[..|more| - 1] + [more[|more| - 1]];
  }

  // ---------------------------------------------------------------- safety

  predicate Owns(s: State, w: nat, j: nat)
  {
    var worker := At(s, w);
    (worker.Claimed? || worker.Running?) && worker.job == j
  }

  predicate JobInvariant(job: Job)
  {
    && 1 <= job.maxAttempts
    && (job.status == QUEUED ==> job.attempts < job.maxAttempts)
    && (job.status == PROCESSING || job.status == DONE ==> 1 <= job.attempts <= job.maxAttempts)
    && (job.status == FAILED ==> job.attempts == job.maxAttempts)
  }

  ghost predicate Invariant(s: State)
  {
    && (forall j :: 0 <= j < |s.jobs| ==> JobInvariant(s.jobs[j]))
    && (forall w: nat :: !At(s, w).Idle? ==> At(s, w).job < |s.jobs|)
    && (forall w: nat :: At(s, w).Running? ==> At(s, w).row == s.jobs[At(s, w).job])
    && (forall w: nat, j: nat :: Owns(s, w, j) ==> s.jobs[j].status == PROCESSING && j !in s.lost)
    && (forall v: nat, w: nat, j: nat :: Owns(s, v, j) && Owns(s, w, j) ==> v == w)
    && (forall j :: j in s.lost ==> j < |s.jobs| && s.jobs[j].status == PROCESSING)
    && (forall j :: 0 <= j < |s.jobs| && s.jobs[j].status == PROCESSING ==>
          j in s.lost || exists w: nat :: Owns(s, w, j))
  }

  /** A step moves one worker, and only a winning claim makes it an owner. */
  lemma OwnersAfter(s: State, step: Step)
    requires !step.Submit?
    ensures var t, w := Next(s, step), step.worker;
      && (forall v: nat :: v != w ==> At(t, v) == At(s, v))
      && (forall v: nat, j: nat :: v != w ==> Owns(t, v, j) == Owns(s, v, j))
      && (forall j: nat :: Owns(t, w, j) ==> Owns(s, w, j) || Claims(s, step, j))
  {
    var t, w := Next(s, step), step.worker;
    assert forall v: nat :: v != w ==> At(t, v) == At(s, v);
  }

  lemma OneOwner(s: State, step: Step)
    requires Invariant(s) && !step.Submit?
    ensures var t := Next(s, step);
      forall v: nat, w: nat, j: nat :: Owns(t, v, j) && Owns(t, w, j) ==> v == w
  {
    OwnersAfter(s, step);
    hide Next;
  }

  lemma EveryProcessedJobHasAnOwner(s: State, step: Step)
    requires Invariant(s) && !step.Submit?
    ensures var t := Next(s, step);
      forall j :: 0 <= j < |t.jobs| && t.jobs[j].status == PROCESSING ==> j in t.lost || exists w: nat :: Owns(t, w, j)
  {
    var t, w := Next(s, step), step.worker;
    OwnersAfter(s, step);
    forall j | 0 <= j < |t.jobs| && t.jobs[j].status == PROCESSING && j !in t.lost
      ensures exists v: nat :: Owns(t, v, j)
    {
      if Claims(s, step, j) {
        assert Owns(t, w, j);
      } else {
        var v: nat :| Owns(s, v, j);
        assert Owns(t, v, j);
      }
    }
  }

  lemma SubmitKeepsInvariant(s: State, step: Step)
    requires Invariant(s) && step.Submit?
    ensures Invariant(Next(s, step))
  {
    var t := Next(s, step);
    assert forall v: nat :: At(t, v) == At(s, v);
    assert forall v: nat, j: nat :: Owns(t, v, j) == Owns(s, v, j);
  }

  lemma RowsKeepInvariant(s: State, step: Step)
    requires Invariant(s) && !step.Submit?
    ensures var t := Next(s, step);
      |t.jobs| == |s.jobs| && forall j :: 0 <= j < |t.jobs| ==> JobInvariant(t.jobs[j])
  {
    var w := step.worker;
    assert At(s, w).Running? ==> Owns(s, w, At(s, w).job);
    assert Next(s, step).jobs != s.jobs ==> JobInvariant(s.jobs[At(s, w).job]);
  }

  lemma StepKeepsInvariant(s: State, step: Step)
    requires Invariant(s)
    ensures Invariant(Next(s, step))
  {
    if step.Submit? {
      SubmitKeepsInvariant(s, step);
    } else {
      var t, w := Next(s, step), step.worker;
      OwnersAfter(s, step);
      OneOwner(s, step);
      RowsKeepInvariant(s, step);
      hide JobInvariant;
      EveryProcessedJobHasAnOwner(s, step);
      assert !At(s, w).Idle? && !At(s, w).Selected? ==> Owns(s, w, At(s, w).job);
      forall v: nat | At(t, v).Running? ensures At(t, v).row == t.jobs[At(t, v).job] {
        assert v != w ==> Owns(s, v, At(s, v).job);
      }
    }
  }

  /** In every reachable state at most one worker is between claim and finish of a job, and counts agree. */
  lemma {:induction false} EveryRunKeepsInvariant(steps: seq<Step>)
    ensures Invariant(Run(steps))
  {
    if steps != [] {
      EveryRunKeepsInvariant(steps[..|steps| - 1]);
      StepKeepsInvariant(Run(steps[..|steps| - 1]), steps[|steps| - 1]);
    }
  }

  /** How often job j was claimed in a run. */
  function ClaimCount(steps: seq<Step>, j: nat): nat
  {
    if steps == [] then 0
    else
      var front := steps[..|steps| - 1];
      ClaimCount(front, j) + if Claims(Run(front), steps[|steps| - 1], j) then 1 else 0
  }

  /** The attempts column counts the claims, so no run executes a job more often than it allows. */
  lemma {:induction false} AttemptsAreClaims(steps: seq<Step>, j: nat)
    ensures var jobs := Run(steps).jobs;
      if j < |jobs| then ClaimCount(steps, j) == jobs[j].attempts <= jobs[j].maxAttempts
      else ClaimCount(steps, j) == 0
  {
    EveryRunKeepsInvariant(steps);
    AttemptsBounded(Run(steps));
    if steps != [] {
      var front, last := steps[..|steps| - 1], steps[|steps| - 1];
      AttemptsAreClaims(front, j);
      hide Next, Invariant, Claims;
      AttemptsStep(Run(front), last, j);
    }
  }

  lemma AttemptsBounded(s: State)
    requires Invariant(s)
    ensures forall j :: 0 <= j < |s.jobs| ==> s.jobs[j].attempts <= s.jobs[j].maxAttempts
  {
    forall j | 0 <= j < |s.jobs| ensures s.jobs[j].attempts <= s.jobs[j].maxAttempts {
      assert JobInvariant(s.jobs[j]);
    }
  }

  /** A winning claim adds one attempt to its job, and nothing else touches the column. */
  lemma AttemptsStep(s: State, step: Step, j: nat)
    ensures |s.jobs| <= |Next(s, step).jobs|
    ensures j < |s.jobs| ==>
              Next(s, step).jobs[j].attempts == s.jobs[j].attempts + if Claims(s, step, j) then 1 else 0
    ensures |s.jobs| <= j ==>
              !Claims(s, step, j) && (j < |Next(s, step).jobs| ==> Next(s, step).jobs[j].attempts == 0)
  {
  }

  /** DONE and FAILED rows never change again. */
  lemma {:induction false} TerminalForever(steps: seq<Step>, more: seq<Step>, j: nat)
    requires j < |Run(steps).jobs| && Run(steps).jobs[j].status in {DONE, FAILED}
    ensures j < |Run(steps + more).jobs| && Run(steps + more).jobs[j] == Run(steps).jobs[j]
  {
    hide Run, Next, Invariant;
    if more == [] {
      assert steps + more == steps;
    } else {
      var front, last := more[..|more| - 1], more[|more| - 1];
      TerminalForever(steps, front, j);
      EveryRunKeepsInvariant(steps + front);
      TerminalStays(Run(steps + front), last, j);
      RunContinues(steps, more);
    }
  }

  lemma TerminalStays(s: State, step: Step, j: nat)
    requires Invariant(s) && j < |s.jobs| && s.jobs[j].status in {DONE, FAILED}
    ensures j < |Next(s, step).jobs| && Next(s, step).jobs[j] == s.jobs[j]
  {
    if Finishes(s, step) {
      assert Owns(s, step.worker, At(s, step.worker).job);
    }
  }

  // ---------------------------------------------------------------- termination

  /** What a job can still do: two steps per attempt left, one more while it is processed. */
  function Weight(job: Job): nat
  {
    if job.status == DONE || job.status == FAILED || job.attempts > job.maxAttempts then 0
    else 2 * (job.maxAttempts - job.attempts) + if job.status == PROCESSING then 1 else 0
  }

  function Work(jobs: seq<Job>): nat
  {
    if jobs == [] then 0 else Weight(jobs[0]) + Work(jobs[1..])
  }

  lemma {:induction false} WorkUpdate(jobs: seq<Job>, j: nat, job: Job)
    requires j < |jobs|
    ensures Work(jobs[j := job]) == Work(jobs) - Weight(jobs[j]) + Weight(job)
  {
    if j > 0 {
      WorkUpdate(jobs[1..], j - 1, job);
      assert jobs[j := job][1..] == jobs[1..][j - 1 := job];
    }
  }

  lemma {:induction false} WorkAppend(jobs: seq<Job>, job: Job)
    ensures Work(jobs + [job]) == Work(jobs) + Weight(job)
  {
    if jobs == [] {
      assert [] + [job] == [job];
    } else {
      WorkAppend(jobs[1..], job);
      assert (jobs + [job])[1..] == jobs[1..] + [job];
    }
  }

  predicate Effective(s: State, step: Step)
  {
    Finishes(s, step) || (step.Claim? && At(s, step.worker).Selected? && Claims(s, step, At(s, step.worker).job))
  }

  /** A claim or a finish uses up work; nothing but a new job adds any. */
  lemma StepUsesWork(s: State, step: Step)
    requires Invariant(s)
    ensures Effective(s, step) ==> Work(Next(s, step).jobs) < Work(s.jobs)
    ensures !Effective(s, step) && !step.Submit? ==> Next(s, step).jobs == s.jobs
    ensures step.Submit? ==> Work(Next(s, step).jobs) <= Work(s.jobs) + 2 * step.maxAttempts
  {
    if Effective(s, step) {
      var j := At(s, step.worker).job;
      assert Finishes(s, step) ==> Owns(s, step.worker, j);
      WorkUpdate(s.jobs, j, Next(s, step).jobs[j]);
      assert Next(s, step).jobs == s.jobs[j := Next(s, step).jobs[j]];
    } else if step.Submit? {
      WorkAppend(s.jobs, Job(QUEUED, 0, step.maxAttempts));
    }
  }

  function EffectiveSteps(steps: seq<Step>): nat
  {
    if steps == [] then 0
    else
      var front := steps[..|steps| - 1];
      EffectiveSteps(front) + if Effective(Run(front), steps[|steps| - 1]) then 1 else 0
  }

  function Submitted(steps: seq<Step>): nat
  {
    if steps == [] then 0
    else
      var last := steps[|steps| - 1];
      Submitted(steps[..|steps| - 1]) + if last.Submit? then 2 * last.maxAttempts else 0
  }

  /** Claims and finishes of a run never outnumber twice the attempts submitted: over finitely many jobs it ends. */
  lemma {:induction false} RunsEnd(steps: seq<Step>)
    ensures EffectiveSteps(steps) + Work(Run(steps).jobs) <= Submitted(steps)
  {
    if steps != [] {
      var front := steps[..|steps| - 1];
      RunsEnd(front);
      EveryRunKeepsInvariant(front);
      StepUsesWork(Run(front), steps[|steps| - 1]);
    }
  }

  /** The step is a claim that comes too late: the compare-and-set changes no row. */
  predicate Loses(s: State, step: Step)
  {
    step.Claim? && At(s, step.worker).Selected? && !Claims(s, step, At(s, step.worker).job)
  }

  predicate Wins(s: State, step: Step)
  {
    step.Claim? && At(s, step.worker).Selected? && Claims(s, step, At(s, step.worker).job)
  }

  /** The workers about to lose: their selected job is not queued any more. */
  function Late(s: State): set<nat>
  {
    set w | w in s.workers && s.workers[w].Selected?
            && (s.workers[w].job >= |s.jobs| || s.jobs[s.workers[w].job].status != QUEUED)
  }

  lemma {:induction false} SubsetSize(a: set<nat>, b: set<nat>)
    requires a <= b
    ensures |a| <= |b|
  {
    if a != {} {
      var x :| x in a;
      SubsetSize(a - {x}, b - {x});
    }
  }

  lemma LateAfter(s: State, step: Step)
    requires Invariant(s)
    ensures var t := Next(s, step);
      && s.workers.Keys <= t.workers.Keys && Late(t) <= t.workers.Keys
      && (!Wins(s, step) ==> Late(t) <= if Loses(s, step) then Late(s) - {step.worker} else Late(s))
      && (Loses(s, step) ==> step.worker in Late(s))
  {
    var t := Next(s, step);
    if Finishes(s, step) {
      assert Owns(s, step.worker, At(s, step.worker).job);
    }
    if step.Submit? {
      assert forall w :: w in s.workers && s.workers[w].Selected? ==> At(s, w) == s.workers[w];
    }
  }

  function Count(steps: seq<Step>, lost: bool): nat
  {
    if steps == [] then 0
    else
      var front, last := steps[..|steps| - 1], steps[|steps| - 1];
      Count(front, lost) + if (if lost then Loses(Run(front), last) else Wins(Run(front), last)) then 1 else 0
  }

  /** Lost claims, and the workers about to lose, never outnumber the winning claims times the workers. */
  lemma {:induction false} LostClaimsBounded(steps: seq<Step>)
    ensures var s := Run(steps);
      Count(steps, true) + |Late(s)| <= |s.workers.Keys| * Count(steps, false)
  {
    if steps != [] {
      var front, last := steps[..|steps| - 1], steps[|steps| - 1];
      var s, t := Run(front), Run(steps);
      LostClaimsBounded(front);
      EveryRunKeepsInvariant(front);
      LateAfter(s, last);
      LateStep(s, t, last);
      hide Run, Next, Late, Invariant, Loses, Wins;
      BoundStep(Count(front, true), |Late(s)|, |s.workers.Keys|, Count(front, false), |Late(t)|, |t.workers.Keys|,
                Wins(s, last), Loses(s, last));
    }
  }

  lemma LateStep(s: State, t: State, step: Step)
    requires s.workers.Keys <= t.workers.Keys && Late(t) <= t.workers.Keys
    requires !Wins(s, step) ==> Late(t) <= if Loses(s, step) then Late(s) - {step.worker} else Late(s)
    requires Loses(s, step) ==> step.worker in Late(s)
    ensures |s.workers.Keys| <= |t.workers.Keys| && |Late(t)| <= |t.workers.Keys|
    ensures !Wins(s, step) ==> |Late(t)| + (if Loses(s, step) then 1 else 0) <= |Late(s)|
    ensures !(Wins(s, step) && Loses(s, step))
  {
    assert !(Wins(s, step) && Loses(s, step));
    hide Late, Wins, Loses;
    SubsetSize(s.workers.Keys, t.workers.Keys);
    SubsetSize(Late(t), t.workers.Keys);
    if Loses(s, step) {
      SubsetSize(Late(t), Late(s) - {step.worker});
    } else if !Wins(s, step) {
      SubsetSize(Late(t), Late(s));
    }
  }

  lemma BoundStep(lost: nat, late: nat, workers: nat, won: nat, late': nat, workers': nat, wins: bool, loses: bool)
    requires lost + late <= workers * won && workers <= workers' && late' <= workers'
    requires (!wins ==> late' + (if loses then 1 else 0) <= late) && !(wins && loses)
    ensures lost + (if loses then 1 else 0) + late' <= workers' * (won + if wins then 1 else 0)
  {
    assert workers * won <= workers' * won;
    assert workers' * (won + 1) == workers' * won + workers';
  }

  /** Winning claims are among the steps that use up work, so their number is bounded by the attempts submitted. */
  lemma {:induction false} WinsAreEffective(steps: seq<Step>)
    ensures Count(steps, false) <= EffectiveSteps(steps) <= Submitted(steps)
  {
    RunsEnd(steps);
    if steps != [] {
      WinsAreEffective(steps[..|steps| - 1]);
    }
  }

  /**
    With nobody busy and no job to be found, every job is DONE or FAILED unless its worker crashed on it; such a job
    is neither.
  */
  lemma QuiescentMeansFinished(steps: seq<Step>, j: nat)
    requires forall w: nat :: At(Run(steps), w).Idle?
    requires Candidate(Run(steps).jobs, None).None? && j < |Run(steps).jobs|
    ensures Run(steps).jobs[j].status in {DONE, FAILED} <==> j !in Run(steps).lost
  {
    EveryRunKeepsInvariant(steps);
    hide Run, Next;
  }

  lemma LostStays(s: State, step: Step, j: nat)
    requires Invariant(s) && j in s.lost
    ensures j in Next(s, step).lost && j < |s.jobs| && j < |Next(s, step).jobs| && Next(s, step).jobs[j] == s.jobs[j]
  {
    if Finishes(s, step) {
      assert Owns(s, step.worker, At(s, step.worker).job);
    }
  }

  /** Nothing ever picks up a job whose worker crashed on it: its row stays PROCESSING as it is. */
  lemma {:induction false} LostForever(steps: seq<Step>, more: seq<Step>, j: nat)
    requires j in Run(steps).lost
    ensures j in Run(steps + more).lost && j < |Run(steps).jobs| && j < |Run(steps + more).jobs|
    ensures Run(steps + more).jobs[j] == Run(steps).jobs[j] && Run(steps).jobs[j].status == PROCESSING
  {
    EveryRunKeepsInvariant(steps);
    LostIsProcessing(Run(steps), j);
    hide Run, Next, Invariant;
    if more == [] {
      assert steps + more == steps;
    } else {
      var front, last := more[..|more| - 1], more[|more| - 1];
      LostForever(steps, front, j);
      EveryRunKeepsInvariant(steps + front);
      LostStays(Run(steps + front), last, j);
      RunContinues(steps, more);
    }
  }

  lemma LostIsProcessing(s: State, j: nat)
    requires Invariant(s) && j in s.lost
    ensures j < |s.jobs| && s.jobs[j].status == PROCESSING
  {
  }

  // ---------------------------------------------------------------- the rows as they are updated

  class Queue {
    var jobs: seq<Job>
    var workers: map<nat, Worker>
    var lost: set<nat>

    function Value(): State
      reads this
    {
      State(jobs, workers, lost)
    }

    constructor ()
      ensures Value() == Start
    {
      jobs, workers, lost := [], map[], {};
    }

    method CreateJob(maxAttempts: nat) returns (created: bool)
      modifies this
      ensures Value() == Next(old(Value()), Submit(maxAttempts))
      ensures created <==> 1 <= maxAttempts <= 10
    {
      if maxAttempts < 1 || maxAttempts > 10 {
        return false;
      }
      jobs := jobs + [Job(QUEUED, 0, maxAttempts)];
      return true;
    }

    /** findFirst of processSingleQueuedJob: the forced job if it is queued, else the oldest queued one. */
    method SelectJob(w: nat, forced: Option<nat>) returns (found: bool)
      requires At(Value(), w).Idle?
      modifies this
      ensures Value() == Next(old(Value()), Select(w, forced))
      ensures found <==> Candidate(old(jobs), forced).Some?
    {
      if forced.Some? {
        if forced.value >= |jobs| || jobs[forced.value].status != QUEUED {
          return false;
        }
        workers := workers[w := Selected(forced.value)];
        return true;
      }
      var j := 0;
      while j < |jobs| && jobs[j].status != QUEUED
        invariant 0 <= j <= |jobs|
        invariant FirstQueued(jobs, 0) == FirstQueued(jobs, j)
      {
        j := j + 1;
      }
      if j == |jobs| {
        return false;
      }
      workers := workers[w := Selected(j)];
      return true;
    }

    /** updateMany where id and status = QUEUED: only one of the competing workers changes the row. */
    method ClaimJob(w: nat) returns (claimed: bool)
      requires At(Value(), w).Selected?
      modifies this
      ensures Value() == Next(old(Value()), Claim(w))
      ensures claimed <==> At(Value(), w).Claimed?
    {
      var j := workers[w].job;
      claimed := j < |jobs| && jobs[j].status == QUEUED;
      if claimed {
        jobs := jobs[j := jobs[j].(status := PROCESSING, attempts := jobs[j].attempts + 1)];
      }
      workers := workers[w := if claimed then Claimed(j) else Idle];
    }

    method ReadJob(w: nat)
      requires At(Value(), w).Claimed? && At(Value(), w).job < |jobs|
      modifies this
      ensures Value() == Next(old(Value()), Read(w))
    {
      var j := workers[w].job;
      workers := workers[w := Running(j, jobs[j])];
    }

    /** The end of the execution: DONE, requeued for another attempt, or FAILED after the last one. */
    method FinishJob(w: nat, executed: bool) returns (retried: bool)
      requires At(Value(), w).Running? && At(Value(), w).job < |jobs|
      modifies this
      ensures Value() == Next(old(Value()), if executed then FinishDone(w) else FinishFailed(w))
      ensures retried <==> !executed && Value().jobs[At(old(Value()), w).job].status == QUEUED
    {
      var j, job := workers[w].job, workers[w].row;
      var shouldRetry := job.attempts < job.maxAttempts;
      retried := !executed && shouldRetry;
      if executed {
        jobs := jobs[j := jobs[j].(status := DONE)];
      } else {
        jobs := jobs[j := jobs[j].(status := if shouldRetry then QUEUED else FAILED)];
      }
      workers := workers[w := Idle];
    }
  }
}
