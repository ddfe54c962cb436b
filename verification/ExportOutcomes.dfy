/** What becomes of an export job, told by the steps of a run alone. */
module ExportOutcomes {
  import opened Results
  import opened ExportQueue

  /** The step ends an execution of job j, with success or without. */
  predicate Ends(s: State, step: Step, j: nat, success: bool)
  {
    && (if success then step.FinishDone? else step.FinishFailed?)
    && At(s, step.worker).Running? && At(s, step.worker).job == j
  }

  /** How many executions of job j ended so. */
  function Ended(steps: seq<Step>, j: nat, success: bool): nat
  {
    if steps == [] then 0
    else
      var front := steps[..|steps| - 1];
      Ended(front, j, success) + if Ends(Run(front), steps[|steps| - 1], j, success) then 1 else 0
  }

  /** The attempts of the jobs, in the order in which they were accepted. */
  function Accepted(steps: seq<Step>): seq<nat>
  {
    if steps == [] then []
    else
      var last := steps[|steps| - 1];
      Accepted(steps[..|steps| - 1]) + if last.Submit? && 1 <= last.maxAttempts <= 10 then [last.maxAttempts] else []
  }

  /** A job is waiting, being executed, or over, according to how its executions ended. */
  predicate Outcome(job: Job, allowed: nat, claims: nat, done: nat, failed: nat)
  {
    && job.maxAttempts == allowed && job.attempts == claims
    && claims == done + failed + (if job.status == PROCESSING then 1 else 0)
    && done <= 1 && (job.status == DONE <==> done == 1)
    && (job.status == FAILED <==> done == 0 && failed == allowed)
  }

  /** One step: how the row and the counts of one job move together. */
  lemma OutcomeStep(s: State, step: Step, j: nat, allowed: nat, claims: nat, done: nat, failed: nat)
    requires Invariant(s) && j < |s.jobs| && Outcome(s.jobs[j], allowed, claims, done, failed)
    ensures j < |Next(s, step).jobs|
    ensures Outcome(Next(s, step).jobs[j], allowed, claims + if Claims(s, step, j) then 1 else 0,
                    done + if Ends(s, step, j, true) then 1 else 0,
                    failed + if Ends(s, step, j, false) then 1 else 0)
  {
    assert JobInvariant(s.jobs[j]);
    if Ends(s, step, j, true) || Ends(s, step, j, false) {
      assert Owns(s, step.worker, j);
    }
    hide Invariant, Candidate, Owns;
  }

  lemma NothingBefore(s: State, step: Step, j: nat)
    requires Invariant(s) && j >= |s.jobs|
    ensures !Claims(s, step, j) && !Ends(s, step, j, true) && !Ends(s, step, j, false)
    ensures if step.Submit? && 1 <= step.maxAttempts <= 10
            then Next(s, step).jobs == s.jobs + [Job(QUEUED, 0, step.maxAttempts)]
            else |Next(s, step).jobs| == |s.jobs|
  {
  }

  lemma JobsAreAccepted(s: State, step: Step)
    ensures |Next(s, step).jobs| == |s.jobs| + if step.Submit? && 1 <= step.maxAttempts <= 10 then 1 else 0
  {
  }

  lemma {:induction false} EveryOutcome(steps: seq<Step>, j: nat)
    ensures |Accepted(steps)| == |Run(steps).jobs|
    ensures j < |Run(steps).jobs| ==>
      Outcome(Run(steps).jobs[j], Accepted(steps)[j], ClaimCount(steps, j), Ended(steps, j, true),
              Ended(steps, j, false))
    ensures j >= |Run(steps).jobs| ==>
      ClaimCount(steps, j) == Ended(steps, j, true) == Ended(steps, j, false) == 0
  {
    if steps != [] {
      var front, last := steps[..|steps| - 1], steps[|steps| - 1];
      EveryOutcome(front, j);
      EveryRunKeepsInvariant(front);
      hide Next, Invariant, Outcome, Claims, Ends;
      JobsAreAccepted(Run(front), last);
      if j < |Run(front).jobs| {
        OutcomeStep(Run(front), last, j, Accepted(front)[j], ClaimCount(front, j), Ended(front, j, true),
                    Ended(front, j, false));
      } else {
        NothingBefore(Run(front), last, j);
        if j < |Run(steps).jobs| {
          FirstOutcome(last.maxAttempts);
        }
      }
    }
  }

  lemma FirstOutcome(allowed: nat)
    requires allowed >= 1
    ensures Outcome(Job(QUEUED, 0, allowed), allowed, 0, 0, 0)
  {
  }

  /**
    Over every run, from its steps alone: the job allows the attempts it was submitted with; it is DONE exactly when an
    execution of it ended with success, FAILED exactly when it was claimed as often as it allows and every one of these
    executions failed, QUEUED exactly when every claim so far ended in failure and attempts are left.
  */
  lemma JobEndsAsExecuted(steps: seq<Step>, j: nat)
    requires j < |Run(steps).jobs|
    ensures |Accepted(steps)| == |Run(steps).jobs| && Run(steps).jobs[j].maxAttempts == Accepted(steps)[j]
    ensures Run(steps).jobs[j].status == DONE <==> Ended(steps, j, true) >= 1
    ensures Run(steps).jobs[j].status == FAILED <==>
              ClaimCount(steps, j) == Accepted(steps)[j] == Ended(steps, j, false)
    ensures Run(steps).jobs[j].status == QUEUED <==>
              ClaimCount(steps, j) == Ended(steps, j, false) < Accepted(steps)[j]
    ensures Ended(steps, j, true) <= 1
  {
    EveryOutcome(steps, j);
    AttemptsAreClaims(steps, j);
    EveryRunKeepsInvariant(steps);
    assert JobInvariant(Run(steps).jobs[j]);
    hide Run, ClaimCount, Ended, Accepted, Invariant;
  }

  /** At step i an execution of job j ended so. */
  predicate EndsAt(steps: seq<Step>, i: nat, j: nat, success: bool)
  {
    i < |steps| && Ends(Run(steps[..i]), steps[i], j, success)
  }

  lemma EndsAtOf(steps: seq<Step>, i: nat, j: nat, success: bool)
    requires steps != []
    ensures var n := |steps| - 1;
      EndsAt(steps, i, j, success) <==>
        if i == n then Ends(Run(steps[..n]), steps[n], j, success) else EndsAt(steps[..n], i, j, success)
  {
    hide Run, Ends;
    assert i < |steps| - 1 ==> steps[..|steps| - 1][..i] == steps[..i];
  }

  /** The number counts the steps at which an execution ended so. */
  lemma {:induction false} EndedAtAStep(steps: seq<Step>, j: nat, success: bool)
    ensures Ended(steps, j, success) >= 1 <==> exists i: nat :: EndsAt(steps, i, j, success)
  {
    if steps != [] {
      var n := |steps| - 1;
      EndedAtAStep(steps[..n], j, success);
      EndsAtOf(steps, n, j, success);
      forall i: nat
        ensures i != n ==> (EndsAt(steps, i, j, success) <==> EndsAt(steps[..n], i, j, success))
        ensures EndsAt(steps[..n], i, j, success) ==> i < n
      {
        EndsAtOf(steps, i, j, success);
      }
      hide Run, Ends, EndsAt;
    }
  }

  // ---------------------------------------------------------------- progress

  /** What one idle worker does with the job it finds. */
  function OneExecution(w: nat, forced: Option<nat>, success: bool): seq<Step>
  {
    [Select(w, forced), Claim(w), Read(w), if success then FinishDone(w) else FinishFailed(w)]
  }

  /** Job j has one attempt more and is DONE, or after a failure QUEUED while attempts are left, else FAILED. */
  predicate ExecutedOnce(jobs: seq<Job>, after: seq<Job>, j: nat, success: bool)
  {
    && j < |jobs|
    && var attempts, allowed := jobs[j].attempts + 1, jobs[j].maxAttempts;
       var status := if success then DONE else if attempts < allowed then QUEUED else FAILED;
       after == jobs[j := Job(status, attempts, allowed)]
  }

  /** After any run an idle worker that is left alone executes the job it finds, once, and no other job changes. */
  lemma IdleWorkerExecutes(steps: seq<Step>, w: nat, forced: Option<nat>, success: bool)
    requires At(Run(steps), w).Idle? && Candidate(Run(steps).jobs, forced).Some?
    ensures var after := Run(steps + OneExecution(w, forced, success));
      && ExecutedOnce(Run(steps).jobs, after.jobs, Candidate(Run(steps).jobs, forced).value, success)
      && At(after, w).Idle?
  {
    var j := Candidate(Run(steps).jobs, forced).value;
    hide Run, Next, FirstQueued, ExecutedOnce, Candidate, At;
    RunFour(steps, Select(w, forced), Claim(w), Read(w), if success then FinishDone(w) else FinishFailed(w));
    Executed(Run(steps), j, w, forced, success);
  }

  lemma RunFour(steps: seq<Step>, a: Step, b: Step, c: Step, d: Step)
    ensures Run(steps + [a, b, c, d]) == Next(Next(Next(Next(Run(steps), a), b), c), d)
  {
    hide Run, Next;
    RunSnoc(steps, a);
    RunSnoc(steps + [a], b);
    RunSnoc(steps + [a] + [b], c);
    RunSnoc(steps + [a] + [b] + [c], d);
    assert steps + [a, b, c, d] == steps + [a] + [b] + [c] + [d];
  }

  lemma Executed(s: State, j: nat, w: nat, forced: Option<nat>, success: bool)
    requires At(s, w).Idle? && Candidate(s.jobs, forced) == Some(j)
    ensures var t := Next(Next(Next(Next(s, Select(w, forced)), Claim(w)), Read(w)),
                          if success then FinishDone(w) else FinishFailed(w));
      ExecutedOnce(s.jobs, t.jobs, j, success) && At(t, w).Idle?
  {
    hide FirstQueued;
  }
}
