/**
  The time-to-live cache of financial statements with in-flight coalescing, as a machine over its
  atomic steps: a lookup, the two promise callbacks of a computation, an invalidation, the clock.
*/
module StatementsCache {
  import opened Results

  type Key = string

  /** A cached or computed report. */
  type Value = string

  datatype Entry = Entry(value: Value, expiresAt: int, storedAt: int, source: nat)

  datatype Phase = Computing | Resolved(value: Value) | Rejected

  /** A started computation: `epoch` counts the invalidations before its start; `settled` once `finally` ran. */
  datatype Compute = Compute(key: Key, ttl: nat, epoch: nat, phase: Phase, settled: bool)

  datatype State = State(now: int, cache: map<Key, Entry>, inFlight: map<Key, nat>, computes: seq<Compute>, epoch: nat)

  datatype Step =
    | Get(key: Key, ttl: nat)
    | Resolve(compute: nat, value: Value)
    | Reject(compute: nat)
    | Settle(compute: nat)
    | Invalidate
    | Tick(elapsed: nat)

  /** What a lookup hands out: a cached value, a computation already running, or a new one. */
  datatype Answer = Hit(entry: Entry) | Join(compute: nat) | Started(compute: nat)

  function Init(now: int): State
  {
    State(now, map[], map[], [], 0)
  }

  function Unexpired(cache: map<Key, Entry>, now: int): map<Key, Entry>
  {
    map k | k in cache && cache[k].expiresAt > now :: cache[k]
  }

  function Lookup(s: State, key: Key): Answer
  {
    var cache := Unexpired(s.cache, s.now);
    if key in cache then Hit(cache[key])
    else if key in s.inFlight then Join(s.inFlight[key])
    else Started(|s.computes|)
  }

  function Next(s: State, step: Step): State
  {
    match step
    case Get(key, ttl) =>
      var clean := s.(cache := Unexpired(s.cache, s.now));
      if Lookup(s, key).Started?
      then clean.(computes := s.computes + [Compute(key, ttl, s.epoch, Computing, false)],
                  inFlight := s.inFlight[key := |s.computes|])
      else clean
    case Resolve(p, value) =>
      if p < |s.computes| && s.computes[p].phase.Computing? then
        var c := s.computes[p];
        s.(cache := s.cache[c.key := Entry(value, s.now + c.ttl, s.now, p)],
           computes := s.computes[p := c.(phase := Resolved(value))])
      else s
    case Reject(p) =>
      if p < |s.computes| && s.computes[p].phase.Computing?
      then s.(computes := s.computes[p := s.computes[p].(phase := Rejected)])
      else s
    case Settle(p) =>
      if p < |s.computes| && !s.computes[p].phase.Computing? && !s.computes[p].settled
      then s.(inFlight := s.inFlight - {s.computes[p].key},
              computes := s.computes[p := s.computes[p].(settled := true)])
      else s
    case Invalidate => s.(cache := map[], inFlight := map[], epoch := s.epoch + 1)
    case Tick(elapsed) => s.(now := s.now + elapsed)
  }

  function Run(s: State, steps: seq<Step>): State
  {
    if steps == [] then s else Next(Run(s, steps[..|steps| - 1]), steps[|steps| - 1])
  }

  // ---------------------------------------------------------------- every run

  ghost predicate Invariant(s: State)
  {
    && (forall k :: k in s.cache ==>
          var e := s.cache[k];
          && e.source < |s.computes|
          && s.computes[e.source].key == k && s.computes[e.source].phase == Resolved(e.value)
          && e.expiresAt == e.storedAt + s.computes[e.source].ttl && e.storedAt <= s.now)
    && (forall k :: k in s.inFlight ==> s.inFlight[k] < |s.computes| && s.computes[s.inFlight[k]].key == k)
    && (forall p :: 0 <= p < |s.computes| ==>
          s.computes[p].epoch <= s.epoch && (s.computes[p].phase.Computing? ==> !s.computes[p].settled))
  }

  lemma LookupKeepsInvariant(s: State, key: Key, ttl: nat)
    requires Invariant(s)
    ensures Invariant(Next(s, Get(key, ttl)))
  {
  }

  lemma CallbackKeepsInvariant(s: State, step: Step)
    requires Invariant(s) && (step.Resolve? || step.Reject? || step.Settle?)
    ensures Invariant(Next(s, step))
  {
  }

  lemma StepKeepsInvariant(s: State, step: Step)
    requires Invariant(s)
    ensures Invariant(Next(s, step))
  {
    if step.Get? {
      LookupKeepsInvariant(s, step.key, step.ttl);
    } else if step.Resolve? || step.Reject? || step.Settle? {
      CallbackKeepsInvariant(s, step);
    }
  }

  lemma {:induction false} EveryRunKeepsInvariant(start: int, steps: seq<Step>)
    ensures Invariant(Run(Init(start), steps))
  {
    if steps != [] {
      EveryRunKeepsInvariant(start, steps[..|steps| - 1]);
      StepKeepsInvariant(Run(Init(start), steps[..|steps| - 1]), steps[|steps| - 1]);
    }
  }

  /** A hit is a value computed for that very key, stored less than its time to live ago. */
  lemma HitsAreComputed(start: int, steps: seq<Step>, key: Key)
    ensures var s := Run(Init(start), steps);
      Lookup(s, key).Hit? ==>
        var e := Lookup(s, key).entry;
        && e.source < |s.computes| && s.computes[e.source].key == key
        && s.computes[e.source].phase == Resolved(e.value)
        && 0 <= s.now - e.storedAt < s.computes[e.source].ttl
  {
    EveryRunKeepsInvariant(start, steps);
  }

  /** A lookup that waits for a computation waits for one of its key. */
  lemma JoinsAreForTheKey(start: int, steps: seq<Step>, key: Key)
    ensures var s := Run(Init(start), steps);
      Lookup(s, key).Join? ==> Lookup(s, key).compute < |s.computes| && s.computes[Lookup(s, key).compute].key == key
  {
    EveryRunKeepsInvariant(start, steps);
  }

  // ---------------------------------------------------------------- runs with quiet invalidations

  /** Nothing is in flight at any invalidation of the run. */
  predicate QuietInvalidations(s: State, steps: seq<Step>)
  {
    steps == [] ||
    (QuietInvalidations(s, steps[..|steps| - 1]) &&
     (steps[|steps| - 1].Invalidate? ==> Run(s, steps[..|steps| - 1]).inFlight == map[]))
  }

  /** The in-flight map is exact and everything that can be served is as young as the latest invalidation. */
  ghost predicate Coherent(s: State)
  {
    Invariant(s) && Exact(s)
  }

  ghost predicate Exact(s: State)
    requires Invariant(s)
  {
    && (forall p :: 0 <= p < |s.computes| && !s.computes[p].settled ==>
          s.computes[p].key in s.inFlight && s.inFlight[s.computes[p].key] == p && s.computes[p].epoch == s.epoch)
    && (forall k :: k in s.inFlight ==> !s.computes[s.inFlight[k]].settled)
    && (forall k :: k in s.cache ==> s.computes[s.cache[k].source].epoch == s.epoch)
  }

  predicate SingleComputePerKey(s: State)
  {
    forall p, q :: 0 <= p < q < |s.computes| && s.computes[p].phase.Computing? && s.computes[q].phase.Computing? ==>
      s.computes[p].key != s.computes[q].key
  }

  function EpochServed(s: State, answer: Answer): Option<nat>
  {
    match answer
    case Hit(e) => if e.source < |s.computes| then Some(s.computes[e.source].epoch) else None
    case Join(p) => if p < |s.computes| then Some(s.computes[p].epoch) else None
    case Started(_) => Some(s.epoch)
  }

  lemma StepKeepsCoherence(s: State, step: Step)
    requires Coherent(s)
    requires step.Invalidate? ==> s.inFlight == map[]
    ensures Coherent(Next(s, step))
  {
    StepKeepsInvariant(s, step);
    if step.Get? {
      LookupKeepsExact(s, step.key, step.ttl);
    } else if step.Settle? {
      SettleKeepsExact(s, step.compute);
    }
  }

  lemma LookupKeepsExact(s: State, key: Key, ttl: nat)
    requires Coherent(s) && Invariant(Next(s, Get(key, ttl)))
    ensures Exact(Next(s, Get(key, ttl)))
  {
  }

  lemma SettleKeepsExact(s: State, p: nat)
    requires Coherent(s) && Invariant(Next(s, Settle(p)))
    ensures Exact(Next(s, Settle(p)))
  {
  }

  lemma {:induction false} QuietRunsStayCoherent(s: State, steps: seq<Step>)
    requires Coherent(s) && QuietInvalidations(s, steps)
    ensures Coherent(Run(s, steps))
  {
    if steps != [] {
      QuietRunsStayCoherent(s, steps[..|steps| - 1]);
      StepKeepsCoherence(Run(s, steps[..|steps| - 1]), steps[|steps| - 1]);
    }
  }

  /**
    When nothing is in flight at any invalidation, a key is never computed twice at a time and no lookup
    is answered from a computation started before the latest invalidation.
  */
  lemma QuietRunsServeFresh(start: int, steps: seq<Step>, key: Key)
    requires QuietInvalidations(Init(start), steps)
    ensures var s := Run(Init(start), steps);
      SingleComputePerKey(s) && EpochServed(s, Lookup(s, key)) == Some(s.epoch)
  {
    QuietRunsStayCoherent(Init(start), steps);
  }

  // ---------------------------------------------------------------- the condition is exact

  predicate NoInvalidation(steps: seq<Step>)
  {
    forall i :: 0 <= i < |steps| ==> !steps[i].Invalidate?
  }

  lemma {:induction false} NoInvalidationIsQuiet(s: State, steps: seq<Step>)
    requires NoInvalidation(steps)
    ensures QuietInvalidations(s, steps)
  {
    if steps != [] {
      NoInvalidationIsQuiet(s, steps[..|steps| - 1]);
    }
  }

  predicate AllSettled(s: State)
  {
    forall p :: 0 <= p < |s.computes| ==> s.computes[p].settled
  }

  /** An invalidation while a computation is not settled lets a key be computed twice at a time. */
  lemma BusyInvalidationDuplicates(s: State, p: nat) returns (more: seq<Step>)
    requires Invariant(s) && p < |s.computes| && !s.computes[p].settled
    ensures NoInvalidation(more) && !SingleComputePerKey(Run(Next(s, Invalidate), more))
  {
    var key, n, t := s.computes[p].key, |s.computes|, Next(s, Invalidate);
    var first := Next(t, Get(key, 0));
    if s.computes[p].phase.Computing? {
      more := [Get(key, 0)];
      assert more[..0] == [];
      assert Run(t, more) == first;
      assert first.computes[p].phase.Computing? && first.computes[n].phase.Computing?;
    } else {
      more := [Get(key, 0), Settle(p), Get(key, 0)];
      var second := Next(first, Settle(p));
      var third := Next(second, Get(key, 0));
      assert more[..2][..1][..0] == [];
      assert more[..2][..1] == [Get(key, 0)] && more[..2] == [Get(key, 0), Settle(p)];
      assert Run(t, more[..1]) == first && Run(t, more[..2]) == second && Run(t, more) == third;
      assert third.computes[n].phase.Computing? && third.computes[n + 1].phase.Computing?;
    }
  }

  lemma SafeIffSettled(s: State)
    requires Invariant(s)
    ensures AllSettled(s) <==>
      forall more :: NoInvalidation(more) ==> SingleComputePerKey(Run(Next(s, Invalidate), more))
  {
    if AllSettled(s) {
      StepKeepsInvariant(s, Invalidate);
      assert Coherent(Next(s, Invalidate));
      forall more | NoInvalidation(more) ensures SingleComputePerKey(Run(Next(s, Invalidate), more)) {
        NoInvalidationIsQuiet(Next(s, Invalidate), more);
        QuietRunsStayCoherent(Next(s, Invalidate), more);
      }
    } else {
      var p :| 0 <= p < |s.computes| && !s.computes[p].settled;
      var more := BusyInvalidationDuplicates(s, p);
    }
  }

  /**
    In every reachable state an invalidation keeps every later run to one computation per key if and only if all
    computations are settled.
  */
  lemma InvalidationSafeIffSettled(start: int, before: seq<Step>)
    ensures var s := Run(Init(start), before);
      AllSettled(s) <==>
        forall more :: NoInvalidation(more) ==> SingleComputePerKey(Run(Next(s, Invalidate), more))
  {
    EveryRunKeepsInvariant(start, before);
    SafeIffSettled(Run(Init(start), before));
  }

  /** If every earlier invalidation was quiet, that is exactly when nothing is in flight. */
  lemma InvalidationSafeIffQuiet(s: State)
    requires Coherent(s)
    ensures s.inFlight == map[] <==>
      forall more :: NoInvalidation(more) ==> SingleComputePerKey(Run(Next(s, Invalidate), more))
  {
    SafeIffSettled(s);
    if AllSettled(s) {
      assert forall k :: k !in s.inFlight;
    }
  }

  // ---------------------------------------------------------------- when what is served is fresh

  /** No computation is running whose result could be cached for a time. */
  predicate NoneCaching(s: State)
  {
    forall p :: 0 <= p < |s.computes| && s.computes[p].phase.Computing? ==> s.computes[p].ttl == 0
  }

  /**
    What runs and could be cached, what is in flight and what has not expired is as young as the latest
    invalidation.
  */
  ghost predicate Fresh(s: State)
  {
    && Invariant(s)
    && (forall p :: 0 <= p < |s.computes| && s.computes[p].phase.Computing? && s.computes[p].ttl > 0 ==>
          s.computes[p].epoch == s.epoch)
    && (forall k :: k in s.inFlight ==> s.computes[s.inFlight[k]].epoch == s.epoch)
    && (forall k :: k in s.cache && s.cache[k].expiresAt > s.now ==> s.computes[s.cache[k].source].epoch == s.epoch)
  }

  lemma LookupKeepsFresh(s: State, key: Key, ttl: nat)
    requires Fresh(s) && Invariant(Next(s, Get(key, ttl)))
    ensures Fresh(Next(s, Get(key, ttl)))
  {
  }

  lemma CallbackKeepsFresh(s: State, step: Step)
    requires Fresh(s) && Invariant(Next(s, step)) && (step.Resolve? || step.Reject? || step.Settle?)
    ensures Fresh(Next(s, step))
  {
  }

  lemma StepKeepsFresh(s: State, step: Step)
    requires Fresh(s) && !step.Invalidate?
    ensures Fresh(Next(s, step))
  {
    StepKeepsInvariant(s, step);
    if step.Get? {
      LookupKeepsFresh(s, step.key, step.ttl);
    } else if step.Resolve? || step.Reject? || step.Settle? {
      CallbackKeepsFresh(s, step);
    }
  }

  lemma {:induction false} RunsStayFresh(s: State, steps: seq<Step>)
    requires Fresh(s) && NoInvalidation(steps)
    ensures Fresh(Run(s, steps))
  {
    if steps != [] {
      RunsStayFresh(s, steps[..|steps| - 1]);
      StepKeepsFresh(Run(s, steps[..|steps| - 1]), steps[|steps| - 1]);
    }
  }

  /** No lookup is answered from before the latest invalidation. */
  predicate ServesFresh(s: State, key: Key)
  {
    EpochServed(s, Lookup(s, key)) == Some(s.epoch)
  }

  /** Nor by any run up to the next invalidation. */
  ghost predicate StaysFresh(s: State)
  {
    forall more, key :: NoInvalidation(more) ==> ServesFresh(Run(s, more), key)
  }

  /** A computation still running at an invalidation can be served after it, although it started before. */
  lemma RunningComputeServedStale(s: State, p: nat, value: Value)
    requires Invariant(s) && p < |s.computes| && s.computes[p].phase.Computing? && s.computes[p].ttl > 0
    ensures var t := Run(Next(s, Invalidate), [Resolve(p, value)]);
      var answer := Lookup(t, s.computes[p].key);
      && answer.Hit? && answer.entry.value == value
      && EpochServed(t, answer) == Some(s.computes[p].epoch) && s.computes[p].epoch < t.epoch
      && !ServesFresh(t, s.computes[p].key)
  {
    assert [Resolve(p, value)][..0] == [];
    assert Run(Next(s, Invalidate), [Resolve(p, value)]) == Next(Next(s, Invalidate), Resolve(p, value));
  }

  /**
    In every reachable state nothing older than an invalidation is served after it, until the next one, if and only if
    no computation with a time to live is running at it.
  */
  lemma FreshAfterInvalidation(start: int, before: seq<Step>)
    ensures var s := Run(Init(start), before);
      NoneCaching(s) <==> StaysFresh(Next(s, Invalidate))
  {
    EveryRunKeepsInvariant(start, before);
    var s := Run(Init(start), before);
    var t := Next(s, Invalidate);
    if NoneCaching(s) {
      StepKeepsInvariant(s, Invalidate);
      forall more, key | NoInvalidation(more) ensures ServesFresh(Run(t, more), key) {
        RunsStayFresh(t, more);
      }
    } else {
      var p :| 0 <= p < |s.computes| && s.computes[p].phase.Computing? && s.computes[p].ttl > 0;
      RunningComputeServedStale(s, p, "");
      hide Next, Run, Invariant, ServesFresh;
      var more, key := [Resolve(p, "")], s.computes[p].key;
      assert NoInvalidation(more) && !ServesFresh(Run(t, more), key);
    }
  }

  // ---------------------------------------------------------------- when a lookup is answered from the cache

  /** The step neither invalidates nor brings the result of a running computation of the key. */
  predicate Spares(s: State, step: Step, key: Key)
  {
    && !step.Invalidate?
    && (step.Resolve? && step.compute < |s.computes| && s.computes[step.compute].phase.Computing? ==>
          s.computes[step.compute].key != key)
  }

  predicate AllSpare(s: State, steps: seq<Step>, key: Key)
  {
    steps == [] ||
    var front, last := steps[..|steps| - 1], steps[|steps| - 1];
    AllSpare(s, front, key) && Spares(Run(s, front), last, key)
  }

  /** The entry is there until it expires, and then no other. */
  predicate Holds(s: State, key: Key, value: Value, until: int)
  {
    if key in s.cache then s.cache[key].value == value && s.cache[key].expiresAt == until else until <= s.now
  }

  lemma StepHolds(s: State, step: Step, key: Key, value: Value, until: int)
    requires Spares(s, step, key) && Holds(s, key, value, until)
    ensures Holds(Next(s, step), key, value, until)
  {
  }

  lemma {:induction false} RunHolds(s: State, steps: seq<Step>, key: Key, value: Value, until: int)
    requires AllSpare(s, steps, key) && Holds(s, key, value, until)
    ensures Holds(Run(s, steps), key, value, until)
  {
    if steps != [] {
      hide Next, Holds, Spares;
      RunHolds(s, steps[..|steps| - 1], key, value, until);
      StepHolds(Run(s, steps[..|steps| - 1]), steps[|steps| - 1], key, value, until);
    }
  }

  /**
    A result is served to every lookup of its key, whatever happens in between, for exactly its time to live: until the
    next invalidation or the result of another computation of the key.
  */
  lemma HitsAreComplete(start: int, before: seq<Step>, p: nat, value: Value, more: seq<Step>)
    requires p < |Run(Init(start), before).computes| && Run(Init(start), before).computes[p].phase.Computing?
    requires AllSpare(Next(Run(Init(start), before), Resolve(p, value)), more, Run(Init(start), before).computes[p].key)
    ensures var s := Run(Init(start), before);
      var t := Run(Next(s, Resolve(p, value)), more);
      var answer := Lookup(t, s.computes[p].key);
      answer.Hit? && answer.entry.value == value <==> t.now < s.now + s.computes[p].ttl
  {
    var s := Run(Init(start), before);
    var key, until := s.computes[p].key, s.now + s.computes[p].ttl;
    assert Holds(Next(s, Resolve(p, value)), key, value, until);
    RunHolds(Next(s, Resolve(p, value)), more, key, value, until);
  }

  // ---------------------------------------------------------------- when a lookup joins a computation

  /** The step neither invalidates nor settles a computation of the key. */
  predicate KeepsFlight(s: State, step: Step, key: Key)
  {
    && !step.Invalidate?
    && (step.Settle? && step.compute < |s.computes| && s.computes[step.compute].key == key ==>
          Next(s, step) == s)
  }

  predicate AllKeepFlight(s: State, steps: seq<Step>, key: Key)
  {
    steps == [] ||
    var front, last := steps[..|steps| - 1], steps[|steps| - 1];
    AllKeepFlight(s, front, key) && KeepsFlight(Run(s, front), last, key)
  }

  predicate InFlight(s: State, key: Key, p: nat)
  {
    key in s.inFlight && s.inFlight[key] == p
  }

  lemma StepKeepsFlight(s: State, step: Step, key: Key, p: nat)
    requires InFlight(s, key, p) && KeepsFlight(s, step, key)
    ensures InFlight(Next(s, step), key, p)
  {
  }

  lemma {:induction false} RunKeepsFlight(s: State, steps: seq<Step>, key: Key, p: nat)
    requires InFlight(s, key, p) && AllKeepFlight(s, steps, key)
    ensures InFlight(Run(s, steps), key, p)
  {
    if steps != [] {
      hide Next, InFlight, KeepsFlight;
      RunKeepsFlight(s, steps[..|steps| - 1], key, p);
      StepKeepsFlight(Run(s, steps[..|steps| - 1]), steps[|steps| - 1], key, p);
    }
  }

  /**
    From any state, once a lookup started a computation, every later lookup of the key is answered from the cache or
    waits for that computation, until it or another one of the key settles or an invalidation forgets it. When it
    settles, lookups wait for none: a failed computation is started anew.
  */
  lemma JoinsAreComplete(s: State, key: Key, ttl: nat, more: seq<Step>)
    requires Lookup(s, key).Started? && AllKeepFlight(Next(s, Get(key, ttl)), more, key)
    ensures var p, t := |s.computes|, Run(Next(s, Get(key, ttl)), more);
      && Lookup(s, key) == Started(p)
      && (Lookup(t, key).Hit? || Lookup(t, key) == Join(p))
      && (p < |t.computes| && !t.computes[p].phase.Computing? && !t.computes[p].settled && t.computes[p].key == key ==>
            !Lookup(Next(t, Settle(p)), key).Join?)
  {
    var p := |s.computes|;
    assert InFlight(Next(s, Get(key, ttl)), key, p);
    RunKeepsFlight(Next(s, Get(key, ttl)), more, key, p);
    hide Run;
  }

  // ---------------------------------------------------------------- the module maps as they are updated

  class Cache {
    var now: int
    var statementsCache: map<Key, Entry>
    var statementsInFlight: map<Key, nat>
    var computes: seq<Compute>
    var epoch: nat

    function Value(): State
      reads this
    {
      State(now, statementsCache, statementsInFlight, computes, epoch)
    }

    constructor (now: int)
      ensures Value() == Init(now)
    {
      this.now := now;
      statementsCache, statementsInFlight, computes, epoch := map[], map[], [], 0;
    }

    /** The loop over the entries that deletes the expired ones. */
    method CleanupExpired()
      modifies this`statementsCache
      ensures statementsCache == Unexpired(old(statementsCache), now)
    {
      var pending := statementsCache.Keys;
      while pending != {}
        invariant pending <= old(statementsCache).Keys
        invariant statementsCache ==
          map k | k in old(statementsCache) && (k in pending || old(statementsCache)[k].expiresAt > now) ::
            old(statementsCache)[k]
        decreases |pending|
      {
        var key :| key in pending;
        pending := pending - {key};
        if statementsCache[key].expiresAt <= now {
          statementsCache := statementsCache - {key};
        }
      }
    }

    method GetCachedFinancialStatements(key: Key, ttl: nat) returns (answer: Answer)
      modifies this
      ensures answer == Lookup(old(Value()), key) && Value() == Next(old(Value()), Get(key, ttl))
    {
      CleanupExpired();
      if key in statementsCache && statementsCache[key].expiresAt > now {
        return Hit(statementsCache[key]);
      }
      if key in statementsInFlight {
        return Join(statementsInFlight[key]);
      }
      answer := Started(|computes|);
      statementsInFlight := statementsInFlight[key := |computes|];
      computes := computes + [Compute(key, ttl, epoch, Computing, false)];
    }

    /** The `then` callback of a computation. */
    method OnResolved(p: nat, value: Value)
      requires p < |computes| && computes[p].phase.Computing?
      modifies this
      ensures Value() == Next(old(Value()), Resolve(p, value))
    {
      var c := computes[p];
      statementsCache := statementsCache[c.key := Entry(value, now + c.ttl, now, p)];
      computes := computes[p := c.(phase := Resolved(value))];
    }

    /** The `finally` callback: it deletes whatever is in flight for its key. */
    method OnSettled(p: nat)
      requires p < |computes| && !computes[p].phase.Computing? && !computes[p].settled
      modifies this
      ensures Value() == Next(old(Value()), Settle(p))
    {
      statementsInFlight := statementsInFlight - {computes[p].key};
      computes := computes[p := computes[p].(settled := true)];
    }

    method InvalidateFinancialStatementsCache()
      modifies this
      ensures Value() == Next(old(Value()), Invalidate)
    {
      statementsCache, statementsInFlight := map[], map[];
      epoch := epoch + 1;
    }
  }
}
