/** How many calls of one provider start inside a cooldown when lookups share the broker
    (native/threat_intel/broker.py:135-154). */
module BrokerBound {
  import opened Options
  import opened OrderedDict
  import opened Broker
  import C = EnrichmentCache
  import G = ProviderGovernor

  predicate IsPassed(j: Job, provider: Provider) {
    j.provider == provider && j.phase.Passed?
  }

  /** Past the check and not answered yet. */
  predicate IsBusy(j: Job, provider: Provider) {
    j.provider == provider && (j.phase.Passed? || j.phase.Calling?)
  }

  function PassedCount(jobs: seq<Job>, provider: Provider): nat {
    if jobs == [] then 0
    else PassedCount(jobs[..|jobs| - 1], provider) + (if IsPassed(jobs[|jobs| - 1], provider) then 1 else 0)
  }

  function BusyCount(jobs: seq<Job>, provider: Provider): nat {
    if jobs == [] then 0
    else BusyCount(jobs[..|jobs| - 1], provider) + (if IsBusy(jobs[|jobs| - 1], provider) then 1 else 0)
  }

  lemma {:induction false} PassedUpdate(jobs: seq<Job>, n: nat, j: Job, provider: Provider)
    requires n < |jobs|
    ensures PassedCount(jobs[n := j], provider) + (if IsPassed(jobs[n], provider) then 1 else 0)
      == PassedCount(jobs, provider) + (if IsPassed(j, provider) then 1 else 0)
  {
    var last := |jobs| - 1;
    if n == last {
      assert jobs[n := j][..last] == jobs[..last];
    } else {
      assert jobs[n := j][..last] == jobs[..last][n := j];
      PassedUpdate(jobs[..last], n, j, provider);
    }
  }

  /** A call on its way leaves one busy lookup that is not waiting to call. */
  lemma {:induction false} CallingIsBusy(jobs: seq<Job>, n: nat, provider: Provider)
    requires n < |jobs| ==> jobs[n].provider == provider && jobs[n].phase.Calling?
    ensures PassedCount(jobs, provider) + (if n < |jobs| then 1 else 0) <= BusyCount(jobs, provider)
  {
    if jobs != [] {
      var last := |jobs| - 1;
      if n < last {
        assert jobs[..last][n] == jobs[n];
        CallingIsBusy(jobs[..last], n, provider);
      } else {
        CallingIsBusy(jobs[..last], |jobs|, provider);
      }
    }
  }

  /** The move starts a call of this provider. */
  predicate Starts(p: Pool, m: Move, provider: Provider) {
    m.Work? && m.stage.Start? && m.job < |p.jobs| && IsPassed(p.jobs[m.job], provider)
  }

  /** Some 429 of this provider was answered. */
  predicate Limited(loaded: C.Entries<Envelope>, moves: seq<Move>, maxEntries: nat, provider: Provider)
    requires Unique(loaded)
  {
    moves != [] &&
    (LimitedAt(loaded, moves, maxEntries, |moves| - 1, provider)
     || Limited(loaded, moves[..|moves| - 1], maxEntries, provider))
  }

  /** The calls started so far inside the cooldown that the latest 429 of this provider set. */
  function Inside(loaded: C.Entries<Envelope>, moves: seq<Move>, maxEntries: nat, provider: Provider): nat
    requires Unique(loaded)
  {
    if moves == [] then 0 else
      var before, m := moves[..|moves| - 1], moves[|moves| - 1];
      var p := Run(loaded, before, maxEntries);
      if LimitedAt(loaded, moves, maxEntries, |moves| - 1, provider) then 0
      else if Limited(loaded, before, maxEntries, provider) && Starts(p, m, provider)
        && p.now < CooldownEnd(p, provider) then Inside(loaded, before, maxEntries, provider) + 1
      else Inside(loaded, before, maxEntries, provider)
  }

  /** At no time are more than `width` lookups of the provider past the check and not answered. */
  predicate Narrow(loaded: C.Entries<Envelope>, moves: seq<Move>, maxEntries: nat, provider: Provider, width: nat)
    requires Unique(loaded)
  {
    forall n :: 0 <= n <= |moves| ==> BusyCount(Run(loaded, moves[..n], maxEntries).jobs, provider) <= width
  }

  predicate Bounded(p: Pool, provider: Provider, width: nat, limited: bool, inside: nat)
    requires Ready(p.shared)
  {
    limited ==>
      && inside + 1 <= width
      && (p.now < CooldownEnd(p, provider) ==> inside + PassedCount(p.jobs, provider) + 1 <= width)
  }

  /** What one move does to the cooldown end and to those waiting to call. */
  lemma MoveEffect(p: Pool, m: Move, maxEntries: nat, provider: Provider)
    requires Ready(p.shared)
    ensures var q := Step(p, m, maxEntries);
      var taken := m.Work? && m.job < |p.jobs| && p.jobs[m.job].provider == provider && p.jobs[m.job].phase.Calling?
        && m.stage.Take? && StatusOf(m.stage.response) == RateLimited;
      && Ready(q.shared) && q.now >= p.now
      && (taken ==> PassedCount(q.jobs, provider) == PassedCount(p.jobs, provider)
                    && PassedCount(p.jobs, provider) + 1 <= BusyCount(p.jobs, provider))
      && (!taken ==> CooldownEnd(q, provider) == CooldownEnd(p, provider))
      && (Starts(p, m, provider) ==> PassedCount(q.jobs, provider) + 1 == PassedCount(p.jobs, provider))
      && (p.now < CooldownEnd(p, provider) && !taken && !Starts(p, m, provider) ==>
            PassedCount(q.jobs, provider) <= PassedCount(p.jobs, provider))
  {
    hide Ready, PassedCount, BusyCount, C.SetEntry, C.GetEntry, Key, Ttl, Cacheable, G.NoteRateLimited, Answer;
    StepReady(p, m, maxEntries);
    match m
    case Tick(_) =>
    case Submit(a, b, c) => SubmittedCount(p.jobs, Job(a, b, c, Waiting), provider);
    case Work(n, stage) =>
      if n < |p.jobs| {
        var j := Advance(p.shared, p.jobs[n], stage, p.now, maxEntries).1;
        PassedUpdate(p.jobs, n, j, provider);
        WorkEffect(p, n, stage, maxEntries, provider);
        if p.jobs[n].provider == provider && p.jobs[n].phase.Calling? {
          CallingIsBusy(p.jobs, n, provider);
        }
      }
  }

  lemma SubmittedCount(jobs: seq<Job>, j: Job, provider: Provider)
    requires j.phase.Waiting?
    ensures PassedCount(jobs + [j], provider) == PassedCount(jobs, provider)
  {
    assert (jobs + [j])[..|jobs|] == jobs;
  }

  /** One stage of one lookup: the phase it reaches and the cooldown end. */
  lemma WorkEffect(p: Pool, n: nat, stage: Stage, maxEntries: nat, provider: Provider)
    requires Ready(p.shared) && n < |p.jobs|
    ensures var (s, j) := Advance(p.shared, p.jobs[n], stage, p.now, maxEntries);
      var was := p.jobs[n];
      && Ready(s) && j.provider == was.provider
      && (j.phase.Passed? ==> was.phase.Passed? || (stage.Check? && p.now >= CooldownEnd(p, was.provider)))
      && (was.phase.Passed? && stage.Start? ==> j.phase.Calling?)
      && (was.phase.Calling? ==> !j.phase.Passed?)
      && (s.governors[provider].cooldownUntil != p.shared.governors[provider].cooldownUntil ==>
            was.provider == provider && was.phase.Calling? && stage.Take? && StatusOf(stage.response) == RateLimited)
  {
    hide C.SetEntry, C.GetEntry, Unique, Key, Ttl, Cacheable, G.NoteRateLimited, Answer;
    AdvanceReady(p.shared, p.jobs[n], stage, p.now, maxEntries);
  }

  /** The broker's own interleavings keep the bound: when at most W lookups of a provider are past the
      check at a time, at most W - 1 of its calls start inside the cooldown its latest 429 set. */
  lemma {:induction false} AtMostOthersStart(loaded: C.Entries<Envelope>, moves: seq<Move>, maxEntries: nat,
                                             provider: Provider, width: nat)
    requires Unique(loaded) && Narrow(loaded, moves, maxEntries, provider, width)
    ensures Bounded(Run(loaded, moves, maxEntries), provider, width, Limited(loaded, moves, maxEntries, provider),
                    Inside(loaded, moves, maxEntries, provider))
    ensures Limited(loaded, moves, maxEntries, provider) ==> Inside(loaded, moves, maxEntries, provider) <= width - 1
  {
    hide Step, Ready, CooldownEnd, PassedCount, BusyCount;
    if moves != [] {
      var before, m := moves[..|moves| - 1], moves[|moves| - 1];
      var p := Run(loaded, before, maxEntries);
      NarrowBefore(loaded, moves, maxEntries, provider, width);
      AtMostOthersStart(loaded, before, maxEntries, provider, width);
      MoveEffect(p, m, maxEntries, provider);
    }
  }

  lemma NarrowBefore(loaded: C.Entries<Envelope>, moves: seq<Move>, maxEntries: nat, provider: Provider, width: nat)
    requires Unique(loaded) && moves != [] && Narrow(loaded, moves, maxEntries, provider, width)
    ensures Narrow(loaded, moves[..|moves| - 1], maxEntries, provider, width)
    ensures BusyCount(Run(loaded, moves[..|moves| - 1], maxEntries).jobs, provider) <= width
  {
    hide Run, BusyCount;
    var before := moves[..|moves| - 1];
    forall n | 0 <= n <= |before|
      ensures BusyCount(Run(loaded, before[..n], maxEntries).jobs, provider) <= width
    {
      assert before[..n] == moves[..n];
    }
  }
}
