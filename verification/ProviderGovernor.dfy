/** The provider-global request governor (native/threat_intel/rate_governor.py): exponential
    backoff for one caller at a time, and what its separate check and note steps still allow when
    several worker threads share it (native/threat_intel/broker.py:136-154). */
module ProviderGovernor {
  import opened Options

  datatype Config = Config(minInterval: real, defaultCooldown: real, maxCooldown: real)

  const Defaults := Config(0.2, 30.0, 600.0)

  datatype Governor = Governor(nextAllowedAt: real, cooldownUntil: real, misses: nat)

  const Fresh := Governor(0.0, 0.0, 0)

  function MinR(a: real, b: real): real { if a <= b then a else b }
  function MaxR(a: real, b: real): real { if a >= b then a else b }

  function Pow2(n: nat): nat {
    if n == 0 then 1 else 2 * Pow2(n - 1)
  }

  predicate CanCall(g: Governor, now: real) {
    now >= g.cooldownUntil && now >= g.nextAllowedAt
  }

  function NoteCall(g: Governor, c: Config, now: real): Governor {
    g.(nextAllowedAt := now + c.minInterval)
  }

  function NoteSuccess(g: Governor): Governor {
    g.(misses := 0)
  }

  /** The backoff after the n-th unannounced 429 in a row. */
  function Backoff(c: Config, n: nat): real
    requires n >= 1
  {
    MinR(c.defaultCooldown * (Pow2(n - 1) as real), c.maxCooldown)
  }

  function NoteRateLimited(g: Governor, c: Config, retryAfter: Option<real>, now: real): Governor {
    match retryAfter
    case Some(s) => g.(cooldownUntil := now + MinR(MaxR(s, 1.0), c.maxCooldown), misses := 0)
    case None => g.(cooldownUntil := now + Backoff(c, g.misses + 1), misses := g.misses + 1)
  }

  class ProviderRateGovernor {
    const config: Config
    var nextAllowedAt: real
    var cooldownUntil: real
    var misses: nat

    function State(): Governor
      reads this
    {
      Governor(nextAllowedAt, cooldownUntil, misses)
    }

    constructor (config: Config)
      ensures State() == Fresh && this.config == config
    {
      this.config := config;
      nextAllowedAt, cooldownUntil, misses := 0.0, 0.0, 0;
    }

    method MayCall(now: real) returns (ok: bool)
      ensures ok == CanCall(State(), now)
    {
      ok := now >= cooldownUntil && now >= nextAllowedAt;
    }

    method NoteCallAttempt(now: real)
      modifies `nextAllowedAt
      ensures State() == NoteCall(old(State()), config, now)
    {
      nextAllowedAt := now + config.minInterval;
    }

    method NoteSuccessful()
      modifies `misses
      ensures State() == NoteSuccess(old(State()))
    {
      misses := 0;
    }

    method NoteLimited(retryAfter: Option<real>, now: real)
      modifies `cooldownUntil, `misses
      ensures State() == NoteRateLimited(old(State()), config, retryAfter, now)
    {
      var backoff: real;
      match retryAfter {
        case Some(s) =>
          backoff := MinR(MaxR(s, 1.0), config.maxCooldown);
          misses := 0;
        case None =>
          misses := misses + 1;
          backoff := MinR(config.defaultCooldown * (Pow2(misses - 1) as real), config.maxCooldown);
      }
      cooldownUntil := now + backoff;
    }
  }

  /** One lookup that was let through and answered by a 429 without Retry-After: the clock at
      can_call, at note_call_attempt and at note_rate_limited. */
  datatype Limited = Limited(checkedAt: real, startedAt: real, limitedAt: real)

  /** The governor after a serial run of such lookups. */
  function After(calls: seq<Limited>, c: Config): Governor {
    if calls == [] then Fresh else
      var last := calls[|calls| - 1];
      NoteRateLimited(NoteCall(After(calls[..|calls| - 1], c), c, last.startedAt), c, None, last.limitedAt)
  }

  /** Each lookup passed can_call, and its clock readings do not run backwards. */
  predicate Serial(calls: seq<Limited>, c: Config) {
    calls == [] ||
    var before, last := calls[..|calls| - 1], calls[|calls| - 1];
    && Serial(before, c)
    && CanCall(After(before, c), last.checkedAt)
    && last.checkedAt <= last.startedAt <= last.limitedAt
  }

  function BackoffSum(c: Config, k: nat): real {
    if k == 0 then 0.0 else BackoffSum(c, k - 1) + Backoff(c, k)
  }

  lemma {:induction false} MissesCounted(calls: seq<Limited>, c: Config)
    ensures After(calls, c).misses == |calls|
    ensures calls != [] ==>
      After(calls, c).cooldownUntil == calls[|calls| - 1].limitedAt + Backoff(c, |calls|)
  {
    hide Backoff;
    if calls != [] {
      MissesCounted(calls[..|calls| - 1], c);
    }
  }

  /** Called serially under unannounced 429s, the k-th call starts no earlier than the sum of the
      k - 1 doubled and capped backoffs after the first. */
  lemma {:induction false} BackoffAddsUp(calls: seq<Limited>, c: Config)
    requires Serial(calls, c) && calls != []
    ensures calls[|calls| - 1].startedAt >= calls[0].startedAt + BackoffSum(c, |calls| - 1)
  {
    hide Backoff;
    if |calls| > 1 {
      var before := calls[..|calls| - 1];
      BackoffAddsUp(before, c);
      MissesCounted(before, c);
    }
  }

  /** A lookup thread between the broker's steps. */
  datatype Thread = Idle | Passed | Calling

  datatype Verdict = Answered | TooMany(retryAfter: Option<real>)

  /** All lookups of one provider: `inside` counts the calls started within the cooldown set by
      the latest 429, `limited` says whether there was one. */
  datatype Pool = Pool(threads: seq<Thread>, governor: Governor, now: real, limited: bool, inside: nat)

  datatype Move = Tick(to: real) | Check(t: nat) | Start(t: nat) | Finish(t: nat, verdict: Verdict)

  /** One atomic step of some thread, or the clock advancing; anything else changes nothing. */
  function Step(p: Pool, m: Move, c: Config): Pool {
    match m
    case Tick(to) => if to >= p.now then p.(now := to) else p
    case Check(t) =>
      if t < |p.threads| && p.threads[t] == Idle && CanCall(p.governor, p.now)
      then p.(threads := p.threads[t := Passed]) else p
    case Start(t) =>
      if t < |p.threads| && p.threads[t] == Passed
      then p.(threads := p.threads[t := Calling], governor := NoteCall(p.governor, c, p.now),
              inside := if p.limited && p.now < p.governor.cooldownUntil then p.inside + 1 else p.inside)
      else p
    case Finish(t, verdict) =>
      if t < |p.threads| && p.threads[t] == Calling then
        var idle := p.(threads := p.threads[t := Idle]);
        match verdict
        case Answered => idle.(governor := NoteSuccess(p.governor))
        case TooMany(s) => idle.(governor := NoteRateLimited(p.governor, c, s, p.now), limited := true, inside := 0)
      else p
  }

  function RunPool(width: nat, moves: seq<Move>, c: Config): Pool {
    if moves == [] then Pool(seq(width, i => Idle), Fresh, 0.0, false, 0)
    else Step(RunPool(width, moves[..|moves| - 1], c), moves[|moves| - 1], c)
  }

  /** Threads that passed can_call and have not called yet. */
  function Waiting(ts: seq<Thread>): nat {
    if ts == [] then 0 else Waiting(ts[..|ts| - 1]) + (if ts[|ts| - 1] == Passed then 1 else 0)
  }

  lemma {:induction false} WaitingUpdate(ts: seq<Thread>, t: nat, x: Thread)
    requires t < |ts|
    ensures Waiting(ts[t := x]) + (if ts[t] == Passed then 1 else 0) == Waiting(ts) + (if x == Passed then 1 else 0)
  {
    var n := |ts| - 1;
    if t == n {
      assert ts[t := x][..n] == ts[..n];
    } else {
      assert ts[t := x][..n] == ts[..n][t := x];
      WaitingUpdate(ts[..n], t, x);
    }
  }

  lemma {:induction false} WaitingBound(ts: seq<Thread>)
    ensures Waiting(ts) <= |ts|
    ensures (exists i :: 0 <= i < |ts| && ts[i] != Passed) ==> Waiting(ts) < |ts|
  {
    if ts != [] {
      WaitingBound(ts[..|ts| - 1]);
      if i :| 0 <= i < |ts| && ts[i] != Passed && i < |ts| - 1 {
        assert ts[..|ts| - 1][i] != Passed;
      }
    }
  }

  /** Inside the latest cooldown, the calls already made and those still on their way fit in W - 1. */
  predicate Bounded(p: Pool) {
    p.limited ==>
      && p.inside + 1 <= |p.threads|
      && (p.now < p.governor.cooldownUntil ==> p.inside + Waiting(p.threads) + 1 <= |p.threads|)
  }

  lemma StepBounded(p: Pool, m: Move, c: Config)
    requires Bounded(p)
    ensures Bounded(Step(p, m, c)) && |Step(p, m, c).threads| == |p.threads|
  {
    hide Waiting, Backoff;
    match m
    case Tick(to) =>
    case Check(t) =>
      if t < |p.threads| { WaitingUpdate(p.threads, t, Passed); }
    case Start(t) =>
      if t < |p.threads| { WaitingUpdate(p.threads, t, Calling); }
    case Finish(t, verdict) =>
      if t < |p.threads| {
        WaitingUpdate(p.threads, t, Idle);
        var ts := p.threads[t := Idle];
        assert ts[t] != Passed;
        WaitingBound(ts);
      }
  }

  /** For every interleaving of W lookup threads: at most W - 1 calls start inside the cooldown
      set by the latest 429. */
  lemma {:induction false} AtMostOthersCall(width: nat, moves: seq<Move>, c: Config)
    ensures var p := RunPool(width, moves, c);
      |p.threads| == width && Bounded(p) && (p.limited ==> p.inside <= width - 1)
  {
    hide Step, Bounded;
    if moves != [] {
      AtMostOthersCall(width, moves[..|moves| - 1], c);
      StepBounded(RunPool(width, moves[..|moves| - 1], c), moves[|moves| - 1], c);
    }
    FreshBounded(width);
    if RunPool(width, moves, c).limited {
      BoundedInside(RunPool(width, moves, c));
    }
  }

  lemma FreshBounded(width: nat)
    ensures Bounded(Pool(seq(width, i => Idle), Fresh, 0.0, false, 0))
  {
  }

  lemma BoundedInside(p: Pool)
    requires Bounded(p) && p.limited
    ensures p.inside <= |p.threads| - 1
  {
  }

  lemma RunSnoc(width: nat, moves: seq<Move>, m: Move, c: Config)
    ensures RunPool(width, moves + [m], c) == Step(RunPool(width, moves, c), m, c)
  {
    assert (moves + [m])[..|moves|] == moves;
  }

  /** Threads 0 to k - 1 check, one after the other. */
  function Checks(k: nat): seq<Move> {
    if k == 0 then [] else Checks(k - 1) + [Check(k - 1)]
  }

  /** Everybody checks, thread 0 calls and gets a 429, then threads 1 to k start. */
  function LateStarts(width: nat, k: nat): seq<Move> {
    if k == 0 then Checks(width) + [Start(0)] + [Finish(0, TooMany(None))] else LateStarts(width, k - 1) + [Start(k)]
  }

  lemma {:induction false} AllPass(width: nat, k: nat)
    requires k <= width
    ensures var p := RunPool(width, Checks(k), Defaults);
      && |p.threads| == width && p.governor == Fresh && p.now == 0.0 && !p.limited && p.inside == 0
      && forall t :: 0 <= t < width ==> p.threads[t] == if t < k then Passed else Idle
  {
    if k > 0 {
      AllPass(width, k - 1);
      RunSnoc(width, Checks(k - 1), Check(k - 1), Defaults);
    }
  }

  /** Thread 0 holds the slot and gets a 429 while the others wait behind the check. */
  lemma FirstLimited(p: Pool)
    requires p.threads != [] && p.threads[0] == Passed && p.governor == Fresh && p.now == 0.0
    ensures var q := Step(Step(p, Start(0), Defaults), Finish(0, TooMany(None)), Defaults);
      && |q.threads| == |p.threads| && q.governor.cooldownUntil == 30.0 && q.now == 0.0 && q.limited && q.inside == 0
      && forall t :: 0 < t < |p.threads| ==> q.threads[t] == p.threads[t]
  {
    assert Backoff(Defaults, 1) == 30.0;
  }

  lemma {:induction false} LateStartsCount(width: nat, k: nat)
    requires k < width
    ensures var p := RunPool(width, LateStarts(width, k), Defaults);
      && |p.threads| == width && p.governor.cooldownUntil == 30.0 && p.now == 0.0 && p.limited && p.inside == k
      && forall t :: k < t < width ==> p.threads[t] == Passed
  {
    hide RunPool, Backoff;
    if k == 0 {
      hide Step;
      var checks := Checks(width);
      AllPass(width, width);
      RunSnoc(width, checks, Start(0), Defaults);
      RunSnoc(width, checks + [Start(0)], Finish(0, TooMany(None)), Defaults);
      FirstLimited(RunPool(width, checks, Defaults));
    } else {
      LateStartsCount(width, k - 1);
      RunSnoc(width, LateStarts(width, k - 1), Start(k), Defaults);
    }
  }

  /** The bound is reached for every number of threads: W - 1 threads that passed the check before
      the last one's 429 still call inside the cooldown. */
  lemma BoundIsTight(width: nat)
    requires width >= 2
    ensures var p := RunPool(width, LateStarts(width, width - 1), Defaults);
      p.limited && p.inside == width - 1 && p.now < p.governor.cooldownUntil
  {
    LateStartsCount(width, width - 1);
  }

  /** How long a 429 makes the provider pause. */
  function Pause(g: Governor, c: Config, retryAfter: Option<real>): real {
    match retryAfter case Some(s) => MinR(MaxR(s, 1.0), c.maxCooldown) case None => Backoff(c, g.misses + 1)
  }

  /** When the latest call of the run started, and when the pause of its latest 429 ends. */
  function LatestStart(width: nat, moves: seq<Move>, c: Config): Option<real> {
    if moves == [] then None else
      var before, m := moves[..|moves| - 1], moves[|moves| - 1];
      var p := RunPool(width, before, c);
      if m.Start? && m.t < |p.threads| && p.threads[m.t] == Passed then Some(p.now) else LatestStart(width, before, c)
  }

  function LatestEnd(width: nat, moves: seq<Move>, c: Config): Option<real> {
    if moves == [] then None else
      var before, m := moves[..|moves| - 1], moves[|moves| - 1];
      var p := RunPool(width, before, c);
      if m.Finish? && m.t < |p.threads| && p.threads[m.t] == Calling && m.verdict.TooMany?
      then Some(p.now + Pause(p.governor, c, m.verdict.retryAfter)) else LatestEnd(width, before, c)
  }

  lemma {:induction false} GovernorFollowsRun(width: nat, moves: seq<Move>, c: Config)
    ensures var p := RunPool(width, moves, c);
      && p.now >= 0.0
      && p.governor.cooldownUntil == (match LatestEnd(width, moves, c) case None => 0.0 case Some(end) => end)
      && p.governor.nextAllowedAt ==
         (match LatestStart(width, moves, c) case None => 0.0 case Some(at) => at + c.minInterval)
  {
    hide Backoff;
    if moves != [] {
      GovernorFollowsRun(width, moves[..|moves| - 1], c);
    }
  }

  /** What passing the check means, in every interleaving: exactly that the pause of the latest 429
      is over and the minimum interval since the latest start has gone by. */
  lemma CheckPasses(width: nat, moves: seq<Move>, t: nat, c: Config)
    ensures var p := RunPool(width, moves, c);
      var end, start := LatestEnd(width, moves, c), LatestStart(width, moves, c);
      t < |p.threads| && p.threads[t] == Idle ==>
        (Step(p, Check(t), c).threads[t] == Passed <==>
          (end.Some? ==> p.now >= end.value) && (start.Some? ==> p.now >= start.value + c.minInterval))
  {
    hide RunPool, LatestEnd, LatestStart;
    GovernorFollowsRun(width, moves, c);
  }

  /** The cooldown end moves back exactly when a 429 asks for a pause that ends before the running
      one; no other step moves it at all. */
  lemma EndMovesBack(p: Pool, m: Move, c: Config)
    ensures Step(p, m, c).governor.cooldownUntil < p.governor.cooldownUntil <==>
      && m.Finish? && m.t < |p.threads| && p.threads[m.t] == Calling && m.verdict.TooMany?
      && p.now + Pause(p.governor, c, m.verdict.retryAfter) < p.governor.cooldownUntil
  {
    hide Backoff;
  }

  predicate Pausing(c: Config) {
    c.defaultCooldown >= 0.0 && c.maxCooldown >= 0.0
  }

  /** A thread on its way to or in a call is past the cooldown. */
  predicate PastCooldown(p: Pool) {
    forall t :: 0 <= t < |p.threads| && p.threads[t] != Idle ==> p.now >= p.governor.cooldownUntil
  }

  lemma StepAlone(p: Pool, m: Move, c: Config)
    requires |p.threads| == 1 && PastCooldown(p)
    ensures |Step(p, m, c).threads| == 1 && PastCooldown(Step(p, m, c))
  {
    hide Backoff;
  }

  lemma {:induction false} AloneIsPast(moves: seq<Move>, c: Config)
    ensures |RunPool(1, moves, c).threads| == 1 && PastCooldown(RunPool(1, moves, c))
  {
    if moves != [] {
      hide Step, PastCooldown;
      AloneIsPast(moves[..|moves| - 1], c);
      StepAlone(RunPool(1, moves[..|moves| - 1], c), moves[|moves| - 1], c);
    }
  }

  lemma PauseNotNegative(g: Governor, c: Config, retryAfter: Option<real>)
    requires Pausing(c)
    ensures Pause(g, c, retryAfter) >= 0.0
  {
    assert (Pow2(g.misses) as real) >= 0.0;
    assert c.defaultCooldown * (Pow2(g.misses) as real) >= 0.0;
  }

  /** One thread alone never moves the end back. */
  lemma NeverBackAlone(moves: seq<Move>, m: Move, c: Config)
    requires Pausing(c)
    ensures var p := RunPool(1, moves, c);
      Step(p, m, c).governor.cooldownUntil >= p.governor.cooldownUntil
  {
    hide RunPool, Pause;
    var p := RunPool(1, moves, c);
    AloneIsPast(moves, c);
    EndMovesBack(p, m, c);
    if m.Finish? && m.verdict.TooMany? {
      PauseNotNegative(p.governor, c, m.verdict.retryAfter);
    }
  }

  /** Two threads do: the second 429 of two overlapping calls cuts the first one's pause short. */
  lemma TwoThreadsMoveItBack()
    ensures var moves := [Check(0), Check(1), Start(0), Start(1), Finish(0, TooMany(Some(600.0)))];
      var p := RunPool(2, moves, Defaults);
      && p.governor.cooldownUntil == 600.0
      && Step(p, Finish(1, TooMany(Some(1.0))), Defaults).governor.cooldownUntil == 1.0
  {
    var both := Checks(2);
    AllPass(2, 2);
    assert both == [Check(0), Check(1)];
    RunSnoc(2, both, Start(0), Defaults);
    RunSnoc(2, both + [Start(0)], Start(1), Defaults);
    RunSnoc(2, both + [Start(0)] + [Start(1)], Finish(0, TooMany(Some(600.0))), Defaults);
    assert both + [Start(0)] + [Start(1)] + [Finish(0, TooMany(Some(600.0)))] ==
      [Check(0), Check(1), Start(0), Start(1), Finish(0, TooMany(Some(600.0)))];
  }
}
