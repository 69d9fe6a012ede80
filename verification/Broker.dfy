/** Provider lookups around a shared cache and shared governors, step by step as the worker threads
    interleave them, and the per-address fan-out (native/threat_intel/broker.py:97-180). */
module Broker {
  import opened Options
  import opened OrderedDict
  import C = EnrichmentCache
  import G = ProviderGovernor

  datatype Provider = GreyNoise | VirusTotal | Shodan

  datatype Status = Fine | NotFound | RateLimited | Errored | Malformed | TimedOut | Unauthorized
                  | Unavailable | MissingCredential | InvalidObservable

  /** `content` stands for the provenance and normalized fields. */
  datatype Envelope = Envelope(provider: Provider, observable: string, status: Status, cacheHit: bool, content: string)

  /** What the provider module does: a response, or an exception. */
  datatype Response = Response(status: Status, retryAfter: Option<real>, content: string) | Exception

  /** How far one call of _lookup_one has got. */
  datatype Phase = Waiting | Missed | Passed | Calling | Answered(response: Response) | Done(envelope: Envelope)

  datatype Job = Job(provider: Provider, observable: string, credential: bool, phase: Phase)

  /** What the lookups of all threads share. */
  datatype Shared = Shared(entries: C.Entries<Envelope>, governors: map<Provider, G.Governor>)

  const ERROR_TTL := 300.0

  function Name(p: Provider): string {
    match p case GreyNoise => "greynoise" case VirusTotal => "virustotal" case Shodan => "shodan"
  }

  function Key(p: Provider, observable: string): string {
    Name(p) + ":ip:" + observable
  }

  lemma KeyInjective(p: Provider, o: string, p': Provider, o': string)
    ensures Key(p, o) == Key(p', o') <==> p == p' && o == o'
  {
    assert Key(p, o)[0] == Name(p)[0] && Key(p', o')[0] == Name(p')[0];
    var n := |Name(p) + ":ip:"|;
    assert Key(p, o)[n..] == o;
    assert p == p' ==> Key(p', o')[n..] == o';
  }

  function Ttl(p: Provider, s: Status): real {
    if s == Fine || s == NotFound then
      match p case GreyNoise => 2700.0 case VirusTotal => 10800.0 case Shodan => 64800.0
    else ERROR_TTL
  }

  predicate Cacheable(s: Status) {
    s in {Fine, NotFound, RateLimited, Errored, Malformed, TimedOut, Unauthorized}
  }

  predicate Ready(s: Shared) {
    Unique(s.entries) && forall p: Provider :: p in s.governors
  }

  function StatusOf(r: Response): Status {
    if r.Exception? then Unavailable else r.status
  }

  function JobKey(j: Job): string {
    Key(j.provider, j.observable)
  }

  function Refused(j: Job, status: Status): Envelope {
    Envelope(j.provider, j.observable, status, false, "")
  }

  function Answer(j: Job, r: Response): Envelope {
    Envelope(j.provider, j.observable, StatusOf(r), false, if r.Exception? then "" else r.content)
  }

  function AfterAnswer(g: G.Governor, r: Response, now: real): G.Governor {
    if StatusOf(r) == RateLimited then G.NoteRateLimited(g, G.Defaults, r.retryAfter, now) else G.NoteSuccess(g)
  }

  function SetOp(j: Job, r: Response, wall: real): C.SetOp<Envelope> {
    C.SetOp(JobKey(j), Answer(j, r), Ttl(j.provider, StatusOf(r)), wall)
  }

  /** The steps of a lookup that touch shared state, each atomic under a lock. The cache reads the
      wall clock, the governors the monotonic one. */
  datatype Stage = Read(wall: real) | Check | Start | Take(response: Response) | Store(wall: real)

  /** One step of one lookup at time `now`; a step that is not the next one changes nothing. */
  function Advance(s: Shared, j: Job, stage: Stage, now: real, maxEntries: nat): (r: (Shared, Job))
    requires Ready(s)
    ensures r.1.provider == j.provider && r.1.observable == j.observable
  {
    var g := s.governors[j.provider];
    match stage
    case Read(wall) =>
      if !j.phase.Waiting? then (s, j) else
        var cached := C.GetEntry(s.entries, JobKey(j), wall);
        if cached.Some? then (s, j.(phase := Done(cached.value.(cacheHit := true))))
        else if !j.credential then (s, j.(phase := Done(Refused(j, MissingCredential))))
        else (s, j.(phase := Missed))
    case Check =>
      if !j.phase.Missed? then (s, j)
      else if G.CanCall(g, now) then (s, j.(phase := Passed))
      else (s, j.(phase := Done(Refused(j, RateLimited))))
    case Start =>
      if !j.phase.Passed? then (s, j)
      else (s.(governors := s.governors[j.provider := G.NoteCall(g, G.Defaults, now)]), j.(phase := Calling))
    case Take(response) =>
      if !j.phase.Calling? then (s, j)
      else (s.(governors := s.governors[j.provider := AfterAnswer(g, response, now)]), j.(phase := Answered(response)))
    case Store(wall) =>
      if !j.phase.Answered? then (s, j) else
        var r := j.phase.response;
        (if Cacheable(StatusOf(r)) then s.(entries := C.SetEntry(s.entries, SetOp(j, r, wall), maxEntries)) else s,
         j.(phase := Done(Answer(j, r))))
  }

  lemma AdvanceReady(s: Shared, j: Job, stage: Stage, now: real, maxEntries: nat)
    requires Ready(s)
    ensures Ready(Advance(s, j, stage, now, maxEntries).0)
  {
    hide C.SetEntry, C.GetEntry, G.CanCall;
    if stage.Store? && j.phase.Answered? {
      C.SetSplits(s.entries, SetOp(j, j.phase.response, stage.wall), maxEntries);
    }
  }

  /** All lookups at once. */
  datatype Pool = Pool(shared: Shared, jobs: seq<Job>, now: real)

  datatype Move = Tick(to: real) | Submit(provider: Provider, observable: string, credential: bool)
                | Work(job: nat, stage: Stage)

  function Step(p: Pool, m: Move, maxEntries: nat): Pool
    requires Ready(p.shared)
  {
    match m
    case Tick(to) => if to >= p.now then p.(now := to) else p
    case Submit(provider, observable, credential) =>
      p.(jobs := p.jobs + [Job(provider, observable, credential, Waiting)])
    case Work(n, stage) =>
      if n >= |p.jobs| then p else
        var (s, j) := Advance(p.shared, p.jobs[n], stage, p.now, maxEntries);
        Pool(s, p.jobs[n := j], p.now)
  }

  lemma StepReady(p: Pool, m: Move, maxEntries: nat)
    requires Ready(p.shared)
    ensures Ready(Step(p, m, maxEntries).shared)
  {
    hide Advance, Ready;
    if m.Work? && m.job < |p.jobs| {
      AdvanceReady(p.shared, p.jobs[m.job], m.stage, p.now, maxEntries);
    }
  }

  const FRESH := map[GreyNoise := G.Fresh, VirusTotal := G.Fresh, Shodan := G.Fresh]

  lemma AllFresh()
    ensures forall p: Provider :: p in FRESH
  {
    forall p: Provider
      ensures p in FRESH
    {
      match p case GreyNoise => case VirusTotal => case Shodan =>
    }
  }

  /** Every interleaving, from whatever cache file was loaded. */
  function Run(loaded: C.Entries<Envelope>, moves: seq<Move>, maxEntries: nat): (p: Pool)
    requires Unique(loaded)
    ensures Ready(p.shared)
  {
    if moves == [] then
      AllFresh();
      Pool(Shared(loaded, FRESH), [], 0.0)
    else
      var before := Run(loaded, moves[..|moves| - 1], maxEntries);
      StepReady(before, moves[|moves| - 1], maxEntries);
      Step(before, moves[|moves| - 1], maxEntries)
  }

  function CooldownEnd(p: Pool, provider: Provider): real
    requires Ready(p.shared)
  {
    p.shared.governors[provider].cooldownUntil
  }

  /** The n-th move answers a call of this provider with a 429. */
  predicate LimitedAt(loaded: C.Entries<Envelope>, moves: seq<Move>, maxEntries: nat, n: nat, provider: Provider)
    requires Unique(loaded) && n < |moves|
  {
    var p := Run(loaded, moves[..n], maxEntries);
    var m := moves[n];
    && m.Work? && m.job < |p.jobs| && p.jobs[m.job].provider == provider && p.jobs[m.job].phase.Calling?
    && m.stage.Take? && StatusOf(m.stage.response) == RateLimited
  }

  /** Before some earlier 429 of its provider, this lookup was already past the check. */
  predicate PassedBefore429(loaded: C.Entries<Envelope>, moves: seq<Move>, maxEntries: nat, job: nat,
                            provider: Provider)
    requires Unique(loaded)
  {
    exists n :: 0 <= n < |moves| && PassedBefore(loaded, moves, maxEntries, job, provider, n)
  }

  predicate PassedBefore(loaded: C.Entries<Envelope>, moves: seq<Move>, maxEntries: nat, job: nat, provider: Provider,
                         n: nat)
    requires Unique(loaded) && n < |moves|
  {
    && LimitedAt(loaded, moves, maxEntries, n, provider)
    && var p := Run(loaded, moves[..n], maxEntries);
       job < |p.jobs| && p.jobs[job].phase.Passed?
  }

  lemma PassedBeforeLater(loaded: C.Entries<Envelope>, moves: seq<Move>, m: Move, maxEntries: nat, job: nat,
                          provider: Provider)
    requires Unique(loaded) && PassedBefore429(loaded, moves, maxEntries, job, provider)
    ensures PassedBefore429(loaded, moves + [m], maxEntries, job, provider)
  {
    hide Run;
    var n :| 0 <= n < |moves| && PassedBefore(loaded, moves, maxEntries, job, provider, n);
    assert (moves + [m])[..n] == moves[..n];
    assert PassedBefore(loaded, moves + [m], maxEntries, job, provider, n);
  }

  /** One step: a lookup past the check inside a cooldown was past it before the step, and the
      cooldown was running, or the step is the 429 that set it. */
  lemma PassedStep(p: Pool, m: Move, maxEntries: nat, job: nat)
    requires Ready(p.shared)
    ensures var q := Step(p, m, maxEntries);
      && Ready(q.shared)
      && (job < |q.jobs| && q.jobs[job].phase.Passed? && q.now < CooldownEnd(q, q.jobs[job].provider) ==>
            && job < |p.jobs| && p.jobs[job].phase.Passed? && p.jobs[job].provider == q.jobs[job].provider
            && (p.now < CooldownEnd(p, p.jobs[job].provider)
                || (m.Work? && m.job < |p.jobs| && p.jobs[m.job].provider == p.jobs[job].provider
                    && p.jobs[m.job].phase.Calling? && m.stage.Take? && StatusOf(m.stage.response) == RateLimited)))
  {
    hide C.SetEntry, C.GetEntry, Unique, Key, Ttl, Answer, G.NoteRateLimited, Cacheable;
    StepReady(p, m, maxEntries);
  }

  /** In a cooldown only lookups already past the check call: whichever one still stands before its
      call while the cooldown runs had passed the check before a later 429 of its provider. */
  lemma {:induction false} OnlyEarlierChecksCall(loaded: C.Entries<Envelope>, moves: seq<Move>, maxEntries: nat,
                                                 job: nat)
    requires Unique(loaded)
    ensures var p := Run(loaded, moves, maxEntries);
      job < |p.jobs| && p.jobs[job].phase.Passed? && p.now < CooldownEnd(p, p.jobs[job].provider) ==>
        PassedBefore429(loaded, moves, maxEntries, job, p.jobs[job].provider)
  {
    hide Step, Ready, CooldownEnd, PassedBefore429;
    if moves != [] {
      var before, m := moves[..|moves| - 1], moves[|moves| - 1];
      var p, q := Run(loaded, before, maxEntries), Run(loaded, moves, maxEntries);
      assert moves == before + [m];
      OnlyEarlierChecksCall(loaded, before, maxEntries, job);
      PassedStep(p, m, maxEntries, job);
      if job < |q.jobs| && q.jobs[job].phase.Passed? && q.now < CooldownEnd(q, q.jobs[job].provider) {
        if p.now < CooldownEnd(p, p.jobs[job].provider) {
          PassedBeforeLater(loaded, before, m, maxEntries, job, q.jobs[job].provider);
        } else {
          ThisIsThe429(loaded, before, m, maxEntries, job, q.jobs[job].provider);
        }
      }
    }
  }

  lemma ThisIsThe429(loaded: C.Entries<Envelope>, before: seq<Move>, m: Move, maxEntries: nat, job: nat,
                     provider: Provider)
    requires Unique(loaded)
    requires var p := Run(loaded, before, maxEntries);
      && job < |p.jobs| && p.jobs[job].phase.Passed?
      && m.Work? && m.job < |p.jobs| && p.jobs[m.job].provider == provider && p.jobs[m.job].phase.Calling?
      && m.stage.Take? && StatusOf(m.stage.response) == RateLimited
    ensures PassedBefore429(loaded, before + [m], maxEntries, job, provider)
  {
    hide Run;
    assert (before + [m])[..|before|] == before;
    assert PassedBefore(loaded, before + [m], maxEntries, job, provider, |before|);
  }

  /** While a provider cools down, a check for any address fails and leaves everything shared as it
      was; no step but the start of a lookup past its check reaches the network; and only an answer
      to a call already running moves the cooldown. */
  lemma CooldownStopsEveryAddress(p: Pool, job: nat, stage: Stage, maxEntries: nat)
    requires Ready(p.shared) && job < |p.jobs| && p.now < CooldownEnd(p, p.jobs[job].provider)
    ensures var j := p.jobs[job];
      var q := Step(p, Work(job, stage), maxEntries);
      && Ready(q.shared)
      && (stage.Check? && j.phase.Missed? ==>
            q.jobs[job].phase == Done(Refused(j, RateLimited)) && q.shared == p.shared)
      && (q.jobs[job].phase.Calling? && !j.phase.Calling? ==> j.phase.Passed? && stage.Start?)
      && (CooldownEnd(q, j.provider) != CooldownEnd(p, j.provider) ==> j.phase.Calling? && stage.Take?)
  {
    hide C.SetEntry, C.GetEntry, Unique, Key, Ttl, Answer, Cacheable;
    StepReady(p, Work(job, stage), maxEntries);
  }

  predicate Stores(p: Pool, m: Move) {
    && m.Work? && m.stage.Store? && m.job < |p.jobs| && p.jobs[m.job].phase.Answered?
    && Cacheable(StatusOf(p.jobs[m.job].phase.response))
  }

  /** The sets a run made, oldest first. */
  function Sets(loaded: C.Entries<Envelope>, moves: seq<Move>, maxEntries: nat): seq<C.SetOp<Envelope>>
    requires Unique(loaded)
  {
    if moves == [] then [] else
      var before := moves[..|moves| - 1];
      Sets(loaded, before, maxEntries)
      + (if StoresAt(loaded, moves, maxEntries, |moves| - 1)
         then [OpAt(loaded, moves, maxEntries, |moves| - 1)] else [])
  }

  /** The n-th move stores an answer. */
  predicate StoresAt(loaded: C.Entries<Envelope>, moves: seq<Move>, maxEntries: nat, n: nat)
    requires Unique(loaded) && n < |moves|
  {
    Stores(Run(loaded, moves[..n], maxEntries), moves[n])
  }

  function OpAt(loaded: C.Entries<Envelope>, moves: seq<Move>, maxEntries: nat, n: nat): C.SetOp<Envelope>
    requires Unique(loaded) && n < |moves| && StoresAt(loaded, moves, maxEntries, n)
  {
    var p, m := Run(loaded, moves[..n], maxEntries), moves[n];
    SetOp(p.jobs[m.job], p.jobs[m.job].phase.response, m.stage.wall)
  }

  /** Only a storing step changes the cache. */
  lemma EntriesStep(p: Pool, m: Move, maxEntries: nat)
    requires Ready(p.shared)
    ensures Step(p, m, maxEntries).shared.entries ==
      if Stores(p, m)
      then C.SetEntry(p.shared.entries, SetOp(p.jobs[m.job], p.jobs[m.job].phase.response, m.stage.wall), maxEntries)
      else p.shared.entries
  {
    hide C.SetEntry, C.GetEntry, Unique, SetOp, Cacheable, StatusOf, G.CanCall, Key;
  }

  lemma {:induction false} CacheIsTheSets(loaded: C.Entries<Envelope>, moves: seq<Move>, maxEntries: nat)
    requires Unique(loaded)
    ensures Run(loaded, moves, maxEntries).shared.entries == C.Exec(loaded, Sets(loaded, moves, maxEntries), maxEntries)
  {
    hide C.SetEntry, Unique, SetOp, Step, Ready;
    if moves != [] {
      var before := moves[..|moves| - 1];
      CacheIsTheSets(loaded, before, maxEntries);
      EntriesStep(Run(loaded, before, maxEntries), moves[|moves| - 1], maxEntries);
      var ops := Sets(loaded, before, maxEntries);
      if StoresAt(loaded, moves, maxEntries, |moves| - 1) {
        assert (ops + [OpAt(loaded, moves, maxEntries, |moves| - 1)])[..|ops|] == ops;
      } else {
        assert ops + [] == ops;
      }
    }
  }

  predicate StoredBy(loaded: C.Entries<Envelope>, moves: seq<Move>, maxEntries: nat, op: C.SetOp<Envelope>, n: nat)
    requires Unique(loaded) && n < |moves|
  {
    StoresAt(loaded, moves, maxEntries, n) && OpAt(loaded, moves, maxEntries, n) == op
  }

  lemma {:induction false} SetsStored(loaded: C.Entries<Envelope>, moves: seq<Move>, maxEntries: nat,
                                      op: C.SetOp<Envelope>)
    requires Unique(loaded) && op in Sets(loaded, moves, maxEntries)
    ensures exists n :: 0 <= n < |moves| && StoredBy(loaded, moves, maxEntries, op, n)
  {
    hide Run, SetOp, Cacheable;
    if moves != [] {
      var before := moves[..|moves| - 1];
      if op in Sets(loaded, before, maxEntries) {
        SetsStored(loaded, before, maxEntries, op);
        var n :| 0 <= n < |before| && StoredBy(loaded, before, maxEntries, op, n);
        assert before[..n] == moves[..n];
        assert StoredBy(loaded, moves, maxEntries, op, n);
      } else {
        assert StoredBy(loaded, moves, maxEntries, op, |before|);
      }
    }
  }

  predicate IsSet<E(==)>(ops: seq<C.SetOp<E>>, i: nat, key: string, entry: C.Entry<E>)
    requires i < |ops|
  {
    ops[i].key == key && entry == C.Stored(ops[i])
  }

  lemma {:induction false} LastIsAnOp<E>(loaded: C.Entries<E>, ops: seq<C.SetOp<E>>, key: string)
    ensures var last := C.Last(loaded, ops, key);
      last.Some? ==>
        (Has(loaded, key) && last.value == Get(loaded, key))
        || exists i :: 0 <= i < |ops| && IsSet(ops, i, key, last.value)
  {
    var n := |ops| - 1;
    var last := C.Last(loaded, ops, key);
    if ops != [] {
      if ops[n].key == key {
        assert IsSet(ops, n, key, last.value);
      } else if last.Some? {
        LastIsAnOp(loaded, ops[..n], key);
        if i :| 0 <= i < n && IsSet(ops[..n], i, key, last.value) {
          assert IsSet(ops, i, key, last.value);
        }
      }
    }
  }

  /** The n-th move stored the network's answer to a lookup for this provider and address. */
  predicate AnswersFor(loaded: C.Entries<Envelope>, moves: seq<Move>, maxEntries: nat, n: nat, j: Job, e: Envelope,
                       wall: real)
    requires Unique(loaded) && n < |moves|
  {
    && StoresAt(loaded, moves, maxEntries, n)
    && var k := Run(loaded, moves[..n], maxEntries).jobs[moves[n].job];
       && k.provider == j.provider && k.observable == j.observable
       && e == Answer(k, k.phase.response).(cacheHit := true)
       && wall < moves[n].stage.wall + Ttl(j.provider, e.status)
  }

  lemma ReadHits(s: Shared, j: Job, wall: real, now: real, maxEntries: nat)
    requires Ready(s) && j.phase.Waiting?
    ensures var (shared, after) := Advance(s, j, Read(wall), now, maxEntries);
      var cached := C.GetEntry(s.entries, JobKey(j), wall);
      && shared == s
      && (after.phase.Done? && after.phase.envelope.cacheHit ==>
            cached.Some? && after.phase.envelope == cached.value.(cacheHit := true))
  {
    hide C.GetEntry, Key, Ready;
  }

  lemma StoredAnswers(loaded: C.Entries<Envelope>, moves: seq<Move>, maxEntries: nat, op: C.SetOp<Envelope>, n: nat,
                      j: Job, wall: real)
    requires Unique(loaded) && n < |moves| && StoredBy(loaded, moves, maxEntries, op, n)
    requires op.key == JobKey(j) && wall < C.Stored(op).expiresAt
    ensures AnswersFor(loaded, moves, maxEntries, n, j, op.envelope.(cacheHit := true), wall)
  {
    hide Run, Key, Ttl, Cacheable;
    var k := Run(loaded, moves[..n], maxEntries).jobs[moves[n].job];
    KeyInjective(k.provider, k.observable, j.provider, j.observable);
  }

  /** In every interleaving and from every loaded cache: a lookup answered from the cache repeats,
      changed in `cache_hit` alone and only before its expiry, an answer that some lookup for the
      same provider and address got from the network, or the loaded entry. */
  lemma {:induction false} HitRepeatsAnAnswer(loaded: C.Entries<Envelope>, moves: seq<Move>, maxEntries: nat, job: nat,
                                              wall: real)
    requires Unique(loaded)
    ensures var p := Run(loaded, moves, maxEntries);
      job < |p.jobs| && p.jobs[job].phase.Waiting? ==>
        var j := p.jobs[job];
        var (shared, after) := Advance(p.shared, j, Read(wall), p.now, maxEntries);
        && shared == p.shared
        && (after.phase.Done? && after.phase.envelope.cacheHit ==>
              || (Has(loaded, JobKey(j)) && wall < Get(loaded, JobKey(j)).expiresAt
                  && after.phase.envelope == Get(loaded, JobKey(j)).envelope.(cacheHit := true))
              || exists n ::
                   0 <= n < |moves| && AnswersFor(loaded, moves, maxEntries, n, j, after.phase.envelope, wall))
  {
    hide Run, Advance, Key, Has, Get, Unique, AnswersFor, StoredBy, C.GetEntry, Ready;
    var p := Run(loaded, moves, maxEntries);
    if job < |p.jobs| && p.jobs[job].phase.Waiting? {
      var j := p.jobs[job];
      ReadHits(p.shared, j, wall, p.now, maxEntries);
      CacheIsTheSets(loaded, moves, maxEntries);
      var ops := Sets(loaded, moves, maxEntries);
      var last := C.Last(loaded, ops, JobKey(j));
      C.GetReturnsLast(loaded, ops, maxEntries, JobKey(j), wall);
      LastIsAnOp(loaded, ops, JobKey(j));
      if i :| last.Some? && wall < last.value.expiresAt && 0 <= i < |ops| && IsSet(ops, i, JobKey(j), last.value) {
        SetsStored(loaded, moves, maxEntries, ops[i]);
        var n :| 0 <= n < |moves| && StoredBy(loaded, moves, maxEntries, ops[i], n);
        StoredAnswers(loaded, moves, maxEntries, ops[i], n, j, wall);
      }
    }
  }

  /** What the pool thread for one provider produced: a result, or an exception or timeout. */
  datatype Future = Returned(envelope: Envelope) | Broken

  /** enrich_ip: fail-open, one envelope per provider whatever happened. */
  function EnrichIp(address: string, publicAddress: bool, futures: map<Provider, Future>): (r: map<Provider, Envelope>)
    requires futures.Keys == {GreyNoise, VirusTotal, Shodan}
    ensures r.Keys == {GreyNoise, VirusTotal, Shodan}
    ensures forall p :: p in r && publicAddress && futures[p].Returned? ==> r[p] == futures[p].envelope
    ensures forall p :: p in r && !(publicAddress && futures[p].Returned?) ==>
      && r[p].provider == p && r[p].observable == address && !r[p].cacheHit && r[p].content == ""
      && r[p].status == if publicAddress then Unavailable else InvalidObservable
  {
    map p | p in futures ::
      if !publicAddress then Envelope(p, address, InvalidObservable, false, "")
      else match futures[p] case Returned(e) => e case Broken => Envelope(p, address, Unavailable, false, "")
  }

  /** The outside world during one lookup: clock readings and what the provider did. */
  datatype Visit = Visit(readAt: real, checkAt: real, startAt: real, response: Response, answerAt: real, storeAt: real)

  /** The five steps of a lookup with no other thread between them. */
  function Alone(s: Shared, j: Job, v: Visit, maxEntries: nat): (r: (Shared, Job))
    requires Ready(s)
  {
    var (s1, j1) := Advance(s, j, Read(v.readAt), v.readAt, maxEntries);
    AdvanceReady(s, j, Read(v.readAt), v.readAt, maxEntries);
    var (s2, j2) := Advance(s1, j1, Check, v.checkAt, maxEntries);
    AdvanceReady(s1, j1, Check, v.checkAt, maxEntries);
    var (s3, j3) := Advance(s2, j2, Start, v.startAt, maxEntries);
    AdvanceReady(s2, j2, Start, v.startAt, maxEntries);
    var (s4, j4) := Advance(s3, j3, Take(v.response), v.answerAt, maxEntries);
    AdvanceReady(s3, j3, Take(v.response), v.answerAt, maxEntries);
    Advance(s4, j4, Store(v.storeAt), v.answerAt, maxEntries)
  }

  lemma DoneStays(s: Shared, j: Job, now: real, maxEntries: nat)
    requires Ready(s) && j.phase.Done?
    ensures forall stage :: Advance(s, j, stage, now, maxEntries) == (s, j)
  {
    hide C.SetEntry, C.GetEntry, Ready;
  }

  /** The shared cache and governors, and the steps of _lookup_one on them. A thread calls the steps
      of its lookup in this order; those of other threads may come between any two. */
  class ThreatIntelBroker {
    const cache: C.Cache<Envelope>
    const governors: map<Provider, G.ProviderRateGovernor>

    ghost predicate Valid()
      reads cache
    {
      && Unique(cache.entries)
      && (forall p :: p in governors && governors[p].config == G.Defaults)
      && (forall p, q :: p != q ==> governors[p] != governors[q])
    }

    constructor (cache: C.Cache<Envelope>)
      requires Unique(cache.entries)
      ensures Valid() && this.cache == cache
      ensures forall p :: fresh(governors[p]) && governors[p].State() == G.Fresh
    {
      hide Unique;
      var g := new G.ProviderRateGovernor(G.Defaults);
      var v := new G.ProviderRateGovernor(G.Defaults);
      var s := new G.ProviderRateGovernor(G.Defaults);
      this.cache := cache;
      governors := map[GreyNoise := g, VirusTotal := v, Shodan := s];
      new;
      forall p: Provider
        ensures p in governors
      {
        match p case GreyNoise => case VirusTotal => case Shodan =>
      }
    }

    ghost function Now(): Shared
      requires Valid()
      reads cache, governors.Values
    {
      Shared(cache.entries, map p | p in governors :: governors[p].State())
    }

    method ReadCache(j: Job, wall: real) returns (after: Job)
      requires Valid() && j.phase.Waiting?
      ensures forall now, max :: (Now(), after) == Advance(Now(), j, Read(wall), now, max)
      ensures after == j.(phase := after.phase) && (after.phase.Missed? || after.phase.Done?)
    {
      hide Key, Unique;
      var cached := cache.Lookup(JobKey(j), wall);
      if cached.Some? {
        after := j.(phase := Done(cached.value.(cacheHit := true)));
      } else if !j.credential {
        after := j.(phase := Done(Refused(j, MissingCredential)));
      } else {
        after := j.(phase := Missed);
      }
    }

    method CheckGovernor(j: Job, now: real) returns (after: Job)
      requires Valid() && j.phase.Missed?
      ensures forall max :: (Now(), after) == Advance(Now(), j, Check, now, max)
      ensures after == j.(phase := after.phase) && (after.phase.Passed? || after.phase.Done?)
    {
      hide Unique;
      var ok := governors[j.provider].MayCall(now);
      after := j.(phase := if ok then Passed else Done(Refused(j, RateLimited)));
    }

    method StartCall(j: Job, now: real) returns (after: Job)
      requires Valid() && j.phase.Passed?
      modifies governors[j.provider]
      ensures Valid()
      ensures forall max :: (Now(), after) == Advance(old(Now()), j, Start, now, max)
      ensures after == j.(phase := Calling)
    {
      hide Unique;
      governors[j.provider].NoteCallAttempt(now);
      after := j.(phase := Calling);
      assert Now().governors ==
        old(Now()).governors[j.provider := G.NoteCall(old(governors[j.provider].State()), G.Defaults, now)];
    }

    method TakeAnswer(j: Job, response: Response, now: real) returns (after: Job)
      requires Valid() && j.phase.Calling?
      modifies governors[j.provider]
      ensures Valid()
      ensures forall max :: (Now(), after) == Advance(old(Now()), j, Take(response), now, max)
      ensures after == j.(phase := Answered(response))
    {
      hide Unique;
      if StatusOf(response) == RateLimited {
        governors[j.provider].NoteLimited(response.retryAfter, now);
      } else {
        governors[j.provider].NoteSuccessful();
      }
      after := j.(phase := Answered(response));
      assert Now().governors ==
        old(Now()).governors[j.provider := AfterAnswer(old(governors[j.provider].State()), response, now)];
    }

    method StoreAnswer(j: Job, wall: real) returns (after: Job)
      requires Valid() && j.phase.Answered?
      modifies cache
      ensures Valid()
      ensures forall now :: (Now(), after) == Advance(old(Now()), j, Store(wall), now, cache.maxEntries)
      ensures after.phase.Done?
    {
      hide C.SetEntry, Key, Ttl, Unique;
      var r := j.phase.response;
      var e := Answer(j, r);
      if Cacheable(StatusOf(r)) {
        cache.Store(JobKey(j), e, Ttl(j.provider, StatusOf(r)), wall);
      }
      after := j.(phase := Done(e));
      assert Now().governors == old(Now()).governors;
    }

    /** _lookup_one, undisturbed. */
    method LookupProvider(j: Job, v: Visit) returns (e: Envelope)
      requires Valid() && j.phase.Waiting?
      modifies cache, governors[j.provider]
      ensures Valid()
      ensures var (s, after) := Alone(old(Now()), j, v, cache.maxEntries);
        Now() == s && after.phase == Done(e)
    {
      hide Advance, Unique;
      ghost var s, max := Now(), cache.maxEntries;
      var read := ReadCache(j, v.readAt);
      if read.phase.Done? {
        DoneStays(s, read, v.checkAt, max);
        DoneStays(s, read, v.startAt, max);
        DoneStays(s, read, v.answerAt, max);
        return read.phase.envelope;
      }
      var checked := CheckGovernor(read, v.checkAt);
      if checked.phase.Done? {
        DoneStays(s, checked, v.startAt, max);
        DoneStays(s, checked, v.answerAt, max);
        return checked.phase.envelope;
      }
      assert Now() == s;
      var started := StartCall(checked, v.startAt);
      ghost var s3 := Now();
      assert (s3, started) == Advance(s, checked, Start, v.startAt, max);
      var taken := TakeAnswer(started, v.response, v.answerAt);
      ghost var s4 := Now();
      assert (s4, taken) == Advance(s3, started, Take(v.response), v.answerAt, max);
      var stored := StoreAnswer(taken, v.storeAt);
      assert (Now(), stored) == Advance(s4, taken, Store(v.storeAt), v.answerAt, max);
      return stored.phase.envelope;
    }
  }
}
