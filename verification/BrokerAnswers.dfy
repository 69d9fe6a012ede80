/** What one lookup answers, for how long its answer is repeated, and how long a provider is left alone after
    a 429, in the numbers of the defaults (native/threat_intel/broker.py:38-47, 97-174,
    native/threat_intel/rate_governor.py:42-69). */
module BrokerAnswers {
  import opened Options
  import opened OrderedDict
  import opened Broker
  import C = EnrichmentCache
  import G = ProviderGovernor

  // The pauses.

  /** The n-th 429 in a row that names no time: the pause doubles from 30 seconds up to ten minutes. */
  lemma {:induction false} BackoffNumbers(n: nat)
    requires n >= 1
    ensures G.Backoff(G.Defaults, n)
      == if n == 1 then 30.0 else if n == 2 then 60.0 else if n == 3 then 120.0 else if n == 4 then 240.0
         else if n == 5 then 480.0 else 600.0
  {
    if n <= 5 {
      assert G.Pow2(0) == 1 && G.Pow2(1) == 2 && G.Pow2(2) == 4 && G.Pow2(3) == 8 && G.Pow2(4) == 16;
    } else {
      Doubles(n - 1);
    }
  }

  lemma {:induction false} Doubles(n: nat)
    requires n >= 5
    ensures G.Pow2(n) >= 32
  {
    if n == 5 {
      assert G.Pow2(0) == 1 && G.Pow2(1) == 2 && G.Pow2(2) == 4 && G.Pow2(3) == 8 && G.Pow2(4) == 16;
    } else {
      Doubles(n - 1);
    }
  }

  /** How long a 429 answered at `at` keeps its provider silent, `earlier` being the ones in a row before it that
      named no time either. */
  predicate PausedUntil(until: real, at: real, retryAfter: Option<real>, earlier: nat) {
    match retryAfter
    case Some(s) => until == at + (if s < 1.0 then 1.0 else if s > 600.0 then 600.0 else s)
    case None =>
      until == at + (if earlier == 0 then 30.0 else if earlier == 1 then 60.0 else if earlier == 2 then 120.0
                     else if earlier == 3 then 240.0 else if earlier == 4 then 480.0 else 600.0)
  }

  /** In every interleaving a 429 pauses its provider, and no other, from the moment it is taken, for the time
      it names or else the doubled one; the count of the doubling starts over with a named time and with any
      other answer. A call keeps the interval of a fifth of a second. */
  lemma AnswerPauses(p: Pool, job: nat, stage: Stage, maxEntries: nat)
    requires Ready(p.shared) && job < |p.jobs|
    ensures Ready(Step(p, Work(job, stage), maxEntries).shared)
    ensures var j, q := p.jobs[job], Step(p, Work(job, stage), maxEntries);
      var g, g' := p.shared.governors[j.provider], q.shared.governors[j.provider];
      && (stage.Take? && j.phase.Calling? && StatusOf(stage.response) == RateLimited ==>
            && PausedUntil(g'.cooldownUntil, p.now, stage.response.retryAfter, g.misses)
            && g'.misses == if stage.response.retryAfter.None? then g.misses + 1 else 0)
      && (stage.Take? && j.phase.Calling? && StatusOf(stage.response) != RateLimited ==>
            g'.cooldownUntil == g.cooldownUntil && g'.misses == 0)
      && (stage.Start? && j.phase.Passed? ==> g'.nextAllowedAt == p.now + 0.2)
      && (forall other: Provider :: other != j.provider ==>
            q.shared.governors[other] == p.shared.governors[other])
  {
    hide C.SetEntry, C.GetEntry, Unique, Key, Ttl, Answer, Cacheable, G.Backoff, G.Pow2;
    StepReady(p, Work(job, stage), maxEntries);
    BackoffNumbers(p.shared.governors[p.jobs[job].provider].misses + 1);
  }

  // One lookup, with no other thread between its steps.

  /** The cache key: the provider's name, ":ip:" and the address. */
  function EntryKey(j: Job): string {
    (match j.provider case GreyNoise => "greynoise" case VirusTotal => "virustotal" case Shodan => "shodan")
    + ":ip:" + j.observable
  }

  predicate Keeps(status: Status) {
    && status != Unavailable && status != MissingCredential && status != InvalidObservable
  }

  /** Seconds for which an answer is kept. */
  function KeptFor(provider: Provider, status: Status): real {
    if status == Fine || status == NotFound then
      match provider case GreyNoise => 45.0 * 60.0 case VirusTotal => 3.0 * 3600.0 case Shodan => 18.0 * 3600.0
    else 300.0
  }

  /** An entry of the cache that is not expired. */
  predicate Held(s: Shared, key: string, at: real, e: Envelope) {
    exists x :: x in s.entries && x.0 == key && at < x.1.expiresAt && x.1.envelope == e
  }

  lemma HeldIsGot(s: Shared, j: Job, at: real, e: Envelope)
    requires Ready(s)
    ensures C.GetEntry(s.entries, JobKey(j), at) == Some(e) <==> Held(s, EntryKey(j), at, e)
  {
    assert JobKey(j) == EntryKey(j);
    if C.GetEntry(s.entries, JobKey(j), at) == Some(e) {
      assert s.entries[Index(s.entries, JobKey(j))] in s.entries;
    }
    if x :| x in s.entries && x.0 == EntryKey(j) && at < x.1.expiresAt && x.1.envelope == e {
      var i :| 0 <= i < |s.entries| && s.entries[i] == x;
      IndexAt(s.entries, i);
    }
  }

  lemma RepeatRead(s: Shared, j: Job, v: Visit, maxEntries: nat)
    requires Ready(s) && j.phase.Waiting?
    ensures C.GetEntry(s.entries, JobKey(j), v.readAt).Some? ==>
      Alone(s, j, v, maxEntries)
      == (s, j.(phase := Done(C.GetEntry(s.entries, JobKey(j), v.readAt).value.(cacheHit := true))))
  {
    hide C.GetEntry, C.SetEntry, Key, Unique;
  }

  lemma RefusedLookup(s: Shared, j: Job, v: Visit, maxEntries: nat)
    requires Ready(s) && j.phase.Waiting? && C.GetEntry(s.entries, JobKey(j), v.readAt).None?
    ensures !j.credential ==>
      Alone(s, j, v, maxEntries)
      == (s, j.(phase := Done(Envelope(j.provider, j.observable, MissingCredential, false, ""))))
    ensures j.credential && !G.CanCall(s.governors[j.provider], v.checkAt) ==>
      Alone(s, j, v, maxEntries)
      == (s, j.(phase := Done(Envelope(j.provider, j.observable, RateLimited, false, ""))))
  {
    hide C.GetEntry, C.SetEntry, Key, Unique, G.CanCall;
  }

  lemma CalledLookup(s: Shared, j: Job, v: Visit, maxEntries: nat)
    requires Ready(s) && j.phase.Waiting? && C.GetEntry(s.entries, JobKey(j), v.readAt).None? && j.credential
    requires G.CanCall(s.governors[j.provider], v.checkAt)
    ensures var (s', j') := Alone(s, j, v, maxEntries);
      && j'.phase == Done(Answer(j, v.response))
      && s'.entries == (if Cacheable(StatusOf(v.response))
                        then C.SetEntry(s.entries, SetOp(j, v.response, v.storeAt), maxEntries) else s.entries)
      && s'.governors == s.governors[j.provider :=
           AfterAnswer(G.NoteCall(s.governors[j.provider], G.Defaults, v.startAt), v.response, v.answerAt)]
  {
    hide C.GetEntry, C.SetEntry, Key, Unique, G.CanCall, AfterAnswer, Cacheable, Ttl;
    var called := G.NoteCall(s.governors[j.provider], G.Defaults, v.startAt);
    var answered := AfterAnswer(called, v.response, v.answerAt);
    assert s.governors[j.provider := called][j.provider := answered] == s.governors[j.provider := answered];
  }

  /** Every undisturbed lookup. An entry still held is repeated as a hit. Without one, a lookup without a
      credential and one in a pause say so. In these three cases nothing shared changes. Every other lookup
      calls the provider and answers with its status and content, or "unavailable" when it raised. */
  lemma {:induction false} LookupDecides(s: Shared, j: Job, v: Visit, maxEntries: nat)
    requires Ready(s) && j.phase.Waiting?
    ensures var (s', j') := Alone(s, j, v, maxEntries);
      var g := s.governors[j.provider];
      var miss := forall e :: !Held(s, EntryKey(j), v.readAt, e);
      && (forall e :: Held(s, EntryKey(j), v.readAt, e) ==>
            s' == s && j'.phase == Done(e.(cacheHit := true)))
      && (miss && !j.credential ==>
            s' == s && j'.phase == Done(Envelope(j.provider, j.observable, MissingCredential, false, "")))
      && (miss && j.credential && (v.checkAt < g.cooldownUntil || v.checkAt < g.nextAllowedAt) ==>
            s' == s && j'.phase == Done(Envelope(j.provider, j.observable, RateLimited, false, "")))
      && (miss && j.credential && v.checkAt >= g.cooldownUntil && v.checkAt >= g.nextAllowedAt ==>
            j'.phase == Done(
              match v.response
              case Exception => Envelope(j.provider, j.observable, Unavailable, false, "")
              case Response(status, _, content) => Envelope(j.provider, j.observable, status, false, content)))
  {
    hide Alone, C.GetEntry, Held, Key, EntryKey, Unique;
    forall e
      ensures C.GetEntry(s.entries, JobKey(j), v.readAt) == Some(e) <==> Held(s, EntryKey(j), v.readAt, e)
    {
      HeldIsGot(s, j, v.readAt, e);
    }
    RepeatRead(s, j, v, maxEntries);
    var got := C.GetEntry(s.entries, JobKey(j), v.readAt);
    if got.None? {
      RefusedLookup(s, j, v, maxEntries);
      if j.credential && G.CanCall(s.governors[j.provider], v.checkAt) {
        CalledLookup(s, j, v, maxEntries);
      }
    }
  }

  lemma StatusKept(p: Provider, status: Status)
    ensures Cacheable(status) <==> Keeps(status)
    ensures Ttl(p, status) == KeptFor(p, status)
  {
  }

  /** While there is room, an answer of the provider is repeated to every later lookup of that address until
      its time is over, 45 minutes, 3 or 18 hours for a verdict and 5 minutes for a failure, without a
      call; an exception is not repeated. */
  lemma {:induction false} AnswerIsRepeated(s: Shared, j: Job, v: Visit, again: Job, w: Visit, maxEntries: nat)
    requires Ready(s) && j.phase.Waiting? && j.credential && |s.entries| < maxEntries
    requires C.GetEntry(s.entries, JobKey(j), v.readAt).None? && G.CanCall(s.governors[j.provider], v.checkAt)
    requires again.phase.Waiting? && again.provider == j.provider && again.observable == j.observable
    ensures var (s', j') := Alone(s, j, v, maxEntries);
      && Ready(s') && j'.phase.Done?
      && (v.response.Response? && Keeps(v.response.status)
          && w.readAt < v.storeAt + KeptFor(j.provider, v.response.status) ==>
            Alone(s', again, w, maxEntries) == (s', again.(phase := Done(j'.phase.envelope.(cacheHit := true)))))
      && (v.response.Exception? ==> s'.entries == s.entries)
  {
    hide Alone, C.GetEntry, C.SetEntry, Key, Ttl, Keeps, Cacheable, KeptFor, G.CanCall, AfterAnswer;
    CalledLookup(s, j, v, maxEntries);
    var (s', j') := Alone(s, j, v, maxEntries);
    var op := SetOp(j, v.response, v.storeAt);
    StatusKept(j.provider, StatusOf(v.response));
    StatusKept(j.provider, Unavailable);
    NotKept();
    C.SetSplits(s.entries, op, maxEntries);
    C.SetThenGet(s.entries, JobKey(j), op.envelope, op.ttl, v.storeAt, maxEntries, w.readAt);
    RepeatRead(s', again, w, maxEntries);
  }

  lemma NotKept()
    ensures !Keeps(Unavailable)
  {
  }
}
