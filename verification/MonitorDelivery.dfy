/** At-most-once acceptance and exactly-once summaries, over every run of the monitor: any order
    of thread steps, refusals by a full worker, failed saves and crashes at any step
    (native/discord-monitor.py:175-230, 476-489, 547-653, 803-823; native/threat_intel/worker.py:39-65). */
module MonitorDelivery {
  import opened Options
  import opened OrderedDict
  import opened Records
  import opened DeliveryQueue
  import opened MonitorProtocol
  import opened MonitorQueues
  import SC = SessionClusters
  import W = EnrichmentWorker
  import G = DiscordGovernor

  function FlushIds(cs: seq<SC.Cluster>): (r: seq<Id>)
    ensures |r| == |cs| && forall i :: 0 <= i < |r| ==> r[i] == FlushIdOf(cs[i])
  {
    seq(|cs|, i requires 0 <= i < |cs| => FlushIdOf(cs[i]))
  }

  predicate Apart(ids: seq<Id>, others: seq<Id>) {
    forall i :: 0 <= i < |ids| ==> ids[i] !in others
  }

  /** The assumption: log lines differ from one another, and so do the ids of flushed clusters. */
  predicate FreshStep(s: State, a: Action, cfg: Config) {
    && (a.Absorb? && s.phase.Ready? && HasLF(Unread(s)) ==> NextLine(s) !in s.mem.fed)
    && (a.Flush? && s.phase.Ready? ==>
         NoDup(FlushIds(ToFlush(s.manager, a.at, cfg.limits)))
         && Apart(FlushIds(ToFlush(s.manager, a.at, cfg.limits)), s.mem.flushed))
  }

  predicate FreshRun(actions: seq<Action>, cfg: Config) {
    forall n :: 0 <= n < |actions| ==> FreshStep(Run(actions[..n], cfg), actions[n], cfg)
  }

  predicate Steady(s: State) {
    DurableOk(s.mem) && DurableOk(s.disk) && Grows(s.disk.enqueued, s.mem.enqueued)
  }

  /** What a webhook took was accepted by a queue in the saved state, was taken once, and is
      pending no more; except for the doubtful ids. */
  predicate OnceOk(s: State) {
    forall id :: id in s.accepted ==>
      && id in s.disk.enqueued
      && (id in s.doubtful || (s.accepted[id] == 1 && PendingNowhere(s.mem.queues, id)))
  }

  function Taken(p: Phase): seq<W.Result<Task, string>> {
    if p.Collecting? then p.taken else []
  }

  /** The worker holds exactly the awaited clusters that have not been handled yet, and its
      counter is the number of tasks whose slot is not free again. */
  ghost predicate WorkOk(s: State, cfg: Config) {
    && W.Bounded(s.pool, cfg.maxInflight)
    && multiset(s.mem.awaiting) == W.Held(s.pool) + multiset(W.TasksOf(Taken(s.phase)))
  }

  predicate PhaseOk(s: State) {
    match s.phase
    case Ready => true
    case Collecting(_) => true
    case Flushing(rest) => rest != [] && NoDup(FlushIds(rest)) && Apart(FlushIds(rest), s.mem.flushed)
    case Posting(ch) => s.disk == s.mem && s.mem.queues.pending.Of(ch) != []
  }

  ghost predicate Inv(s: State, cfg: Config) {
    Steady(s) && OnceOk(s) && WorkOk(s, cfg) && PhaseOk(s)
  }

  /** The state dict moved on: nothing accepted was lost and nothing taken became pending again. */
  predicate Forward(m: Durable, m': Durable) {
    Grows(m.enqueued, m'.enqueued)
    && forall id :: id in m.enqueued ==> PendingNowhere(m.queues, id) ==> PendingNowhere(m'.queues, id)
  }

  lemma OnceForward(s: State, t: State)
    requires Steady(s) && OnceOk(s) && Forward(s.mem, t.mem)
    requires t.disk == s.disk && t.accepted == s.accepted && t.doubtful == s.doubtful && DurableOk(t.mem)
    ensures Steady(t) && OnceOk(t)
  {
    hide DurableOk, PendingNowhere;
  }

  lemma SameDict(m: Durable, m': Durable)
    requires DurableOk(m)
    requires m' == m.(source := m'.source, visited := m'.visited, clusters := m'.clusters)
    ensures DurableOk(m') && Forward(m, m')
  {
    hide QueueOk, NoDup, PendingNowhere;
  }

  lemma AbsorbInv(s: State, now: real, cfg: Config)
    requires Inv(s, cfg) && s.phase.Ready? && HasLF(Unread(s)) && NextLine(s) !in s.mem.fed
    ensures Inv(AbsorbNext(s, now, cfg), cfg)
  {
    hide QueueLine, DurableOk, OnceOk, PendingNowhere, W.Held;
    var t := AbsorbNext(s, now, cfg);
    LineOk(s.mem, s.manager, NextLine(s), now, cfg, t.mem.source);
    assert t.mem == QueueLine(s.mem, s.manager, NextLine(s), now, cfg).0
      .(source := t.mem.source, fed := s.mem.fed + [NextLine(s)]) by {
      QueueLineFed(s.mem, s.manager, NextLine(s), now, cfg);
    }
    OnceForward(s, t);
  }

  lemma QueueLineFed(m: Durable, manager: SC.Clusters, line: Bytes, now: real, cfg: Config)
    ensures QueueLine(m, manager, line, now, cfg).0.fed == m.fed
  {
    hide Enqueue, Record, SC.Observed, Alerting, Alerted;
  }

  lemma FlushOneInv(s: State, cfg: Config)
    requires Inv(s, cfg) && s.phase.Flushing? && s.phase.rest != []
    ensures Inv(FlushNext(s, cfg), cfg)
  {
    hide DurableOk, OnceOk, Forward, W.Held, W.Bounded, EnqueueSummary, NoDup, Apart, W.Submitted, W.HasRoom, FlushIdOf;
    var c, rest := s.phase.rest[0], s.phase.rest[1..];
    var t := FlushNext(s, cfg);
    RestApart(s.phase.rest, s.mem.flushed);
    W.SubmitHolds(s.pool, (FlushIdOf(c), c), cfg.maxInflight);
    NotedThenSummarized(s.mem, c, cfg);
    var noted, full := Noted(s.mem, c), EnqueueSummary(Noted(s.mem, c), c, None, cfg);
    SameDict(noted, noted.(clusters := s.manager));
    SameDict(full, full.(clusters := s.manager));
    ForwardClusters(s.mem, noted, s.manager);
    ForwardClusters(s.mem, full, s.manager);
    OnceForward(s, t);
  }

  lemma ForwardClusters(m: Durable, m': Durable, clusters: SC.Clusters)
    requires Forward(m, m')
    ensures Forward(m, m'.(clusters := clusters))
  {
    hide PendingNowhere;
  }

  /** Both ways a flushed cluster can go: awaited by the worker, or summarized at once. */
  lemma NotedThenSummarized(m: Durable, c: SC.Cluster, cfg: Config)
    requires DurableOk(m) && FlushIdOf(c) !in m.flushed
    ensures var noted := Noted(m, c);
      && DurableOk(noted) && Forward(m, noted) && noted.flushed == m.flushed + [FlushIdOf(c)]
      && multiset(noted.awaiting) == multiset(m.awaiting) + multiset{(FlushIdOf(c), c)}
    ensures var full := EnqueueSummary(Noted(m, c), c, None, cfg);
      && DurableOk(full) && Forward(m, full) && full.flushed == m.flushed + [FlushIdOf(c)]
      && multiset(full.awaiting) == multiset(m.awaiting)
  {
    hide DurableOk, PendingNowhere, EnqueueSummary, FlushIdOf;
    var noted := Noted(m, c);
    NoteOk(m, c);
    NotedForward(m, c);
    SummaryOk(noted, c, None, cfg);
    LastGone(noted, m.awaiting, c);
    SummaryForward(noted, c, cfg);
    ForwardChain(m, noted, EnqueueSummary(noted, c, None, cfg));
  }

  lemma RestApart(cs: seq<SC.Cluster>, flushed: seq<Id>)
    requires cs != [] && NoDup(FlushIds(cs)) && Apart(FlushIds(cs), flushed)
    ensures FlushIdOf(cs[0]) !in flushed
    ensures NoDup(FlushIds(cs[1..])) && Apart(FlushIds(cs[1..]), flushed + [FlushIdOf(cs[0])])
  {
    var ids := FlushIds(cs);
    assert ids[0] == FlushIdOf(cs[0]);
    assert forall i :: 0 <= i < |cs| - 1 ==> FlushIds(cs[1..])[i] == ids[i + 1];
  }

  lemma NotedForward(m: Durable, c: SC.Cluster)
    ensures Forward(m, Noted(m, c))
  {
    hide Put, PendingNowhere;
  }

  lemma SummaryForward(m: Durable, c: SC.Cluster, cfg: Config)
    requires DurableOk(m) && Has(m.awaiting, FlushIdOf(c))
    ensures Forward(m, EnqueueSummary(m, c, None, cfg))
  {
    hide EnqueueSummary, DurableOk, PendingNowhere;
    SummaryOk(m, c, None, cfg);
  }

  lemma ForwardChain(a: Durable, b: Durable, c: Durable)
    requires Forward(a, b) && Forward(b, c)
    ensures Forward(a, c)
  {
    hide PendingNowhere;
  }

  /** Removing the entry just added leaves what was there. */
  lemma LastGone(m: Durable, before: Awaiting, c: SC.Cluster)
    requires DurableOk(m) && m.awaiting == before + [(FlushIdOf(c), c)]
    ensures multiset(Del(m.awaiting, FlushIdOf(c))) == multiset(before)
  {
    var x := (FlushIdOf(c), c);
    assert m.awaiting[|before|] == x;
    DelEntry(m, x);
    assert multiset(m.awaiting) == multiset(before) + multiset{x};
  }

  lemma HandleInv(s: State, cfg: Config)
    requires Inv(s, cfg) && s.phase.Collecting? && s.phase.taken != []
    ensures Inv(HandleNext(s, cfg), cfg) && Has(s.mem.awaiting, FlushIdOf(s.phase.taken[0].task.1))
  {
    hide DurableOk, OnceOk, PendingNowhere, W.Held, W.Bounded, W.TasksOf, EnqueueSummary, Get, Has, Del;
    var r := s.phase.taken[0];
    var t := HandleNext(s, cfg);
    HeadTask(s.phase.taken);
    assert r.task in multiset(s.mem.awaiting);
    assert r.task in s.mem.awaiting;
    AwaitedEntry(s.mem, r.task);
    SummaryOk(s.mem, r.task.1, r.enrichment, cfg);
    DelEntry(s.mem, r.task);
    OnceForward(s, t);
    Cancelled(multiset(t.mem.awaiting), multiset(s.mem.awaiting), W.Held(s.pool),
        multiset(W.TasksOf(s.phase.taken[1..])), r.task);
  }

  lemma Cancelled<T>(left: multiset<T>, all: multiset<T>, held: multiset<T>, rest: multiset<T>, x: T)
    requires left + multiset{x} == all && all == held + (rest + multiset{x})
    ensures left == held + rest
  {
    assert forall y :: (left + multiset{x})[y] == left[y] + multiset{x}[y];
  }

  lemma HeadTask(taken: seq<W.Result<Task, string>>)
    requires taken != []
    ensures multiset(W.TasksOf(taken)) == multiset(W.TasksOf(taken[1..])) + multiset{taken[0].task}
    ensures taken[0].task in multiset(W.TasksOf(taken))
  {
    W.TasksWithout(taken, 0);
    assert W.Without(taken, 0) == taken[1..];
  }

  lemma PoolInv(s: State, t: State, cfg: Config)
    requires Inv(s, cfg) && t == s.(pool := t.pool) && W.Bounded(t.pool, cfg.maxInflight)
        && W.Held(t.pool) == W.Held(s.pool)
    ensures Inv(t, cfg)
  {
    hide DurableOk, PendingNowhere, W.Held, W.Bounded;
  }

  lemma TakeInv(s: State, cfg: Config)
    requires Inv(s, cfg) && s.phase.Collecting? && s.pool.results != []
    ensures Inv(s.(pool := s.pool.(results := s.pool.results[1..]),
        phase := Collecting(s.phase.taken + [s.pool.results[0]])), cfg)
  {
    hide DurableOk, PendingNowhere, W.Held, W.Bounded;
    W.TakeHolds(s.pool, cfg.maxInflight);
    W.TasksAppend(s.phase.taken, s.pool.results[0]);
  }

  lemma SavedInv(s: State, phase: Phase, cfg: Config)
    requires Inv(s, cfg) && s.phase.Ready?
    requires phase.Ready? || (phase.Posting? && s.mem.queues.pending.Of(phase.channel) != [])
    ensures Inv(s.(disk := s.mem, phase := phase), cfg)
  {
    hide DurableOk, PendingNowhere, W.Held, W.Bounded;
  }

  /** The head of a queue has not been taken yet, unless it is doubtful. */
  lemma HeadNotTaken(s: State, ch: Channel)
    requires OnceOk(s) && s.mem.queues.pending.Of(ch) != []
    ensures HeadId(s, ch) in s.accepted ==> HeadId(s, ch) in s.doubtful
  {
    assert s.mem.queues.pending.Of(ch)[0].id == HeadId(s, ch);
    assert Holds(s.mem.queues.pending.Of(ch), HeadId(s, ch));
  }

  lemma EndPostInv(s: State, r: Reply, cfg: Config)
    requires Inv(s, cfg) && s.phase.Posting?
    ensures Inv(EndPost(s, r), cfg)
  {
    hide DurableOk, PendingNowhere, W.Held, W.Bounded, SettleHead;
    var ch := s.phase.channel;
    var id := HeadId(s, ch);
    HeadNotTaken(s, ch);
    HeadListed(s.mem, ch);
    SettleHeadOk(s.mem, ch, Delivered);
    SettleHeadOk(s.mem, ch, DeadLettered(DeliveryUncertain));
    var t := EndPost(s, r);
    forall x | x in t.accepted
      ensures x in t.disk.enqueued && (x in t.doubtful || (t.accepted[x] == 1 && PendingNowhere(t.mem.queues, x)))
    {
      assert x == id || x in s.accepted;
    }
  }

  lemma HeadListed(m: Durable, ch: Channel)
    requires DurableOk(m) && m.queues.pending.Of(ch) != []
    ensures m.queues.pending.Of(ch)[0].id in m.enqueued
  {
  }

  lemma NoWebhookInv(s: State, ch: Channel, cfg: Config)
    requires Inv(s, cfg) && s.phase.Ready?
    ensures Inv(ReadyStep(s, NoWebhook(ch), cfg), cfg)
  {
    hide DurableOk, OnceOk, PendingNowhere, W.Held, SettleAll, AllSettled;
    var t := ReadyStep(s, NoWebhook(ch), cfg);
    AllGoneOk(s.mem, ch);
    OnceForward(s, t);
  }

  lemma CrashInv(s: State, taken: bool, order: seq<Task>, cfg: Config)
    requires Inv(s, cfg)
    ensures var t := Restarted(s, taken, order, cfg);
      Inv(t, cfg) && t.mem.awaiting == []
  {
    hide DurableOk, OnceOk, PendingNowhere, Recovered, W.Held, RecoverAll, Restart, HeadId;
    var loaded := s.disk.(queues := Restart(s.disk.queues));
    var entries := if multiset(order) == multiset(s.disk.awaiting) then order else s.disk.awaiting;
    RestartOk(s.disk);
    RecoverOk(loaded, entries, cfg);
    var t := Restarted(s, taken, order, cfg);
    assert multiset(t.mem.awaiting) == multiset{};
    EmptyAwaiting(t.mem.awaiting);
    IdleHolds();
    RecoveredGrows(loaded, t.mem);
    if s.phase.Posting? {
      HeadNotTaken(s, s.phase.channel);
      HeadIs(s, s.phase.channel);
      HeadListed(s.mem, s.phase.channel);
    }
    CrashOnce(s, loaded, t);
  }

  lemma RecoveredGrows(m: Durable, r: Durable)
    requires Recovered(m, r)
    ensures Grows(m.enqueued, r.enqueued)
  {
  }

  /** After a restart nothing taken is pending, the POST on its way included. */
  lemma CrashOnce(s: State, loaded: Durable, t: State)
    requires OnceOk(s) && t.disk == s.disk && t.doubtful == s.doubtful
    requires loaded.enqueued == s.disk.enqueued && Recovered(loaded, t.mem)
        && forall id :: PendingNowhere(loaded.queues, id)
    requires t.accepted == s.accepted ||
      (s.phase.Posting? && s.mem.queues.pending.Of(s.phase.channel) != []
       && t.accepted == s.accepted + multiset{HeadId(s, s.phase.channel)}
       && HeadId(s, s.phase.channel) in s.disk.enqueued
       && (HeadId(s, s.phase.channel) in s.accepted ==> HeadId(s, s.phase.channel) in s.doubtful))
    ensures OnceOk(t)
  {
    hide PendingNowhere, HeadId;
    forall x | x in t.accepted
      ensures x in t.disk.enqueued && (x in t.doubtful || (t.accepted[x] == 1 && PendingNowhere(t.mem.queues, x)))
    {
      assert x in s.accepted || (s.phase.Posting? && x == HeadId(s, s.phase.channel));
      assert x in loaded.enqueued && PendingNowhere(loaded.queues, x);
    }
  }

  lemma HeadIs(s: State, ch: Channel)
    requires s.mem.queues.pending.Of(ch) != []
    ensures HeadId(s, ch) == s.mem.queues.pending.Of(ch)[0].id
  {
  }

  lemma EmptyAwaiting(d: Awaiting)
    requires multiset(d) == multiset{}
    ensures d == []
  {
    assert |multiset(d)| == 0;
  }

  lemma IdleHolds()
    ensures W.Held<Task, string>(W.Pool(0, [], [], [])) == multiset{}
  {
  }

  lemma ReadyInv(s: State, a: Action, cfg: Config)
    requires Inv(s, cfg) && s.phase.Ready? && FreshStep(s, a, cfg)
    ensures Inv(ReadyStep(s, a, cfg), cfg)
  {
    hide Inv, AbsorbNext, SettleAll, AllSettled, ToFlush, KeptActive, DurableOk, OnceOk;
    match a
    case Absorb(now) => if HasLF(Unread(s)) { AbsorbInv(s, now, cfg); }
    case Save => SavedInv(s, Ready, cfg);
    case StartPost(ch) => if s.mem.queues.pending.Of(ch) != [] { SavedInv(s, Posting(ch), cfg); }
    case NoWebhook(ch) => NoWebhookInv(s, ch, cfg);
    case Collect => CollectInv(s, cfg);
    case Flush(now) => FlushInv(s, now, cfg);
    case _ => SourceInv(s, ReadyStep(s, a, cfg), cfg);
  }

  lemma CollectInv(s: State, cfg: Config)
    requires Inv(s, cfg) && s.phase.Ready?
    ensures Inv(s.(phase := Collecting([])), cfg)
  {
    hide DurableOk, PendingNowhere, W.Held, W.Bounded;
  }

  lemma CollectedInv(s: State, cfg: Config)
    requires Inv(s, cfg) && s.phase == Collecting([])
    ensures Inv(s.(phase := Ready), cfg)
  {
    hide DurableOk, PendingNowhere, W.Held, W.Bounded;
  }

  lemma FlushInv(s: State, now: real, cfg: Config)
    requires Inv(s, cfg) && s.phase.Ready? && FreshStep(s, Flush(now), cfg)
    ensures Inv(ReadyStep(s, Flush(now), cfg), cfg)
  {
    hide DurableOk, PendingNowhere, W.Held, W.Bounded, ToFlush, KeptActive, NoDup, Apart;
  }

  lemma SourceInv(s: State, t: State, cfg: Config)
    requires Inv(s, cfg) && s.phase.Ready?
    requires t == s.(mem := s.mem.(source := t.mem.source, visited := t.mem.visited))
    ensures Inv(t, cfg)
  {
    hide DurableOk, OnceOk, W.Held, W.Bounded;
    SameDict(s.mem, t.mem);
    OnceForward(s, t);
  }

  lemma FilesInv(s: State, files: seq<Bytes>, cfg: Config)
    requires Inv(s, cfg)
    ensures Inv(s.(files := files), cfg)
  {
    hide DurableOk, W.Held, W.Bounded;
  }

  lemma StepInv(s: State, a: Action, cfg: Config)
    requires Inv(s, cfg) && FreshStep(s, a, cfg)
    ensures Inv(Step(s, a, cfg), cfg)
  {
    hide Inv, FreshStep, ReadyStep, FlushNext, HandleNext, EndPost, Restarted, W.Finished, W.Delivered, W.Held,
        W.Bounded;
    match a
    case Write(_) => FilesInv(s, Step(s, a, cfg).files, cfg);
    case Rotate => FilesInv(s, s.files + [[]], cfg);
    case Finish(i, enrichment) => ThreadInv(s, a, cfg);
    case Deliver(j) => ThreadInv(s, a, cfg);
    case Crash(taken, order) => CrashInv(s, taken, order, cfg);
    case FlushOne => if s.phase.Flushing? && s.phase.rest != [] { FlushOneInv(s, cfg); }
    case Take => if s.phase.Collecting? && s.pool.results != [] { TakeInv(s, cfg); }
    case Handle =>
      if s.phase.Collecting? {
        if s.phase.taken == [] { CollectedInv(s, cfg); } else { HandleInv(s, cfg); }
      }
    case FinishPost(reply) =>
      if s.phase.Posting? && s.mem.queues.pending.Of(s.phase.channel) != [] { EndPostInv(s, reply, cfg); }
    case _ => if s.phase.Ready? { ReadyInv(s, a, cfg); }
  }

  lemma ThreadInv(s: State, a: Action, cfg: Config)
    requires Inv(s, cfg) && (a.Finish? || a.Deliver?)
    ensures Inv(Step(s, a, cfg), cfg)
  {
    hide DurableOk, OnceOk, PhaseOk, W.Held, W.Finished, W.Delivered;
    if a.Finish? {
      W.FinishHolds(s.pool, a.i, a.enrichment, cfg.maxInflight);
    } else {
      W.DeliverHolds(s.pool, a.j, cfg.maxInflight);
    }
    PoolInv(s, Step(s, a, cfg), cfg);
  }

  lemma StartInv(cfg: Config)
    ensures Inv(Start, cfg)
  {
    IdleHolds();
  }

  lemma {:induction false} RunInv(actions: seq<Action>, cfg: Config)
    requires FreshRun(actions, cfg)
    ensures Inv(Run(actions, cfg), cfg)
  {
    hide Inv, FreshStep, Step;
    if actions == [] {
      StartInv(cfg);
    } else {
      var n := |actions| - 1;
      forall i | 0 <= i < n
        ensures FreshStep(Run(actions[..n][..i], cfg), actions[..n][i], cfg)
      {
        assert actions[..n][..i] == actions[..i];
      }
      RunInv(actions[..n], cfg);
      StepInv(Run(actions[..n], cfg), actions[n], cfg);
    }
  }

  /** At-most-once: in every run, nothing is taken twice by a webhook, unless a POST of it was
      taken and yet ended in an exception post_payload does not catch; and what is taken had been
      saved as enqueued before. */
  lemma {:induction false} TakenAtMostOnce(actions: seq<Action>, cfg: Config, id: Id)
    requires FreshRun(actions, cfg)
    ensures var s := Run(actions, cfg);
      && (id !in s.doubtful ==> s.accepted[id] <= 1)
      && (id in s.accepted ==> id in s.disk.enqueued)
  {
    hide Run, DurableOk, WorkOk, PhaseOk, FreshRun;
    RunInv(actions, cfg);
  }

  /** Such an exception does break it: the item is still at the head, and is sent again. */
  lemma {:induction false} EscapedIsSentAgain(s: State, ch: Channel, cfg: Config)
    requires s.phase.Ready? && s.mem.queues.pending.Of(ch) != []
    ensures var s1 := PostOnce(s, ch, Escaped(true), cfg);
      var s2 := PostOnce(s1, ch, Delivered2xx, cfg);
      && s2.accepted[HeadId(s, ch)] == s.accepted[HeadId(s, ch)] + 2
      && HeadId(s, ch) in s2.doubtful
  {
    hide SettleHead, Step, PostOnce;
    var s1 := PostOnce(s, ch, Escaped(true), cfg);
    PostOnceIs(s, ch, Escaped(true), cfg);
    PostOnceIs(s1, ch, Delivered2xx, cfg);
  }

  /** One POST from save to answer. */
  function PostOnce(s: State, ch: Channel, r: Reply, cfg: Config): State {
    Step(Step(s, StartPost(ch), cfg), FinishPost(r), cfg)
  }

  lemma PostOnceIs(s: State, ch: Channel, r: Reply, cfg: Config)
    requires s.phase.Ready? && s.mem.queues.pending.Of(ch) != []
    ensures PostOnce(s, ch, r, cfg) == EndPost(s.(disk := s.mem, phase := Posting(ch)), r)
  {
    hide SettleHead;
  }

  /** What a POST comes to in the machine. A digest that raises leaves its item where it was, taken. */
  function ReplyFor(g: G.Governor, t: Turn, reached: bool): Reply {
    match t.answer
    case Accepted => if g.degraded && g.suppressed > 0 && t.cut == DigestPost then Escaped(true) else Delivered2xx
    case TooMany(_) => Limited429
    case Other => Lost(reached)
    case Uncaught => Escaped(reached)
  }

  /** A turn of the drain loop that posts is one POST of the machine, on the queues and on disk. */
  lemma TurnIsOnePost(s: State, ch: Channel, g: G.Governor, c: G.Config, t: Turn, reached: bool, cfg: Config)
    requires s.phase.Ready? && s.mem.queues.pending.Of(ch) != []
    requires G.CanSend(g, t.checkedAt) && t.cut != FirstSave
    ensures var d := SendOnce(s.mem.queues.pending.Of(ch), g, c, t);
      var after := PostOnce(s, ch, ReplyFor(g, t, reached), cfg);
      && after.mem == s.mem.(queues := AfterDrain(s.mem.queues, ch, d))
      && after.disk == s.mem && d.log != [] && d.log[0].Post? && d.log[0].saved == after.disk.queues.pending.Of(ch)
  {
    hide Settle, G.NoteRateLimited, G.NoteSuccess, Step, PostOnce;
    PostOnceIs(s, ch, ReplyFor(g, t, reached), cfg);
    var pending := s.mem.queues.pending.Of(ch);
    SettleOne(s.mem.queues, Settled(pending[0], Delivered));
    SettleOne(s.mem.queues, Settled(pending[0], DeadLettered(DeliveryUncertain)));
    assert s.mem.queues.pending.With(ch, pending) == s.mem.queues.pending;
  }

  predicate SummariesOnce(m: Durable) {
    && NoDup(m.flushed) && NoDup(m.enqueued)
    && forall id :: id in m.flushed ==> (id in m.enqueued) != Has(m.awaiting, id)
  }

  lemma OkSummariesOnce(m: Durable)
    requires DurableOk(m)
    ensures SummariesOnce(m)
  {
    forall id | id in m.flushed
      ensures (id in m.enqueued) != Has(m.awaiting, id)
    {
      assert id.FlushId?;
      assert id in m.enqueued ==> Explained(m, id);
    }
  }

  /** Exactly-once summaries: in the saved state, as in memory, every flushed or evicted cluster
      has had its summary accepted by the queue once, or is still awaited and has not; the awaited
      ones are exactly those the worker has accepted and nobody has handled; its counter is the
      number of tasks still holding a slot, within the limit. */
  lemma {:induction false} SummarizedExactlyOnce(actions: seq<Action>, cfg: Config)
    requires FreshRun(actions, cfg)
    ensures var s := Run(actions, cfg);
      && SummariesOnce(s.mem) && SummariesOnce(s.disk)
      && multiset(s.mem.awaiting) == W.Held(s.pool) + multiset(W.TasksOf(Taken(s.phase)))
      && s.pool.inflight == |s.pool.running| <= cfg.maxInflight
  {
    hide Run, DurableOk, OnceOk, PhaseOk, FreshRun, W.Held, SummariesOnce;
    RunInv(actions, cfg);
    var s := Run(actions, cfg);
    OkSummariesOnce(s.mem);
    OkSummariesOnce(s.disk);
  }

  /** Once the worker holds nothing more, and after every restart, no flushed cluster is left
      without its summary. */
  lemma {:induction false} NothingLeftAwaiting(actions: seq<Action>, cfg: Config)
    requires FreshRun(actions, cfg)
    ensures var s := Run(actions, cfg);
      s.pool.running == [] && s.pool.finishing == s.pool.results == Taken(s.phase) == [] ==>
        s.mem.awaiting == [] && forall id :: id in s.mem.flushed ==> id in s.mem.enqueued
    ensures forall taken, order :: Step(Run(actions, cfg), Crash(taken, order), cfg).mem.awaiting == []
  {
    hide Run, DurableOk, OnceOk, PhaseOk, FreshRun, Restarted, W.Held;
    RunInv(actions, cfg);
    var s := Run(actions, cfg);
    OkSummariesOnce(s.mem);
    if s.pool.running == [] && s.pool.finishing == [] && s.pool.results == [] && Taken(s.phase) == [] {
      NothingHeld(s.pool);
      EmptyAwaiting(s.mem.awaiting);
    }
    forall taken, order
      ensures Step(s, Crash(taken, order), cfg).mem.awaiting == []
    {
      CrashInv(s, taken, order, cfg);
    }
  }

  lemma NothingHeld(p: W.Pool<Task, string>)
    requires p.running == [] && p.finishing == [] && p.results == []
    ensures W.Held(p) == multiset{}
  {
  }
}
