/** What single steps of a run come to: the payload of every accepted summary and alert, a line that comes
    twice, and what a flush takes out (native/discord-monitor.py:492-596, 666-761). */
module MonitorEffects {
  import opened Options
  import opened OrderedDict
  import opened Records
  import opened DeliveryQueue
  import opened MonitorProtocol
  import opened MonitorQueues
  import opened MonitorDelivery
  import SC = SessionClusters
  import W = EnrichmentWorker

  type Answer = W.Result<Task, string>

  /** The m-th action is the thread of this task ending with this answer. */
  predicate AnsweredAt(actions: seq<Action>, m: nat, r: Answer, cfg: Config)
    requires m < |actions|
  {
    var a, s := actions[m], Run(actions[..m], cfg);
    a.Finish? && a.enrichment == r.enrichment && a.i < |s.pool.running| && s.pool.running[a.i] == r.task
  }

  predicate Answered(actions: seq<Action>, r: Answer, cfg: Config) {
    exists m :: 0 <= m < |actions| && AnsweredAt(actions, m, r, cfg)
  }

  predicate Waiting(s: State, r: Answer) {
    r in s.pool.finishing || r in s.pool.results || r in Taken(s.phase)
  }

  /** One step adds no other result than the one of the task that finishes in it. */
  lemma StepWaiting(s: State, a: Action, r: Answer, cfg: Config)
    requires Waiting(Step(s, a, cfg), r) && !Waiting(s, r)
    ensures a.Finish? && a.enrichment == r.enrichment && a.i < |s.pool.running| && s.pool.running[a.i] == r.task
  {
    hide QueueLine, EnqueueSummary, SettleAll, ToFlush, KeptActive, RecoverAll, Restart, SettleHead, W.HasRoom,
      W.Without;
    match a
    case Finish(i, enrichment) => SnocIn(s.pool.finishing, r);
    case Deliver(j) =>
      if j < |s.pool.finishing| {
        WithoutIn(s.pool.finishing, j, r);
        SnocIn(s.pool.results, r);
      }
    case Take =>
      RestIn(s.pool.results, r);
      SnocIn(Taken(s.phase), r);
    case Handle => RestIn(Taken(s.phase), r);
    case _ =>
  }

  lemma WithoutIn(rs: seq<Answer>, j: nat, r: Answer)
    ensures r in W.Without(rs, j) ==> r in rs
  {
  }

  lemma SnocIn(rs: seq<Answer>, r: Answer)
    ensures forall x: Answer :: r in rs + [x] <==> r in rs || r == x
  {
  }

  lemma RestIn(rs: seq<Answer>, r: Answer)
    ensures rs != [] && r in rs[1..] ==> r in rs
    ensures rs != [] ==> rs[0] in rs
  {
  }

  /** In every run, what the worker hands back with a task is what that task's own thread ended with. */
  lemma {:induction false} ResultsAreAnswers(actions: seq<Action>, cfg: Config, r: Answer)
    ensures Waiting(Run(actions, cfg), r) ==> Answered(actions, r, cfg)
  {
    hide Step, Waiting, AnsweredAt;
    if actions == [] {
      StartEmpty(r);
    } else {
      var n := |actions| - 1;
      var init := actions[..n];
      ResultsAreAnswers(init, cfg, r);
      if Waiting(Run(actions, cfg), r) {
        if Waiting(Run(init, cfg), r) {
          var m :| 0 <= m < n && AnsweredAt(init, m, r, cfg);
          LaterAnswered(actions, m, r, cfg);
        } else {
          StepWaiting(Run(init, cfg), actions[n], r, cfg);
          LastAnswered(actions, r, cfg);
        }
      }
    }
  }

  lemma StartEmpty(r: Answer)
    ensures !Waiting(Start, r)
  {
  }

  lemma LaterAnswered(actions: seq<Action>, m: nat, r: Answer, cfg: Config)
    requires m < |actions| - 1 && AnsweredAt(actions[..|actions| - 1], m, r, cfg)
    ensures AnsweredAt(actions, m, r, cfg)
  {
    hide Run;
    assert actions[..|actions| - 1][..m] == actions[..m];
  }

  lemma LastAnswered(actions: seq<Action>, r: Answer, cfg: Config)
    requires actions != []
    requires var n := |actions| - 1;
      var a, s := actions[n], Run(actions[..n], cfg);
      a.Finish? && a.enrichment == r.enrichment && a.i < |s.pool.running| && s.pool.running[a.i] == r.task
    ensures AnsweredAt(actions, |actions| - 1, r, cfg)
  {
    hide Run;
  }

  /** The last item of a queue. */
  predicate EndsWith(q: seq<Item>, item: Item) {
    q != [] && q[|q| - 1] == item
  }

  lemma OfferEnds(m: Durable, ch: Channel, item: Item)
    requires Accepts(m.queues, ch, item.id)
    ensures EndsWith(Offer(m, ch, item).queues.pending.Of(ch), item)
  {
    hide SettleAll, Dropped;
    DroppedFew(m.queues.pending.Of(ch));
  }

  lemma DroppedFew(pending: seq<Item>)
    ensures |Dropped(pending)| <= |pending|
  {
  }

  /** An awaited cluster's summary is accepted and comes last. */
  lemma SummaryEnds(m: Durable, c: SC.Cluster, enrichment: Option<string>, cfg: Config)
    requires DurableOk(m) && Has(m.awaiting, FlushIdOf(c))
    ensures EndsWith(EnqueueSummary(m, c, enrichment, cfg).queues.pending.intel,
                     Item(FlushIdOf(c), cfg.render(c, enrichment)))
  {
    hide Offer, QueueOk, NoDup, Del, Accepts;
    assert !Explained(m, FlushIdOf(c));
    NewIdAccepted(m.queues, Intel, Item(FlushIdOf(c), cfg.render(c, enrichment)), m.enqueued);
    OfferEnds(m, Intel, Item(FlushIdOf(c), cfg.render(c, enrichment)));
  }

  /** Every summary shows its own enrichment: in every run with distinct ids, the item accepted for the
      result that is handled next is the rendering of its cluster with the answer its own task ended with. */
  lemma {:induction false} SummaryShowsAnswer(actions: seq<Action>, cfg: Config)
    requires FreshRun(actions, cfg)
    ensures var s := Run(actions, cfg);
      s.phase.Collecting? && s.phase.taken != [] ==>
        var r := s.phase.taken[0];
        && Answered(actions, r, cfg) && r.task.0 == FlushIdOf(r.task.1)
        && EndsWith(Step(s, Handle, cfg).mem.queues.pending.intel,
                    Item(FlushIdOf(r.task.1), cfg.render(r.task.1, r.enrichment)))
  {
    hide Run, Step, DurableOk, OnceOk, FreshRun, Answered, EndsWith, EnqueueSummary, Has, FlushIdOf;
    RunInv(actions, cfg);
    var s := Run(actions, cfg);
    if s.phase.Collecting? && s.phase.taken != [] {
      var r := s.phase.taken[0];
      assert r in s.phase.taken;
      ResultsAreAnswers(actions, cfg, r);
      HandleInv(s, cfg);
      TakenTask(s, cfg);
      SummaryEnds(s.mem, r.task.1, r.enrichment, cfg);
      HandleIs(s, cfg);
    }
  }

  lemma HandleIs(s: State, cfg: Config)
    requires s.phase.Collecting? && s.phase.taken != [] && Has(s.mem.awaiting, FlushIdOf(s.phase.taken[0].task.1))
    ensures var r := s.phase.taken[0];
      Step(s, Handle, cfg).mem == EnqueueSummary(s.mem, r.task.1, r.enrichment, cfg)
  {
    hide EnqueueSummary;
  }

  lemma TakenTask(s: State, cfg: Config)
    requires Inv(s, cfg) && s.phase.Collecting? && s.phase.taken != []
    ensures var r := s.phase.taken[0]; r.task.0 == FlushIdOf(r.task.1)
  {
    hide DurableOk, OnceOk, PendingNowhere, W.Held, W.Bounded, W.TasksOf, EnqueueSummary, Get, Has, Del;
    HeadTask(s.phase.taken);
    assert s.phase.taken[0].task in multiset(s.mem.awaiting);
    AwaitedEntry(s.mem, s.phase.taken[0].task);
  }

  /** A summary the full worker refused shows no enrichment. */
  lemma {:induction false} RefusedShowsNone(actions: seq<Action>, cfg: Config)
    requires FreshRun(actions, cfg)
    ensures var s := Run(actions, cfg);
      s.phase.Flushing? && s.phase.rest != [] && s.pool.inflight >= cfg.maxInflight ==>
        var c := s.phase.rest[0];
        EndsWith(Step(s, FlushOne, cfg).mem.queues.pending.intel, Item(FlushIdOf(c), cfg.render(c, None)))
  {
    hide Run, Step, DurableOk, OnceOk, FreshRun, EndsWith, EnqueueSummary, Has, FlushIdOf, NoDup, Apart;
    RunInv(actions, cfg);
    var s := Run(actions, cfg);
    if s.phase.Flushing? && s.phase.rest != [] && s.pool.inflight >= cfg.maxInflight {
      var c := s.phase.rest[0];
      RestApart(s.phase.rest, s.mem.flushed);
      NoteOk(s.mem, c);
      SummaryEnds(Noted(s.mem, c), c, None, cfg);
      RefusedIs(s, cfg);
    }
  }

  lemma RefusedIs(s: State, cfg: Config)
    requires s.phase.Flushing? && s.phase.rest != [] && s.pool.inflight >= cfg.maxInflight
    ensures Step(s, FlushOne, cfg).mem.queues
      == EnqueueSummary(Noted(s.mem, s.phase.rest[0]), s.phase.rest[0], None, cfg).queues
  {
    hide EnqueueSummary;
  }

  predicate PriorityKind(kind: string) {
    kind == "cowrie.login.success" || kind == "cowrie.session.file_upload" || kind == "cowrie.session.file_download"
  }

  /** An immediate alert is raised for the first event of a priority kind that a cluster records: absorbing
      such a line, unless alerts are off or the event is not supported, appends the alert of that very event
      to the legacy queue and marks the kind at the cluster. */
  lemma {:induction false} AlertRaised(m: Durable, manager: SC.Clusters, line: Bytes, now: real, cfg: Config,
                                       e: SC.Event, payload: string)
    requires Unique(manager) && cfg.decode(line) == Some(e) && cfg.alert(e) == Some(payload) && cfg.alertsEnabled
    requires PriorityKind(e.eventid) && LineDigest(line) !in m.queues.seen
    requires Accepts(Record(m.queues, LineDigest(line)), Legacy, AlertId(line))
    requires SC.Reuses(manager, e, now, cfg.limits.window) ==>
      e.eventid !in Get(manager, SC.KeyFor(e)).alerted
    ensures var (m', manager') := QueueLine(m, manager, line, now, cfg);
      && EndsWith(m'.queues.pending.legacy, Item(AlertId(line), payload))
      && Has(manager', SC.KeyFor(e)) && e.eventid in Get(manager', SC.KeyFor(e)).alerted
  {
    hide SC.Recorded, Accepts, Record, Index, SC.KeyFor, Get, Has, EndsWith, Offer, Put, Unique;
    var key := SC.KeyFor(e);
    var c := SC.Recorded(SC.Chosen(manager, e, now, cfg.limits.window), e, now, cfg.limits.maxCommands);
    var after := SC.Observed(manager, e, now, cfg.limits.window, cfg.limits.maxCommands);
    assert e.eventid in SC.PRIORITY_EVENT_IDS by {
      Priorities(e.eventid);
    }
    PutUnique(manager, key, c);
    assert Has(after, key) && Get(after, key) == c;
    PutUnique(after, key, c.(alerted := c.alerted + {e.eventid}));
    var marked := m.(queues := Record(m.queues, LineDigest(line)));
    OfferEnds(marked.(clusters := after), Legacy, Item(AlertId(line), payload));
  }

  /** And only then: a new line adds nothing to the queues unless it is a supported event of a priority kind,
      alerts are on, and the cluster that records it has not been alerted of that kind. */
  lemma AlertOnlyThen(m: Durable, manager: SC.Clusters, line: Bytes, now: real, cfg: Config)
    requires Unique(manager) && LineDigest(line) !in m.queues.seen
    ensures QueueLine(m, manager, line, now, cfg).0.queues != Record(m.queues, LineDigest(line)) ==>
      && cfg.alertsEnabled && cfg.decode(line).Some?
      && var e := cfg.decode(line).value;
         && PriorityKind(e.eventid) && cfg.alert(e).Some?
         && (SC.Reuses(manager, e, now, cfg.limits.window) ==>
               e.eventid !in Get(manager, SC.KeyFor(e)).alerted)
  {
    hide SC.Recorded, Accepts, Record, Index, SC.KeyFor, Get, Has, Enqueue, Put, Unique;
    if cfg.decode(line).Some? {
      var e := cfg.decode(line).value;
      var c := SC.Recorded(SC.Chosen(manager, e, now, cfg.limits.window), e, now, cfg.limits.maxCommands);
      Priorities(e.eventid);
      PutUnique(manager, SC.KeyFor(e), c);
    }
  }

  lemma Priorities(kind: string)
    ensures kind in SC.PRIORITY_EVENT_IDS <==> PriorityKind(kind)
  {
  }

  /** Every line is remembered. One already remembered changes nothing, and one that is no event record
      nothing else. */
  lemma LineMarked(m: Durable, manager: SC.Clusters, line: Bytes, now: real, cfg: Config)
    ensures var (m', manager') := QueueLine(m, manager, line, now, cfg);
      && LineDigest(line) in m'.queues.seen
      && (LineDigest(line) in m.queues.seen ==> m' == m && manager' == manager)
      && (LineDigest(line) !in m.queues.seen && cfg.decode(line).None? ==>
            m' == m.(queues := Record(m.queues, LineDigest(line))) && manager' == manager)
  {
    hide SC.Observed, Alerting, Alerted, Accepts, Enqueue, Record;
    LastSeen(m.queues, LineDigest(line));
    forall item: Item
      ensures LineDigest(line) in Enqueue(Record(m.queues, LineDigest(line)), Legacy, item).seen
    {
      OneMoreSeen(Record(m.queues, LineDigest(line)), item, LineDigest(line));
    }
  }

  /** A summary recovered at startup shows no enrichment. */
  lemma RecoveredShowsNone(m: Durable, entries: seq<Task>, cfg: Config)
    requires DurableOk(m) && entries != [] && multiset(entries) <= multiset(m.awaiting)
    ensures var c := entries[|entries| - 1].1;
      EndsWith(RecoverAll(m, entries, cfg).queues.pending.intel, Item(FlushIdOf(c), cfg.render(c, None)))
  {
    hide DurableOk, EnqueueSummary, Recovered, EndsWith, FlushIdOf, Has;
    var init, x := entries[..|entries| - 1], entries[|entries| - 1];
    assert entries == init + [x];
    RecoverOk(m, init, cfg);
    var before := RecoverAll(m, init, cfg);
    LastWithin(entries, m.awaiting, before.awaiting);
    AwaitedEntry(before, x);
    SummaryEnds(before, x.1, None, cfg);
  }

  /** Flushed clusters are told apart by their key, the times of their first and last event, and how many
      events they count. */
  lemma FlushIdsDiffer(c: SC.Cluster, d: SC.Cluster)
    ensures FlushIdOf(c) == FlushIdOf(d) <==>
      && c.key == d.key && c.createdAt == d.createdAt && c.lastActivityAt == d.lastActivityAt
      && c.rawEventCount == d.rawEventCount
  {
  }

  /** A line that comes again at once changes nothing. */
  lemma RepeatedLineIgnored(m: Durable, manager: SC.Clusters, line: Bytes, now: real, later: real, cfg: Config)
    ensures var (m', manager') := QueueLine(m, manager, line, now, cfg);
      QueueLine(m', manager', line, later, cfg) == (m', manager')
  {
    hide SC.Observed, Alerting, Alerted, Accepts;
    var id := LineDigest(line);
    if id !in m.queues.seen {
      var q := Record(m.queues, id);
      LastSeen(m.queues, id);
      forall item: Item
        ensures id in Enqueue(q, Legacy, item).seen
      {
        OneMoreSeen(q, item, id);
      }
    }
  }

  lemma LastSeen(q: Queues, id: Id)
    ensures var seen := Record(q, id).seen; seen != [] && seen[|seen| - 1] == id && id in seen
  {
    var seen := Record(q, id).seen;
    assert seen[|seen| - 1] == id;
  }

  lemma OneMoreSeen(q: Queues, item: Item, id: Id)
    requires q.seen != [] && q.seen[|q.seen| - 1] == id
    ensures id in Enqueue(q, Legacy, item).seen
  {
    hide Accepts;
    var gone := Dropped(q.pending.legacy);
    if gone != [] {
      SettleOne(q, gone[0]);
      assert gone == [gone[0]];
      var seen := Settle(q, gone[0]).seen;
      assert seen[|seen| - 2] == id;
    } else {
      assert SettleAll(q, gone) == q;
    }
  }

  /** What a flush leaves behind and takes out: at most the maximum of active clusters, none of them silent
      for longer than the window or older than the age limit; and every other one is among those to be
      summarized, none twice. */
  lemma FlushTakesOut(s: State, now: real, cfg: Config)
    requires Unique(s.manager) && s.phase.Ready?
    ensures var t, l := Step(s, Flush(now), cfg), cfg.limits;
      && |t.manager| <= l.maxActive
      && (forall x :: x in t.manager ==> now - x.1.lastActivityAt <= l.window && now - x.1.createdAt <= l.maxAge)
      && multiset(Values(s.manager))
         == multiset(Values(t.manager)) + multiset(if t.phase.Flushing? then t.phase.rest else [])
  {
    hide SC.FlushedActive, SC.ExpiredOf, SC.EvictedOf, DelAll, Unique, Values, SC.Count;
    var d, l := s.manager, cfg.limits;
    var gone := SC.ExpiredOf(d, now, l.window, l.maxAge);
    var kept := SC.FlushedActive(d, now, l.window, l.maxAge);
    var evicted := SC.EvictedOf(kept, l.maxActive);
    SC.FlushSplits(d, now, l.window, l.maxAge);
    SC.EvictSplits(kept, l.maxActive);
    ValuesTogether(kept, gone, d);
    ValuesTogether(DelAll(kept, evicted), evicted, kept);
    InBag(DelAll(kept, evicted), evicted, kept);
    NothingOut(d, gone, kept, evicted, now, l);
  }

  lemma NothingOut(d: SC.Clusters, gone: SC.Clusters, kept: SC.Clusters, evicted: SC.Clusters, now: real, l: SC.Limits)
    requires gone == SC.ExpiredOf(d, now, l.window, l.maxAge) && kept == SC.FlushedActive(d, now, l.window, l.maxAge)
    ensures gone == [] && evicted == [] ==> DelAll(kept, evicted) == d
  {
    hide SC.ExpiredOf;
  }

  lemma InBag(a: SC.Clusters, b: SC.Clusters, d: SC.Clusters)
    requires multiset(a) + multiset(b) == multiset(d)
    ensures forall x :: x in a ==> x in d
  {
    forall x | x in a
      ensures x in d
    {
      assert x in multiset(d);
    }
  }

  lemma {:induction false} ValuesConcat(a: SC.Clusters, b: SC.Clusters)
    ensures Values(a + b) == Values(a) + Values(b)
  {
    if b == [] {
      assert a + b == a;
    } else {
      assert (a + b)[..|a + b| - 1] == a + b[..|b| - 1];
      ValuesConcat(a, b[..|b| - 1]);
    }
  }

  lemma ValuesOne(x: (string, SC.Cluster))
    ensures Values([x]) == [x.1]
  {
    assert [x][..0] == [];
  }

  lemma RestBag(a: SC.Clusters, b: SC.Clusters, i: nat)
    requires i < |b| && multiset(a + [b[i]]) == multiset(b)
    ensures multiset(a) == multiset(b[..i] + b[i + 1..])
  {
    assert b == b[..i] + [b[i]] + b[i + 1..];
    assert multiset(a) + multiset{b[i]} == multiset(b[..i] + b[i + 1..]) + multiset{b[i]};
    forall x
      ensures multiset(a)[x] == multiset(b[..i] + b[i + 1..])[x]
    {
      assert (multiset(a) + multiset{b[i]})[x] == (multiset(b[..i] + b[i + 1..]) + multiset{b[i]})[x];
    }
  }

  /** Equal entries, whatever their order, hold equal clusters. */
  lemma {:induction false} ValuesBag(a: SC.Clusters, b: SC.Clusters)
    requires multiset(a) == multiset(b)
    ensures multiset(Values(a)) == multiset(Values(b))
    decreases |a|
  {
    hide Values;
    if a == [] {
      assert |multiset(b)| == 0;
      assert b == [];
    } else {
      var n := |a| - 1;
      var x := a[n];
      assert a == a[..n] + [x];
      assert x in multiset(b);
      var i :| 0 <= i < |b| && b[i] == x;
      var rest := b[..i] + b[i + 1..];
      RestBag(a[..n], b, i);
      ValuesBag(a[..n], rest);
      ValuesConcat(a[..n], [x]);
      ValuesConcat(b[..i], [x] + b[i + 1..]);
      ValuesConcat([x], b[i + 1..]);
      ValuesConcat(b[..i], b[i + 1..]);
      assert b == b[..i] + ([x] + b[i + 1..]);
      ValuesOne(x);
    }
  }

  lemma ValuesTogether(a: SC.Clusters, b: SC.Clusters, d: SC.Clusters)
    requires multiset(a) + multiset(b) == multiset(d)
    ensures multiset(Values(d)) == multiset(Values(a)) + multiset(Values(b))
  {
    hide Values;
    assert multiset(a + b) == multiset(d);
    ValuesBag(a + b, d);
    ValuesConcat(a, b);
  }
}
