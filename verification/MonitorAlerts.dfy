/** How often a cluster raises an immediate alert for one kind of event: once within a process, and
    again after a restart exactly when the alerted kind did not reach the saved copy
    (native/discord-monitor.py:519-538, 572-587). */
module MonitorAlerts {
  import opened Options
  import opened OrderedDict
  import opened Records
  import opened DeliveryQueue
  import opened MonitorProtocol
  import opened MonitorJournal
  import opened MonitorEvents
  import MD = MonitorDelivery
  import SC = SessionClusters

  function After(k: Core, e: SC.Event, now: real, cfg: Config): SC.Clusters {
    SC.Observed(k.manager, e, now, cfg.limits.window, cfg.limits.maxCommands)
  }

  /** An effect that raises an alert of this kind for the cluster under this key. */
  predicate Raises(k: Core, e: Effect, key: string, kind: string, cfg: Config) {
    var event := Event(k, e, cfg);
    && event.Some? && SC.KeyFor(event.value) == key && event.value.eventid == kind
    && Alerting(After(k, event.value, e.now, cfg), event.value, cfg)
  }

  /** An effect after which the cluster under this key, if any, is another one: it is flushed,
      evicted or overwritten, or the process restarted. */
  predicate Replaces(k: Core, e: Effect, key: string, cfg: Config) {
    var event := Event(k, e, cfg);
    || (event.Some? && SC.KeyFor(event.value) == key && SC.Supersedes(k.manager, event.value, e.now, cfg.limits.window))
    || (e.Flushed? && k.rest == [] && !Has(Apply(k, e, cfg).manager, key))
    || (e.Reloaded? && k.rest == [])
  }

  /** An effect that copies the live clusters into the state dict. */
  predicate Copies(k: Core, e: Effect, cfg: Config) {
    Event(k, e, cfg).Some? || (e.Noted? && |k.rest| == 1)
  }

  predicate RaisesAt(log: seq<Effect>, n: nat, key: string, kind: string, cfg: Config)
    requires n < |log|
  {
    Raises(Replay(log[..n], cfg), log[n], key, kind, cfg)
  }

  predicate ReplacesAt(log: seq<Effect>, n: nat, key: string, cfg: Config)
    requires n < |log|
  {
    Replaces(Replay(log[..n], cfg), log[n], key, cfg)
  }

  predicate CopiesAt(log: seq<Effect>, n: nat, cfg: Config)
    requires n < |log|
  {
    Copies(Replay(log[..n], cfg), log[n], cfg)
  }

  /** The same cluster stays under this key from the n-th effect to the end of the journal. */
  predicate Stays(log: seq<Effect>, n: nat, key: string, cfg: Config) {
    forall j :: n < j < |log| ==> !ReplacesAt(log, j, key, cfg)
  }

  predicate CopiedSince(log: seq<Effect>, n: nat, cfg: Config) {
    exists j :: n < j < |log| && CopiesAt(log, j, cfg)
  }

  predicate Knows(d: SC.Clusters, key: string, kind: string) {
    Has(d, key) && kind in Get(d, key).alerted
  }

  /** Observing an event keeps the alerted kinds of every cluster it does not overwrite. */
  lemma ObservedKnows(d: SC.Clusters, e: SC.Event, now: real, cfg: Config, key: string)
    requires Unique(d)
    ensures var after := SC.Observed(d, e, now, cfg.limits.window, cfg.limits.maxCommands);
      && Unique(after) && Has(after, SC.KeyFor(e))
      && (Has(d, key) && !(SC.KeyFor(e) == key && SC.Supersedes(d, e, now, cfg.limits.window)) ==>
            Has(after, key) && Get(after, key).alerted == Get(d, key).alerted)
  {
    hide SC.Supersedes, SC.Classified, SC.Touched, Put;
    var c := SC.Recorded(SC.Chosen(d, e, now, cfg.limits.window), e, now, cfg.limits.maxCommands);
    PutUnique(d, SC.KeyFor(e), c);
  }

  lemma AlertedKnows(d: SC.Clusters, e: SC.Event, key: string)
    requires Unique(d) && Has(d, SC.KeyFor(e))
    ensures var after := Alerted(d, e);
      && Unique(after) && Knows(after, SC.KeyFor(e), e.eventid)
      && (Has(d, key) ==> Has(after, key) && Get(d, key).alerted <= Get(after, key).alerted)
  {
    var c := Get(d, SC.KeyFor(e));
    PutUnique(d, SC.KeyFor(e), c.(alerted := c.alerted + {e.eventid}));
  }

  lemma Survivor(d: SC.Clusters, kept: SC.Clusters, gone: SC.Clusters, key: string)
    requires Unique(d) && Unique(kept) && multiset(kept) + multiset(gone) == multiset(d)
    ensures Has(kept, key) ==> Has(d, key) && Get(kept, key) == Get(d, key)
  {
    if Has(kept, key) {
      var x := kept[Index(kept, key)];
      assert x in kept;
      assert x in multiset(d);
      assert x in d;
      var i :| 0 <= i < |d| && d[i] == x;
      IndexAt(d, i);
    }
  }

  /** Flushing and evicting change no cluster that stays. */
  lemma KeptUnchanged(d: SC.Clusters, now: real, l: SC.Limits, key: string)
    requires Unique(d)
    ensures var kept := KeptActive(d, now, l);
      Unique(kept) && (Has(kept, key) ==> Has(d, key) && Get(kept, key) == Get(d, key))
  {
    hide SC.FlushedActive, SC.ExpiredOf, SC.EvictedOf, DelAll, SC.Count, Unique, Has, Get;
    var active := SC.FlushedActive(d, now, l.window, l.maxAge);
    SC.FlushSplits(d, now, l.window, l.maxAge);
    SC.EvictSplits(active, l.maxActive);
    Survivor(d, active, SC.ExpiredOf(d, now, l.window, l.maxAge), key);
    Survivor(active, DelAll(active, SC.EvictedOf(active, l.maxActive)), SC.EvictedOf(active, l.maxActive), key);
  }

  /** One effect and the live clusters: alerted kinds stay with their cluster. */
  lemma ManagerStep(k: Core, e: Effect, key: string, kind: string, cfg: Config)
    requires Unique(k.manager) && !Replaces(k, e, key, cfg) && Knows(k.manager, key, kind)
    ensures Unique(Apply(k, e, cfg).manager) && Knows(Apply(k, e, cfg).manager, key, kind)
  {
    hide QueueLine, EnqueueSummary, SettleHead, WithoutQueue, RecoverAll, Restart, ToFlush, KeptActive, SC.Observed,
         SC.Supersedes, Alerting, Alerted, Unique, Has, Get, Put;
    if e.Fed? && k.rest == [] {
      LineClusters(k, e.line, e.now, cfg);
      var event := Event(k, e, cfg);
      if event.Some? {
        ObservedKnows(k.manager, event.value, e.now, cfg, key);
        AlertedKnows(After(k, event.value, e.now, cfg), event.value, key);
      }
    } else if e.Flushed? {
      KeptUnchanged(k.manager, e.at, cfg.limits, key);
    }
  }

  /** The copy in the state dict changes with the copying effects only, and is then the live one as
      it was before an alert was noted. */
  lemma CopyStep(k: Core, e: Effect, key: string, kind: string, cfg: Config)
    requires Unique(k.manager) && !Replaces(k, e, key, cfg) && Knows(k.manager, key, kind)
    ensures var after := Apply(k, e, cfg);
      if Copies(k, e, cfg) then Knows(after.mem.clusters, key, kind) else after.mem.clusters == k.mem.clusters
  {
    hide QueueLine, Enqueue, Accepts, Settle, SettleAll, AllSettled, Del, RecoverAll, Restart, ToFlush, KeptActive,
         SC.Observed, SC.Supersedes, Alerting, Alerted, Unique, Has, Get, Put;
    if e.Fed? && k.rest == [] {
      LineClusters(k, e.line, e.now, cfg);
      var event := Event(k, e, cfg);
      if event.Some? {
        ObservedKnows(k.manager, event.value, e.now, cfg, key);
      }
    }
  }

  lemma RaisedNow(k: Core, e: Effect, key: string, kind: string, cfg: Config)
    requires Unique(k.manager) && Raises(k, e, key, kind, cfg)
    ensures var after := Apply(k, e, cfg);
      Unique(after.manager) && Knows(after.manager, key, kind)
      && Has(after.mem.clusters, key) && !Knows(after.mem.clusters, key, kind)
  {
    hide QueueLine, SC.Observed, SC.Supersedes, Alerted, Unique, Put;
    LineClusters(k, e.line, e.now, cfg);
    var event := Event(k, e, cfg).value;
    ObservedKnows(k.manager, event, e.now, cfg, key);
    AlertedKnows(After(k, event, e.now, cfg), event, key);
  }

  /** While the cluster stays, the live one keeps the kind, and the copy has it exactly when a copy
      was taken since. */
  lemma {:induction false} KnownSince(log: seq<Effect>, n: nat, key: string, kind: string, cfg: Config)
    requires n < |log| && RaisesAt(log, n, key, kind, cfg) && Stays(log, n, key, cfg)
    ensures var k := Replay(log, cfg);
      && Unique(k.manager) && Knows(k.manager, key, kind)
      && Has(k.mem.clusters, key) && (Knows(k.mem.clusters, key, kind) <==> CopiedSince(log, n, cfg))
  {
    hide Apply, Replay, Raises, Replaces, Copies, Unique, Has, Get;
    var m := |log| - 1;
    var init, e := log[..m], log[m];
    assert log == init + [e];
    ReplaySnoc(init, e, cfg);
    ReplayBalanced(init, cfg);
    UniqueManager(init, cfg);
    var k := Replay(init, cfg);
    if n == m {
      RaisedNow(k, e, key, kind, cfg);
    } else {
      assert init[..n] == log[..n];
      forall j | n < j < m
        ensures !ReplacesAt(init, j, key, cfg)
        ensures CopiesAt(init, j, cfg) <==> CopiesAt(log, j, cfg)
      {
        assert init[..j] == log[..j] && !ReplacesAt(log, j, key, cfg);
      }
      KnownSince(init, n, key, kind, cfg);
      assert !ReplacesAt(log, m, key, cfg);
      ManagerStep(k, e, key, kind, cfg);
      CopyStep(k, e, key, kind, cfg);
      KnowsHas(k.mem.clusters, key, kind);
      KnowsHas(Apply(k, e, cfg).mem.clusters, key, kind);
      CopiedSnoc(log, n, cfg);
    }
  }

  lemma UniqueManager(log: seq<Effect>, cfg: Config)
    ensures Unique(Replay(log, cfg).manager)
  {
    hide Replay, Usable, LostEvents, SC.Count, EventsIn, RawSum;
    ReplayBalanced(log, cfg);
  }

  lemma KnowsHas(d: SC.Clusters, key: string, kind: string)
    ensures Knows(d, key, kind) ==> Has(d, key)
  {
  }

  lemma CopiedSnoc(log: seq<Effect>, n: nat, cfg: Config)
    requires n < |log| - 1
    requires forall j :: n < j < |log| - 1 ==> (CopiesAt(log[..|log| - 1], j, cfg) <==> CopiesAt(log, j, cfg))
    ensures CopiedSince(log, n, cfg) <==> CopiedSince(log[..|log| - 1], n, cfg) || CopiesAt(log, |log| - 1, cfg)
  {
    hide CopiesAt;
    var init := log[..|log| - 1];
    if j :| n < j < |init| && CopiesAt(init, j, cfg) {
      assert CopiesAt(log, j, cfg);
    }
    if j :| n < j < |log| && CopiesAt(log, j, cfg) && j < |log| - 1 {
      assert CopiesAt(init, j, cfg);
    }
  }

  /** In every run: two alerts of one kind for one key are about different clusters, or a restart lies
      between them. So within a process a cluster raises each kind at most once. */
  lemma {:induction false} OneAlertPerClusterAndKind(actions: seq<Action>, cfg: Config, i: nat, j: nat, key: string,
                                                     kind: string)
    requires i < j < |Trace(actions, cfg).log|
    requires RaisesAt(Trace(actions, cfg).log, i, key, kind, cfg)
    requires RaisesAt(Trace(actions, cfg).log, j, key, kind, cfg)
    ensures exists n :: i < n <= j && ReplacesAt(Trace(actions, cfg).log, n, key, cfg)
  {
    hide Trace;
    var log := Trace(actions, cfg).log;
    NoSecondAlert(log, i, j, key, kind, cfg);
  }

  lemma NoSecondAlert(log: seq<Effect>, i: nat, j: nat, key: string, kind: string, cfg: Config)
    requires i < j < |log| && RaisesAt(log, i, key, kind, cfg) && RaisesAt(log, j, key, kind, cfg)
    ensures exists n :: i < n <= j && ReplacesAt(log, n, key, cfg)
  {
    hide Replay, Raises, Replaces, Knows;
    var before := log[..j];
    assert before[..i] == log[..i] && before[i] == log[i];
    if Stays(before, i, key, cfg) {
      KnownSince(before, i, key, kind, cfg);
      KnownDoesNotRaise(Replay(before, cfg), log[j], key, kind, cfg);
      assert ReplacesAt(log, j, key, cfg);
    } else {
      var n :| i < n < |before| && ReplacesAt(before, n, key, cfg);
      assert before[..n] == log[..n];
      assert ReplacesAt(log, n, key, cfg);
    }
  }

  lemma KnownDoesNotRaise(k: Core, e: Effect, key: string, kind: string, cfg: Config)
    requires Unique(k.manager) && Knows(k.manager, key, kind)
    ensures Raises(k, e, key, kind, cfg) ==> Replaces(k, e, key, cfg)
  {
    hide SC.Observed, SC.Supersedes, Unique;
    if Raises(k, e, key, kind, cfg) {
      ObservedKnows(k.manager, Event(k, e, cfg).value, e.now, cfg, key);
    }
  }

  /** In every run: a cluster that raised an alert before the last save, and was not replaced since,
      comes back after a restart without the alerted kind exactly when no copy of the clusters was
      taken between the alert and the save: no further usable line, and no finished flush. */
  lemma {:induction false} ForgottenExactly(actions: seq<Action>, cfg: Config, n: nat, key: string, kind: string,
                                            taken: bool, order: seq<Task>)
    requires n < |Trace(actions, cfg).saved|
    requires RaisesAt(Trace(actions, cfg).saved, n, key, kind, cfg) && Stays(Trace(actions, cfg).saved, n, key, cfg)
    ensures var reloaded := Run(actions + [Crash(taken, order)], cfg).manager;
      && Has(reloaded, key)
      && (kind !in Get(reloaded, key).alerted <==> !CopiedSince(Trace(actions, cfg).saved, n, cfg))
  {
    hide Trace, Replay, RaisesAt, Stays, CopiedSince, Restarted;
    var t := Trace(actions, cfg);
    KnownSince(t.saved, n, key, kind, cfg);
    RunReplays(actions, cfg);
    DetachedSame(t.s.disk);
    assert (actions + [Crash(taken, order)])[..|actions|] == actions;
    CrashReloads(t.s, taken, order, cfg);
  }

  lemma CrashReloads(s: State, taken: bool, order: seq<Task>, cfg: Config)
    ensures Step(s, Crash(taken, order), cfg).manager == s.disk.clusters
  {
    hide RecoverAll, Restart, HeadId;
  }

  // The run in which one session alerts twice for one kind.

  lemma RunOne(actions: seq<Action>, a: Action, cfg: Config)
    ensures Run(actions + [a], cfg) == Step(Run(actions, cfg), a, cfg)
  {
    assert (actions + [a])[..|actions|] == actions;
  }

  lemma AbsorbLine(s: State, line: Bytes, rest: Bytes, now: real, cfg: Config)
    requires s.phase.Ready? && s.mem.source.Some? && Unread(s) == line + rest && IsRecord(line)
    ensures var (m, manager) := QueueLine(s.mem, s.manager, line, now, cfg);
      var p := s.mem.source.value;
      Step(s, Absorb(now), cfg) ==
        s.(mem := m.(source := Some(Position(p.file, p.offset + |line|)), fed := m.fed + [line]), manager := manager)
  {
    hide QueueLine;
    FirstLFOf(line, rest);
    assert (line + rest)[..|line|] == line;
  }

  /** A session's event of a priority kind, as one of two different lines brings it. */
  predicate Repeated(e: SC.Event, payload: string, first: Bytes, second: Bytes, cfg: Config) {
    && IsRecord(first) && IsRecord(second) && first != second
    && cfg.decode(first) == cfg.decode(second) == Some(e) && cfg.alert(e) == Some(payload)
    && cfg.alertsEnabled && e.eventid in SC.PRIORITY_EVENT_IDS && SC.Truthy(e.session)
  }

  /** One of the lines, when the session has not alerted for this kind, or when it has. */
  lemma RepeatedLine(m: Durable, manager: SC.Clusters, e: SC.Event, payload: string, first: Bytes, second: Bytes,
                     line: Bytes, now: real, cfg: Config)
    requires Repeated(e, payload, first, second, cfg) && (line == first || line == second) && Unique(manager)
    requires LineDigest(line) !in m.queues.seen && AlertId(line) !in m.queues.seen
    requires !Holds(m.queues.pending.legacy, AlertId(line))
    ensures var (m', live) := QueueLine(m, manager, line, now, cfg);
      var key := SC.KeyFor(e);
      && Unique(live) && Knows(live, key, e.eventid)
      && m'.queues.pending.intel == m.queues.pending.intel && m'.awaiting == m.awaiting
      && (if Knows(manager, key, e.eventid)
          then m'.enqueued == m.enqueued && m'.queues == Record(m.queues, LineDigest(line))
          else m'.enqueued == m.enqueued + [AlertId(line)] && !Knows(m'.clusters, key, e.eventid)
               && Unique(m'.clusters)
               && m'.queues == Enqueue(Record(m.queues, LineDigest(line)), Legacy, Item(AlertId(line), payload)))
  {
    hide SC.Observed, Alerted, Has, Get, Put, Unique, Holds;
    var key := SC.KeyFor(e);
    var after := SC.Observed(manager, e, now, cfg.limits.window, cfg.limits.maxCommands);
    ObservedKnows(manager, e, now, cfg, key);
    NotSuperseded(manager, e, now, cfg);
    FreshKnows(manager, e, now, cfg, key, e.eventid);
    AlertedKnows(after, e, key);
    RecordKeepsIds(m.queues, line);
    PushKeepsIntel(Record(m.queues, LineDigest(line)), Item(AlertId(line), payload));
  }

  lemma NotSuperseded(d: SC.Clusters, e: SC.Event, now: real, cfg: Config)
    requires SC.Truthy(e.session)
    ensures !SC.Supersedes(d, e, now, cfg.limits.window)
  {
  }

  lemma FreshKnows(d: SC.Clusters, e: SC.Event, now: real, cfg: Config, key: string, kind: string)
    requires Unique(d) && SC.Truthy(e.session) && key == SC.KeyFor(e)
    ensures !Knows(d, key, kind) ==>
      !Knows(SC.Observed(d, e, now, cfg.limits.window, cfg.limits.maxCommands), key, kind)
  {
    hide SC.Classified, SC.Touched, Put;
    var c := SC.Recorded(SC.Chosen(d, e, now, cfg.limits.window), e, now, cfg.limits.maxCommands);
    PutUnique(d, key, c);
  }

  lemma RecordKeepsIds(q: Queues, line: Bytes)
    ensures Record(q, LineDigest(line)).pending == q.pending
    ensures AlertId(line) !in q.seen ==> AlertId(line) !in Record(q, LineDigest(line)).seen
  {
  }

  lemma PushKeepsIntel(q: Queues, item: Item)
    ensures Enqueue(q, Legacy, item).pending.intel == q.pending.intel
  {
    hide SettleAll, Accepts;
  }

  /** The first line of the pair, from a fresh monitor. */
  function Twice(first: Bytes, second: Bytes): seq<Action> {
    [Write(first + second)] + [Begin] + [Absorb(0.0)] + [Save]
  }

  lemma FirstOfTwo(e: SC.Event, payload: string, first: Bytes, second: Bytes, cfg: Config)
    requires Repeated(e, payload, first, second, cfg)
    ensures var s := Run(Twice(first, second), cfg);
      && s.phase.Ready? && s.mem == s.disk && s.files == [first + second] && s.accepted == multiset{}
      && s.mem.source == Some(Position(0, |first|)) && s.mem.enqueued == [AlertId(first)] && s.mem.awaiting == []
      && s.mem.queues == Queues([LineDigest(first)], [], Both([Item(AlertId(first), payload)], []))
      && Unique(s.manager) && Knows(s.manager, SC.KeyFor(e), e.eventid)
      && Unique(s.mem.clusters) && !Knows(s.mem.clusters, SC.KeyFor(e), e.eventid)
  {
    hide Step, QueueLine, Knows, IsRecord;
    var a := [Write(first + second)];
    RunOne([], Write(first + second), cfg);
    assert [] + a == a;
    RunOne(a, Begin, cfg);
    RunOne(a + [Begin], Absorb(0.0), cfg);
    RunOne(a + [Begin] + [Absorb(0.0)], Save, cfg);
    var s := Opened(first, second, cfg);
    AbsorbLine(s, first, second, 0.0, cfg);
    BlankKnows(SC.KeyFor(e), e.eventid);
    RepeatedLine(s.mem, s.manager, e, payload, first, second, first, 0.0, cfg);
    FirstQueues(first, payload);
    SaveReady(Step(s, Absorb(0.0), cfg), cfg);
  }

  lemma BlankKnows(key: string, kind: string)
    ensures !Knows([], key, kind)
  {
  }

  lemma SaveReady(s: State, cfg: Config)
    requires s.phase.Ready?
    ensures Step(s, Save, cfg) == s.(disk := s.mem)
  {
  }

  lemma FirstQueues(line: Bytes, payload: string)
    ensures Enqueue(Record(Empty, LineDigest(line)), Legacy, Item(AlertId(line), payload))
      == Queues([LineDigest(line)], [], Both([Item(AlertId(line), payload)], []))
  {
    var q := Record(Empty, LineDigest(line));
    assert q == Queues([LineDigest(line)], [], Both([], []));
    assert [] + [Item(AlertId(line), payload)] == [Item(AlertId(line), payload)];
  }

  /** The file written and the monitor at its start. */
  lemma Opened(first: Bytes, second: Bytes, cfg: Config) returns (s: State)
    ensures s == Step(Step(Start, Write(first + second), cfg), Begin, cfg)
    ensures s.phase.Ready? && s.files == [first + second] && s.mem == Blank.(source := Some(Position(0, 0)))
    ensures s.manager == [] && s.accepted == multiset{} && Unread(s) == first + second
  {
    s := Step(Step(Start, Write(first + second), cfg), Begin, cfg);
    assert [] + (first + second) == first + second;
    assert (first + second)[0..] == first + second;
  }

  /** One kind of one session alerts again after a restart, and not without one: the alert, the save
      after it, then the process dies before another usable line or a finished flush. */
  lemma AlertsTwice(e: SC.Event, payload: string, first: Bytes, second: Bytes, cfg: Config)
    requires Repeated(e, payload, first, second, cfg)
    ensures Run(Twice(first, second) + [Crash(false, [])] + [Absorb(1.0)], cfg).mem.enqueued
      == [AlertId(first), AlertId(second)]
    ensures Run(Twice(first, second) + [Absorb(1.0)], cfg).mem.enqueued == [AlertId(first)]
  {
    hide Step, QueueLine, Knows, Run, Twice, IsRecord;
    var a := Twice(first, second);
    var s := Run(a, cfg);
    FirstOfTwo(e, payload, first, second, cfg);
    RunOne(a, Crash(false, []), cfg);
    RunOne(a + [Crash(false, [])], Absorb(1.0), cfg);
    RunOne(a, Absorb(1.0), cfg);
    assert (first + second)[|first|..] == second;
    assert second + [] == second;
    AbsorbLine(s, second, [], 1.0, cfg);
    RepeatedLine(s.mem, s.manager, e, payload, first, second, second, 1.0, cfg);
    var r := Step(s, Crash(false, []), cfg);
    Reborn(s, first, payload, cfg);
    AbsorbLine(r, second, [], 1.0, cfg);
    RepeatedLine(r.mem, r.manager, e, payload, first, second, second, 1.0, cfg);
    assert [AlertId(first)] + [AlertId(second)] == [AlertId(first), AlertId(second)];
  }

  /** One alert taken twice: its POST is taken but ends in an exception post_payload does not catch, and
      the next poll posts it again. */
  lemma AcceptedTwice(e: SC.Event, payload: string, first: Bytes, second: Bytes, cfg: Config)
    requires Repeated(e, payload, first, second, cfg)
    ensures Run(Twice(first, second) + [StartPost(Legacy)] + [FinishPost(Escaped(true))]
                + [StartPost(Legacy)] + [FinishPost(Delivered2xx)], cfg).accepted
      == multiset{AlertId(first), AlertId(first)}
  {
    hide Step, Knows, Run, Twice, MD.PostOnce, Repeated;
    var a := Twice(first, second);
    FirstOfTwo(e, payload, first, second, cfg);
    RunPost(a, Legacy, Escaped(true), cfg);
    var b := a + [StartPost(Legacy)] + [FinishPost(Escaped(true))];
    RunPost(b, Legacy, Delivered2xx, cfg);
    var s := Run(a, cfg);
    MD.PostOnceIs(s, Legacy, Escaped(true), cfg);
    MD.PostOnceIs(MD.PostOnce(s, Legacy, Escaped(true), cfg), Legacy, Delivered2xx, cfg);
  }

  lemma RunPost(actions: seq<Action>, ch: Channel, reply: Reply, cfg: Config)
    ensures Run(actions + [StartPost(ch)] + [FinishPost(reply)], cfg) == MD.PostOnce(Run(actions, cfg), ch, reply, cfg)
  {
    hide Run, Step;
    RunOne(actions, StartPost(ch), cfg);
    RunOne(actions + [StartPost(ch)], FinishPost(reply), cfg);
  }

  lemma Reborn(s: State, first: Bytes, payload: string, cfg: Config)
    requires s.mem == s.disk && s.mem.awaiting == []
    requires s.mem.queues == Queues([LineDigest(first)], [], Both([Item(AlertId(first), payload)], []))
    ensures var r := Step(s, Crash(false, []), cfg);
      && r.phase.Ready? && r.files == s.files && r.manager == s.mem.clusters
      && r.mem.source == s.mem.source && r.mem.enqueued == s.mem.enqueued
      && r.mem.queues.seen == [LineDigest(first), AlertId(first)] && r.mem.queues.pending == Both([], [])
  {
    var q := s.mem.queues;
    var one := AllSettled(q.pending.legacy, RestartSuppressed);
    assert one == [Settled(Item(AlertId(first), payload), DeadLettered(RestartSuppressed))];
    SettleOne(q, one[0]);
    assert AllSettled(q.pending.intel, RestartSuppressed) == [];
    assert q.seen + [AlertId(first)] == [LineDigest(first), AlertId(first)];
  }
}
