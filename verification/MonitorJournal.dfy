/** What absorption did to the state, over every run of the monitor: the saved and the live state are
    a replay of queue_line over exactly the complete lines before the offset, mixed only with effects
    that feed no line (native/discord-monitor.py:492-596, 666-702, 803-823). */
module MonitorJournal {
  import opened Options
  import opened OrderedDict
  import opened Records
  import opened DeliveryQueue
  import opened MonitorProtocol
  import opened MonitorAbsorption
  import SC = SessionClusters
  import W = EnrichmentWorker

  /** Everything that can happen to the state dict and the cluster manager. */
  datatype Effect = Fed(line: Bytes, now: real)
                  | Flushed(at: real)
                  | Noted(room: bool)
                  | Summarized(cluster: SC.Cluster, enrichment: Option<string>)
                  | HeadLeft(channel: Channel, fate: Fate)
                  | QueueLost(channel: Channel)
                  | Reloaded(entries: seq<Task>)

  /** The state dict without its read position, the live manager, and the clusters a flush has taken
      out but not noted yet. */
  datatype Core = Core(mem: Durable, manager: SC.Clusters, rest: seq<SC.Cluster>)

  const Nothing := Core(Blank, [], [])

  /** One effect; while a flush is under way only its own turns happen. */
  function Apply(k: Core, e: Effect, cfg: Config): Core {
    match e
    case Noted(room) =>
      if k.rest == [] then k else
        var c, rest := k.rest[0], k.rest[1..];
        var noted := k.mem.(awaiting := Put(k.mem.awaiting, FlushIdOf(c), c),
                            flushed := k.mem.flushed + [FlushIdOf(c)]);
        var m := if room then noted else EnqueueSummary(noted, c, None, cfg);
        Core(if rest == [] then m.(clusters := k.manager) else m, k.manager, rest)
    case _ => if k.rest != [] then k else ApplyReady(k, e, cfg)
  }

  function ApplyReady(k: Core, e: Effect, cfg: Config): Core {
    match e
    case Fed(line, now) =>
      var (m, manager) := QueueLine(k.mem, k.manager, line, now, cfg);
      Core(m.(fed := m.fed + [line]), manager, [])
    case Flushed(at) =>
      var gone := ToFlush(k.manager, at, cfg.limits);
      if gone == [] then k else Core(k.mem, KeptActive(k.manager, at, cfg.limits), gone)
    case Summarized(c, enrichment) => k.(mem := EnqueueSummary(k.mem, c, enrichment, cfg))
    case HeadLeft(ch, fate) =>
      if k.mem.queues.pending.Of(ch) == [] then k else k.(mem := SettleHead(k.mem, ch, fate))
    case QueueLost(ch) => k.(mem := WithoutQueue(k.mem, ch))
    case Reloaded(entries) =>
      Core(RecoverAll(k.mem.(queues := Restart(k.mem.queues)), entries, cfg), k.mem.clusters, [])
    case _ => k
  }

  function WithoutQueue(m: Durable, ch: Channel): Durable {
    m.(queues := SettleAll(m.queues, AllSettled(m.queues.pending.Of(ch), CredentialUnavailable))
                  .(pending := m.queues.pending.With(ch, [])))
  }

  function Replay(log: seq<Effect>, cfg: Config): Core {
    if log == [] then Nothing else Apply(Replay(log[..|log| - 1], cfg), log[|log| - 1], cfg)
  }

  /** The lines a journal fed, in order. */
  function Lines(log: seq<Effect>): seq<Bytes> {
    if log == [] then [] else
      Lines(log[..|log| - 1]) + (if log[|log| - 1].Fed? then [log[|log| - 1].line] else [])
  }

  /** The effect of one step of the machine other than a crash. */
  function EffectOf(s: State, a: Action, cfg: Config): seq<Effect> {
    match a
    case Absorb(now) => if s.phase.Ready? && HasLF(Unread(s)) then [Fed(NextLine(s), now)] else []
    case Flush(at) => if s.phase.Ready? && ToFlush(s.manager, at, cfg.limits) != [] then [Flushed(at)] else []
    case FlushOne =>
      if s.phase.Flushing? && s.phase.rest != [] then [Noted(W.HasRoom(s.pool, cfg.maxInflight))] else []
    case Handle =>
      if s.phase.Collecting? && s.phase.taken != [] && Has(s.mem.awaiting, FlushIdOf(s.phase.taken[0].task.1))
      then [Summarized(s.phase.taken[0].task.1, s.phase.taken[0].enrichment)] else []
    case FinishPost(reply) =>
      if !s.phase.Posting? then []
      else if reply.Delivered2xx? then [HeadLeft(s.phase.channel, Delivered)]
      else if reply.Lost? then [HeadLeft(s.phase.channel, DeadLettered(DeliveryUncertain))]
      else []
    case NoWebhook(ch) => if s.phase.Ready? then [QueueLost(ch)] else []
    case _ => []
  }

  /** A run with the journals of the live and of the saved state. */
  datatype Traced = Traced(s: State, log: seq<Effect>, saved: seq<Effect>)

  function TraceStep(t: Traced, a: Action, cfg: Config): Traced {
    var s' := Step(t.s, a, cfg);
    match a
    case Crash(taken, order) =>
      var entries := if multiset(order) == multiset(t.s.disk.awaiting) then order else t.s.disk.awaiting;
      Traced(s', t.saved + [Reloaded(entries)], t.saved)
    case Save => Traced(s', t.log, if t.s.phase.Ready? then t.log else t.saved)
    case StartPost(ch) =>
      Traced(s', t.log, if t.s.phase.Ready? && t.s.mem.queues.pending.Of(ch) != [] then t.log else t.saved)
    case _ => Traced(s', t.log + EffectOf(t.s, a, cfg), t.saved)
  }

  function Trace(actions: seq<Action>, cfg: Config): (t: Traced)
    ensures t.s == Run(actions, cfg)
  {
    if actions == [] then Traced(Start, [], [])
    else TraceStep(Trace(actions[..|actions| - 1], cfg), actions[|actions| - 1], cfg)
  }

  function Detached(m: Durable): Durable {
    m.(source := None, visited := [])
  }

  function InHand(p: Phase): seq<SC.Cluster> {
    if p.Flushing? then p.rest else []
  }

  function CoreOf(s: State): Core {
    Core(Detached(s.mem), s.manager, InHand(s.phase))
  }

  /** Live and saved state are what their journals replay to. */
  predicate Replayed(t: Traced, cfg: Config) {
    && CoreOf(t.s) == Replay(t.log, cfg)
    && Detached(t.s.disk) == Replay(t.saved, cfg).mem && Replay(t.saved, cfg).rest == []
    && (t.s.phase.Flushing? ==> t.s.phase.rest != [])
  }

  lemma ReplaySnoc(log: seq<Effect>, e: Effect, cfg: Config)
    ensures Replay(log + [e], cfg) == Apply(Replay(log, cfg), e, cfg)
    ensures Lines(log + [e]) == Lines(log) + (if e.Fed? then [e.line] else [])
  {
    hide Apply;
    assert (log + [e])[..|log|] == log;
  }

  /** queue_line does not look at the read position. */
  lemma DetachedLine(m: Durable, manager: SC.Clusters, line: Bytes, now: real, cfg: Config)
    ensures var (a, b) := (QueueLine(m, manager, line, now, cfg), QueueLine(Detached(m), manager, line, now, cfg));
      Detached(a.0) == b.0 && a.1 == b.1
  {
    hide Record, Enqueue, Accepts, SC.Observed, Alerting, Alerted;
  }

  lemma DetachedSummary(m: Durable, c: SC.Cluster, enrichment: Option<string>, cfg: Config)
    ensures Detached(EnqueueSummary(m, c, enrichment, cfg)) == EnqueueSummary(Detached(m), c, enrichment, cfg)
  {
    hide Enqueue, Accepts, Del;
  }

  lemma {:induction false} DetachedRecovery(m: Durable, entries: seq<Task>, cfg: Config)
    ensures Detached(RecoverAll(m, entries, cfg)) == RecoverAll(Detached(m), entries, cfg)
  {
    if entries != [] {
      hide EnqueueSummary;
      var init, x := entries[..|entries| - 1], entries[|entries| - 1];
      DetachedRecovery(m, init, cfg);
      DetachedSummary(RecoverAll(m, init, cfg), x.1, None, cfg);
    }
  }

  lemma AbsorbReplays(s: State, now: real, cfg: Config)
    requires s.phase.Ready? && HasLF(Unread(s))
    ensures CoreOf(AbsorbNext(s, now, cfg)) == Apply(CoreOf(s), Fed(NextLine(s), now), cfg)
  {
    hide QueueLine;
    DetachedLine(s.mem, s.manager, NextLine(s), now, cfg);
    QueueLineReads(s.mem, s.manager, NextLine(s), now, cfg);
  }

  lemma FlushOneReplays(s: State, cfg: Config)
    requires s.phase.Flushing? && s.phase.rest != []
    ensures CoreOf(FlushNext(s, cfg)) == Apply(CoreOf(s), Noted(W.HasRoom(s.pool, cfg.maxInflight)), cfg)
  {
    hide EnqueueSummary, Put, W.HasRoom, W.Submitted;
    var c := s.phase.rest[0];
    var noted := s.mem.(awaiting := Put(s.mem.awaiting, FlushIdOf(c), c), flushed := s.mem.flushed + [FlushIdOf(c)]);
    DetachedSummary(noted, c, None, cfg);
  }

  lemma HandleReplays(s: State, cfg: Config)
    requires s.phase.Collecting? && s.phase.taken != []
    ensures var effects := EffectOf(s, Handle, cfg);
      CoreOf(HandleNext(s, cfg)) == if effects == [] then CoreOf(s) else Apply(CoreOf(s), effects[0], cfg)
  {
    hide EnqueueSummary, Has;
    DetachedSummary(s.mem, s.phase.taken[0].task.1, s.phase.taken[0].enrichment, cfg);
  }

  lemma PostReplays(s: State, r: Reply, cfg: Config)
    requires s.phase.Posting? && s.mem.queues.pending.Of(s.phase.channel) != []
    ensures var effects := EffectOf(s, FinishPost(r), cfg);
      CoreOf(EndPost(s, r)) == if effects == [] then CoreOf(s) else Apply(CoreOf(s), effects[0], cfg)
  {
    hide Settle, HeadId;
  }

  lemma CrashReplays(t: Traced, taken: bool, order: seq<Task>, cfg: Config)
    requires Replayed(t, cfg)
    ensures Replayed(TraceStep(t, Crash(taken, order), cfg), cfg)
  {
    hide Restart, RecoverAll, Replay, HeadId;
    var s := t.s;
    var entries := if multiset(order) == multiset(s.disk.awaiting) then order else s.disk.awaiting;
    DetachedRecovery(s.disk.(queues := Restart(s.disk.queues)), entries, cfg);
    ReplaySnoc(t.saved, Reloaded(entries), cfg);
  }

  /** The effects of the remaining steps. */
  lemma PlainReplays(s: State, a: Action, cfg: Config)
    requires !a.Crash? && (s.phase.Flushing? ==> s.phase.rest != [])
    requires !a.Absorb? && !a.FlushOne? && !a.Handle? && !a.FinishPost?
    ensures var effects := EffectOf(s, a, cfg);
      && CoreOf(Step(s, a, cfg)) == (if effects == [] then CoreOf(s) else Apply(CoreOf(s), effects[0], cfg))
      && (Step(s, a, cfg).phase.Flushing? ==> Step(s, a, cfg).phase.rest != [])
  {
    hide SettleAll, AllSettled, ToFlush, KeptActive, W.Finished, W.Delivered, Unread, Current;
  }

  lemma StepReplays(s: State, a: Action, cfg: Config)
    requires !a.Crash? && (s.phase.Flushing? ==> s.phase.rest != [])
    requires s.phase.Posting? ==> s.mem.queues.pending.Of(s.phase.channel) != []
    ensures var effects := EffectOf(s, a, cfg);
      && |effects| <= 1
      && CoreOf(Step(s, a, cfg)) == (if effects == [] then CoreOf(s) else Apply(CoreOf(s), effects[0], cfg))
      && (Step(s, a, cfg).phase.Flushing? ==> Step(s, a, cfg).phase.rest != [])
  {
    if a.Absorb? {
      hide AbsorbNext, Apply;
      if s.phase.Ready? && HasLF(Unread(s)) {
        AbsorbReplays(s, a.now, cfg);
        AbsorbPhase(s, a.now, cfg);
      }
    } else if a.FlushOne? {
      hide FlushNext, Apply;
      if s.phase.Flushing? { FlushOneReplays(s, cfg); FlushPhase(s, cfg); }
    } else if a.Handle? {
      hide HandleNext, Apply, Has;
      if s.phase.Collecting? && s.phase.taken != [] { HandleReplays(s, cfg); HandlePhase(s, cfg); }
    } else if a.FinishPost? {
      hide EndPost, Apply;
      if s.phase.Posting? { PostReplays(s, a.reply, cfg); PostPhase(s, a.reply); }
    } else {
      hide Step, Apply, CoreOf;
      PlainReplays(s, a, cfg);
    }
  }

  lemma AbsorbPhase(s: State, now: real, cfg: Config)
    requires HasLF(Unread(s))
    ensures AbsorbNext(s, now, cfg).phase == s.phase
  {
    hide QueueLine;
  }

  lemma FlushPhase(s: State, cfg: Config)
    requires s.phase.Flushing? && s.phase.rest != []
    ensures FlushNext(s, cfg).phase.Flushing? ==> FlushNext(s, cfg).phase.rest != []
  {
    hide EnqueueSummary;
  }

  lemma HandlePhase(s: State, cfg: Config)
    requires s.phase.Collecting? && s.phase.taken != []
    ensures HandleNext(s, cfg).phase.Collecting?
  {
    hide EnqueueSummary;
  }

  lemma PostPhase(s: State, r: Reply)
    requires s.phase.Posting? && s.mem.queues.pending.Of(s.phase.channel) != []
    ensures EndPost(s, r).phase.Ready?
  {
  }

  /** A POST is under way only for a queue that is not empty. */
  predicate PostsSomething(s: State) {
    s.phase.Posting? ==> s.mem.queues.pending.Of(s.phase.channel) != []
  }

  lemma PostsStep(s: State, a: Action, cfg: Config)
    requires PostsSomething(s)
    ensures PostsSomething(Step(s, a, cfg))
  {
    hide QueueLine, EnqueueSummary, RecoverAll, Restart, SettleHead, Settle, SettleAll, AllSettled, ToFlush, KeptActive,
         W.Finished, W.Delivered, Unread, W.Submitted;
  }

  /** What a step leaves of the saved state. */
  lemma SavedStep(s: State, a: Action, cfg: Config)
    ensures var t := Step(s, a, cfg);
      t.disk == if s.phase.Ready? && (a.Save? || (a.StartPost? && s.mem.queues.pending.Of(a.channel) != []))
                then s.mem else s.disk
  {
    hide QueueLine, EnqueueSummary, RecoverAll, Restart, SettleHead, SettleAll, AllSettled, ToFlush, KeptActive,
         W.Finished, W.Delivered, Unread, W.Submitted;
  }

  lemma TraceStepReplays(t: Traced, a: Action, cfg: Config)
    requires Replayed(t, cfg) && PostsSomething(t.s)
    ensures Replayed(TraceStep(t, a, cfg), cfg)
  {
    if a.Crash? {
      CrashReplays(t, a.taken, a.order, cfg);
    } else {
      hide Step, EffectOf, Apply, Replay;
      StepReplays(t.s, a, cfg);
      SavedStep(t.s, a, cfg);
      var effects := EffectOf(t.s, a, cfg);
      NoEffect(t.s, a, cfg);
      if effects != [] {
        assert effects == [effects[0]];
        ReplaySnoc(t.log, effects[0], cfg);
      } else {
        assert t.log + effects == t.log;
      }
    }
  }

  lemma NoEffect(s: State, a: Action, cfg: Config)
    ensures a.Save? || a.StartPost? ==> EffectOf(s, a, cfg) == []
  {
  }

  lemma {:induction false} RunReplays(actions: seq<Action>, cfg: Config)
    ensures Replayed(Trace(actions, cfg), cfg) && PostsSomething(Run(actions, cfg))
  {
    if actions == [] {
    } else {
      hide Replayed, PostsSomething, Step, TraceStep;
      var before, a := actions[..|actions| - 1], actions[|actions| - 1];
      RunReplays(before, cfg);
      TraceStepReplays(Trace(before, cfg), a, cfg);
      PostsStep(Run(before, cfg), a, cfg);
    }
  }

  lemma {:induction false} LinesAreFed(log: seq<Effect>, cfg: Config)
    requires Orderly(log, cfg)
    ensures Replay(log, cfg).mem.fed == Lines(log)
  {
    if log != [] {
      hide Apply;
      LinesAreFed(log[..|log| - 1], cfg);
      ApplyFeeds(Replay(log[..|log| - 1], cfg), log[|log| - 1], cfg);
    }
  }

  /** No line is fed while a flush is under way. */
  predicate Orderly(log: seq<Effect>, cfg: Config) {
    log == [] || (Orderly(log[..|log| - 1], cfg)
                  && (log[|log| - 1].Fed? ==> Replay(log[..|log| - 1], cfg).rest == []))
  }

  lemma ApplyFeeds(k: Core, e: Effect, cfg: Config)
    ensures Apply(k, e, cfg).mem.fed == k.mem.fed + (if e.Fed? && k.rest == [] then [e.line] else [])
  {
    hide QueueLine, EnqueueSummary, Settle, SettleAll, AllSettled, RecoverAll, Restart, ToFlush, KeptActive, Put;
    if e.Fed? {
      QueueLineReads(k.mem, k.manager, e.line, e.now, cfg);
    } else if e.Reloaded? {
      RecoverReads(k.mem.(queues := Restart(k.mem.queues)), e.entries, cfg);
    } else if e.Summarized? {
      SummaryReads(k.mem, e.cluster, e.enrichment, cfg);
    } else if e.Noted? && k.rest != [] {
      var c := k.rest[0];
      SummaryReads(k.mem.(awaiting := Put(k.mem.awaiting, FlushIdOf(c), c),
                          flushed := k.mem.flushed + [FlushIdOf(c)]), c, None, cfg);
    }
  }

  lemma SummaryReads(m: Durable, c: SC.Cluster, enrichment: Option<string>, cfg: Config)
    ensures SameReading(EnqueueSummary(m, c, enrichment, cfg), m)
  {
    hide Enqueue, Del;
  }

  lemma OrderlySnoc(log: seq<Effect>, e: Effect, cfg: Config)
    requires Orderly(log, cfg) && (e.Fed? ==> Replay(log, cfg).rest == [])
    ensures Orderly(log + [e], cfg)
  {
    hide Replay;
    assert (log + [e])[..|log|] == log;
  }

  lemma TraceStepOrderly(t: Traced, a: Action, cfg: Config)
    requires Replayed(t, cfg) && Orderly(t.log, cfg) && Orderly(t.saved, cfg)
    ensures var u := TraceStep(t, a, cfg);
      Orderly(u.log, cfg) && Orderly(u.saved, cfg)
  {
    hide Step, Orderly, Replay, ToFlush, Unread, Has;
    if a.Crash? {
      var entries := if multiset(a.order) == multiset(t.s.disk.awaiting) then a.order else t.s.disk.awaiting;
      OrderlySnoc(t.saved, Reloaded(entries), cfg);
    } else {
      var effects := EffectOf(t.s, a, cfg);
      if effects == [] {
        assert t.log + effects == t.log;
      } else {
        assert effects == [effects[0]];
        OrderlySnoc(t.log, effects[0], cfg);
      }
    }
  }

  lemma {:induction false} RunOrderly(actions: seq<Action>, cfg: Config)
    ensures var t := Trace(actions, cfg);
      Orderly(t.log, cfg) && Orderly(t.saved, cfg)
  {
    if actions != [] {
      hide Orderly, TraceStep, Step, Replayed;
      var before := actions[..|actions| - 1];
      RunOrderly(before, cfg);
      RunReplays(before, cfg);
      TraceStepOrderly(Trace(before, cfg), actions[|actions| - 1], cfg);
    } else {
      assert Orderly([], cfg);
    }
  }

  /** This state is the replay of a journal that feeds exactly the complete lines of every file left
      behind and of the tailed file before the offset, which is a record boundary. */
  predicate AbsorbedExactly(m: Durable, log: seq<Effect>, files: seq<Bytes>, cfg: Config) {
    && Detached(m) == Replay(log, cfg).mem
    && match m.source
       case None => Lines(log) == []
       case Some(p) =>
         && Within(files, p) && Rising(m.visited, p.file) && AllWithin(files, m.visited)
         && Lines(log) == LinesOf(files, m.visited) + Split(files[p.file][..p.offset])
  }

  /** Exactly-once absorption: in every run, through appends, rotations, failed saves and crashes at
      any step, the saved state and the live one, with every effect on `seen`, the clusters, the
      awaited and flushed clusters and the queues, are what queue_line leaves when it is applied once,
      in order, to exactly the complete lines before the offset, between effects that feed no line. */
  lemma {:induction false} AbsorbedExactlyOnce(actions: seq<Action>, cfg: Config)
    ensures var t := Trace(actions, cfg);
      && t.s == Run(actions, cfg)
      && AbsorbedExactly(t.s.mem, t.log, t.s.files, cfg) && AbsorbedExactly(t.s.disk, t.saved, t.s.files, cfg)
      && t.s.manager == Replay(t.log, cfg).manager
  {
    hide Trace, Replay, Run, Split, LinesOf, Rising, AtBoundary, Lines;
    RunReplays(actions, cfg);
    RunOrderly(actions, cfg);
    LinesFedOnce(actions, cfg);
    var t := Trace(actions, cfg);
    LinesAreFed(t.log, cfg);
    LinesAreFed(t.saved, cfg);
    DetachedFed(t.s.mem);
    DetachedFed(t.s.disk);
  }

  lemma DetachedFed(m: Durable)
    ensures Detached(m).fed == m.fed
  {
  }
}
