/** The polling thread's procedures as methods on the state they update. Each is proved to be a run of
    the machine's steps, whatever steps the worker threads take in between
    (native/discord-monitor.py:238-262, 492-653, 666-702, 713-761, 803-823). */
module MonitorObjects {
  import opened Options
  import opened OrderedDict
  import opened Records
  import opened DeliveryQueue
  import opened MonitorProtocol
  import opened MonitorAbsorption
  import opened MonitorDelivery
  import SC = SessionClusters
  import W = EnrichmentWorker
  import G = DiscordGovernor

  /** The machine, from any state. */
  function Continue(s: State, actions: seq<Action>, cfg: Config): State {
    if actions == [] then s else Step(Continue(s, actions[..|actions| - 1], cfg), actions[|actions| - 1], cfg)
  }

  lemma ContinueOne(s: State, actions: seq<Action>, a: Action, cfg: Config)
    ensures Continue(s, actions + [a], cfg) == Step(Continue(s, actions, cfg), a, cfg)
  {
    assert (actions + [a])[..|actions|] == actions;
  }

  function Times(n: nat, a: Action): (r: seq<Action>)
    ensures |r| == n
  {
    if n == 0 then [] else Times(n - 1, a) + [a]
  }

  /** Steps of the worker threads only. */
  predicate Quiet(moves: seq<Action>) {
    forall i :: 0 <= i < |moves| ==> moves[i].Finish? || moves[i].Deliver?
  }

  /** The polling thread's own steps of a run. */
  function Own(trace: seq<Action>): seq<Action> {
    if trace == [] then [] else
      var a := trace[|trace| - 1];
      Own(trace[..|trace| - 1]) + (if a.Finish? || a.Deliver? then [] else [a])
  }

  /** What one drain meets: whether there is a webhook, the turns, whether a lost POST arrived, and
      the threads during each POST. */
  datatype Network = Network(credential: bool, turns: nat -> Turn, reached: nat -> bool, moves: nat -> seq<Action>)

  ghost predicate Calm(net: Network) {
    forall n :: Quiet(net.moves(n))
  }

  /** The polling thread's own steps in one turn of the send loop. */
  function TurnSteps(ch: Channel, g: G.Governor, t: Turn, reached: bool): seq<Action> {
    if !G.CanSend(g, t.checkedAt) || t.cut == FirstSave then [] else
      var reply := ReplyFor(g, t, reached);
      [StartPost(ch), FinishPost(reply)]
      + (if (reply.Delivered2xx? || reply.Lost?) && t.cut != LastSave then [Save] else [])
  }

  function LoopSteps(ch: Channel, pending: seq<Item>, g: G.Governor, c: G.Config, net: Network, k: nat): seq<Action>
    decreases |pending|
  {
    if pending == [] then [] else
      var d := SendOnce(pending, g, c, net.turns(k));
      SendOnceShrinks(pending, g, c, net.turns(k));
      TurnSteps(ch, g, net.turns(k), net.reached(k))
      + (if d.stopped then [] else LoopSteps(ch, d.pending, d.governor, c, net, k + 1))
  }

  /** The same in one drain. */
  function DrainSteps(ch: Channel, pending: seq<Item>, g: G.Governor, c: G.Config, net: Network): seq<Action> {
    if pending == [] then []
    else if net.credential then LoopSteps(ch, pending, g, c, net, 0)
    else [NoWebhook(ch)] + (if net.turns(0).cut == LastSave then [] else [Save])
  }

  /** What one reading of a file meets: the clock at each line, whether the save after it works, and the
      network of the drain after it. Before each readline the writer may append to the current file. */
  datatype Reading = Reading(clock: nat -> real, saves: nat -> bool, nets: nat -> Network, writes: seq<Bytes>)

  ghost predicate Undisturbed(r: Reading) {
    forall n :: Calm(r.nets(n))
  }

  /** What one poll meets. `found` says whether a tailed file that is no longer the current one can still
      be read: after a rotation its inode may be gone, and a file truncated in place cannot. */
  datatype Cycle = Cycle(present: bool, found: bool, files: seq<Bytes>, prior: Reading, current: Reading,
                         beginSaved: bool, leaveSaved: bool, flushSaved: bool, collectSaved: bool, now: real,
                         submits: nat -> seq<Action>, takes: nat -> seq<Action>, handles: nat -> seq<Action>,
                         legacy: Network, intel: Network)

  ghost predicate Threads(c: Cycle) {
    && Undisturbed(c.prior) && Undisturbed(c.current) && Calm(c.legacy) && Calm(c.intel)
    && (forall n :: Quiet(c.submits(n))) && (forall n :: Quiet(c.takes(n))) && forall n :: Quiet(c.handles(n))
  }

  class Monitor {
    const cfg: Config
    const worker: W.ThreatIntelWorker<Task, string>
    var mem: Durable
    var disk: Durable
    var manager: SC.Clusters

    predicate Valid()
      reads worker
    {
      worker.maxInflight == cfg.maxInflight
    }

    /** The machine state this object stands for, in the surroundings `outside`. */
    function View(phase: Phase, outside: State): State
      reads this, worker
    {
      outside.(mem := mem, disk := disk, manager := manager, pool := worker.Contents(), phase := phase)
    }

    /** A new process: the saved state with whatever was pending suppressed. */
    constructor (cfg: Config, worker: W.ThreatIntelWorker<Task, string>, saved: Durable)
      requires worker.maxInflight == cfg.maxInflight
      ensures Valid() && this.cfg == cfg && this.worker == worker && disk == saved && manager == saved.clusters
      ensures mem == saved.(queues := Restart(saved.queues))
    {
      this.cfg, this.worker := cfg, worker;
      disk, manager := saved, saved.clusters;
      mem := saved.(queues := Restart(saved.queues));
    }

    method SaveState()
      modifies `disk
      ensures disk == mem
    {
      disk := mem;
    }

    method EnqueuePending(ch: Channel, item: Item)
      modifies `mem
      ensures mem == Offer(old(mem), ch, item)
    {
      if Accepts(mem.queues, ch, item.id) {
        mem := mem.(queues := Enqueue(mem.queues, ch, item), enqueued := mem.enqueued + [item.id]);
      }
    }

    method HandleLine(line: Bytes, now: real)
      modifies `mem, `manager
      ensures (mem, manager) == QueueLine(old(mem), old(manager), line, now, cfg)
    {
      hide Enqueue, Record, SC.Observed;
      var id := LineDigest(line);
      if id in mem.queues.seen {
        return;
      }
      mem := mem.(queues := Record(mem.queues, id));
      var event := cfg.decode(line);
      if event.None? {
        return;
      }
      var e := event.value;
      manager := SC.Observed(manager, e, now, cfg.limits.window, cfg.limits.maxCommands);
      mem := mem.(clusters := manager);
      if Alerting(manager, e, cfg) {
        manager := Alerted(manager, e);
        var payload := cfg.alert(e);
        if payload.Some? {
          EnqueuePending(Legacy, Item(AlertId(line), payload.value));
        }
      }
    }

    /** The worker threads move while the polling thread is busy elsewhere. */
    method Others(moves: seq<Action>, ghost phase: Phase, ghost outside: State)
      requires Valid() && Quiet(moves)
      modifies worker
      ensures Valid() && View(phase, outside) == Continue(old(View(phase, outside)), moves, cfg)
      ensures Work(worker.Contents()) <= old(Work(worker.Contents()))
    {
      hide Continue;
      ContinueNone(View(phase, outside), cfg);
      for n := 0 to |moves|
        invariant Valid() && View(phase, outside) == Continue(old(View(phase, outside)), moves[..n], cfg)
        invariant Work(worker.Contents()) <= old(Work(worker.Contents()))
      {
        var a := moves[n];
        assert moves[..n + 1] == moves[..n] + [a];
        ContinueOne(old(View(phase, outside)), moves[..n], a, cfg);
        ThreadWork(worker.Contents(), a);
        if a.Finish? && a.i < |worker.running| {
          worker.FinishTask(a.i, a.enrichment);
        }
        if a.Deliver? && a.j < |worker.finishing| {
          worker.PutResult(a.j);
        }
      }
      assert moves[..|moves|] == moves;
    }

    /** _enqueue_summary */
    method SummaryReady(c: SC.Cluster, enrichment: Option<string>)
      modifies `mem
      ensures mem == EnqueueSummary(old(mem), c, enrichment, cfg)
    {
      hide Enqueue;
      EnqueuePending(Intel, Item(FlushIdOf(c), cfg.render(c, enrichment)));
      mem := mem.(awaiting := Del(mem.awaiting, FlushIdOf(c)));
    }

    /** The save, the POST of the head of the queue, during which the threads move, and what becomes of
        the head. */
    method SendHead(ch: Channel, reply: Reply, moves: seq<Action>, ghost outside: State)
      returns (ghost trace: seq<Action>, ghost after: State)
      requires Valid() && mem.queues.pending.Of(ch) != [] && Quiet(moves)
      modifies this, worker
      ensures Valid() && mem == HeadAnswered(old(mem), ch, reply) && manager == old(manager)
      ensures after == outside.(accepted := after.accepted, doubtful := after.doubtful)
      ensures View(Ready, after) == Continue(old(View(Ready, outside)), trace, cfg)
      ensures Own(trace) == [StartPost(ch), FinishPost(reply)]
    {
      hide SettleHead, Continue, Step, Own;
      ghost var s := View(Ready, outside);
      SaveState();
      Others(moves, Posting(ch), outside);
      ghost var p := View(Posting(ch), outside);
      PostSteps(s, ch, moves, p, reply, cfg);
      trace := [StartPost(ch)] + moves + [FinishPost(reply)];
      OwnPost(ch, moves, reply);
      after := outside.(accepted := EndPost(p, reply).accepted, doubtful := EndPost(p, reply).doubtful);
      if reply.Delivered2xx? {
        mem := SettleHead(mem, ch, Delivered);
      } else if reply.Lost? {
        mem := SettleHead(mem, ch, DeadLettered(DeliveryUncertain));
      }
    }

    /** One turn of drain_pending: held back, or one POST, or cut short by an exception. */
    method TakeTurn(ch: Channel, governor: G.DiscordRateGovernor, t: Turn, reached: bool, moves: seq<Action>,
                    ghost outside: State)
      returns (stop: bool, raised: bool, ghost trace: seq<Action>, ghost after: State)
      requires Valid() && mem.queues.pending.Of(ch) != [] && Quiet(moves)
      modifies this, worker, governor
      ensures Valid()
      ensures var d := SendOnce(old(mem.queues.pending.Of(ch)), old(governor.State()), governor.config, t);
        && mem == old(mem).(queues := AfterDrain(old(mem.queues), ch, d))
        && governor.State() == d.governor && stop == d.stopped && raised == d.raised
      ensures manager == old(manager) && after == outside.(accepted := after.accepted, doubtful := after.doubtful)
      ensures View(Ready, after) == Continue(old(View(Ready, outside)), trace, cfg)
      ensures Own(trace) == TurnSteps(ch, old(governor.State()), t, reached)
    {
      hide AfterDrain, HeadAnswered, Continue, Step, Own, G.CanSend, G.NoteBlocked, G.NoteSuccess, G.NoteRateLimited;
      ghost var s := View(Ready, outside);
      var g := governor.State();
      TurnQueues(mem, ch, g, governor.config, t, reached);
      trace, after := [], outside;
      ContinueNone(s, cfg);
      OwnNone();
      var ok := governor.MaySend(t.checkedAt);
      if !ok {
        governor.NoteHeldBack(|mem.queues.pending.Of(ch)|);
        return true, false, trace, after;
      }
      governor.NoteSendAttempt(t.attemptAt);
      if t.cut == FirstSave {
        return true, true, trace, after;
      }
      var reply := ReplyFor(g, t, reached);
      trace, after := SendHead(ch, reply, moves, outside);
      match t.answer {
        case Uncaught =>
          return true, true, trace, after;
        case TooMany(retryAfter) =>
          var newly := governor.NoteLimited(retryAfter, t.answeredAt);
          return true, false, trace, after;
        case Accepted =>
          var recovered, suppressed := governor.NoteDelivered();
          if recovered && suppressed > 0 && t.cut == DigestPost {
            return true, true, trace, after;
          }
        case Other =>
      }
      if t.cut == LastSave {
        return true, true, trace, after;
      }
      ghost var q := View(Ready, after);
      SaveState();
      ThenSave(s, trace, q, cfg);
      OwnSteps(trace, [Save]);
      return false, false, trace + [Save], after;
    }

    /** drain_pending on one channel. */
    method DrainPending(ch: Channel, governor: G.DiscordRateGovernor, net: Network, ghost outside: State)
      returns (raised: bool, ghost trace: seq<Action>, ghost after: State)
      requires Valid() && Calm(net)
      modifies this, worker, governor
      ensures Valid()
      ensures var d := Drain(old(mem.queues.pending.Of(ch)), old(governor.State()), governor.config, net.credential,
          net.turns, 0);
        && mem == old(mem).(queues := AfterDrain(old(mem.queues), ch, d))
        && governor.State() == d.governor && raised == d.raised
      ensures manager == old(manager) && after == outside.(accepted := after.accepted, doubtful := after.doubtful)
      ensures View(Ready, after) == Continue(old(View(Ready, outside)), trace, cfg)
      ensures Own(trace) ==
        DrainSteps(ch, old(mem.queues.pending.Of(ch)), old(governor.State()), governor.config, net)
    {
      hide Continue, SettleAll, AllSettled, SendOnce, Own, LoopSteps;
      ghost var s := View(Ready, outside);
      raised, trace, after := false, [], outside;
      ContinueNone(s, cfg);
      OwnNone();
      if mem.queues.pending.Of(ch) == [] {
        NothingToDrain(mem.queues, ch, governor.State(), governor.config, net.credential, net.turns);
        return;
      }
      if !net.credential {
        mem := mem.(queues := SettleAll(mem.queues, AllSettled(mem.queues.pending.Of(ch), CredentialUnavailable))
                               .(pending := mem.queues.pending.With(ch, [])));
        NoWebhookStep(s, ch, cfg);
        trace := [NoWebhook(ch)];
        OwnFirst(NoWebhook(ch));
        if net.turns(0).cut == LastSave {
          raised := true;
          return;
        }
        ghost var q := View(Ready, outside);
        SaveState();
        SaveStep(q, cfg);
        ContinueOne(s, trace, Save, cfg);
        OwnSteps(trace, [Save]);
        trace := trace + [Save];
        return;
      }
      raised, trace, after := SendLoop(ch, governor, net, outside);
    }

    method SendLoop(ch: Channel, governor: G.DiscordRateGovernor, net: Network, ghost outside: State)
      returns (raised: bool, ghost trace: seq<Action>, ghost after: State)
      requires Valid() && Calm(net)
      modifies this, worker, governor
      ensures Valid()
      ensures var d := DrainLoop(old(mem.queues.pending.Of(ch)), old(governor.State()), governor.config, net.turns, 0);
        && mem == old(mem).(queues := AfterDrain(old(mem.queues), ch, d))
        && governor.State() == d.governor && raised == d.raised
      ensures manager == old(manager) && after == outside.(accepted := after.accepted, doubtful := after.doubtful)
      ensures View(Ready, after) == Continue(old(View(Ready, outside)), trace, cfg)
      ensures Own(trace) ==
        LoopSteps(ch, old(mem.queues.pending.Of(ch)), old(governor.State()), governor.config, net, 0)
    {
      hide Continue, SettleAll, SendOnce, DrainLoop, AfterDrain, Own, LoopSteps, TurnSteps;
      ghost var s, q0, c := View(Ready, outside), mem.queues, governor.config;
      ghost var goal := DrainLoop(mem.queues.pending.Of(ch), governor.State(), c, net.turns, 0);
      ghost var steps := LoopSteps(ch, mem.queues.pending.Of(ch), governor.State(), c, net, 0);
      ghost var done := Drained(mem.queues.pending.Of(ch), [], governor.State(), [], false, 0, None, false);
      NothingSettled(q0, ch, done);
      NothingBefore(done, goal);
      ContinueNone(s, cfg);
      OwnNone();
      var k, stop := 0, false;
      raised, trace, after := false, [], outside;
      while mem.queues.pending.Of(ch) != [] && !stop
        invariant Valid() && manager == old(manager)
        invariant after == outside.(accepted := after.accepted, doubtful := after.doubtful)
        invariant mem == old(mem).(queues := mem.queues) && mem.queues == AfterDrain(q0, ch, done)
        invariant done.pending == mem.queues.pending.Of(ch) && done.governor == governor.State()
        invariant done.stopped == stop && done.turns == k && done.raised == raised && (raised ==> stop)
        invariant goal == if stop then done
          else Then(done, DrainLoop(mem.queues.pending.Of(ch), governor.State(), c, net.turns, k))
        invariant View(Ready, after) == Continue(s, trace, cfg)
        invariant steps == Own(trace)
          + (if stop then [] else LoopSteps(ch, mem.queues.pending.Of(ch), governor.State(), c, net, k))
        decreases !stop, |mem.queues.pending.Of(ch)|
      {
        ghost var q, queue, g := mem.queues, mem.queues.pending.Of(ch), governor.State();
        ghost var d := SendOnce(queue, g, c, net.turns(k));
        SendOnceShrinks(queue, g, c, net.turns(k));
        RaisedStops(queue, g, c, net.turns(k));
        NextSteps(ch, queue, g, c, net, k, Own(trace));
        ghost var more: seq<Action>;
        ghost var was := trace;
        stop, raised, more, after := TakeTurn(ch, governor, net.turns(k), net.reached(k), net.moves(k), after);
        AfterDrainPending(q, ch, d);
        ContinueAppend(s, trace, more, cfg);
        OwnAppend(trace, more);
        trace := trace + more;
        k := k + 1;
        TurnsTogether(q0, ch, done, queue, g, c, net.turns, k - 1);
        done := Then(done, d.(turns := k));
      }
      NothingAfter(done);
      EmptyLoop(done.governor, c, net.turns, k);
      EmptySteps(ch, done.governor, c, net, k, Own(trace));
    }

    /** One complete line of the tailed file, and the offset after it. */
    method TakeLine(files: seq<Bytes>, now: real, ghost begin: State, ghost trace: seq<Action>, ghost outside: State)
      requires Valid() && outside.files == files && View(Ready, outside) == Continue(begin, trace, cfg)
      requires FedRight(mem, files) && mem.source.Some? && HasLF(UnreadIn(mem, files))
      modifies `mem, `manager
      ensures View(Ready, outside) == Continue(begin, trace + [Absorb(now)], cfg)
      ensures FedRight(mem, files) && mem.source.Some? && mem.source.value.file == old(mem.source.value.file)
      ensures |UnreadIn(mem, files)| < old(|UnreadIn(mem, files)|)
    {
      hide QueueLine, Continue, Step, Split, LinesOf, Rising, AllWithin;
      var p := mem.source.value;
      var rest := UnreadIn(mem, files);
      var line := rest[..FirstLF(rest) + 1];
      ghost var s := View(Ready, outside);
      assert line == NextLine(s);
      QueueLineReads(mem, manager, line, now, cfg);
      AbsorbFeeds(s, now, cfg);
      HandleLine(line, now);
      mem := mem.(source := Some(Position(p.file, p.offset + |line|)), fed := mem.fed + [line]);
      AbsorbStep(s, now, cfg);
      ContinueOne(begin, trace, Absorb(now), cfg);
    }

    /** consume: every complete line of the tailed file, each followed by a save and a drain of the
        legacy channel, while the writer goes on appending to the current one. */
    method Consume(files: seq<Bytes>, reading: Reading, governor: G.DiscordRateGovernor, ghost outside: State)
      returns (raised: bool, grown: seq<Bytes>, ghost trace: seq<Action>, ghost after: State)
      requires Valid() && files != [] && outside.files == files && Undisturbed(reading) && FedRight(mem, files)
      requires mem.source.Some?
      modifies this, worker, governor
      ensures Valid() && after.files == grown && |grown| == |files| && Extends(files, grown)
      ensures View(Ready, after) == Continue(old(View(Ready, outside)), trace, cfg)
      ensures FedRight(mem, grown) && mem.source.Some? && mem.source.value.file == old(mem.source.value.file)
      ensures !raised ==> !HasLF(Unread(View(Ready, after)))
    {
      hide QueueLine, Continue, Step, Split, AfterDrain, Drain, Enqueue, FedRight, LinesOf, Rising, AllWithin, Own,
        DrainSteps;
      grown := files;
      var n := 0;
      raised, trace, after := false, [], outside;
      ghost var begin := View(Ready, outside);
      ContinueNone(begin, cfg);
      while true
        invariant Valid() && after.files == grown && |grown| == |files| && Extends(files, grown)
        invariant FedRight(mem, grown) && mem.source.Some? && mem.source.value.file == old(mem.source.value.file)
        invariant View(Ready, after) == Continue(begin, trace, cfg)
        decreases if n < |reading.writes| then |reading.writes| - n else 0, |UnreadIn(mem, grown)|
      {
        if n < |reading.writes| {
          WriterMoves(begin, trace, View(Ready, after), files, reading.writes[n], cfg);
          trace := trace + [Write(reading.writes[n])];
          grown := Appended(grown, reading.writes[n]);
          after := after.(files := grown);
        }
        TailedWithin(mem, grown);
        if !HasLF(UnreadIn(mem, grown)) {
          return;
        }
        TakeLine(grown, reading.clock(n), begin, trace, after);
        trace := trace + [Absorb(reading.clock(n))];
        if !reading.saves(n) {
          raised := true;
          return;
        }
        ghost var q := View(Ready, after);
        SaveState();
        ThenSave(begin, trace, q, cfg);
        trace := trace + [Save];
        ghost var steps: seq<Action>;
        ghost var m := mem;
        raised, steps, after := DrainPending(Legacy, governor, reading.nets(n), after);
        SameFed(mem, m, grown);
        ContinueAppend(begin, trace, steps, cfg);
        trace := trace + steps;
        if raised {
          return;
        }
        n := n + 1;
      }
    }

    /** The first half of flush_expired_clusters: flush, evict, submit or summarize, save. */
    method FlushExpired(now: real, moves: nat -> seq<Action>, saved: bool, ghost outside: State)
      returns (raised: bool, ghost trace: seq<Action>)
      requires Valid() && forall n :: Quiet(moves(n))
      modifies this, worker
      ensures Valid() && View(Ready, outside) == Continue(old(View(Ready, outside)), trace, cfg)
      ensures mem == old(mem).(queues := mem.queues, clusters := mem.clusters, awaiting := mem.awaiting,
                               flushed := mem.flushed, enqueued := mem.enqueued)
      ensures var gone := ToFlush(old(manager), now, cfg.limits);
        && raised == (gone != [] && !saved)
        && Own(trace) ==
           if gone == [] then [] else [Flush(now)] + Times(|gone|, FlushOne) + (if saved then [Save] else [])
    {
      hide Step, Continue, Times, ToFlush, KeptActive, Enqueue, Accepts, W.Submitted, W.HasRoom, Own, Put, Del;
      ghost var begin := View(Ready, outside);
      raised, trace := false, [];
      ContinueNone(begin, cfg);
      OwnNone();
      var gone := ToFlush(manager, now, cfg.limits);
      if gone == [] {
        return;
      }
      manager := KeptActive(manager, now, cfg.limits);
      FlushBegins(begin, now, cfg);
      trace := [Flush(now)];
      OwnFirst(Flush(now));
      TimesNone([Flush(now)], FlushOne);
      var n := 0;
      while n < |gone|
        invariant 0 <= n <= |gone| && Valid() && disk == old(disk)
        invariant mem == old(mem).(queues := mem.queues, clusters := mem.clusters, awaiting := mem.awaiting,
                                   flushed := mem.flushed, enqueued := mem.enqueued)
        invariant n < |gone| ==> View(Flushing(gone[n..]), outside) == Continue(begin, trace, cfg)
        invariant n == |gone| ==> View(Ready, outside) == Continue(begin, trace, cfg)
        invariant Own(trace) == [Flush(now)] + Times(n, FlushOne)
      {
        Others(moves(n), Flushing(gone[n..]), outside);
        ContinueAppend(begin, trace, moves(n), cfg);
        OwnQuiet(trace, moves(n));
        trace := trace + moves(n);
        ghost var s := View(Flushing(gone[n..]), outside);
        var c := gone[n];
        assert gone[n..][1..] == gone[n + 1..];
        mem := mem.(awaiting := Put(mem.awaiting, FlushIdOf(c), c), flushed := mem.flushed + [FlushIdOf(c)]);
        var submitted := worker.TrySubmit((FlushIdOf(c), c));
        if !submitted {
          SummaryReady(c, None);
        }
        n := n + 1;
        if n == |gone| {
          mem := mem.(clusters := manager);
        }
        FlushStep(s, cfg);
        ContinueOne(begin, trace, FlushOne, cfg);
        OwnTimes(trace, [Flush(now)], n - 1, FlushOne);
        trace := trace + [FlushOne];
      }
      if !saved {
        raised := true;
        return;
      }
      ghost var s := View(Ready, outside);
      SaveState();
      SaveStep(s, cfg);
      ContinueOne(begin, trace, Save, cfg);
      OwnSteps(trace, [Save]);
      trace := trace + [Save];
    }

    /** The second half: take every completed result until none is left, handle each, then save. */
    method CollectResults(takes: nat -> seq<Action>, handles: nat -> seq<Action>, saved: bool, ghost outside: State)
      returns (raised: bool, completed: seq<W.Result<Task, string>>, ghost trace: seq<Action>)
      requires Valid() && (forall n :: Quiet(takes(n))) && forall n :: Quiet(handles(n))
      modifies this, worker
      ensures Valid() && View(Ready, outside) == Continue(old(View(Ready, outside)), trace, cfg)
      ensures mem == old(mem).(queues := mem.queues, awaiting := mem.awaiting, enqueued := mem.enqueued)
      ensures var k := |completed|;
        && raised == (k > 0 && !saved)
        && Own(trace) == [Collect] + Times(k, Take) + Times(k + 1, Handle) + (if k > 0 && saved then [Save] else [])
    {
      hide Step, Continue, Times, Enqueue, Accepts, Own, Del;
      ghost var begin := View(Ready, outside);
      raised := false;
      completed, trace := Gather(takes, outside);
      ghost var before := [Collect] + Times(|completed|, Take);
      TimesNone(before, Handle);
      var n := 0;
      while n < |completed|
        invariant 0 <= n <= |completed| && Valid() && disk == old(disk)
        invariant mem == old(mem).(queues := mem.queues, awaiting := mem.awaiting, enqueued := mem.enqueued)
        invariant View(Collecting(completed[n..]), outside) == Continue(begin, trace, cfg)
        invariant Own(trace) == before + Times(n, Handle)
      {
        Others(handles(n), Collecting(completed[n..]), outside);
        ContinueAppend(begin, trace, handles(n), cfg);
        OwnQuiet(trace, handles(n));
        trace := trace + handles(n);
        ghost var s := View(Collecting(completed[n..]), outside);
        var r := completed[n];
        assert completed[n..][1..] == completed[n + 1..];
        if Has(mem.awaiting, FlushIdOf(r.task.1)) {
          SummaryReady(r.task.1, r.enrichment);
        }
        n := n + 1;
        HandleStep(s, cfg);
        ContinueOne(begin, trace, Handle, cfg);
        OwnTimes(trace, before, n - 1, Handle);
        trace := trace + [Handle];
      }
      ghost var s := View(Collecting([]), outside);
      assert completed[n..] == [];
      HandleEnd(s, cfg);
      ContinueOne(begin, trace, Handle, cfg);
      OwnTimes(trace, before, n, Handle);
      trace := trace + [Handle];
      raised := completed != [] && !saved;
      if completed != [] && saved {
        ghost var t := View(Ready, outside);
        SaveState();
        SaveStep(t, cfg);
        ContinueOne(begin, trace, Save, cfg);
        OwnSteps(trace, [Save]);
        trace := trace + [Save];
      } else {
        assert Own(trace) + [] == Own(trace);
      }
    }

    /** drain_completed, with the threads still delivering. */
    method Gather(takes: nat -> seq<Action>, ghost outside: State)
      returns (completed: seq<W.Result<Task, string>>, ghost trace: seq<Action>)
      requires Valid() && forall n :: Quiet(takes(n))
      modifies worker
      ensures Valid() && View(Collecting(completed), outside) == Continue(old(View(Ready, outside)), trace, cfg)
      ensures Own(trace) == [Collect] + Times(|completed|, Take)
    {
      hide Step, Continue, Times, Own;
      ghost var begin := View(Ready, outside);
      CollectBegins(begin, cfg);
      trace := [Collect];
      OwnFirst(Collect);
      TimesNone([Collect], Take);
      completed := [];
      while true
        invariant Valid() && View(Collecting(completed), outside) == Continue(begin, trace, cfg)
        invariant Own(trace) == [Collect] + Times(|completed|, Take)
        decreases Work(worker.Contents())
      {
        var k := |completed|;
        Others(takes(k), Collecting(completed), outside);
        ContinueAppend(begin, trace, takes(k), cfg);
        OwnQuiet(trace, takes(k));
        trace := trace + takes(k);
        if worker.results == [] {
          return;
        }
        ghost var s := View(Collecting(completed), outside);
        var r := worker.GetNowait();
        completed := completed + [r];
        TakeStep(s, cfg);
        ContinueOne(begin, trace, Take, cfg);
        OwnTimes(trace, [Collect], k, Take);
        trace := trace + [Take];
      }
    }

    /** Startup recovery, entry by entry in the order the state file gave them. */
    method RecoverAwaiting(order: seq<Task>)
      requires multiset(order) == multiset(disk.awaiting)
      requires mem == disk.(queues := Restart(disk.queues)) && manager == disk.clusters
      requires worker.Contents() == W.Pool(0, [], [], [])
      modifies this
      ensures (mem, manager) == (RecoverAll(old(mem), order, cfg), old(manager))
      ensures disk == if order == [] then old(disk) else mem
      ensures forall before: State :: before.disk == old(disk) ==>
        Step(before, Crash(false, order), cfg).mem == mem && Step(before, Crash(false, order), cfg).manager == manager
    {
      hide EnqueueSummary, Restart, Step;
      var n := 0;
      while n < |order|
        invariant 0 <= n <= |order| && disk == old(disk) && manager == old(manager)
        invariant mem == RecoverAll(old(mem), order[..n], cfg)
      {
        assert order[..n + 1][..n] == order[..n];
        SummaryReady(order[n].1, None);
        n := n + 1;
      }
      assert order[..n] == order;
      if order != [] {
        SaveState();
      }
      forall before: State | before.disk == old(disk)
        ensures Step(before, Crash(false, order), cfg).mem == mem
        ensures Step(before, Crash(false, order), cfg).manager == manager
      {
        CrashRecovers(before, order, cfg);
      }
    }

    /** The first half of poll_once: begin with the current file; when the tailed file is not the current
        one any more, finish it if it can still be read, and move on; read the current one to its last
        complete line. */
    method FollowLog(c: Cycle, governor: G.DiscordRateGovernor, ghost outside: State)
      returns (raised: bool, ghost trace: seq<Action>, ghost after: State)
      requires Valid() && c.files != [] && outside.files == c.files && FedRight(mem, c.files) && Threads(c)
      modifies this, worker, governor
      ensures Valid() && |after.files| == |c.files| && Extends(c.files, after.files)
      ensures View(Ready, after) == Continue(old(View(Ready, outside)), trace, cfg)
      ensures FedRight(mem, after.files)
      ensures !raised ==>
        mem.source.Some? && mem.source.value.file == |after.files| - 1 && !HasLF(Unread(View(Ready, after)))
    {
      hide Continue, Step, Split, LinesOf, Rising, AtBoundary, HasLF, FedRight, AllWithin;
      ghost var begin := View(Ready, outside);
      raised, trace, after := false, [], outside;
      ContinueNone(begin, cfg);
      var last := |c.files| - 1;
      var files := c.files;
      if mem.source.None? {
        BeginStep(begin, cfg);
        BeginFeeds(begin, cfg);
        mem := mem.(source := Some(Position(last, 0)));
        trace := [Begin];
        if !c.beginSaved {
          raised := true;
          return;
        }
        ghost var s := View(Ready, outside);
        SaveState();
        ThenSave(begin, trace, s, cfg);
        trace := trace + [Save];
      }
      if mem.source.value.file != last {
        ghost var steps: seq<Action>;
        if c.found {
          raised, files, steps, after := Consume(files, c.prior, governor, outside);
          ContinueAppend(begin, trace, steps, cfg);
          trace := trace + steps;
          if raised {
            return;
          }
        }
        ghost var s := View(Ready, after);
        ghost var leave := if c.found then Switch else Skip;
        TailedWithin(mem, files);
        LeaveStep(s, leave, cfg);
        LeftFeeds(mem, files, last);
        ContinueOne(begin, trace, leave, cfg);
        mem := mem.(source := Some(Position(last, 0)), visited := mem.visited + [mem.source.value]);
        trace := trace + [leave];
        if !c.leaveSaved {
          raised := true;
          return;
        }
        ghost var t := View(Ready, after);
        SaveState();
        ThenSave(begin, trace, t, cfg);
        trace := trace + [Save];
      }
      ghost var rest: seq<Action>;
      ghost var was := files;
      raised, files, rest, after := Consume(files, c.current, governor, after);
      ExtendsFurther(c.files, was, files);
      ContinueAppend(begin, trace, rest, cfg);
      trace := trace + rest;
    }

    /** poll_once, up to the first exception. */
    method PollOnce(c: Cycle, legacy: G.DiscordRateGovernor, intel: G.DiscordRateGovernor, ghost outside: State)
      returns (raised: bool, ghost trace: seq<Action>, ghost after: State)
      requires Valid() && outside.files == c.files && Threads(c)
      requires c.present ==> c.files != [] && FedRight(mem, c.files)
      modifies this, worker, legacy, intel
      ensures Valid() && View(Ready, after) == Continue(old(View(Ready, outside)), trace, cfg)
      ensures c.present ==> FedRight(mem, after.files)
      ensures c.present && !raised ==>
        mem.source.Some? && mem.source.value.file == |after.files| - 1 && !HasLF(Unread(View(Ready, after)))
      ensures !c.present ==> mem.source == old(mem.source) && mem.fed == old(mem.fed)
    {
      hide Continue, HasLF, FedRight, Drain, AfterDrain, ToFlush, Own, Times, Extends, DrainSteps;
      ghost var begin := View(Ready, outside);
      raised, trace, after := false, [], outside;
      ContinueNone(begin, cfg);
      if c.present {
        raised, trace, after := FollowLog(c, legacy, outside);
        if raised {
          return;
        }
      }
      ghost var m := mem;
      ghost var flushes: seq<Action>;
      raised, flushes := FlushExpired(c.now, c.submits, c.flushSaved, after);
      SameFed(mem, m, after.files);
      ContinueAppend(begin, trace, flushes, cfg);
      trace := trace + flushes;
      if raised {
        return;
      }
      ghost var collects: seq<Action>;
      var completed;
      raised, completed, collects := CollectResults(c.takes, c.handles, c.collectSaved, after);
      SameFed(mem, m, after.files);
      ContinueAppend(begin, trace, collects, cfg);
      trace := trace + collects;
      if raised {
        return;
      }
      ghost var posts: seq<Action>;
      raised, posts, after := DrainPending(Legacy, legacy, c.legacy, after);
      SameFed(mem, m, after.files);
      ContinueAppend(begin, trace, posts, cfg);
      trace := trace + posts;
      if raised {
        return;
      }
      raised, posts, after := DrainPending(Intel, intel, c.intel, after);
      SameFed(mem, m, after.files);
      ContinueAppend(begin, trace, posts, cfg);
      trace := trace + posts;
    }
  }

  lemma ContinueNone(s: State, cfg: Config)
    ensures Continue(s, [], cfg) == s
  {
  }

  lemma {:induction false} ContinueAppend(s: State, a: seq<Action>, b: seq<Action>, cfg: Config)
    ensures Continue(s, a + b, cfg) == Continue(Continue(s, a, cfg), b, cfg)
  {
    hide Step;
    if b == [] {
      assert a + b == a;
    } else {
      assert (a + b)[..|a + b| - 1] == a + b[..|b| - 1];
      ContinueAppend(s, a, b[..|b| - 1], cfg);
    }
  }

  /** What the methods do continues a run of the machine: whatever holds of every run holds after them. */
  lemma {:induction false} RunContinues(actions: seq<Action>, more: seq<Action>, cfg: Config)
    ensures Continue(Run(actions, cfg), more, cfg) == Run(actions + more, cfg)
  {
    hide Step;
    if more == [] {
      assert actions + more == actions;
    } else {
      assert (actions + more)[..|actions + more| - 1] == actions + more[..|more| - 1];
      RunContinues(actions, more[..|more| - 1], cfg);
    }
  }

  lemma OwnNone()
    ensures Own([]) == []
  {
  }

  lemma OwnFirst(a: Action)
    requires !a.Finish? && !a.Deliver?
    ensures Own([a]) == [a]
  {
    assert [a][..0] == [];
  }

  lemma {:induction false} OwnSteps(trace: seq<Action>, steps: seq<Action>)
    requires forall i :: 0 <= i < |steps| ==> !steps[i].Finish? && !steps[i].Deliver?
    ensures Own(trace + steps) == Own(trace) + steps
  {
    if steps == [] {
      assert trace + steps == trace;
    } else {
      var n := |steps| - 1;
      assert (trace + steps)[..|trace + steps| - 1] == trace + steps[..n];
      OwnSteps(trace, steps[..n]);
    }
  }

  lemma {:induction false} OwnQuiet(trace: seq<Action>, moves: seq<Action>)
    requires Quiet(moves)
    ensures Own(trace + moves) == Own(trace)
  {
    if moves == [] {
      assert trace + moves == trace;
    } else {
      var n := |moves| - 1;
      assert (trace + moves)[..|trace + moves| - 1] == trace + moves[..n];
      OwnQuiet(trace, moves[..n]);
    }
  }

  lemma {:induction false} OwnAppend(a: seq<Action>, b: seq<Action>)
    ensures Own(a + b) == Own(a) + Own(b)
  {
    if b == [] {
      assert a + b == a;
    } else {
      var n := |b| - 1;
      assert (a + b)[..|a + b| - 1] == a + b[..n];
      OwnAppend(a, b[..n]);
    }
  }

  lemma OwnPost(ch: Channel, moves: seq<Action>, reply: Reply)
    requires Quiet(moves)
    ensures Own([StartPost(ch)] + moves + [FinishPost(reply)]) == [StartPost(ch), FinishPost(reply)]
  {
    hide Own;
    OwnFirst(StartPost(ch));
    OwnQuiet([StartPost(ch)], moves);
    OwnSteps([StartPost(ch)] + moves, [FinishPost(reply)]);
  }

  lemma NextSteps(ch: Channel, pending: seq<Item>, g: G.Governor, c: G.Config, net: Network, k: nat, own: seq<Action>)
    requires pending != []
    ensures var d, now := SendOnce(pending, g, c, net.turns(k)), TurnSteps(ch, g, net.turns(k), net.reached(k));
      var rest := if d.stopped then [] else LoopSteps(ch, d.pending, d.governor, c, net, k + 1);
      own + LoopSteps(ch, pending, g, c, net, k) == own + now + rest
  {
    hide SendOnce, TurnSteps;
  }

  lemma EmptySteps(ch: Channel, g: G.Governor, c: G.Config, net: Network, k: nat, own: seq<Action>)
    ensures own + LoopSteps(ch, [], g, c, net, k) == own && own + [] == own
  {
  }

  lemma OwnTimes(trace: seq<Action>, before: seq<Action>, n: nat, a: Action)
    requires Own(trace) == before + Times(n, a) && !a.Finish? && !a.Deliver?
    ensures Own(trace + [a]) == before + Times(n + 1, a)
  {
    hide Own;
    OwnSteps(trace, [a]);
  }

  lemma TimesNone(before: seq<Action>, a: Action)
    ensures before + Times(0, a) == before
  {
  }

  /** How far the threads' work is from the polling thread's hands. */
  function Work(p: W.Pool<Task, string>): nat {
    3 * |p.running| + 2 * |p.finishing| + |p.results|
  }

  lemma ThreadWork(p: W.Pool<Task, string>, a: Action)
    ensures a.Finish? ==> Work(W.Finished(p, a.i, a.enrichment)) <= Work(p)
    ensures a.Deliver? ==> Work(W.Delivered(p, a.j)) <= Work(p)
  {
  }

  /** The state dict when a POST of the head has ended so. */
  function HeadAnswered(m: Durable, ch: Channel, reply: Reply): Durable
    requires m.queues.pending.Of(ch) != []
  {
    if reply.Delivered2xx? then SettleHead(m, ch, Delivered)
    else if reply.Lost? then SettleHead(m, ch, DeadLettered(DeliveryUncertain))
    else m
  }

  /** What a turn does to the queues, in the machine's words. */
  lemma TurnQueues(m: Durable, ch: Channel, g: G.Governor, c: G.Config, t: Turn, reached: bool)
    requires m.queues.pending.Of(ch) != []
    ensures m.(queues := AfterDrain(m.queues, ch, SendOnce(m.queues.pending.Of(ch), g, c, t))) ==
      if !G.CanSend(g, t.checkedAt) || t.cut == FirstSave then m else HeadAnswered(m, ch, ReplyFor(g, t, reached))
  {
    hide Settle, G.CanSend, G.NoteBlocked, G.NoteSuccess, G.NoteRateLimited;
    var pending := m.queues.pending.Of(ch);
    NothingSettled(m.queues, ch, SendOnce(pending, g, c, t));
    SettleOne(m.queues, Settled(pending[0], Delivered));
    SettleOne(m.queues, Settled(pending[0], DeadLettered(DeliveryUncertain)));
  }

  lemma StartStep(s: State, ch: Channel, cfg: Config)
    requires s.phase.Ready? && s.mem.queues.pending.Of(ch) != []
    ensures Continue(s, [StartPost(ch)], cfg) == s.(disk := s.mem, phase := Posting(ch))
  {
    ContinueOne(s, [], StartPost(ch), cfg);
    assert [] + [StartPost(ch)] == [StartPost(ch)];
  }

  /** One POST, with the threads moving while it is on its way. */
  lemma PostSteps(s: State, ch: Channel, moves: seq<Action>, p: State, reply: Reply, cfg: Config)
    requires s.phase.Ready? && s.mem.queues.pending.Of(ch) != []
    requires p == Continue(s.(disk := s.mem, phase := Posting(ch)), moves, cfg)
    requires p.phase == Posting(ch) && p.mem == s.mem
    ensures Continue(s, [StartPost(ch)] + moves + [FinishPost(reply)], cfg) == EndPost(p, reply)
  {
    hide Continue, ReadyStep, EndPost;
    StartStep(s, ch, cfg);
    ContinueAppend(s, [StartPost(ch)], moves, cfg);
    ContinueOne(s, [StartPost(ch)] + moves, FinishPost(reply), cfg);
  }

  lemma NothingToDrain(q: Queues, ch: Channel, g: G.Governor, c: G.Config, credential: bool, env: nat -> Turn)
    requires q.pending.Of(ch) == []
    ensures var d := Drain(q.pending.Of(ch), g, c, credential, env, 0);
      d.governor == g && AfterDrain(q, ch, d) == q
  {
    hide AfterDrain;
    NothingSettled(q, ch, Drain(q.pending.Of(ch), g, c, credential, env, 0));
  }

  lemma NoWebhookStep(s: State, ch: Channel, cfg: Config)
    requires s.phase.Ready?
    ensures Continue(s, [NoWebhook(ch)], cfg) == s.(mem := s.mem.(queues :=
      SettleAll(s.mem.queues, AllSettled(s.mem.queues.pending.Of(ch), CredentialUnavailable))
        .(pending := s.mem.queues.pending.With(ch, []))))
  {
    hide SettleAll, AllSettled;
    ContinueOne(s, [], NoWebhook(ch), cfg);
    assert [] + [NoWebhook(ch)] == [NoWebhook(ch)];
  }

  lemma BeginStep(s: State, cfg: Config)
    requires s.phase.Ready? && s.mem.source.None? && s.files != []
    ensures Continue(s, [Begin], cfg) == s.(mem := s.mem.(source := Some(Position(Current(s), 0))))
  {
    ContinueOne(s, [], Begin, cfg);
    assert [] + [Begin] == [Begin];
  }

  /** Both ways of leaving the tailed file. */
  lemma LeaveStep(s: State, a: Action, cfg: Config)
    requires s.phase.Ready? && s.mem.source.Some? && s.mem.source.value.file < Current(s)
    requires a.Skip? || (a.Switch? && !HasLF(Unread(s)))
    ensures Step(s, a, cfg) == s.(mem := Left(s.mem, Current(s)))
  {
  }

  lemma ThenSave(begin: State, trace: seq<Action>, s: State, cfg: Config)
    requires s == Continue(begin, trace, cfg) && s.phase.Ready?
    ensures Continue(begin, trace + [Save], cfg) == s.(disk := s.mem)
  {
    hide Step, Continue;
    ContinueOne(begin, trace, Save, cfg);
    SaveStep(s, cfg);
  }

  lemma CrashRecovers(s: State, order: seq<Task>, cfg: Config)
    requires multiset(order) == multiset(s.disk.awaiting)
    ensures var t := Step(s, Crash(false, order), cfg);
      t.mem == RecoverAll(s.disk.(queues := Restart(s.disk.queues)), order, cfg) && t.manager == s.disk.clusters
  {
    hide RecoverAll, Restart;
  }

  lemma AbsorbStep(s: State, now: real, cfg: Config)
    requires s.phase.Ready? && HasLF(Unread(s))
    ensures Step(s, Absorb(now), cfg) == AbsorbNext(s, now, cfg)
  {
    hide AbsorbNext;
  }

  /** The log after the writer appended to the current file. */
  function Appended(files: seq<Bytes>, bytes: Bytes): seq<Bytes>
    requires files != []
  {
    files[|files| - 1 := files[|files| - 1] + bytes]
  }

  lemma AppendedExtends(first: seq<Bytes>, files: seq<Bytes>, bytes: Bytes)
    requires Extends(first, files) && |first| == |files|
    ensures Extends(files, Appended(files, bytes)) && Extends(first, Appended(files, bytes))
  {
    ExtendsFurther(first, files, Appended(files, bytes));
  }

  lemma ExtendsFurther(a: seq<Bytes>, b: seq<Bytes>, c: seq<Bytes>)
    requires Extends(a, b) && Extends(b, c) && |a| == |b| == |c|
    ensures Extends(a, c)
  {
  }

  /** One append while a file is being read. */
  lemma WriterMoves(begin: State, trace: seq<Action>, s: State, files: seq<Bytes>, bytes: Bytes, cfg: Config)
    requires s == Continue(begin, trace, cfg) && files != [] && |files| == |s.files|
    requires Extends(files, s.files) && FedRight(s.mem, s.files)
    ensures var longer := Appended(s.files, bytes);
      && Continue(begin, trace + [Write(bytes)], cfg) == s.(files := longer)
      && FedRight(s.mem, longer) && Extends(files, longer) && |longer| == |files|
  {
    hide Step, Continue, FedRight;
    WriteStep(s, bytes, cfg);
    AppendedExtends(files, s.files, bytes);
    GrowingKeeps(s.mem, s.files, Appended(s.files, bytes));
    ContinueOne(begin, trace, Write(bytes), cfg);
  }

  lemma WriteStep(s: State, bytes: Bytes, cfg: Config)
    requires s.files != []
    ensures Step(s, Write(bytes), cfg) == s.(files := Appended(s.files, bytes))
  {
  }

  /** What is left to read of the tailed file. */
  function UnreadIn(m: Durable, files: seq<Bytes>): Bytes
    requires m.source.Some? && FedRight(m, files)
  {
    files[m.source.value.file][m.source.value.offset..]
  }

  lemma SameFed(m: Durable, m': Durable, files: seq<Bytes>)
    requires SameReading(m, m')
    ensures FedRight(m', files) ==> FedRight(m, files)
  {
    hide Split, LinesOf, Rising, AllWithin, Within;
  }

  lemma FlushBegins(s: State, now: real, cfg: Config)
    requires s.phase.Ready? && ToFlush(s.manager, now, cfg.limits) != []
    ensures Continue(s, [Flush(now)], cfg) ==
      s.(manager := KeptActive(s.manager, now, cfg.limits), phase := Flushing(ToFlush(s.manager, now, cfg.limits)))
  {
    hide ToFlush, KeptActive;
    ContinueOne(s, [], Flush(now), cfg);
    assert [] + [Flush(now)] == [Flush(now)];
  }

  lemma FlushStep(s: State, cfg: Config)
    requires s.phase.Flushing? && s.phase.rest != []
    ensures Step(s, FlushOne, cfg) == FlushNext(s, cfg)
  {
  }

  lemma HandleStep(s: State, cfg: Config)
    requires s.phase.Collecting? && s.phase.taken != []
    ensures Step(s, Handle, cfg) == HandleNext(s, cfg)
  {
  }

  lemma HandleEnd(s: State, cfg: Config)
    requires s.phase == Collecting([])
    ensures Step(s, Handle, cfg) == s.(phase := Ready)
  {
  }

  lemma SaveStep(s: State, cfg: Config)
    requires s.phase.Ready?
    ensures Step(s, Save, cfg) == s.(disk := s.mem)
  {
  }

  lemma CollectBegins(s: State, cfg: Config)
    requires s.phase.Ready?
    ensures Continue(s, [Collect], cfg) == s.(phase := Collecting([]))
  {
    ContinueOne(s, [], Collect, cfg);
    assert [] + [Collect] == [Collect];
  }

  lemma TakeStep(s: State, cfg: Config)
    requires s.phase.Collecting? && s.pool.results != []
    ensures Step(s, Take, cfg) ==
      s.(pool := s.pool.(results := s.pool.results[1..]), phase := Collecting(s.phase.taken + [s.pool.results[0]]))
  {
  }
}
