/** The monitor as a machine of small steps: the log writer, the polling thread, the worker
    threads, the two webhooks and crashes, tied together by save_state
    (native/discord-monitor.py:175-262, 476-596, 666-761, 803-823). Every order of enabled steps is
    a run; a step that is not enabled changes nothing. */
module MonitorProtocol {
  import opened Options
  import opened OrderedDict
  import opened Records
  import opened DeliveryQueue
  import SC = SessionClusters
  import W = EnrichmentWorker

  type Task = (Id, SC.Cluster)
  type Awaiting = Dict<Id, SC.Cluster>

  /** Code that is not modelled, and the settings. `decode` reads a line as an event record or
      finds it unusable; `alert` may find an event unsupported. */
  datatype Config = Config(decode: Bytes -> Option<SC.Event>, alert: SC.Event -> Option<string>,
                           render: (SC.Cluster, Option<string>) -> string, alertsEnabled: bool,
                           limits: SC.Limits, maxInflight: nat)

  /** The tailed file, named by its place in the order of creation, and the byte offset. A file that is
      truncated in place counts as a new one from then on. */
  datatype Position = Position(file: nat, offset: nat)

  /** The state dict, with its history: the lines handed to queue_line, the files left behind and how far
      each was read, the flushed clusters, the ids any queue accepted. */
  datatype Durable = Durable(source: Option<Position>, queues: Queues, clusters: SC.Clusters, awaiting: Awaiting,
                             fed: seq<Bytes>, visited: seq<Position>, flushed: seq<Id>, enqueued: seq<Id>)

  /** What the polling thread is in the middle of. */
  datatype Phase = Ready
                 | Flushing(rest: seq<SC.Cluster>)
                 | Collecting(taken: seq<W.Result<Task, string>>)
                 | Posting(channel: Channel)

  /** `files` are the log files in order of creation, the last one current. `accepted` is what the
      webhooks took, `doubtful` the ids whose POST was taken although it ended in an exception
      that post_payload does not catch. */
  datatype State = State(mem: Durable, disk: Durable, manager: SC.Clusters, pool: W.Pool<Task, string>, phase: Phase,
                         files: seq<Bytes>, accepted: multiset<Id>, doubtful: set<Id>)

  datatype Reply = Delivered2xx | Limited429 | Lost(reached: bool) | Escaped(reached: bool)

  datatype Action = Write(bytes: Bytes) | Rotate
                  | Begin | Absorb(now: real) | Switch | Skip | Save
                  | Flush(at: real) | FlushOne | Collect | Take | Handle
                  | Finish(i: nat, enrichment: Option<string>) | Deliver(j: nat)
                  | StartPost(channel: Channel) | FinishPost(reply: Reply) | NoWebhook(to: Channel)
                  | Crash(taken: bool, order: seq<Task>)

  const Blank := Durable(None, Empty, [], [], [], [], [], [])

  const Start := State(Blank, Blank, [], W.Pool(0, [], [], []), Ready, [[]], multiset{}, {})

  function FlushIdOf(c: SC.Cluster): Id {
    FlushId(c.key, c.createdAt, c.lastActivityAt, c.rawEventCount)
  }

  /** enqueue_pending, remembering whether the id was accepted. */
  function Offer(m: Durable, ch: Channel, item: Item): Durable {
    m.(queues := Enqueue(m.queues, ch, item),
       enqueued := if Accepts(m.queues, ch, item.id) then m.enqueued + [item.id] else m.enqueued)
  }

  /** _enqueue_summary */
  function EnqueueSummary(m: Durable, c: SC.Cluster, enrichment: Option<string>, cfg: Config): Durable {
    Offer(m, Intel, Item(FlushIdOf(c), cfg.render(c, enrichment))).(awaiting := Del(m.awaiting, FlushIdOf(c)))
  }

  predicate Alerting(manager: SC.Clusters, e: SC.Event, cfg: Config) {
    && cfg.alertsEnabled && e.eventid in SC.PRIORITY_EVENT_IDS
    && Has(manager, SC.KeyFor(e)) && e.eventid !in Get(manager, SC.KeyFor(e)).alerted
  }

  function Alerted(manager: SC.Clusters, e: SC.Event): SC.Clusters
    requires Has(manager, SC.KeyFor(e))
  {
    var c := Get(manager, SC.KeyFor(e));
    Put(manager, SC.KeyFor(e), c.(alerted := c.alerted + {e.eventid}))
  }

  /** queue_line: the state dict and the live cluster manager after one line. The dict's copy of
      the clusters is taken before the alerted kind is added to the live cluster. */
  function QueueLine(m: Durable, manager: SC.Clusters, line: Bytes, now: real, cfg: Config): (Durable, SC.Clusters) {
    var id := LineDigest(line);
    if id in m.queues.seen then (m, manager) else
      var marked := m.(queues := Record(m.queues, id));
      match cfg.decode(line)
      case None => (marked, manager)
      case Some(e) =>
        var after := SC.Observed(manager, e, now, cfg.limits.window, cfg.limits.maxCommands);
        var observed := marked.(clusters := after);
        if !Alerting(after, e, cfg) then (observed, after)
        else match cfg.alert(e)
          case None => (observed, Alerted(after, e))
          case Some(payload) => (Offer(observed, Legacy, Item(AlertId(line), payload)), Alerted(after, e))
  }

  function Values(d: SC.Clusters): (r: seq<SC.Cluster>)
    ensures |r| == |d|
  {
    if d == [] then [] else Values(d[..|d| - 1]) + [d[|d| - 1].1]
  }

  function Unread(s: State): Bytes {
    if s.mem.source.Some? && s.mem.source.value.file < |s.files|
       && s.mem.source.value.offset <= |s.files[s.mem.source.value.file]|
    then s.files[s.mem.source.value.file][s.mem.source.value.offset..] else []
  }

  /** The next complete line of the tailed file, as readline returns it. */
  function NextLine(s: State): Bytes
    requires HasLF(Unread(s))
  {
    Unread(s)[..FirstLF(Unread(s)) + 1]
  }

  function AbsorbNext(s: State, now: real, cfg: Config): State
    requires HasLF(Unread(s))
  {
    var line := NextLine(s);
    var (m, manager) := QueueLine(s.mem, s.manager, line, now, cfg);
    var p := s.mem.source.value;
    s.(mem := m.(source := Some(Position(p.file, p.offset + |line|)), fed := m.fed + [line]), manager := manager)
  }

  function ToFlush(manager: SC.Clusters, now: real, l: SC.Limits): seq<SC.Cluster> {
    Values(SC.ExpiredOf(manager, now, l.window, l.maxAge))
    + Values(SC.EvictedOf(SC.FlushedActive(manager, now, l.window, l.maxAge), l.maxActive))
  }

  function KeptActive(manager: SC.Clusters, now: real, l: SC.Limits): SC.Clusters {
    var kept := SC.FlushedActive(manager, now, l.window, l.maxAge);
    DelAll(kept, SC.EvictedOf(kept, l.maxActive))
  }

  /** One turn of the loop in flush_expired_clusters: note the cluster as awaiting, then submit it
      or, when the worker is full, enqueue its summary at once. After the last turn the state
      dict gets the manager's clusters. */
  function FlushNext(s: State, cfg: Config): State
    requires s.phase.Flushing? && s.phase.rest != []
  {
    var c, rest := s.phase.rest[0], s.phase.rest[1..];
    var noted := s.mem.(awaiting := Put(s.mem.awaiting, FlushIdOf(c), c), flushed := s.mem.flushed + [FlushIdOf(c)]);
    var room := W.HasRoom(s.pool, cfg.maxInflight);
    var m := if room then noted else EnqueueSummary(noted, c, None, cfg);
    s.(mem := if rest == [] then m.(clusters := s.manager) else m,
       pool := W.Submitted(s.pool, (FlushIdOf(c), c), cfg.maxInflight),
       phase := if rest == [] then Ready else Flushing(rest))
  }

  /** One completed result: enqueue its summary unless it is no longer awaited. */
  function HandleNext(s: State, cfg: Config): State
    requires s.phase.Collecting? && s.phase.taken != []
  {
    var r := s.phase.taken[0];
    var c := r.task.1;
    var m := if Has(s.mem.awaiting, FlushIdOf(c)) then
      EnqueueSummary(s.mem, c, r.enrichment, cfg) else s.mem;
    s.(mem := m, phase := Collecting(s.phase.taken[1..]))
  }

  function HeadId(s: State, ch: Channel): Id
    requires s.mem.queues.pending.Of(ch) != []
  {
    s.mem.queues.pending.Of(ch)[0].id
  }

  /** The head of the queue leaves it with this fate. */
  function SettleHead(m: Durable, ch: Channel, fate: Fate): Durable
    requires m.queues.pending.Of(ch) != []
  {
    var pending := m.queues.pending.Of(ch);
    m.(queues := Settle(m.queues, Settled(pending[0], fate)).(pending := m.queues.pending.With(ch, pending[1..])))
  }

  function Reaches(r: Reply): bool {
    r.Delivered2xx? || (r.Lost? && r.reached) || (r.Escaped? && r.reached)
  }

  function EndPost(s: State, r: Reply): State
    requires s.phase.Posting? && s.mem.queues.pending.Of(s.phase.channel) != []
  {
    var ch := s.phase.channel;
    var id := HeadId(s, ch);
    s.(mem := (match r
               case Delivered2xx => SettleHead(s.mem, ch, Delivered)
               case Lost(_) => SettleHead(s.mem, ch, DeadLettered(DeliveryUncertain))
               case _ => s.mem),
       phase := Ready,
       accepted := if Reaches(r) then s.accepted + multiset{id} else s.accepted,
       doubtful := if r.Escaped? && r.reached then s.doubtful + {id} else s.doubtful)
  }

  /** _recover_flushed_awaiting_enrichment over the entries in this order. */
  function RecoverAll(m: Durable, entries: seq<Task>, cfg: Config): Durable {
    if entries == [] then m
    else EnqueueSummary(RecoverAll(m, entries[..|entries| - 1], cfg), entries[|entries| - 1].1, None, cfg)
  }

  /** The process dies, possibly while a POST is on its way, and a new one loads the saved state.
      The dict comes back from JSON in some order. */
  function Restarted(s: State, taken: bool, order: seq<Task>, cfg: Config): State {
    var loaded := s.disk.(queues := Restart(s.disk.queues));
    var entries := if multiset(order) == multiset(s.disk.awaiting) then order else s.disk.awaiting;
    var inFlight := taken && s.phase.Posting? && s.mem.queues.pending.Of(s.phase.channel) != [];
    s.(mem := RecoverAll(loaded, entries, cfg), manager := s.disk.clusters, pool := W.Pool(0, [], [], []),
        phase := Ready,
       accepted := if inFlight then s.accepted + multiset{HeadId(s, s.phase.channel)} else s.accepted)
  }

  function Current(s: State): nat {
    if s.files == [] then 0 else |s.files| - 1
  }

  function Step(s: State, a: Action, cfg: Config): State {
    match a
    case Write(bytes) =>
      if s.files == [] then s else s.(files := s.files[Current(s) := s.files[Current(s)] + bytes])
    case Rotate => s.(files := s.files + [[]])
    case Finish(i, enrichment) =>
      s.(pool := W.Finished(s.pool, i, enrichment))
    case Deliver(j) => s.(pool := W.Delivered(s.pool, j))
    case Crash(taken, order) => Restarted(s, taken, order, cfg)
    case FlushOne => if s.phase.Flushing? && s.phase.rest != [] then FlushNext(s, cfg) else s
    case Take =>
      if s.phase.Collecting? && s.pool.results != [] then
        s.(pool := s.pool.(results := s.pool.results[1..]), phase := Collecting(s.phase.taken + [s.pool.results[0]]))
      else s
    case Handle =>
      if !s.phase.Collecting? then s
      else if s.phase.taken == [] then s.(phase := Ready)
      else HandleNext(s, cfg)
    case FinishPost(reply) =>
      if s.phase.Posting? && s.mem.queues.pending.Of(s.phase.channel) != [] then EndPost(s, reply) else s
    case _ => if s.phase.Ready? then ReadyStep(s, a, cfg) else s
  }

  /** The steps the polling thread takes between two of its blocking or looping phases. Switch leaves a
      file read to its last complete line, Skip one that cannot be read any more: its inode is gone, or
      it was truncated. */
  function ReadyStep(s: State, a: Action, cfg: Config): State {
    match a
    case Begin => if s.mem.source.None? && s.files != [] then s.(mem := s.mem.(source := Some(Position(Current(s),
        0)))) else s
    case Absorb(now) => if HasLF(Unread(s)) then AbsorbNext(s, now, cfg) else s
    case Switch =>
      if s.mem.source.Some? && s.mem.source.value.file < Current(s) && !HasLF(Unread(s)) then
        s.(mem := s.mem.(source := Some(Position(Current(s), 0)), visited := s.mem.visited + [s.mem.source.value]))
      else s
    case Skip =>
      if s.mem.source.Some? && s.mem.source.value.file < Current(s) then
        s.(mem := s.mem.(source := Some(Position(Current(s), 0)), visited := s.mem.visited + [s.mem.source.value]))
      else s
    case Save => s.(disk := s.mem)
    case Flush(now) =>
      var gone := ToFlush(s.manager, now, cfg.limits);
      if gone == [] then s
      else s.(manager := KeptActive(s.manager, now, cfg.limits), phase := Flushing(gone))
    case Collect => s.(phase := Collecting([]))
    case StartPost(ch) =>
      if s.mem.queues.pending.Of(ch) == [] then s else s.(disk := s.mem, phase := Posting(ch))
    case NoWebhook(ch) =>
      var pending := s.mem.queues.pending.Of(ch);
      s.(mem := s.mem.(queues := SettleAll(s.mem.queues, AllSettled(pending, CredentialUnavailable))
                                  .(pending := s.mem.queues.pending.With(ch, []))))
    case _ => s
  }

  function Run(actions: seq<Action>, cfg: Config): State {
    if actions == [] then Start else Step(Run(actions[..|actions| - 1], cfg), actions[|actions| - 1], cfg)
  }
}
