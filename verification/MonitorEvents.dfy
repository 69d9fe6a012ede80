/** Event conservation in the monitor itself: every usable line it absorbed is counted once, in a
    cluster that is active, flushed or superseded (native/discord-monitor.py:492-596,
    native/session_cluster.py:202-252). */
module MonitorEvents {
  import opened Options
  import opened OrderedDict
  import opened Records
  import opened DeliveryQueue
  import opened MonitorProtocol
  import opened MonitorJournal
  import SC = SessionClusters

  /** The event an effect hands to the cluster manager: that of a decodable line not seen before. */
  function Event(k: Core, e: Effect, cfg: Config): Option<SC.Event> {
    if e.Fed? && k.rest == [] && LineDigest(e.line) !in k.mem.queues.seen then cfg.decode(e.line) else None
  }

  /** How many lines of a journal were usable and not repeated. */
  function Usable(log: seq<Effect>, cfg: Config): nat {
    if log == [] then 0 else
      var init := log[..|log| - 1];
      Usable(init, cfg) + (if Event(Replay(init, cfg), log[|log| - 1], cfg).Some? then 1 else 0)
  }

  /** The events of the cluster that an effect overwrites. */
  function Overwritten(k: Core, e: Effect, cfg: Config): nat {
    var event := Event(k, e, cfg);
    if event.Some? && SC.Supersedes(k.manager, event.value, e.now, cfg.limits.window)
    then Get(k.manager, SC.KeyFor(event.value)).rawEventCount else 0
  }

  function LostEvents(log: seq<Effect>, cfg: Config): nat {
    if log == [] then 0 else
      var init := log[..|log| - 1];
      LostEvents(init, cfg) + Overwritten(Replay(init, cfg), log[|log| - 1], cfg)
  }

  function RawSum(cs: seq<SC.Cluster>): nat {
    if cs == [] then 0 else cs[0].rawEventCount + RawSum(cs[1..])
  }

  /** The events of the flushed clusters, read off their ids. */
  function EventsIn(ids: seq<Id>): nat {
    if ids == [] then 0 else
      EventsIn(ids[..|ids| - 1]) + (if ids[|ids| - 1].FlushId? then ids[|ids| - 1].events else 0)
  }

  lemma {:induction false} RawSumConcat(a: seq<SC.Cluster>, b: seq<SC.Cluster>)
    ensures RawSum(a + b) == RawSum(a) + RawSum(b)
  {
    if a == [] {
      assert a + b == b;
    } else {
      assert (a + b)[1..] == a[1..] + b;
      RawSumConcat(a[1..], b);
    }
  }

  lemma {:induction false} RawSumValues(d: SC.Clusters)
    ensures RawSum(Values(d)) == SC.Count(d)
  {
    if d != [] {
      var last := d[|d| - 1].1;
      RawSumValues(d[..|d| - 1]);
      RawSumConcat(Values(d[..|d| - 1]), [last]);
      assert [last][1..] == [];
    }
  }

  lemma FlushConserves(d: SC.Clusters, now: real, l: SC.Limits)
    requires Unique(d)
    ensures Unique(KeptActive(d, now, l)) && SC.Count(d) == SC.Count(KeptActive(d, now, l)) + RawSum(ToFlush(d, now, l))
  {
    hide SC.FlushedActive, SC.ExpiredOf, SC.EvictedOf, DelAll, SC.Count, Unique;
    var gone, kept := SC.ExpiredOf(d, now, l.window, l.maxAge), SC.FlushedActive(d, now, l.window, l.maxAge);
    var out := SC.EvictedOf(kept, l.maxActive);
    SC.FlushSplits(d, now, l.window, l.maxAge);
    SC.EvictSplits(kept, l.maxActive);
    RawSumValues(gone);
    RawSumValues(out);
    RawSumConcat(Values(gone), Values(out));
  }

  lemma AlertedCounts(d: SC.Clusters, e: SC.Event)
    requires Unique(d) && Has(d, SC.KeyFor(e))
    ensures Unique(Alerted(d, e)) && SC.Count(Alerted(d, e)) == SC.Count(d)
  {
    hide Put;
    var k := SC.KeyFor(e);
    var c := Get(d, k);
    SC.CountPut(d, k, c.(alerted := c.alerted + {e.eventid}));
    PutUnique(d, k, c.(alerted := c.alerted + {e.eventid}));
  }

  /** What one line does to the clusters, live and copied. */
  lemma LineClusters(k: Core, line: Bytes, now: real, cfg: Config)
    ensures var (m, manager) := QueueLine(k.mem, k.manager, line, now, cfg);
      var event := if LineDigest(line) !in k.mem.queues.seen then cfg.decode(line) else None;
      && m.flushed == k.mem.flushed
      && match event
         case None => m.clusters == k.mem.clusters && manager == k.manager
         case Some(e) =>
           var after := SC.Observed(k.manager, e, now, cfg.limits.window, cfg.limits.maxCommands);
           m.clusters == after && manager == if Alerting(after, e, cfg) then Alerted(after, e) else after
  {
    hide Record, Enqueue, Accepts, SC.Observed, Alerted, Has, Get;
  }

  predicate Balanced(k: Core, usable: nat, lost: nat) {
    && Unique(k.manager)
    && (k.rest == [] ==> Unique(k.mem.clusters) && SC.Count(k.mem.clusters) == SC.Count(k.manager))
    && usable == SC.Count(k.manager) + RawSum(k.rest) + EventsIn(k.mem.flushed) + lost
  }

  lemma FedBalanced(k: Core, e: Effect, usable: nat, lost: nat, cfg: Config)
    requires e.Fed? && k.rest == [] && Balanced(k, usable, lost)
    ensures Balanced(Apply(k, e, cfg), usable + (if Event(k, e, cfg).Some? then 1 else 0),
      lost + Overwritten(k, e, cfg))
  {
    hide QueueLine, SC.Observed, SC.Supersedes, Alerted, Alerting, Unique, SC.Count, EventsIn;
    LineClusters(k, e.line, e.now, cfg);
    var event := Event(k, e, cfg);
    if event.Some? {
      SC.ObservedCount(k.manager, event.value, e.now, cfg.limits.window, cfg.limits.maxCommands);
      var after := SC.Observed(k.manager, event.value, e.now, cfg.limits.window, cfg.limits.maxCommands);
      if Alerting(after, event.value, cfg) {
        AlertingHas(after, event.value, cfg);
        AlertedCounts(after, event.value);
      }
    }
  }

  lemma AlertingHas(d: SC.Clusters, e: SC.Event, cfg: Config)
    requires Alerting(d, e, cfg)
    ensures Has(d, SC.KeyFor(e))
  {
  }

  lemma EventsInSnoc(ids: seq<Id>, c: SC.Cluster)
    ensures EventsIn(ids + [FlushIdOf(c)]) == EventsIn(ids) + c.rawEventCount
  {
    assert (ids + [FlushIdOf(c)])[..|ids|] == ids;
  }

  lemma NotedBalanced(k: Core, e: Effect, usable: nat, lost: nat, cfg: Config)
    requires e.Noted? && k.rest != [] && Balanced(k, usable, lost)
    ensures Balanced(Apply(k, e, cfg), usable, lost)
  {
    hide Enqueue, Accepts, Put, Del, Unique, SC.Count, EventsIn, FlushIdOf;
    EventsInSnoc(k.mem.flushed, k.rest[0]);
  }

  lemma {:induction false} RecoveryKeeps(m: Durable, entries: seq<Task>, cfg: Config)
    ensures RecoverAll(m, entries, cfg).clusters == m.clusters && RecoverAll(m, entries, cfg).flushed == m.flushed
  {
    if entries != [] {
      hide Enqueue, Accepts, Del;
      RecoveryKeeps(m, entries[..|entries| - 1], cfg);
    }
  }

  lemma OtherBalanced(k: Core, e: Effect, usable: nat, lost: nat, cfg: Config)
    requires k.rest == [] && !e.Fed? && Balanced(k, usable, lost)
    ensures Balanced(Apply(k, e, cfg), usable, lost)
  {
    hide Enqueue, Accepts, Settle, SettleAll, AllSettled, Del, Unique, SC.Count, EventsIn, RecoverAll, Restart, ToFlush,
         KeptActive;
    if e.Flushed? {
      FlushConserves(k.manager, e.at, cfg.limits);
      assert RawSum([]) == 0;
    } else if e.Reloaded? {
      RecoveryKeeps(k.mem.(queues := Restart(k.mem.queues)), e.entries, cfg);
    }
  }

  lemma ApplyBalanced(k: Core, e: Effect, usable: nat, lost: nat, cfg: Config)
    requires Balanced(k, usable, lost)
    ensures Balanced(Apply(k, e, cfg), usable + (if Event(k, e, cfg).Some? then 1 else 0),
      lost + Overwritten(k, e, cfg))
  {
    hide Balanced, ApplyReady, SC.Supersedes;
    if k.rest != [] {
      if e.Noted? { NotedBalanced(k, e, usable, lost, cfg); }
    } else if e.Fed? {
      FedBalanced(k, e, usable, lost, cfg);
    } else {
      OtherBalanced(k, e, usable, lost, cfg);
    }
  }

  lemma {:induction false} ReplayBalanced(log: seq<Effect>, cfg: Config)
    ensures Balanced(Replay(log, cfg), Usable(log, cfg), LostEvents(log, cfg))
  {
    if log != [] {
      hide Balanced, Apply, Event, Overwritten;
      ReplayBalanced(log[..|log| - 1], cfg);
      ApplyBalanced(Replay(log[..|log| - 1], cfg), log[|log| - 1], Usable(log[..|log| - 1], cfg),
        LostEvents(log[..|log| - 1], cfg), cfg);
    }
  }

  /** In every run, at every save: the usable, non-repeated lines absorbed so far are as many as the
      events of the saved clusters, of the clusters flushed or evicted, and of those overwritten; and
      likewise for the live state, with the clusters a flush has in hand. */
  lemma {:induction false} EventsAccounted(actions: seq<Action>, cfg: Config)
    ensures var t := Trace(actions, cfg);
      && Usable(t.saved, cfg) == SC.Count(t.s.disk.clusters) + EventsIn(t.s.disk.flushed) + LostEvents(t.saved, cfg)
      && Usable(t.log, cfg) ==
         SC.Count(t.s.manager) + RawSum(InHand(t.s.phase)) + EventsIn(t.s.mem.flushed) + LostEvents(t.log, cfg)
  {
    hide Trace, Replay, Usable, LostEvents, SC.Count, EventsIn, Unique;
    RunReplays(actions, cfg);
    var t := Trace(actions, cfg);
    ReplayBalanced(t.log, cfg);
    ReplayBalanced(t.saved, cfg);
    DetachedSame(t.s.mem);
    DetachedSame(t.s.disk);
    assert RawSum([]) == 0;
  }

  lemma DetachedSame(m: Durable)
    ensures Detached(m).clusters == m.clusters && Detached(m).flushed == m.flushed
  {
  }
}
