/** Session and IP clustering (native/session_cluster.py:71-274). Clusters are mutable objects in
    a dict; `Cluster` is the value of one, and the functions on it are what the methods do. */
module SessionClusters {
  import opened Options
  import opened OrderedDict
  import opened Display

  const MAX_NOTABLE_COMMANDS := 8
  const PRIORITY_EVENT_IDS := ["cowrie.login.success", "cowrie.session.file_upload", "cowrie.session.file_download"]

  /** An event record as clustering reads it: each text field is the str() of the value. */
  datatype Event = Event(session: Option<string>, srcIp: string, eventid: string, timestamp: Option<string>,
                         username: Option<string>, password: Option<string>, input: Option<string>,
                         url: Option<string>, filename: Option<string>)

  datatype Cluster = Cluster(key: string, srcIp: string, sessionId: Option<string>, createdAt: real,
                             lastActivityAt: real, firstSeen: Option<string>, lastSeen: Option<string>,
                             rawEventCount: nat, authenticated: bool, username: Option<string>,
                             password: Option<string>, commands: seq<string>, suspicious: seq<string>,
                             downloaded: seq<string>, uploaded: seq<string>, alerted: set<string>)

  type Clusters = Dict<string, Cluster>

  predicate Truthy(s: Option<string>) {
    s.Some? && s.value != ""
  }

  function Text(s: Option<string>): string {
    if s.Some? then s.value else ""
  }

  function NewCluster(key: string, srcIp: string, sessionId: Option<string>, now: real): Cluster {
    Cluster(key, srcIp, sessionId, now, now, None, None, 0, false, None, None, [], [], [], [], {})
  }

  function Capped(items: seq<string>, item: string, limit: nat): seq<string> {
    if |items| < limit then items + [item] else items
  }

  /** The part of record_event common to all events. */
  function Touched(c: Cluster, e: Event, now: real): Cluster {
    var c' := c.(lastActivityAt := now, rawEventCount := c.rawEventCount + 1);
    if Truthy(e.timestamp)
    then c'.(firstSeen := if c.firstSeen.None? then e.timestamp else c.firstSeen, lastSeen := e.timestamp)
    else c'
  }

  function WithCommand(c: Cluster, command: string, maxCommands: nat): Cluster {
    if |c.commands| >= maxCommands then c
    else c.(commands := c.commands + [command],
            suspicious := if IsSuspicious(command) then Capped(c.suspicious, command,
                MAX_NOTABLE_COMMANDS) else c.suspicious)
  }

  function Source(e: Event): string {
    if Truthy(e.url) then Text(e.url) else Text(e.filename)
  }

  /** What record_event adds for the four event kinds it knows. */
  function Classified(c: Cluster, e: Event, maxCommands: nat): Cluster {
    if e.eventid == "cowrie.login.success" then
      c.(authenticated := true, username := Some(Sanitize(Text(e.username), 64)),
         password := Some(Sanitize(Text(e.password), 64)))
    else if e.eventid == "cowrie.command.input" then
      WithCommand(c, Sanitize(Text(e.input), MAX_COMMAND_DISPLAY_LENGTH), maxCommands)
    else if e.eventid == "cowrie.session.file_download" then
      c.(downloaded := Capped(c.downloaded, Sanitize(Source(e), MAX_COMMAND_DISPLAY_LENGTH), maxCommands))
    else if e.eventid == "cowrie.session.file_upload" then
      c.(uploaded := Capped(c.uploaded, Sanitize(Text(e.filename), MAX_COMMAND_DISPLAY_LENGTH), maxCommands))
    else c
  }

  /** record_event */
  function Recorded(c: Cluster, e: Event, now: real, maxCommands: nat): (c': Cluster)
    ensures c'.rawEventCount == c.rawEventCount + 1 && c'.lastActivityAt == now
    ensures c'.key == c.key && c'.createdAt == c.createdAt && c'.alerted == c.alerted
  {
    Classified(Touched(c, e, now), e, maxCommands)
  }

  function KeyFor(e: Event): string {
    if Truthy(e.session) then "session:" + e.session.value else "ip:" + e.srcIp
  }

  /** The next event for this key closes the stored cluster: ip-keyed and quiet for too long. */
  predicate Supersedes(d: Clusters, e: Event, now: real, window: real) {
    && Has(d, KeyFor(e)) && !Truthy(e.session)
    && now - Get(d, KeyFor(e)).lastActivityAt > window
  }

  predicate Reuses(d: Clusters, e: Event, now: real, window: real) {
    Has(d, KeyFor(e)) && !Supersedes(d, e, now, window)
  }

  function Chosen(d: Clusters, e: Event, now: real, window: real): Cluster {
    if Reuses(d, e, now, window) then Get(d, KeyFor(e)) else NewCluster(KeyFor(e), e.srcIp, e.session, now)
  }

  function Observed(d: Clusters, e: Event, now: real, window: real, maxCommands: nat): Clusters {
    Put(d, KeyFor(e), Recorded(Chosen(d, e, now, window), e, now, maxCommands))
  }

  predicate Expired(c: Cluster, now: real, window: real, maxAge: real) {
    now - c.lastActivityAt > window || now - c.createdAt > maxAge
  }

  /** The expired entries, and what stays, both in dict order. */
  function ExpiredOf(d: Clusters, now: real, window: real, maxAge: real): Clusters {
    if d == [] then [] else
      (if Expired(d[0].1, now, window, maxAge) then [d[0]] else []) + ExpiredOf(d[1..], now, window, maxAge)
  }

  function ActivityRank(entry: (string, Cluster)): real {
    entry.1.lastActivityAt
  }

  function Count(d: Clusters): nat {
    if d == [] then 0 else Count(d[..|d| - 1]) + d[|d| - 1].1.rawEventCount
  }

  lemma {:induction false} CountConcat(a: Clusters, b: Clusters)
    ensures Count(a + b) == Count(a) + Count(b)
  {
    if b == [] {
      assert a + b == a;
    } else {
      assert (a + b)[..|a + b| - 1] == a + b[..|b| - 1];
      CountConcat(a, b[..|b| - 1]);
    }
  }

  lemma CountOne(e: (string, Cluster))
    ensures Count([e]) == e.1.rawEventCount
  {
    assert [e][..0] == [];
  }

  lemma CountSplit(d: Clusters, i: nat)
    requires i < |d|
    ensures Count(d) == Count(d[..i]) + d[i].1.rawEventCount + Count(d[i + 1..])
  {
    assert d == d[..i] + ([d[i]] + d[i + 1..]);
    CountConcat(d[..i], [d[i]] + d[i + 1..]);
    CountConcat([d[i]], d[i + 1..]);
    CountOne(d[i]);
  }

  lemma CountPut(d: Clusters, k: string, c: Cluster)
    ensures Count(Put(d, k, c)) + (if Has(d, k) then Get(d, k).rawEventCount else 0) == Count(d) + c.rawEventCount
  {
    var i := Index(d, k);
    if i < |d| {
      CountSplit(d, i);
      var p := d[i := (k, c)];
      CountSplit(p, i);
      assert p[..i] == d[..i] && p[i + 1..] == d[i + 1..];
    } else {
      CountConcat(d, [(k, c)]);
      CountOne((k, c));
    }
  }

  lemma CountDel(d: Clusters, k: string)
    requires Has(d, k)
    ensures Count(Del(d, k)) + Get(d, k).rawEventCount == Count(d)
  {
    var i := Index(d, k);
    CountSplit(d, i);
    CountConcat(d[..i], d[i + 1..]);
  }

  lemma {:induction false} CountDelAll(d: Clusters, gone: Clusters)
    requires Unique(d) && multiset(gone) <= multiset(d)
    ensures Count(DelAll(d, gone)) + Count(gone) == Count(d)
  {
    if gone != [] {
      assert gone == [gone[0]] + gone[1..];
      assert gone[0] in multiset(gone);
      var i :| 0 <= i < |d| && d[i] == gone[0];
      IndexAt(d, i);
      CountDel(d, gone[0].0);
      DelUnique(d, gone[0].0);
      CountDelAll(Del(d, gone[0].0), gone[1..]);
      CountConcat([gone[0]], gone[1..]);
      CountOne(gone[0]);
    }
  }

  lemma {:induction false} ExpiredWithin(d: Clusters, now: real, window: real, maxAge: real)
    ensures multiset(ExpiredOf(d, now, window, maxAge)) <= multiset(d)
    ensures forall x :: x in ExpiredOf(d, now, window, maxAge) <==> x in d && Expired(x.1, now, window, maxAge)
  {
    if d != [] {
      assert d == [d[0]] + d[1..];
      ExpiredWithin(d[1..], now, window, maxAge);
    }
  }

  function FlushedActive(d: Clusters, now: real, window: real, maxAge: real): Clusters {
    DelAll(d, ExpiredOf(d, now, window, maxAge))
  }

  lemma UniqueCounts<K, V>(d: Dict<K, V>)
    requires Unique(d)
    ensures forall x :: x in d ==> multiset(d)[x] == 1
  {
    forall x | x in d
      ensures multiset(d)[x] == 1
    {
      var i :| 0 <= i < |d| && d[i] == x;
      assert d == d[..i] + [x] + d[i + 1..];
      assert multiset(d) == multiset(d[..i]) + multiset{x} + multiset(d[i + 1..]);
    }
  }

  /** flush_expired takes out exactly the expired clusters and leaves the others in place. */
  lemma FlushSplits(d: Clusters, now: real, window: real, maxAge: real)
    requires Unique(d)
    ensures var gone, kept := ExpiredOf(d, now, window, maxAge), FlushedActive(d, now, window, maxAge);
      && Unique(kept) && multiset(kept) + multiset(gone) == multiset(d)
      && (forall x :: x in kept <==> x in d && !Expired(x.1, now, window, maxAge))
      && Count(kept) + Count(gone) == Count(d)
  {
    hide ExpiredOf, DelAll, Expired;
    var gone := ExpiredOf(d, now, window, maxAge);
    ExpiredWithin(d, now, window, maxAge);
    DelAllRemoves(d, gone);
    CountDelAll(d, gone);
    UniqueCounts(d);
    var kept := DelAll(d, gone);
    forall x
      ensures x in kept <==> x in d && !Expired(x.1, now, window, maxAge)
    {
      assert x in kept <==> x in multiset(kept);
      assert x in gone <==> x in multiset(gone);
      assert x in d <==> x in multiset(d);
    }
  }

  function EvictedOf(d: Clusters, maxActive: nat): Clusters {
    Overflow(d, maxActive, ActivityRank)
  }

  /** evict_overflow keeps at most the bound and only removes clusters that were active no more
      recently than every kept one. */
  lemma EvictSplits(d: Clusters, maxActive: nat)
    requires Unique(d)
    ensures var gone := EvictedOf(d, maxActive);
      var kept := DelAll(d, gone);
      && Unique(kept) && |kept| == (if |d| <= maxActive then |d| else maxActive)
      && multiset(kept) + multiset(gone) == multiset(d)
      && (forall g, k :: g in gone && k in kept ==> g.1.lastActivityAt <= k.1.lastActivityAt)
      && Count(kept) + Count(gone) == Count(d)
  {
    hide Overflow, DelAll, Count;
    EvictionSplits(d, maxActive, ActivityRank);
    var gone := EvictedOf(d, maxActive);
    var kept := DelAll(d, gone);
    forall g, k | g in gone && k in kept
      ensures g.1.lastActivityAt <= k.1.lastActivityAt
    {
      assert ActivityRank(g) <= ActivityRank(k);
    }
    CountDelAll(d, gone);
  }

  /** What one observe does to the number of recorded events: one more, minus what it buries. */
  lemma ObservedCount(d: Clusters, e: Event, now: real, window: real, maxCommands: nat)
    requires Unique(d)
    ensures var d' := Observed(d, e, now, window, maxCommands);
      && Unique(d')
      && Count(d') + (if Supersedes(d, e, now, window) then Get(d, KeyFor(e)).rawEventCount else 0) == Count(d) + 1
  {
    hide Recorded, Put;
    var c := Chosen(d, e, now, window);
    CountPut(d, KeyFor(e), Recorded(c, e, now, maxCommands));
    PutUnique(d, KeyFor(e), Recorded(c, e, now, maxCommands));
  }

  /** Where every absorbed event went. */
  datatype Ledger = Ledger(active: Clusters, flushed: Clusters, evicted: Clusters, superseded: Clusters, absorbed: nat)

  datatype Op = Observe(event: Event, now: real) | Flush(at: real) | Evict | Save | Restart

  datatype Limits = Limits(window: real, maxAge: real, maxCommands: nat, maxActive: nat)

  /** The live ledger and the one the last save wrote with the same clusters. */
  datatype Books = Books(live: Ledger, saved: Ledger)

  const EmptyLedger := Ledger([], [], [], [], 0)

  function Apply(b: Books, op: Op, limits: Limits): Books {
    var l := b.live;
    match op
    case Observe(e, now) =>
      b.(live := l.(active := Observed(l.active, e, now, limits.window, limits.maxCommands),
                    superseded := if Supersedes(l.active, e, now, limits.window)
                                  then l.superseded + [(KeyFor(e), Get(l.active, KeyFor(e)))] else l.superseded,
                    absorbed := l.absorbed + 1))
    case Flush(now) =>
      b.(live := l.(active := FlushedActive(l.active, now, limits.window, limits.maxAge),
                    flushed := l.flushed + ExpiredOf(l.active, now, limits.window, limits.maxAge)))
    case Evict =>
      var gone := EvictedOf(l.active, limits.maxActive);
      b.(live := l.(active := DelAll(l.active, gone), evicted := l.evicted + gone))
    case Save => b.(saved := l)
    case Restart => b.(live := b.saved)
  }

  function Run(ops: seq<Op>, limits: Limits): Books {
    if ops == [] then Books(EmptyLedger, EmptyLedger) else Apply(Run(ops[..|ops| - 1], limits), ops[|ops| - 1], limits)
  }

  predicate Balanced(l: Ledger) {
    && Unique(l.active)
    && l.absorbed == Count(l.active) + Count(l.flushed) + Count(l.evicted) + Count(l.superseded)
  }

  lemma ApplyBalanced(b: Books, op: Op, limits: Limits)
    requires Balanced(b.live) && Balanced(b.saved)
    ensures Balanced(Apply(b, op, limits).live) && Balanced(Apply(b, op, limits).saved)
  {
    hide Observed, FlushedActive, ExpiredOf, EvictedOf, DelAll, Unique, Count, Get, Has;
    var l := b.live;
    match op
    case Observe(e, now) =>
      ObservedCount(l.active, e, now, limits.window, limits.maxCommands);
      if Supersedes(l.active, e, now, limits.window) {
        var lost := (KeyFor(e), Get(l.active, KeyFor(e)));
        CountConcat(l.superseded, [lost]);
        CountOne(lost);
      }
    case Flush(now) =>
      FlushSplits(l.active, now, limits.window, limits.maxAge);
      CountConcat(l.flushed, ExpiredOf(l.active, now, limits.window, limits.maxAge));
    case Evict =>
      EvictSplits(l.active, limits.maxActive);
      CountConcat(l.evicted, EvictedOf(l.active, limits.maxActive));
    case Save =>
    case Restart =>
  }

  /** Event conservation: over every run of observe, flush, evict, save and restart, each absorbed
      event is counted in exactly one active, flushed, evicted or superseded cluster. */
  lemma {:induction false} EventsConserved(ops: seq<Op>, limits: Limits)
    ensures Balanced(Run(ops, limits).live) && Balanced(Run(ops, limits).saved)
  {
    hide Apply;
    if ops == [] {
      assert Count([]) == 0;
    } else {
      EventsConserved(ops[..|ops| - 1], limits);
      ApplyBalanced(Run(ops[..|ops| - 1], limits), ops[|ops| - 1], limits);
    }
  }

  /** Every observe of an ip-keyed event comes straight after a flush at the same time. */
  predicate FlushesFirst(ops: seq<Op>) {
    forall i :: 0 <= i < |ops| && ops[i].Observe? && !Truthy(ops[i].event.session) ==>
      i > 0 && ops[i - 1] == Flush(ops[i].now)
  }

  /** Nothing is lost to superseding when events carry a session, or when expired clusters are
      flushed before each observe. */
  lemma {:induction false} NothingSuperseded(ops: seq<Op>, limits: Limits)
    requires FlushesFirst(ops)
    ensures Run(ops, limits).live.superseded == [] && Run(ops, limits).saved.superseded == []
  {
    if ops != [] {
      var before, op := ops[..|ops| - 1], ops[|ops| - 1];
      NothingSuperseded(before, limits);
      if op.Observe? && !Truthy(op.event.session) {
        var earlier := Run(before[..|before| - 1], limits);
        assert before[|before| - 1] == Flush(op.now);
        EventsConserved(before[..|before| - 1], limits);
        JustFlushed(earlier.live.active, op.event, op.now, limits);
      }
    }
  }

  /** The n-th operation is an observe that buries a quiet cluster. */
  predicate Buries(ops: seq<Op>, limits: Limits, n: nat)
    requires n < |ops|
  {
    ops[n].Observe? && Supersedes(Run(ops[..n], limits).live.active, ops[n].event, ops[n].now, limits.window)
  }

  predicate NothingBuried(ops: seq<Op>, limits: Limits) {
    forall n :: 0 <= n < |ops| ==> !Buries(ops, limits, n)
  }

  predicate NoRestart(ops: seq<Op>) {
    forall n :: 0 <= n < |ops| ==> !ops[n].Restart?
  }

  lemma BuriedPrefix(ops: seq<Op>, limits: Limits)
    requires ops != []
    ensures var n := |ops| - 1;
      NothingBuried(ops, limits) <==> NothingBuried(ops[..n], limits) && !Buries(ops, limits, n)
  {
    hide Run, Supersedes;
    var n := |ops| - 1;
    forall i | 0 <= i < n
      ensures Buries(ops[..n], limits, i) <==> Buries(ops, limits, i)
    {
      assert ops[..n][..i] == ops[..i];
    }
  }

  /** In general: the superseded part is empty when no observe met a quiet ip-keyed cluster that was
      not flushed yet; and it is empty only then, unless a restart went back before the loss. */
  lemma {:induction false} SupersededExactly(ops: seq<Op>, limits: Limits)
    ensures var b := Run(ops, limits);
      NothingBuried(ops, limits) ==> b.live.superseded == [] && b.saved.superseded == []
    ensures NoRestart(ops) ==> (Run(ops, limits).live.superseded == [] <==> NothingBuried(ops, limits))
  {
    hide Observed, FlushedActive, ExpiredOf, EvictedOf, Supersedes, Get;
    if ops != [] {
      hide NothingBuried;
      SupersededExactly(ops[..|ops| - 1], limits);
      BuriedPrefix(ops, limits);
    }
  }

  lemma JustFlushed(d: Clusters, e: Event, now: real, limits: Limits)
    requires Unique(d)
    ensures !Supersedes(FlushedActive(d, now, limits.window, limits.maxAge), e, now, limits.window)
  {
    hide FlushedActive;
    FlushSplits(d, now, limits.window, limits.maxAge);
    var kept := FlushedActive(d, now, limits.window, limits.maxAge);
    if Has(kept, KeyFor(e)) {
      var x := kept[Index(kept, KeyFor(e))];
      assert x in kept;
    }
  }

  /** Without that order events are lost: an ip-keyed cluster that went quiet is overwritten by
      the next event for its address, and its events never reach a summary. */
  lemma QuietClusterIsOverwritten(e: Event, limits: Limits)
    requires !Truthy(e.session) && limits.window == 45.0
    ensures var l := Run([Observe(e, 0.0), Observe(e, 46.0)], limits).live;
      && l.absorbed == 2 && Count(l.active) == 1 && Count(l.superseded) == 1 && l.flushed == l.evicted == []
  {
    hide Recorded, IsSuspicious, Sanitize;
    var first := Recorded(NewCluster(KeyFor(e), e.srcIp, e.session, 0.0), e, 0.0, limits.maxCommands);
    var second := Recorded(NewCluster(KeyFor(e), e.srcIp, e.session, 46.0), e, 46.0, limits.maxCommands);
    RunTwo(Observe(e, 0.0), Observe(e, 46.0), limits);
    var one := [(KeyFor(e), first)];
    assert Observed([], e, 0.0, limits.window, limits.maxCommands) == one;
    assert Has(one, KeyFor(e)) && Get(one, KeyFor(e)) == first by { assert one[0].0 == KeyFor(e); }
    assert Observed(one, e, 46.0, limits.window, limits.maxCommands) == [(KeyFor(e), second)];
    CountOne((KeyFor(e), first));
    CountOne((KeyFor(e), second));
  }

  lemma RunTwo(a: Op, b: Op, limits: Limits)
    ensures Run([a, b], limits) == Apply(Apply(Books(EmptyLedger, EmptyLedger), a, limits), b, limits)
  {
    hide Apply;
    assert [a, b][..1] == [a] && [a][..0] == [];
    assert Run([a], limits) == Apply(Run([], limits), a, limits);
  }
}
