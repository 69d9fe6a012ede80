/** The cluster classes themselves (native/session_cluster.py:71-260): mutable cluster objects
    held in the manager's dict, each method tied to the functions of SessionClusters. */
module ClusterObjects {
  import opened Sequences
  import opened Options
  import opened OrderedDict
  import opened Display
  import opened SessionClusters

  class SessionCluster {
    const key: string
    const srcIp: string
    const sessionId: Option<string>
    const createdAt: real
    var lastActivityAt: real
    var firstSeen: Option<string>
    var lastSeen: Option<string>
    var rawEventCount: nat
    var authenticated: bool
    var username: Option<string>
    var password: Option<string>
    var commands: seq<string>
    var suspicious: seq<string>
    var downloaded: seq<string>
    var uploaded: seq<string>
    var alerted: set<string>

    function Value(): Cluster
      reads this
    {
      Cluster(key, srcIp, sessionId, createdAt, lastActivityAt, firstSeen, lastSeen, rawEventCount, authenticated,
              username, password, commands, suspicious, downloaded, uploaded, alerted)
    }

    constructor (key: string, srcIp: string, sessionId: Option<string>, now: real)
      ensures Value() == NewCluster(key, srcIp, sessionId, now)
    {
      this.key, this.srcIp, this.sessionId, this.createdAt, lastActivityAt := key, srcIp, sessionId, now, now;
      firstSeen, lastSeen, rawEventCount, authenticated, username, password := None, None, 0, false, None, None;
      commands, suspicious, downloaded, uploaded, alerted := [], [], [], [], {};
    }

    method Touch(e: Event, now: real)
      modifies `lastActivityAt, `rawEventCount, `firstSeen, `lastSeen
      ensures Value() == Touched(old(Value()), e, now)
    {
      lastActivityAt := now;
      rawEventCount := rawEventCount + 1;
      if Truthy(e.timestamp) {
        if firstSeen.None? {
          firstSeen := e.timestamp;
        }
        lastSeen := e.timestamp;
      }
    }

    method AddCommand(command: string, maxCommands: nat)
      modifies `commands, `suspicious
      ensures Value() == WithCommand(old(Value()), command, maxCommands)
    {
      if |commands| < maxCommands {
        commands := commands + [command];
        if IsSuspicious(command) && |suspicious| < MAX_NOTABLE_COMMANDS {
          suspicious := suspicious + [command];
        }
      }
    }

    method RecordEvent(e: Event, now: real, maxCommands: nat)
      modifies this
      ensures Value() == Recorded(old(Value()), e, now, maxCommands)
    {
      hide Sanitize, IsSuspicious, Touched, WithCommand, Source;
      Touch(e, now);
      if e.eventid == "cowrie.login.success" {
        authenticated := true;
        username := Some(Sanitize(Text(e.username), 64));
        password := Some(Sanitize(Text(e.password), 64));
      } else if e.eventid == "cowrie.command.input" {
        AddCommand(Sanitize(Text(e.input), MAX_COMMAND_DISPLAY_LENGTH), maxCommands);
      } else if e.eventid == "cowrie.session.file_download" {
        if |downloaded| < maxCommands {
          downloaded := downloaded + [Sanitize(Source(e), MAX_COMMAND_DISPLAY_LENGTH)];
        }
      } else if e.eventid == "cowrie.session.file_upload" {
        if |uploaded| < maxCommands {
          uploaded := uploaded + [Sanitize(Text(e.filename), MAX_COMMAND_DISPLAY_LENGTH)];
        }
      }
    }
  }

  type Objects = Dict<string, SessionCluster>

  ghost function Footprint(cs: Objects): set<object> {
    set x | x in cs :: x.1
  }

  function Values(cs: Objects): (d: Clusters)
    reads Footprint(cs)
    ensures |d| == |cs|
    ensures forall i :: 0 <= i < |cs| ==> d[i] == (cs[i].0, cs[i].1.Value())
  {
    if cs == [] then [] else [(cs[0].0, cs[0].1.Value())] + Values(cs[1..])
  }

  lemma SameIndex(cs: Objects, k: string)
    ensures Index(Values(cs), k) == Index(cs, k)
    ensures Unique(Values(cs)) <==> Unique(cs)
  {
    var i, j := Index(Values(cs), k), Index(cs, k);
    assert i < |cs| ==> cs[i].0 == k;
    assert j < |cs| ==> Values(cs)[j].0 == k;
    assert forall a :: 0 <= a < |cs| ==> Values(cs)[a].0 == cs[a].0;
  }

  lemma PutValues(cs: Objects, k: string, c: SessionCluster, was: Clusters)
    requires |was| == |cs|
    requires forall i :: 0 <= i < |cs| ==> was[i].0 == cs[i].0
    requires forall i :: 0 <= i < |cs| && cs[i].1 != c ==> was[i] == (cs[i].0, cs[i].1.Value())
    requires forall i :: 0 <= i < |cs| && cs[i].1 == c ==> i == Index(cs, k)
    ensures Values(Put(cs, k, c)) == Put(was, k, c.Value())
  {
    var i, j := Index(was, k), Index(cs, k);
    assert i < |cs| ==> cs[i].0 == k;
    assert j < |cs| ==> was[j].0 == k;
    var a, b := Values(Put(cs, k, c)), Put(was, k, c.Value());
    assert |a| == |b|;
    assert forall n :: 0 <= n < |a| ==> a[n] == b[n];
  }

  class SessionClusterManager {
    const limits: Limits
    var clusters: Objects

    /** Unique keys, and no object stored under two of them. */
    ghost predicate Valid()
      reads this
    {
      Unique(clusters) && Distinct(clusters)
    }

    function Contents(): Clusters
      reads this, Footprint(clusters)
    {
      Values(clusters)
    }

    constructor (limits: Limits)
      ensures Valid() && Contents() == [] && this.limits == limits
    {
      this.limits := limits;
      clusters := [];
    }

    /** The cluster an event belongs to, created and stored first when there is none to reuse. */
    method Fetch(e: Event, now: real) returns (cluster: SessionCluster, isNew: bool)
      requires Valid()
      modifies `clusters
      ensures Valid() && fresh(Footprint(clusters) - old(Footprint(clusters)))
      ensures isNew == !Reuses(old(Contents()), e, now, limits.window)
      ensures Has(clusters, KeyFor(e)) && cluster == Get(clusters, KeyFor(e))
      ensures cluster.Value() == Chosen(old(Contents()), e, now, limits.window)
      ensures Contents() == Put(old(Contents()), KeyFor(e), cluster.Value())
    {
      hide Values, Unique, Index, Put, Distinct;
      var key := KeyFor(e);
      ghost var before := Contents();
      SameIndex(clusters, key);
      var i := Index(clusters, key);
      isNew := i == |clusters|;
      if i < |clusters| && !Truthy(e.session) && now - clusters[i].1.lastActivityAt > limits.window {
        isNew := true;
      }
      if isNew {
        cluster := new SessionCluster(key, e.srcIp, e.session, now);
        PutUnique(clusters, key, cluster);
        PutValues(clusters, key, cluster, before);
        PutDistinct(clusters, key, cluster);
        PutFootprint(clusters, key, cluster);
        clusters := Put(clusters, key, cluster);
      } else {
        cluster := clusters[i].1;
        PutSame(before, key);
      }
    }

    method Observe(e: Event, now: real) returns (key: string, cluster: SessionCluster, isNew: bool)
      requires Valid()
      modifies this, Footprint(clusters)
      ensures Valid() && fresh(Footprint(clusters) - old(Footprint(clusters)))
      ensures Contents() == Observed(old(Contents()), e, now, limits.window, limits.maxCommands)
      ensures key == KeyFor(e) && isNew == !Reuses(old(Contents()), e, now, limits.window)
      ensures Has(clusters, key) && cluster == Get(clusters, key)
    {
      hide Recorded, Values, Unique, Index, Chosen, Put, Has, Get, Distinct;
      key := KeyFor(e);
      ghost var before := Contents();
      cluster, isNew := Fetch(e, now);
      ghost var fetched, base := Contents(), cluster.Value();
      FetchedSlot(clusters, key, cluster);
      cluster.RecordEvent(e, now, limits.maxCommands);
      PutValues(clusters, key, cluster, fetched);
      PutTwice(before, key, base, cluster.Value());
    }

    /** The comprehension that picks the expired keys. */
    method ExpiredKeys(now: real) returns (keys: seq<string>, ghost gone: Clusters)
      requires Valid()
      ensures gone == ExpiredOf(Contents(), now, limits.window, limits.maxAge) && KeysOf(gone) == keys
    {
      hide ExpiredOf, Values, Unique, Distinct;
      keys, gone := [], [];
      var i := 0;
      EmptyExpired(now, limits);
      while i < |clusters|
        invariant 0 <= i <= |clusters|
        invariant gone == ExpiredOf(Contents()[..i], now, limits.window, limits.maxAge)
        invariant KeysOf(gone) == keys
      {
        var entry := clusters[i];
        assert Contents()[..i + 1] == Contents()[..i] + [(entry.0, entry.1.Value())];
        ExpiredSnoc(Contents()[..i], (entry.0, entry.1.Value()), now, limits.window, limits.maxAge);
        if now - entry.1.lastActivityAt > limits.window || now - entry.1.createdAt > limits.maxAge {
          KeysSnoc(gone, (entry.0, entry.1.Value()));
          keys, gone := keys + [entry.0], gone + [(entry.0, entry.1.Value())];
        }
        i := i + 1;
      }
      assert Contents()[..i] == Contents();
    }

    /** self._clusters.pop(key), where `gone` are the entries still to be popped. */
    method Pop(key: string, ghost gone: Clusters, ghost goal: Clusters) returns (popped: SessionCluster)
      requires Valid() && gone != [] && gone[0].0 == key && Towards(Contents(), gone, goal)
      modifies `clusters
      ensures Valid() && popped.Value() == gone[0].1 && Towards(Contents(), gone[1..], goal)
    {
      hide Values, Unique, Index, DelAll, Distinct, Del;
      SameIndex(clusters, key);
      PopStep(Contents(), gone);
      DelValues(clusters, key);
      DelValid(clusters, key);
      popped := Get(clusters, key);
      ghost var value, rest := popped.Value(), Values(Del(clusters, key));
      clusters := Del(clusters, key);
      assert Values(clusters) == rest && popped.Value() == value;
    }

    /** pop each key in turn. */
    method PopAll(keys: seq<string>, ghost gone: Clusters) returns (popped: seq<SessionCluster>)
      requires Valid() && KeysOf(gone) == keys && multiset(gone) <= multiset(Contents())
      modifies `clusters
      ensures Valid() && Contents() == DelAll(old(Contents()), gone)
      ensures |popped| == |gone| && forall i :: 0 <= i < |gone| ==> popped[i].Value() == gone[i].1
    {
      hide Values, DelAll, Unique, Distinct, KeysOf, Towards;
      popped := [];
      ghost var goal := DelAll(Contents(), gone);
      var n := 0;
      KeysAt(gone);
      TowardsStart(Contents(), gone);
      while n < |keys|
        invariant 0 <= n <= |keys| && Valid()
        invariant Towards(Contents(), gone[n..], goal)
        invariant |popped| == n && forall i :: 0 <= i < n ==> popped[i].Value() == gone[i].1
      {
        var c := Pop(keys[n], gone[n..], goal);
        assert gone[n..][1..] == gone[n + 1..];
        popped := popped + [c];
        n := n + 1;
      }
      TowardsEnd(Contents(), gone[n..], goal);
    }

    method FlushExpired(now: real) returns (expired: seq<SessionCluster>)
      requires Valid()
      modifies `clusters
      ensures Valid()
      ensures Contents() == FlushedActive(old(Contents()), now, limits.window, limits.maxAge)
      ensures var gone := ExpiredOf(old(Contents()), now, limits.window, limits.maxAge);
        |expired| == |gone| && forall i :: 0 <= i < |gone| ==> expired[i].Value() == gone[i].1
    {
      hide Values, DelAll, Unique, Distinct, ExpiredOf;
      ghost var before := Contents();
      ExpiredWithin(before, now, limits.window, limits.maxAge);
      var keys, gone := ExpiredKeys(now);
      assert Contents() == before;
      expired := PopAll(keys, gone);
    }

    /** evict_overflow: sort the items by last activity and delete the first ones. */
    method EvictOverflow() returns (evicted: seq<SessionCluster>)
      requires Valid()
      modifies `clusters
      ensures Valid()
      ensures Contents() == DelAll(old(Contents()), EvictedOf(old(Contents()), limits.maxActive))
      ensures var gone := EvictedOf(old(Contents()), limits.maxActive);
        |evicted| == |gone| && forall i :: 0 <= i < |gone| ==> evicted[i].Value() == gone[i].1
    {
      hide Values, DelAll, Unique, Distinct, EvictedOf;
      var gone := EvictedOf(Contents(), limits.maxActive);
      SameIndex(clusters, "");
      EvictSplits(Contents(), limits.maxActive);
      evicted := PopAll(KeysOf(gone), gone);
    }
  }

  function KeysOf(d: Clusters): seq<string> {
    if d == [] then [] else [d[0].0] + KeysOf(d[1..])
  }

  lemma {:induction false} KeysAt(d: Clusters)
    ensures |KeysOf(d)| == |d| && forall i :: 0 <= i < |d| ==> KeysOf(d)[i] == d[i].0
  {
    if d != [] {
      KeysAt(d[1..]);
    }
  }

  lemma {:induction false} KeysSnoc(d: Clusters, e: (string, Cluster))
    ensures KeysOf(d + [e]) == KeysOf(d) + [e.0]
  {
    KeysAt(d);
    KeysAt(d + [e]);
  }

  lemma DelValid(cs: Objects, k: string)
    requires Unique(cs) && Distinct(cs)
    ensures Unique(Del(cs, k)) && Distinct(Del(cs, k))
  {
    DelUnique(cs, k);
  }

  lemma EmptyExpired(now: real, limits: Limits)
    ensures ExpiredOf([], now, limits.window, limits.maxAge) == []
  {
  }

  lemma {:induction false} ExpiredSnoc(d: Clusters, e: (string, Cluster), now: real, window: real, maxAge: real)
    ensures ExpiredOf(d + [e], now, window, maxAge)
         == ExpiredOf(d, now, window, maxAge) + (if Expired(e.1, now, window, maxAge) then [e] else [])
  {
    hide Expired;
    if d == [] {
      assert d + [e] == [e] && [e][1..] == [];
    } else {
      var head := if Expired(d[0].1, now, window, maxAge) then [d[0]] else [];
      var last := if Expired(e.1, now, window, maxAge) then [e] else [];
      assert (d + [e])[1..] == d[1..] + [e];
      ExpiredSnoc(d[1..], e, now, window, maxAge);
      Regroup(head, ExpiredOf(d[1..], now, window, maxAge), last);
    }
  }

  lemma DelValues(cs: Objects, k: string)
    ensures Values(Del(cs, k)) == Del(Values(cs), k)
  {
    hide Values, Index;
    SameIndex(cs, k);
    var i := Index(cs, k);
    var a, b := Values(Del(cs, k)), Del(Values(cs), k);
    assert |a| == |b|;
    forall n | 0 <= n < |a|
      ensures a[n] == b[n]
    {
      assert Del(cs, k)[n] == if n < i then cs[n] else cs[n + 1];
    }
  }

  ghost predicate Distinct(cs: Objects) {
    forall i, j :: 0 <= i < j < |cs| ==> cs[i].1 != cs[j].1
  }

  lemma PutDistinct(cs: Objects, k: string, c: SessionCluster)
    requires Distinct(cs) && forall i :: 0 <= i < |cs| ==> cs[i].1 != c
    ensures Distinct(Put(cs, k, c))
  {
  }

  lemma PutFootprint(cs: Objects, k: string, c: SessionCluster)
    ensures Footprint(Put(cs, k, c)) <= Footprint(cs) + {c}
  {
  }

  lemma PutSame(d: Clusters, k: string)
    requires Has(d, k)
    ensures Put(d, k, Get(d, k)) == d
  {
  }

  lemma FetchedSlot(cs: Objects, k: string, c: SessionCluster)
    requires Unique(cs) && Distinct(cs) && Has(cs, k) && c == Get(cs, k)
    ensures forall i :: 0 <= i < |cs| && cs[i].1 == c ==> i == Index(cs, k)
    ensures Put(cs, k, c) == cs && c in Footprint(cs)
  {
    assert cs[Index(cs, k)] in cs;
  }

  lemma PutTwice(d: Clusters, k: string, a: Cluster, b: Cluster)
    ensures Put(Put(d, k, a), k, b) == Put(d, k, b)
  {
    var i, j := Index(d, k), Index(Put(d, k, a), k);
    assert Put(d, k, a)[i] == (k, a);
    assert j == i;
  }

  /** Deleting the remaining entries from d gives the goal. */
  predicate Towards(d: Clusters, left: Clusters, goal: Clusters) {
    multiset(left) <= multiset(d) && DelAll(d, left) == goal
  }

  lemma TowardsStart(d: Clusters, gone: Clusters)
    requires multiset(gone) <= multiset(d)
    ensures gone[0..] == gone && Towards(d, gone, DelAll(d, gone))
  {
  }

  lemma TowardsEnd(d: Clusters, left: Clusters, goal: Clusters)
    requires Towards(d, left, goal) && |left| == 0
    ensures d == goal
  {
  }

  lemma PopStep(d: Clusters, gone: Clusters)
    requires Unique(d) && gone != [] && multiset(gone) <= multiset(d)
    ensures Has(d, gone[0].0) && Get(d, gone[0].0) == gone[0].1
    ensures multiset(gone[1..]) <= multiset(Del(d, gone[0].0))
    ensures DelAll(d, gone) == DelAll(Del(d, gone[0].0), gone[1..])
  {
    hide DelAll;
    assert gone == [gone[0]] + gone[1..];
    assert gone[0] in multiset(gone);
    assert gone[0] in d;
    var at :| 0 <= at < |d| && d[at] == gone[0];
    IndexAt(d, at);
    DelUnique(d, gone[0].0);
    DelAllOne(d, gone);
  }

  lemma DelAllOne(d: Clusters, gone: Clusters)
    requires gone != []
    ensures DelAll(d, gone) == DelAll(Del(d, gone[0].0), gone[1..])
  {
  }
}
