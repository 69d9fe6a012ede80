/** How one channel's POSTs are spaced over every run of drain_pending
    (native/discord_rate_governor.py:42-75, native/discord-monitor.py:620-653). */
module DeliveryPacing {
  import opened Options
  import opened DeliveryQueue
  import G = DiscordGovernor

  datatype Run = Run(governor: G.Governor, log: seq<Entry>, turns: nat)

  /** Successive drains of one channel; `queues` is what each of them found pending. */
  function Drains(queues: seq<seq<Item>>, c: G.Config, env: nat -> Turn): Run {
    if queues == [] then Run(G.Fresh, [], 0) else
      var before := Drains(queues[..|queues| - 1], c, env);
      var d := DrainLoop(queues[|queues| - 1], before.governor, c, env, before.turns);
      Run(d.governor, before.log + d.log, d.turns)
  }

  /** Within a turn the clock does not run backwards. */
  predicate Forward(t: Turn) {
    t.checkedAt <= t.attemptAt <= t.answeredAt <= t.digestAt
  }

  predicate Sane(c: G.Config) {
    c.minInterval >= 0.0 && c.maxCooldown > 0.0
  }

  predicate Limited(e: Entry) {
    e.Post? && e.answer.TooMany?
  }

  function CooldownEnd(e: Entry, c: G.Config): real
    requires Limited(e)
  {
    e.answeredAt + G.Clamped(c, e.answer.retryAfter)
  }

  /** Two POSTs, `b` the later one: the interval is kept, a 429's cooldown is over, and a second
      429 ends later than the first. */
  predicate Spaced(a: Entry, b: Entry, c: G.Config) {
    a.Post? && b.Post? ==>
      && b.at >= a.at + c.minInterval
      && (Limited(a) ==> b.at >= CooldownEnd(a, c))
      && (Limited(a) && Limited(b) ==> CooldownEnd(b, c) > CooldownEnd(a, c))
  }

  predicate Paced(log: seq<Entry>, c: G.Config) {
    forall i, j :: 0 <= i < j < |log| ==> Spaced(log[i], log[j], c)
  }

  /** What the governor remembers of a POST. */
  predicate Remembers(g: G.Governor, e: Entry, c: G.Config) {
    e.Post? ==> g.nextAllowedAt >= e.at + c.minInterval && (Limited(e) ==> g.cooldownUntil >= CooldownEnd(e, c))
  }

  predicate Covered(g: G.Governor, log: seq<Entry>, c: G.Config) {
    forall i :: 0 <= i < |log| ==> Remembers(g, log[i], c)
  }

  lemma OneTurnCovered(pending: seq<Item>, g: G.Governor, c: G.Config, t: Turn, e: Entry)
    requires pending != [] && Sane(c) && Forward(t) && Remembers(g, e, c)
    ensures var d := SendOnce(pending, g, c, t);
      && Remembers(d.governor, e, c)
      && forall i :: 0 <= i < |d.log| ==> Spaced(e, d.log[i], c) && Remembers(d.governor, d.log[i], c)
  {
  }

  lemma OneTurnPaced(pending: seq<Item>, g: G.Governor, c: G.Config, t: Turn, log: seq<Entry>)
    requires pending != [] && Sane(c) && Forward(t) && Covered(g, log, c) && Paced(log, c)
    ensures var d := SendOnce(pending, g, c, t);
      Covered(d.governor, log + d.log, c) && Paced(log + d.log, c)
  {
    hide SendOnce, Spaced, Remembers;
    var d := SendOnce(pending, g, c, t);
    forall i | 0 <= i < |log|
      ensures Remembers(d.governor, log[i], c) && forall j :: 0 <= j < |d.log| ==> Spaced(log[i], d.log[j], c)
    {
      OneTurnCovered(pending, g, c, t, log[i]);
    }
    OneTurnCovered(pending, g, c, t, Blocked(0)) by {
      NotAPost(g, c);
    }
    OneTurnAlone(pending, g, c, t);
  }

  lemma NotAPost(g: G.Governor, c: G.Config)
    ensures Remembers(g, Blocked(0), c)
  {
  }

  lemma OneTurnAlone(pending: seq<Item>, g: G.Governor, c: G.Config, t: Turn)
    requires pending != []
    ensures Paced(SendOnce(pending, g, c, t).log, c)
  {
  }

  lemma {:induction false} LoopPaced(pending: seq<Item>, g: G.Governor, c: G.Config, env: nat -> Turn, k: nat,
      log: seq<Entry>)
    requires Sane(c) && (forall n :: Forward(env(n))) && Covered(g, log, c) && Paced(log, c)
    ensures var d := DrainLoop(pending, g, c, env, k);
      Covered(d.governor, log + d.log, c) && Paced(log + d.log, c) && d.turns - k <= |pending|
    decreases |pending|
  {
    hide SendOnce, Paced, Covered;
    if pending == [] {
      assert log + [] == log;
    } else {
      var d := SendOnce(pending, g, c, env(k));
      SendOnceShrinks(pending, g, c, env(k));
      OneTurnPaced(pending, g, c, env(k), log);
      if !d.stopped {
        LoopPaced(d.pending, d.governor, c, env, k + 1, log + d.log);
        var rest := DrainLoop(d.pending, d.governor, c, env, k + 1);
        assert log + d.log + rest.log == log + (d.log + rest.log);
      }
    }
  }

  /** In every run of drains: POSTs on a channel are at least the minimum interval apart, none
      starts before a 429's clamped cooldown has ended, and each 429 moves that end forward. */
  lemma {:induction false} PacingKept(queues: seq<seq<Item>>, c: G.Config, env: nat -> Turn)
    requires Sane(c) && forall n :: Forward(env(n))
    ensures var r := Drains(queues, c, env);
      Covered(r.governor, r.log, c) && Paced(r.log, c)
  {
    if queues != [] {
      hide DrainLoop, Paced, Covered;
      PacingKept(queues[..|queues| - 1], c, env);
      var before := Drains(queues[..|queues| - 1], c, env);
      LoopPaced(queues[|queues| - 1], before.governor, c, env, before.turns, before.log);
    }
  }

  /** The two answers the governor hears of. */
  predicate Tells(e: Entry) {
    e.Post? && (e.answer.Accepted? || e.answer.TooMany?)
  }

  /** Degraded: some 429 has had no successful delivery after it. */
  predicate DegradedBy(log: seq<Entry>) {
    if log == [] then false else
      var last := log[|log| - 1];
      if Tells(last) then last.answer.TooMany? else DegradedBy(log[..|log| - 1])
  }

  /** The largest queue held back since the degraded episode began. */
  function Backlog(log: seq<Entry>): nat {
    if log == [] then 0 else
      var last, before := log[|log| - 1], Backlog(log[..|log| - 1]);
      if last.Post? && last.answer.Accepted? then 0
      else if last.Blocked? && DegradedBy(log[..|log| - 1]) && last.depth > before then last.depth
      else before
  }

  predicate Recovery(log: seq<Entry>, i: nat)
    requires i < |log|
  {
    log[i].Post? && log[i].answer.Accepted? && DegradedBy(log[..i]) && Backlog(log[..i]) > 0
  }

  /** A digest follows exactly the delivery that ends a degraded episode in which something was
      held back, and reports the largest backlog of that episode. */
  predicate Reported(log: seq<Entry>, i: nat)
    requires i < |log|
  {
    && (Recovery(log, i) <==> i + 1 < |log| && log[i + 1].Digest?)
    && (Recovery(log, i) ==> log[i + 1].suppressed == Backlog(log[..i]))
  }

  predicate AllReported(log: seq<Entry>) {
    && (log != [] ==> !log[0].Digest?)
    && forall i :: 0 <= i < |log| ==> Reported(log, i)
  }

  predicate Follows(g: G.Governor, log: seq<Entry>) {
    g.degraded == DegradedBy(log) && g.suppressed == Backlog(log)
  }

  lemma {:induction false} IdleHasNoBacklog(g: G.Governor, log: seq<Entry>)
    ensures !DegradedBy(log) ==> Backlog(log) == 0
  {
    if log != [] {
      IdleHasNoBacklog(g, log[..|log| - 1]);
    }
  }

  lemma AppendFollows(log: seq<Entry>, e: Entry)
    ensures DegradedBy(log + [e]) == if Tells(e) then e.answer.TooMany? else DegradedBy(log)
    ensures Backlog(log + [e]) ==
      if e.Post? && e.answer.Accepted? then 0
      else if e.Blocked? && DegradedBy(log) && e.depth > Backlog(log) then e.depth else Backlog(log)
  {
    assert (log + [e])[..|log|] == log;
  }

  /** Appending one entry keeps the reports right if the entry is no digest and no recovery. */
  lemma AppendReported(log: seq<Entry>, e: Entry)
    requires AllReported(log) && !e.Digest?
    requires !(e.Post? && e.answer.Accepted? && DegradedBy(log) && Backlog(log) > 0)
    ensures AllReported(log + [e])
  {
    hide DegradedBy, Backlog;
    var longer := log + [e];
    assert longer[..|log|] == log;
    forall i | 0 <= i < |longer|
      ensures Reported(longer, i)
    {
      if i < |log| {
        assert Reported(log, i);
        assert longer[..i] == log[..i];
      }
    }
  }

  lemma AppendRecovery(log: seq<Entry>, e: Entry, at: real)
    requires AllReported(log) && e.Post? && e.answer.Accepted? && DegradedBy(log) && Backlog(log) > 0
    ensures AllReported(log + [e, Digest(Backlog(log), at)])
  {
    hide DegradedBy, Backlog;
    var longer := log + [e, Digest(Backlog(log), at)];
    assert longer[..|log|] == log;
    forall i | 0 <= i < |longer|
      ensures Reported(longer, i)
    {
      if i < |log| {
        assert Reported(log, i);
        assert longer[..i] == log[..i];
      }
    }
  }

  lemma OneTurnReported(pending: seq<Item>, g: G.Governor, c: G.Config, t: Turn, log: seq<Entry>)
    requires pending != [] && Follows(g, log) && AllReported(log)
    ensures var d := SendOnce(pending, g, c, t);
      Follows(d.governor, log + d.log) && AllReported(log + d.log)
  {
    hide AllReported, DegradedBy, Backlog, G.CanSend, G.Clamped;
    var d := SendOnce(pending, g, c, t);
    IdleHasNoBacklog(g, log);
    if d.log == [] {
      assert log + d.log == log;
      return;
    }
    AppendFollows(log, d.log[0]);
    if |d.log| == 1 {
      assert d.log == [d.log[0]];
      AppendReported(log, d.log[0]);
    } else {
      assert d.log == [d.log[0], Digest(Backlog(log), t.digestAt)];
      assert log + d.log == log + [d.log[0]] + [d.log[1]];
      AppendRecovery(log, d.log[0], t.digestAt);
      AppendFollows(log + [d.log[0]], d.log[1]);
    }
  }

  lemma {:induction false} LoopReported(pending: seq<Item>, g: G.Governor, c: G.Config, env: nat -> Turn, k: nat,
      log: seq<Entry>)
    requires Follows(g, log) && AllReported(log)
    ensures var d := DrainLoop(pending, g, c, env, k);
      Follows(d.governor, log + d.log) && AllReported(log + d.log)
    decreases |pending|
  {
    hide SendOnce, AllReported, Follows;
    if pending == [] {
      assert log + [] == log;
    } else {
      var d := SendOnce(pending, g, c, env(k));
      SendOnceShrinks(pending, g, c, env(k));
      OneTurnReported(pending, g, c, env(k), log);
      if !d.stopped {
        LoopReported(d.pending, d.governor, c, env, k + 1, log + d.log);
        var rest := DrainLoop(d.pending, d.governor, c, env, k + 1);
        assert log + d.log + rest.log == log + (d.log + rest.log);
      }
    }
  }

  /** In every run: the governor is degraded exactly when its log says so, and every degraded
      episode is reported by one digest if anything was held back in it, and by none otherwise. */
  lemma {:induction false} EpisodesReported(queues: seq<seq<Item>>, c: G.Config, env: nat -> Turn)
    ensures var r := Drains(queues, c, env);
      Follows(r.governor, r.log) && AllReported(r.log)
  {
    if queues != [] {
      hide DrainLoop, AllReported, Follows;
      EpisodesReported(queues[..|queues| - 1], c, env);
      var before := Drains(queues[..|queues| - 1], c, env);
      LoopReported(queues[|queues| - 1], before.governor, c, env, before.turns, before.log);
    }
  }

  lemma {:induction false} DegradedSince(log: seq<Entry>, p: nat)
    requires p < |log| && log[p].Post? && log[p].answer.Accepted? && DegradedBy(log)
    ensures exists k :: p < k < |log| && Limited(log[k])
  {
    var last := log[|log| - 1];
    if !Tells(last) {
      DegradedSince(log[..|log| - 1], p);
      var k :| p < k < |log| - 1 && Limited(log[..|log| - 1][k]);
      assert Limited(log[k]);
    } else {
      assert Limited(log[|log| - 1]);
    }
  }

  /** Between two digests of one channel there is a 429: at most one digest per episode. */
  lemma OneDigestPerEpisode(queues: seq<seq<Item>>, c: G.Config, env: nat -> Turn, i: nat, j: nat)
    requires i < j < |Drains(queues, c, env).log|
    requires Drains(queues, c, env).log[i].Digest? && Drains(queues, c, env).log[j].Digest?
    ensures exists k :: i < k < j && Limited(Drains(queues, c, env).log[k])
  {
    hide DegradedBy, Backlog, Drains;
    EpisodesReported(queues, c, env);
    var log := Drains(queues, c, env).log;
    assert i > 0 && Reported(log, i - 1) && Reported(log, j - 1);
    DegradedSince(log[..j - 1], i - 1);
    var k :| i - 1 < k < j - 1 && Limited(log[..j - 1][k]);
    assert Limited(log[k]) && k != i;
  }

  /** When one of the channel's requests was sent. */
  predicate Sends(e: Entry) {
    e.Post? || e.Digest?
  }

  function SentAt(e: Entry): real
    requires Sends(e)
  {
    e.at
  }

  /** Every two requests of the channel, digests included, keep the interval. */
  predicate AllSpaced(log: seq<Entry>, c: G.Config) {
    forall i, j :: 0 <= i < j < |log| && Sends(log[i]) && Sends(log[j]) ==>
      SentAt(log[j]) >= SentAt(log[i]) + c.minInterval
  }

  predicate NextPost(log: seq<Entry>, k: nat, j: nat)
    requires k < j < |log|
  {
    log[j].Post? && forall i :: k < i < j ==> !log[i].Post?
  }

  /** The digest at `k` keeps the interval from the delivery it reports, and the next POST keeps it from
      the digest. */
  predicate DigestFits(log: seq<Entry>, k: nat, c: G.Config)
    requires 0 < k < |log| && log[k].Digest?
  {
    && (log[k - 1].Post? ==> log[k].at >= log[k - 1].at + c.minInterval)
    && forall j :: k < j < |log| && NextPost(log, k, j) ==> log[j].at >= log[k].at + c.minInterval
  }

  predicate AllDigestsFit(log: seq<Entry>, c: G.Config) {
    forall k :: 0 < k < |log| && log[k].Digest? ==> DigestFits(log, k, c)
  }

  lemma FirstPostAfter(log: seq<Entry>, k: nat, j: nat) returns (n: nat)
    requires k < j < |log| && log[j].Post?
    ensures k < n <= j && NextPost(log, k, n)
  {
    n := k + 1;
    while !log[n].Post?
      invariant k < n <= j && forall i :: k < i < n ==> !log[i].Post?
      decreases j - n
    {
      n := n + 1;
    }
  }

  /** A digest follows a delivery directly. */
  lemma DigestAfterPost(log: seq<Entry>, k: nat)
    requires AllReported(log) && k < |log| && log[k].Digest?
    ensures k > 0 && log[k - 1].Post?
  {
    hide DegradedBy, Backlog;
    if k > 0 {
      assert Reported(log, k - 1);
    }
  }

  lemma PostAfterDigest(log: seq<Entry>, k: nat, j: nat, c: G.Config)
    requires Paced(log, c) && AllDigestsFit(log, c) && c.minInterval >= 0.0
    requires 0 < k < j < |log| && log[k].Digest? && log[j].Post?
    ensures log[j].at >= log[k].at + c.minInterval
  {
    hide Limited, Paced, AllDigestsFit;
    var n := FirstPostAfter(log, k, j);
    DigestThen(log, k, n, c);
    if n < j {
      PostsSpaced(log, n, j, c);
    }
  }

  lemma DigestThen(log: seq<Entry>, k: nat, n: nat, c: G.Config)
    requires AllDigestsFit(log, c) && 0 < k < n < |log| && log[k].Digest? && NextPost(log, k, n)
    ensures log[n].at >= log[k].at + c.minInterval
  {
    assert DigestFits(log, k, c);
  }

  lemma PostsSpaced(log: seq<Entry>, i: nat, j: nat, c: G.Config)
    requires Paced(log, c) && i < j < |log| && log[i].Post? && log[j].Post?
    ensures log[j].at >= log[i].at + c.minInterval
  {
    assert Spaced(log[i], log[j], c);
  }

  /** Exactly when the interval holds for everything a channel sends: in every run, when each digest keeps
      it from the delivery before it and the next POST keeps it from the digest. The governor sees to
      neither, it only spaces POSTs. */
  lemma {:induction false} SendsSpacedExactly(queues: seq<seq<Item>>, c: G.Config, env: nat -> Turn)
    requires Sane(c) && forall n :: Forward(env(n))
    ensures var log := Drains(queues, c, env).log;
      AllSpaced(log, c) <==> AllDigestsFit(log, c)
  {
    hide Drains, Paced, AllReported, DigestFits;
    PacingKept(queues, c, env);
    EpisodesReported(queues, c, env);
    var log := Drains(queues, c, env).log;
    if AllDigestsFit(log, c) {
      forall i, j | 0 <= i < j < |log| && Sends(log[i]) && Sends(log[j])
        ensures SentAt(log[j]) >= SentAt(log[i]) + c.minInterval
      {
        PairSpaced(log, i, j, c);
      }
    }
    if AllSpaced(log, c) {
      forall k | 0 < k < |log| && log[k].Digest?
        ensures DigestFits(log, k, c)
      {
        SpacedFits(log, k, c);
      }
    }
  }

  lemma SpacedFits(log: seq<Entry>, k: nat, c: G.Config)
    requires AllSpaced(log, c) && 0 < k < |log| && log[k].Digest?
    ensures DigestFits(log, k, c)
  {
  }

  lemma PairSpaced(log: seq<Entry>, i: nat, j: nat, c: G.Config)
    requires Paced(log, c) && AllReported(log) && AllDigestsFit(log, c) && c.minInterval >= 0.0
    requires i < j < |log| && Sends(log[i]) && Sends(log[j])
    ensures SentAt(log[j]) >= SentAt(log[i]) + c.minInterval
  {
    hide AllReported, Paced, AllDigestsFit;
    if log[i].Digest? {
      DigestAfterPost(log, i);
    }
    if log[j].Post? {
      if log[i].Post? {
        PostsSpaced(log, i, j, c);
      } else {
        PostAfterDigest(log, i, j, c);
      }
    } else {
      DigestAfterPost(log, j);
      DigestHere(log, j, c);
      if i < j - 1 {
        if log[i].Post? {
          PostsSpaced(log, i, j - 1, c);
        } else {
          PostAfterDigest(log, i, j - 1, c);
        }
      }
    }
  }

  lemma DigestHere(log: seq<Entry>, k: nat, c: G.Config)
    requires AllDigestsFit(log, c) && 0 < k < |log| && log[k].Digest? && log[k - 1].Post?
    ensures log[k].at >= log[k - 1].at + c.minInterval
  {
    assert DigestFits(log, k, c);
  }

  /** A 429, a held-back turn while it cools down, a delivery, and the next item's POST. */
  function Outage(k: nat): Turn {
    if k == 0 then Turn(0.0, 0.0, TooMany(None), 0.0, 0.0, Whole)
    else if k == 1 then Turn(10.0, 10.0, Other, 10.0, 10.0, Whole)
    else if k == 2 then Turn(30.0, 30.0, Accepted, 30.1, 30.1, Whole)
    else Turn(31.0, 31.0, Uncaught, 31.0, 31.0, Whole)
  }

  /** The digest itself is posted without asking the governor: here a tenth of a second after the POST
      before it, and nine tenths before the next one, although the interval is one second. */
  lemma DigestBypassesGovernor(item: Item)
    ensures forall n :: Forward(Outage(n))
    ensures var log := Drains([[item], [item], [item, item]], G.Defaults, Outage).log;
      && |log| == 5 && log[2].Post? && log[3].Digest? && log[4].Post?
      && log[3].at < log[2].at + G.Defaults.minInterval && log[4].at < log[3].at + G.Defaults.minInterval
  {
    hide DrainLoop, G.Defaults;
    var q, two := [item], [item, item];
    OutageTurns(item);
    DrainsSnoc([], q, G.Defaults, Outage);
    DrainsSnoc([q], q, G.Defaults, Outage);
    DrainsSnoc([q, q], two, G.Defaults, Outage);
    assert [] + [q] == [q] && [q] + [q] == [q, q] && [q, q] + [two] == [q, q, two];
  }

  lemma OutageTurns(item: Item)
    ensures G.Defaults.minInterval == 1.0
    ensures var g1, g2 := G.Governor(1.0, 30.0, true, 0), G.Governor(1.0, 30.0, true, 1);
      var d0, d1 := DrainLoop([item], G.Fresh, G.Defaults, Outage, 0), DrainLoop([item], g1, G.Defaults, Outage, 1);
      var d2 := DrainLoop([item, item], g2, G.Defaults, Outage, 2);
      && d0.governor == g1 && d0.turns == 1 && d0.log == [Post(item, 0.0, TooMany(None), 0.0, [item])]
      && d1.governor == g2 && d1.turns == 2 && d1.log == [Blocked(1)]
      && d2.log == [Post(item, 30.0, Accepted, 30.1, [item, item]), Digest(1, 30.1),
                    Post(item, 31.0, Uncaught, 31.0, [item])]
  {
    var g2 := G.Governor(1.0, 30.0, true, 1);
    var d := SendOnce([item, item], g2, G.Defaults, Outage(2));
    assert d.log == [Post(item, 30.0, Accepted, 30.1, [item, item]), Digest(1, 30.1)];
    assert d.pending == [item] && !d.stopped;
    var e := SendOnce([item], d.governor, G.Defaults, Outage(3));
    assert e.log == [Post(item, 31.0, Uncaught, 31.0, [item])] && e.stopped;
    assert DrainLoop([item], d.governor, G.Defaults, Outage, 3).log == e.log;
  }

  lemma DrainsSnoc(queues: seq<seq<Item>>, q: seq<Item>, c: G.Config, env: nat -> Turn)
    ensures var before := Drains(queues, c, env);
      var d := DrainLoop(q, before.governor, c, env, before.turns);
      Drains(queues + [q], c, env) == Run(d.governor, before.log + d.log, d.turns)
  {
    assert (queues + [q])[..|queues|] == queues;
  }
}
