/** The pauses of one channel in seconds, and exactly when a turn of the drain sends a POST
    (native/discord_rate_governor.py:42-75, native/discord-monitor.py:620-653). */
module DeliveryTiming {
  import opened Options
  import opened DeliveryQueue
  import opened DeliveryPacing
  import G = DiscordGovernor

  /** The seconds a 429 asks for, by its own words or else by default. */
  function Asked(e: Entry, c: G.Config): real
    requires Limited(e)
  {
    match e.answer.retryAfter case None => c.defaultCooldown case Some(s) => s
  }

  /** Its pause is over at `at`: at least a second, at most the configured maximum, and between them as
      long as it asks. */
  predicate PauseOver(e: Entry, c: G.Config, at: real)
    requires Limited(e)
  {
    var s := Asked(e, c);
    && (1.0 <= s <= c.maxCooldown ==> at >= e.answeredAt + s)
    && (s < 1.0 <= c.maxCooldown ==> at >= e.answeredAt + 1.0)
    && (s > c.maxCooldown || c.maxCooldown < 1.0 ==> at >= e.answeredAt + c.maxCooldown)
  }

  lemma PauseIs(e: Entry, c: G.Config, at: real)
    requires Limited(e)
    ensures PauseOver(e, c, at) <==> at >= CooldownEnd(e, c)
  {
  }

  /** In every run of drains: two POSTs are at least the minimum interval apart, and after a 429 that was
      answered at time t none is sent before t + s, where s is what the 429 asks for, but at least one
      second and at most the maximum. */
  lemma {:induction false} PausesKept(queues: seq<seq<Item>>, c: G.Config, env: nat -> Turn, i: nat, j: nat)
    requires Sane(c) && forall n :: Forward(env(n))
    ensures var log := Drains(queues, c, env).log;
      i < j < |log| && log[i].Post? && log[j].Post? ==>
        && log[j].at >= log[i].at + c.minInterval
        && (Limited(log[i]) ==> PauseOver(log[i], c, log[j].at))
  {
    hide Drains, G.Clamped, PauseOver;
    PacingKept(queues, c, env);
    var log := Drains(queues, c, env).log;
    if i < j < |log| && log[i].Post? && log[j].Post? {
      assert Spaced(log[i], log[j], c);
      if Limited(log[i]) {
        PauseIs(log[i], c, log[j].at);
      }
    }
  }

  /** With the defaults, a 429 that asks for 60 seconds keeps the channel silent for 60 seconds, one that
      asks for nothing for 30, one that asks for a tenth of a second for 1, and one that asks for an hour
      for 300. */
  lemma DefaultPauses(e: Entry, at: real)
    requires Limited(e) && PauseOver(e, G.Defaults, at)
    ensures e.answer.retryAfter == Some(60.0) ==> at >= e.answeredAt + 60.0
    ensures e.answer.retryAfter == None ==> at >= e.answeredAt + 30.0
    ensures e.answer.retryAfter == Some(0.1) ==> at >= e.answeredAt + 1.0
    ensures e.answer.retryAfter == Some(3600.0) ==> at >= e.answeredAt + 300.0
  {
  }

  /** The latest POST, and the latest that was answered with a 429, decide. */
  predicate LastPostSpaced(log: seq<Entry>, c: G.Config, now: real) {
    if log == [] then now >= 0.0 else
      var last := log[|log| - 1];
      if last.Post? then now >= last.at + c.minInterval else LastPostSpaced(log[..|log| - 1], c, now)
  }

  predicate LastPauseOver(log: seq<Entry>, c: G.Config, now: real) {
    if log == [] then now >= 0.0 else
      var last := log[|log| - 1];
      if Limited(last) then PauseOver(last, c, now) else LastPauseOver(log[..|log| - 1], c, now)
  }

  /** What the governor holds back is what the log holds back. */
  ghost predicate Agrees(g: G.Governor, log: seq<Entry>, c: G.Config) {
    && (forall now: real :: now >= g.nextAllowedAt <==> LastPostSpaced(log, c, now))
    && (forall now: real :: now >= g.cooldownUntil <==> LastPauseOver(log, c, now))
  }

  lemma LastSpacedSnoc(log: seq<Entry>, e: Entry, c: G.Config, now: real)
    ensures LastPostSpaced(log + [e], c, now)
      <==> if e.Post? then now >= e.at + c.minInterval else LastPostSpaced(log, c, now)
    ensures LastPauseOver(log + [e], c, now)
      <==> if Limited(e) then PauseOver(e, c, now) else LastPauseOver(log, c, now)
  {
    assert (log + [e])[..|log|] == log;
  }

  /** One more entry. */
  lemma AgreesSnoc(g: G.Governor, g': G.Governor, log: seq<Entry>, e: Entry, c: G.Config)
    requires Agrees(g, log, c)
    requires g'.nextAllowedAt == if e.Post? then e.at + c.minInterval else g.nextAllowedAt
    requires g'.cooldownUntil == if Limited(e) then CooldownEnd(e, c) else g.cooldownUntil
    ensures Agrees(g', log + [e], c)
  {
    hide PauseOver, LastPostSpaced, LastPauseOver, CooldownEnd;
    forall now: real
      ensures now >= g'.nextAllowedAt <==> LastPostSpaced(log + [e], c, now)
      ensures now >= g'.cooldownUntil <==> LastPauseOver(log + [e], c, now)
    {
      LastSpacedSnoc(log, e, c, now);
      if Limited(e) {
        PauseIs(e, c, now);
      }
    }
  }

  lemma TurnAgrees(pending: seq<Item>, g: G.Governor, c: G.Config, t: Turn, log: seq<Entry>)
    requires pending != [] && t.cut != FirstSave && Agrees(g, log, c)
    ensures var d := SendOnce(pending, g, c, t); Agrees(d.governor, log + d.log, c)
  {
    hide LastPostSpaced, LastPauseOver, G.Clamped, Agrees;
    var d := SendOnce(pending, g, c, t);
    if |d.log| == 1 {
      assert d.log == [d.log[0]];
      AgreesSnoc(g, d.governor, log, d.log[0], c);
    } else {
      assert d.log == [d.log[0]] + [d.log[1]];
      AgreesSnoc(g, d.governor, log, d.log[0], c);
      AgreesSnoc(d.governor, d.governor, log + [d.log[0]], d.log[1], c);
      assert log + [d.log[0]] + [d.log[1]] == log + d.log;
    }
  }

  lemma {:induction false} LoopAgrees(pending: seq<Item>, g: G.Governor, c: G.Config, env: nat -> Turn, k: nat,
                                      log: seq<Entry>)
    requires (forall n :: env(n).cut != FirstSave) && Agrees(g, log, c)
    ensures var d := DrainLoop(pending, g, c, env, k); Agrees(d.governor, log + d.log, c)
    decreases |pending|
  {
    hide SendOnce, Agrees;
    if pending == [] {
      assert log + [] == log;
    } else {
      var d := SendOnce(pending, g, c, env(k));
      SendOnceShrinks(pending, g, c, env(k));
      TurnAgrees(pending, g, c, env(k), log);
      if !d.stopped {
        LoopAgrees(d.pending, d.governor, c, env, k + 1, log + d.log);
        var rest := DrainLoop(d.pending, d.governor, c, env, k + 1);
        assert log + d.log + rest.log == log + (d.log + rest.log);
      }
    }
  }

  lemma {:induction false} DrainsAgree(queues: seq<seq<Item>>, c: G.Config, env: nat -> Turn)
    requires forall n :: env(n).cut != FirstSave
    ensures Agrees(Drains(queues, c, env).governor, Drains(queues, c, env).log, c)
  {
    hide LastPostSpaced, LastPauseOver;
    if queues != [] {
      hide DrainLoop, Agrees;
      DrainsAgree(queues[..|queues| - 1], c, env);
      var before := Drains(queues[..|queues| - 1], c, env);
      LoopAgrees(queues[|queues| - 1], before.governor, c, env, before.turns, before.log);
    } else {
      FreshAgrees(c);
    }
  }

  lemma FreshAgrees(c: G.Config)
    ensures Agrees(G.Fresh, [], c)
  {
  }

  /** No POST is held back longer than that: after any run in which no save before a POST raised, a turn on
      a non-empty queue sends one exactly when the interval since the last POST and the pause of the last
      429 are over; otherwise it sends nothing and leaves the queue as it is. */
  lemma {:induction false} TurnSendsExactly(queues: seq<seq<Item>>, c: G.Config, env: nat -> Turn, pending: seq<Item>,
                                            t: Turn)
    requires (forall n :: env(n).cut != FirstSave) && pending != [] && t.cut != FirstSave
    ensures var r := Drains(queues, c, env);
      var d := SendOnce(pending, r.governor, c, t);
      var free := LastPostSpaced(r.log, c, t.checkedAt) && LastPauseOver(r.log, c, t.checkedAt);
      && (free ==> d.log != [] && d.log[0] == Post(pending[0], t.attemptAt, t.answer, t.answeredAt, pending))
      && (!free ==> d.log == [Blocked(|pending|)] && d.stopped && d.pending == pending && d.settled == [])
  {
    hide Drains, LastPostSpaced, LastPauseOver, G.Clamped;
    DrainsAgree(queues, c, env);
  }
}
