/** The outbound rate governor of one Discord channel (native/discord_rate_governor.py). */
module DiscordGovernor {
  import opened Options

  datatype Config = Config(minInterval: real, defaultCooldown: real, maxCooldown: real)

  const Defaults := Config(1.0, 30.0, 300.0)

  datatype Governor = Governor(nextAllowedAt: real, cooldownUntil: real, degraded: bool, suppressed: nat)

  const Fresh := Governor(0.0, 0.0, false, 0)

  predicate CanSend(g: Governor, now: real) {
    now >= g.cooldownUntil && now >= g.nextAllowedAt
  }

  function NoteAttempt(g: Governor, c: Config, now: real): Governor {
    g.(nextAllowedAt := now + c.minInterval)
  }

  /** The largest backlog met while degraded. */
  function NoteBlocked(g: Governor, depth: nat): Governor {
    if g.degraded && depth > g.suppressed then g.(suppressed := depth) else g
  }

  function NoteSuccess(g: Governor): Governor {
    if g.degraded then g.(degraded := false, suppressed := 0) else g
  }

  /** The cooldown a 429 asks for, held between one second and the configured maximum. */
  function Clamped(c: Config, retryAfter: Option<real>): real {
    var asked := if retryAfter.None? then c.defaultCooldown else retryAfter.value;
    var floor := if asked >= 1.0 then asked else 1.0;
    if floor <= c.maxCooldown then floor else c.maxCooldown
  }

  function NoteRateLimited(g: Governor, c: Config, retryAfter: Option<real>, now: real): Governor {
    g.(cooldownUntil := now + Clamped(c, retryAfter), degraded := true)
  }

  class DiscordRateGovernor {
    const config: Config
    var nextAllowedAt: real
    var cooldownUntil: real
    var degraded: bool
    var suppressedDuringDegraded: nat

    function State(): Governor
      reads this
    {
      Governor(nextAllowedAt, cooldownUntil, degraded, suppressedDuringDegraded)
    }

    constructor (config: Config)
      ensures State() == Fresh && this.config == config
    {
      this.config := config;
      nextAllowedAt, cooldownUntil, degraded, suppressedDuringDegraded := 0.0, 0.0, false, 0;
    }

    method MaySend(now: real) returns (ok: bool)
      ensures ok == CanSend(State(), now)
    {
      ok := now >= cooldownUntil && now >= nextAllowedAt;
    }

    method NoteSendAttempt(now: real)
      modifies this
      ensures State() == NoteAttempt(old(State()), config, now)
    {
      nextAllowedAt := now + config.minInterval;
    }

    method NoteHeldBack(queueDepth: nat)
      modifies this
      ensures State() == NoteBlocked(old(State()), queueDepth)
    {
      if degraded {
        if queueDepth > suppressedDuringDegraded {
          suppressedDuringDegraded := queueDepth;
        }
      }
    }

    method NoteDelivered() returns (recovered: bool, count: nat)
      modifies this
      ensures State() == NoteSuccess(old(State()))
      ensures recovered == old(degraded) && count == if recovered then old(suppressedDuringDegraded) else 0
    {
      if degraded {
        recovered, count := true, suppressedDuringDegraded;
        degraded, suppressedDuringDegraded := false, 0;
      } else {
        recovered, count := false, 0;
      }
    }

    method NoteLimited(retryAfter: Option<real>, now: real) returns (newlyDegraded: bool)
      modifies this
      ensures State() == NoteRateLimited(old(State()), config, retryAfter, now)
      ensures newlyDegraded == !old(degraded)
    {
      var backoff := match retryAfter case None => config.defaultCooldown case Some(s) => s;
      backoff := if backoff >= 1.0 then backoff else 1.0;
      backoff := if backoff <= config.maxCooldown then backoff else config.maxCooldown;
      cooldownUntil := now + backoff;
      newlyDegraded := !degraded;
      degraded := true;
    }
  }
}
