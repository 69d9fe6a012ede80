/** The Discord embed of a session summary (native/session_cluster.py:277-418): bounded by
    Discord's 6000 characters for every cluster and every enrichment, and the block of notable
    commands keeps its backticks in pairs. */
module SessionEmbed {
  import opened Options
  import opened Display
  import opened SessionClusters
  import opened OrderedDict
  import ObjectKeys

  const MAX_EMBED := 6000

  /** One provider's answer: its status and the normalized fields the embed prints. */
  datatype Envelope = Envelope(
    status: Option<string>,
    classification: Option<string>, actor: Option<string>, tags: seq<string>,
    malicious: Option<string>, suspicious: Option<string>, asn: Option<string>, owner: Option<string>,
    org: Option<string>, ports: seq<string>, products: seq<string>, vulns: seq<string>)

  datatype Enrichment = Enrichment(greynoise: Option<Envelope>, virustotal: Option<Envelope>, shodan: Option<Envelope>)

  datatype Embed = Embed(title: string, description: string, color: nat, fields: seq<(string, string)>,
                         footer: string)

  function TruncateField(text: string): string {
    Truncate(text, MAX_FIELD_VALUE_LENGTH)
  }

  function Join(lines: seq<string>, separator: string): string {
    if lines == [] then [] else if |lines| == 1 then lines[0]
    else lines[0] + separator + Join(lines[1..], separator)
  }

  /** _p */
  function Scalar(value: Option<string>, default: string): (r: string)
    ensures |r| <= MAX_PROVIDER_FIELD_LENGTH || r == default
  {
    if !Truthy(value) then default else Sanitize(value.value, MAX_PROVIDER_FIELD_LENGTH)
  }

  function SanitizeAll(values: seq<string>): seq<string> {
    if values == [] then [] else [Sanitize(values[0], 64)] + SanitizeAll(values[1..])
  }

  /** _p_list */
  function Listed(values: seq<string>, separator: string): (r: string)
    ensures |r| <= MAX_PROVIDER_FIELD_LENGTH
  {
    if values == [] then "none" else Sanitize(Join(SanitizeAll(values), separator), MAX_PROVIDER_FIELD_LENGTH)
  }

  function FormatGreyNoise(e: Option<Envelope>): (r: string)
    ensures |r| <= 700
  {
    if e.None? then "unavailable"
    else if e.value.status != Some("ok") then Scalar(e.value.status, "unavailable")
    else "Classification: " + Scalar(e.value.classification, "unknown") + "\nActor: " + Scalar(e.value.actor, "unknown")
         + "\nTags: " + Listed(e.value.tags, ", ")
  }

  function FormatVirusTotal(e: Option<Envelope>): (r: string)
    ensures |r| <= 850
  {
    if e.None? then "unavailable"
    else if e.value.status != Some("ok") then Scalar(e.value.status, "unavailable")
    else "Malicious: " + Scalar(e.value.malicious, "0") + "\nSuspicious: " + Scalar(e.value.suspicious, "0")
         + "\nASN: " + Scalar(e.value.asn, "unknown") + "\nOwner: " + Scalar(e.value.owner, "unknown")
  }

  function FormatShodan(e: Option<Envelope>): (r: string)
    ensures |r| <= 850
  {
    if e.None? then "unavailable"
    else if e.value.status != Some("ok") then Scalar(e.value.status, "unavailable")
    else "Org: " + Scalar(e.value.org, "unknown") + "\nPorts: " + Listed(e.value.ports, ",")
         + "\nProducts: " + Listed(e.value.products, ", ") + "\nVulns: " + Listed(e.value.vulns, ", ")
  }

  function OrElse(s: Option<string>, default: string): string {
    if Truthy(s) then s.value else default
  }

  function AuthBlock(c: Cluster): string {
    if c.authenticated then
      Join(["Successful login", "Username: " + OrElse(c.username, "unknown"), "Password: " + OrElse(c.password,
          "unknown")], "\n")
    else "No successful login observed"
  }

  function ActivityBlock(c: Cluster): string {
    Join(["Commands: " + ObjectKeys.Dec(|c.commands|), "Suspicious Commands: " + ObjectKeys.Dec(|c.suspicious|),
          "Files Downloaded: " + ObjectKeys.Dec(|c.downloaded|), "Files Uploaded: " + ObjectKeys.Dec(|c.uploaded|)],
              "\n")
  }

  function Notable(c: Cluster): seq<string> {
    if c.suspicious == [] then ["none observed"]
    else if |c.suspicious| > MAX_NOTABLE_COMMANDS then c.suspicious[..MAX_NOTABLE_COMMANDS] else c.suspicious
  }

  function Quoted(commands: seq<string>): seq<string> {
    if commands == [] then [] else ["`" + commands[0] + "`"] + Quoted(commands[1..])
  }

  function NotableBlock(c: Cluster): string {
    Join(Quoted(Notable(c)), "\n")
  }

  /** `duration` is the rendering of the cluster's duration. */
  function Description(c: Cluster, duration: string): string {
    "IP: `" + Sanitize(c.srcIp, 64) + "`\nSession: `" + Sanitize(OrElse(c.sessionId, "n/a"),
        64) + "`\nDuration: " + duration
    + "\nRaw Events: " + ObjectKeys.Dec(c.rawEventCount) + "\nFirst Seen: " + OrElse(c.firstSeen, "unknown")
    + "\nLast Seen: " + OrElse(c.lastSeen, "unknown")
  }

  function Summary(c: Cluster, enrichment: Enrichment, duration: string): Embed {
    Embed("\U{1F6A8} ATTACK SESSION SUMMARY",
          TruncateField(Description(c, duration)),
          if c.authenticated then 0xFF0000 else 0xFF6600,
          [("Authentication", TruncateField(AuthBlock(c))),
           ("Activity", TruncateField(ActivityBlock(c))),
           ("Notable Commands", TruncateField(NotableBlock(c))),
           ("GreyNoise", TruncateField(FormatGreyNoise(enrichment.greynoise))),
           ("VirusTotal", TruncateField(FormatVirusTotal(enrichment.virustotal))),
           ("Shodan", TruncateField(FormatShodan(enrichment.shodan)))],
          "PatriotPot H2 session summary")
  }

  function FieldsLength(fields: seq<(string, string)>): nat {
    if fields == [] then 0 else |fields[0].0| + |fields[0].1| + FieldsLength(fields[1..])
  }

  function TotalLength(e: Embed): nat {
    |e.title| + |e.description| + FieldsLength(e.fields) + |e.footer|
  }

  /** The suspicious commands among `commands`, in order. */
  function SuspiciousOf(commands: seq<string>): seq<string> {
    if commands == [] then [] else
      var before, c := SuspiciousOf(commands[..|commands| - 1]), commands[|commands| - 1];
      if IsSuspicious(c) then before + [c] else before
  }

  predicate Displayable(commands: seq<string>) {
    forall c :: c in commands ==> Presentable(c) && |c| <= MAX_COMMAND_DISPLAY_LENGTH
  }

  /** What every cluster built by record_event satisfies. */
  predicate Built(c: Cluster) {
    && (c.username.Some? ==> |c.username.value| <= 64)
    && (c.password.Some? ==> |c.password.value| <= 64)
    && Displayable(c.commands) && Displayable(c.suspicious)
    && var all := SuspiciousOf(c.commands);
       c.suspicious == if |all| > MAX_NOTABLE_COMMANDS then all[..MAX_NOTABLE_COMMANDS] else all
  }

  lemma SuspiciousSnoc(commands: seq<string>, c: string)
    ensures SuspiciousOf(commands + [c]) == SuspiciousOf(commands) + (if IsSuspicious(c) then [c] else [])
  {
    assert (commands + [c])[..|commands|] == commands;
  }

  lemma CommandBuilt(c: Cluster, command: string, maxCommands: nat)
    requires Built(c) && Presentable(command) && |command| <= MAX_COMMAND_DISPLAY_LENGTH
    ensures Built(WithCommand(c, command, maxCommands))
  {
    hide IsSuspicious, Presentable, SuspiciousOf;
    SuspiciousSnoc(c.commands, command);
  }

  lemma SameBuilt(c: Cluster, c': Cluster)
    requires Built(c) && c'.commands == c.commands && c'.suspicious == c.suspicious
    requires c'.username.Some? ==> |c'.username.value| <= 64
    requires c'.password.Some? ==> |c'.password.value| <= 64
    ensures Built(c')
  {
    hide IsSuspicious, Presentable, SuspiciousOf;
  }

  /** record_event keeps a cluster built: in particular `suspicious` stays the first eight
      suspicious entries of `commands`. */
  lemma RecordedBuilt(c: Cluster, e: Event, now: real, maxCommands: nat)
    requires Built(c)
    ensures Built(Recorded(c, e, now, maxCommands))
  {
    hide IsSuspicious, Sanitize, SuspiciousOf, Displayable, WithCommand, Presentable;
    var t := Touched(c, e, now);
    SameBuilt(c, t);
    if e.eventid == "cowrie.command.input" {
      CommandBuilt(t, Sanitize(Text(e.input), MAX_COMMAND_DISPLAY_LENGTH), maxCommands);
    } else {
      SameBuilt(t, Recorded(c, e, now, maxCommands));
    }
  }

  lemma NewBuilt(key: string, srcIp: string, sessionId: Option<string>, now: real)
    ensures Built(NewCluster(key, srcIp, sessionId, now))
  {
    hide IsSuspicious, Presentable;
  }

  lemma {:induction false} JoinLength(lines: seq<string>)
    requires lines != [] && forall l :: l in lines ==> |l| <= 122
    ensures |Join(lines, "\n")| <= |lines| * 123 - 1
  {
    if |lines| > 1 {
      JoinLength(lines[1..]);
      assert lines[0] in lines;
    }
  }

  lemma {:induction false} QuotedLines(commands: seq<string>)
    requires forall c :: c in commands ==> |c| <= MAX_COMMAND_DISPLAY_LENGTH
    ensures |Quoted(commands)| == |commands|
    ensures forall l :: l in Quoted(commands) ==> |l| <= MAX_COMMAND_DISPLAY_LENGTH + 2
  {
    if commands != [] {
      QuotedLines(commands[1..]);
    }
  }

  /** The notable-commands block is never truncated. */
  lemma NotableFits(c: Cluster)
    requires Built(c)
    ensures |NotableBlock(c)| <= 983 && TruncateField(NotableBlock(c)) == NotableBlock(c)
  {
    hide IsSuspicious, SuspiciousOf, Presentable, Join, Quoted;
    QuotedLines(Notable(c));
    JoinLength(Quoted(Notable(c)));
  }

  function Backticks(s: string): nat {
    if s == [] then 0 else (if s[0] == BACKTICK then 1 else 0) + Backticks(s[1..])
  }

  lemma {:induction false} BackticksConcat(a: string, b: string)
    ensures Backticks(a + b) == Backticks(a) + Backticks(b)
  {
    if a == [] {
      assert a + b == b;
    } else {
      assert (a + b)[1..] == a[1..] + b;
      BackticksConcat(a[1..], b);
    }
  }

  lemma {:induction false} NoBackticks(s: string)
    requires Presentable(s)
    ensures Backticks(s) == 0
  {
    if s != [] {
      assert s[0] in s;
      NoBackticks(s[1..]);
    }
  }

  lemma QuoteBackticks(c: string)
    requires Presentable(c)
    ensures Backticks("`" + c + "`") == 2
  {
    NoBackticks(c);
    BackticksConcat("`" + c, "`");
    BackticksConcat("`", c);
    assert Backticks("`") == 1;
  }

  lemma {:induction false} QuotedBackticks(commands: seq<string>)
    requires forall c :: c in commands ==> Presentable(c)
    ensures Backticks(Join(Quoted(commands), "\n")) == 2 * |commands|
    ensures |Quoted(commands)| == |commands|
  {
    if commands != [] {
      var rest := commands[1..];
      QuotedBackticks(rest);
      QuoteBackticks(commands[0]);
      var q := "`" + commands[0] + "`";
      assert Quoted(commands)[1..] == Quoted(rest);
      if rest == [] {
        assert Join(Quoted(commands), "\n") == q;
      } else {
        BackticksConcat(q + "\n", Join(Quoted(rest), "\n"));
        BackticksConcat(q, "\n");
        assert Backticks("\n") == 0;
      }
    }
  }

  /** Each listed command sits between its own pair of backticks, and there are no others. */
  lemma BackticksBalanced(c: Cluster, enrichment: Enrichment, duration: string)
    requires Built(c)
    ensures Summary(c, enrichment, duration).fields[2] == ("Notable Commands", NotableBlock(c))
    ensures Backticks(NotableBlock(c)) == 2 * |Notable(c)| <= 16
  {
    hide Join, Quoted, Built, AuthBlock, ActivityBlock, Description, FormatGreyNoise, FormatVirusTotal,
        FormatShodan, TruncateField, Presentable, Notable;
    NotableFits(c);
    NotablePresentable(c);
    QuotedBackticks(Notable(c));
  }

  lemma NotablePresentable(c: Cluster)
    requires Built(c)
    ensures |Notable(c)| <= 8 && forall n :: n in Notable(c) ==> Presentable(n)
  {
    hide SuspiciousOf, IsSuspicious;
    assert Presentable("none observed");
  }

  lemma AuthLength(c: Cluster)
    requires Built(c)
    ensures |AuthBlock(c)| <= 170
  {
    hide SuspiciousOf, IsSuspicious, Displayable, OrElse;
    OrElseLength(c.username, 64);
    OrElseLength(c.password, 64);
    var a, b := "Username: " + OrElse(c.username, "unknown"), "Password: " + OrElse(c.password, "unknown");
    JoinThree("Successful login", a, b);
  }

  lemma OrElseLength(s: Option<string>, bound: nat)
    requires s.Some? ==> |s.value| <= bound
    ensures |OrElse(s, "unknown")| <= if bound < 7 then 7 else bound
  {
  }

  lemma JoinThree(a: string, b: string, c: string)
    ensures |Join([a, b, c], "\n")| == |a| + |b| + |c| + 2
  {
    assert [a, b, c][1..] == [b, c] && [b, c][1..] == [c];
    assert Join([b, c], "\n") == b + "\n" + Join([c], "\n");
  }

  /** For every built cluster, whatever the providers returned, the embed fits Discord's limit. */
  lemma {:induction false} EmbedFits(c: Cluster, enrichment: Enrichment, duration: string)
    requires Built(c)
    ensures TotalLength(Summary(c, enrichment, duration)) <= 5700 < MAX_EMBED
  {
    hide Truncate, AuthBlock, ActivityBlock, NotableBlock, Description, FormatGreyNoise, FormatVirusTotal,
        FormatShodan, Built;
    var e := Summary(c, enrichment, duration);
    AuthLength(c);
    NotableFits(c);
    assert |e.title| == 24 && |e.footer| == 29;
    var f := e.fields;
    assert FieldsLength(f[6..]) == 0;
    assert f[1..][1..] == f[2..] && f[2..][1..] == f[3..] && f[3..][1..] == f[4..] && f[4..][1..] == f[5..]
        && f[5..][1..] == f[6..];
    assert FieldsLength(f[5..]) == |f[5].0| + |f[5].1|;
    assert FieldsLength(f[4..]) == |f[4].0| + |f[4].1| + FieldsLength(f[5..]);
    assert FieldsLength(f[3..]) == |f[3].0| + |f[3].1| + FieldsLength(f[4..]);
    assert FieldsLength(f[2..]) == |f[2].0| + |f[2].1| + FieldsLength(f[3..]);
    assert FieldsLength(f[1..]) == |f[1].0| + |f[1].1| + FieldsLength(f[2..]);
  }

  predicate AllBuilt(d: Clusters) {
    forall x :: x in d ==> Built(x.1)
  }

  predicate LedgerBuilt(l: Ledger) {
    AllBuilt(l.active) && AllBuilt(l.flushed) && AllBuilt(l.evicted) && AllBuilt(l.superseded)
  }

  lemma SplitBuilt(d: Clusters, kept: Clusters, gone: Clusters)
    requires AllBuilt(d) && multiset(kept) + multiset(gone) == multiset(d)
    ensures AllBuilt(kept) && AllBuilt(gone)
  {
    hide Built;
    forall x
      ensures x in kept ==> x in d
      ensures x in gone ==> x in d
    {
      assert x in kept ==> x in multiset(d);
      assert x in gone ==> x in multiset(d);
    }
  }

  lemma ObservedBuilt(d: Clusters, e: Event, now: real, limits: Limits)
    requires AllBuilt(d)
    ensures AllBuilt(Observed(d, e, now, limits.window, limits.maxCommands))
  {
    hide Built, Recorded;
    NewBuilt(KeyFor(e), e.srcIp, e.session, now);
    RecordedBuilt(Chosen(d, e, now, limits.window), e, now, limits.maxCommands);
  }

  lemma StoredBuilt(d: Clusters, k: string)
    requires AllBuilt(d)
    ensures Has(d, k) ==> Built(Get(d, k))
  {
    if Has(d, k) {
      assert d[Index(d, k)] in d;
    }
  }

  /** Every cluster the manager ever holds, hands out or overwrites, over any run of observes, flushes,
      evictions, saves and restarts, is built, so its summary fits. */
  lemma {:induction false} EveryClusterBuilt(ops: seq<Op>, limits: Limits)
    ensures LedgerBuilt(Run(ops, limits).live) && LedgerBuilt(Run(ops, limits).saved)
  {
    hide Built, Observed, Unique, Count, DelAll;
    if ops != [] {
      var before, op := Run(ops[..|ops| - 1], limits), ops[|ops| - 1];
      EveryClusterBuilt(ops[..|ops| - 1], limits);
      EventsConserved(ops[..|ops| - 1], limits);
      var d := before.live.active;
      match op
      case Observe(e, now) =>
        ObservedBuilt(d, e, now, limits);
        StoredBuilt(d, KeyFor(e));
      case Flush(now) =>
        FlushSplits(d, now, limits.window, limits.maxAge);
        SplitBuilt(d, FlushedActive(d, now, limits.window, limits.maxAge), ExpiredOf(d, now, limits.window,
            limits.maxAge));
      case Evict =>
        EvictSplits(d, limits.maxActive);
        SplitBuilt(d, DelAll(d, EvictedOf(d, limits.maxActive)), EvictedOf(d, limits.maxActive));
      case Save =>
      case Restart =>
    }
  }
}
