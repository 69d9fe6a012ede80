/** What a session summary shows, field by field (native/session_cluster.py:277-418). */
module EmbedContents {
  import opened Options
  import opened Display
  import opened SessionClusters
  import opened SessionEmbed
  import ObjectKeys

  /** A text that may be missing. */
  function Or(s: Option<string>, default: string): string {
    match s case None => default case Some(text) => if text == "" then default else text
  }

  /** At most 1000 characters. */
  function Cut(text: string): string {
    if |text| <= 1000 then text else text[..999] + ['\U{2026}']
  }

  lemma CutIs(text: string)
    ensures TruncateField(text) == Cut(text)
  {
  }

  function TwoLines(a: string, b: string): string {
    a + "\n" + b
  }

  /** Lines joined by line breaks. */
  lemma JoinLines(a: string, b: string, c: string, d: string)
    ensures Join([a, b, c], "\n") == TwoLines(a, TwoLines(b, c))
    ensures Join([a, b, c, d], "\n") == TwoLines(a, TwoLines(b, TwoLines(c, d)))
  {
    assert [a, b, c][1..] == [b, c] && [b, c][1..] == [c] && [a, b, c, d][1..] == [b, c, d];
    assert [b, c, d][1..] == [c, d] && [c, d][1..] == [d];
    assert Join([c], "\n") == c && Join([d], "\n") == d;
    assert Join([b, c], "\n") == b + "\n" + c && Join([c, d], "\n") == c + "\n" + d;
    assert Join([b, c, d], "\n") == b + "\n" + Join([c, d], "\n");
  }

  /** Who the session was, and how busy. */
  lemma {:induction false} ShowsSession(c: Cluster, enrichment: Enrichment, duration: string)
    ensures var e := Summary(c, enrichment, duration);
      && e.title == "\U{1F6A8} ATTACK SESSION SUMMARY" && e.footer == "PatriotPot H2 session summary"
      && e.color == (if c.authenticated then 0xFF0000 else 0xFF6600)
      && e.description == Cut(
           "IP: `" + Sanitize(c.srcIp, 64) + "`\nSession: `" + Sanitize(Or(c.sessionId, "n/a"), 64)
           + "`\nDuration: " + duration + "\nRaw Events: " + ObjectKeys.Dec(c.rawEventCount)
           + "\nFirst Seen: " + Or(c.firstSeen, "unknown") + "\nLast Seen: " + Or(c.lastSeen, "unknown"))
      && |e.fields| == 6
      && e.fields[1] == ("Activity", Cut(
           TwoLines("Commands: " + ObjectKeys.Dec(|c.commands|),
           TwoLines("Suspicious Commands: " + ObjectKeys.Dec(|c.suspicious|),
           TwoLines("Files Downloaded: " + ObjectKeys.Dec(|c.downloaded|),
                    "Files Uploaded: " + ObjectKeys.Dec(|c.uploaded|))))))
  {
    hide TwoLines, OrElse, Or, Built, Sanitize, Join, ObjectKeys.Dec, TruncateField, Cut, AuthBlock, NotableBlock,
      FormatGreyNoise, FormatVirusTotal, FormatShodan;
    CutIs(Description(c, duration));
    CutIs(ActivityBlock(c));
    JoinLines("Commands: " + ObjectKeys.Dec(|c.commands|), "Suspicious Commands: " + ObjectKeys.Dec(|c.suspicious|),
      "Files Downloaded: " + ObjectKeys.Dec(|c.downloaded|), "Files Uploaded: " + ObjectKeys.Dec(|c.uploaded|));
    SameText(c, duration);
  }

  lemma SameText(c: Cluster, duration: string)
    ensures OrElse(c.sessionId, "n/a") == Or(c.sessionId, "n/a")
    ensures OrElse(c.firstSeen, "unknown") == Or(c.firstSeen, "unknown")
    ensures OrElse(c.lastSeen, "unknown") == Or(c.lastSeen, "unknown")
    ensures OrElse(c.username, "unknown") == Or(c.username, "unknown")
    ensures OrElse(c.password, "unknown") == Or(c.password, "unknown")
  {
  }

  /** A login is shown with its credentials, uncut, and only a session without one says so. */
  lemma {:induction false} ShowsLogin(c: Cluster, enrichment: Enrichment, duration: string)
    requires Built(c)
    ensures Summary(c, enrichment, duration).fields[0] == ("Authentication",
      if c.authenticated then
        TwoLines("Successful login",
        TwoLines("Username: " + Or(c.username, "unknown"), "Password: " + Or(c.password, "unknown")))
      else "No successful login observed")
  {
    hide Sanitize, Join, TruncateField, ActivityBlock, NotableBlock, FormatGreyNoise, FormatVirusTotal, FormatShodan,
      Description, Cut, Built, OrElse, Or, TwoLines;
    AuthLength(c);
    CutIs(AuthBlock(c));
    Uncut(AuthBlock(c));
    JoinLines("Successful login", "Username: " + OrElse(c.username, "unknown"),
      "Password: " + OrElse(c.password, "unknown"), "");
    SameText(c, duration);
  }

  lemma Uncut(text: string)
    ensures |text| <= 1000 ==> Cut(text) == text
  {
  }

  /** The suspicious commands stand one to a line, each between backticks; there are never more than eight. */
  lemma {:induction false} ShowsCommands(c: Cluster, enrichment: Enrichment, duration: string)
    requires Built(c)
    ensures |c.suspicious| <= 8
    ensures Summary(c, enrichment, duration).fields[2] == ("Notable Commands",
      if c.suspicious == [] then "`none observed`" else Lines(c.suspicious))
  {
    hide Sanitize, Join, TruncateField, ActivityBlock, AuthBlock, FormatGreyNoise, FormatVirusTotal, FormatShodan,
      Description, SuspiciousOf, IsSuspicious, Displayable, Quoted, Lines;
    NotableFits(c);
    QuotedLinesAre(Notable(c));
    OneLine("none observed");
    assert "`" + "none observed" + "`" == "`none observed`";
  }

  function Lines(commands: seq<string>): string {
    if commands == [] then "" else
      var n := |commands| - 1;
      (if n == 0 then "" else Lines(commands[..n]) + "\n") + "`" + commands[n] + "`"
  }

  lemma OneLine(command: string)
    ensures Lines([command]) == "`" + command + "`"
  {
    assert "" + "`" == "`";
  }

  lemma {:induction false} LinesCons(command: string, rest: seq<string>)
    requires rest != []
    ensures Lines([command] + rest) == "`" + command + "`" + "\n" + Lines(rest)
  {
    var all, n := [command] + rest, |rest| - 1;
    assert all[..|all| - 1] == [command] + rest[..n] && all[|all| - 1] == rest[n];
    if n == 0 {
      assert all[..|all| - 1] == [command];
      OneLine(command);
      OneLine(rest[0]);
      assert rest == [rest[0]];
      assert Lines(all) == Lines([command]) + "\n" + "`" + rest[0] + "`";
      assert Lines(all) == "`" + command + "`" + "\n" + ("`" + rest[0] + "`");
    } else {
      LinesCons(command, rest[..n]);
      assert Lines(all) == "`" + command + "`" + "\n" + (Lines(rest[..n]) + "\n" + "`" + rest[n] + "`");
    }
  }

  lemma {:induction false} QuotedLinesAre(commands: seq<string>)
    requires commands != []
    ensures Join(Quoted(commands), "\n") == Lines(commands)
  {
    var rest := commands[1..];
    assert commands == [commands[0]] + rest;
    if rest == [] {
      assert Quoted(rest) == [];
      OneLine(commands[0]);
      assert Quoted(commands) == ["`" + commands[0] + "`"];
    } else {
      QuotedLinesAre(rest);
      LinesCons(commands[0], rest);
      assert Quoted(commands)[1..] == Quoted(rest);
      assert Quoted(rest) != [];
    }
  }

  /** One value of a provider, sanitised, or a default where it is missing. */
  function Shown(value: Option<string>, default: string): string {
    match value case None => default case Some(text) => if text == "" then default else Sanitize(text, 200)
  }

  /** The texts of a list, each sanitised, and the whole again. */
  function ShownList(values: seq<string>, separator: string): string {
    if values == [] then "none" else Sanitize(Separated(values, separator), 200)
  }

  function Separated(values: seq<string>, separator: string): string {
    if values == [] then "" else
      var n := |values| - 1;
      (if n == 0 then "" else Separated(values[..n], separator) + separator) + Sanitize(values[n], 64)
  }

  lemma {:induction false} SeparatedCons(value: string, rest: seq<string>, separator: string)
    requires rest != []
    ensures Separated([value] + rest, separator) == Sanitize(value, 64) + separator + Separated(rest, separator)
  {
    hide Sanitize;
    var all, n := [value] + rest, |rest| - 1;
    assert all[..|all| - 1] == [value] + rest[..n] && all[|all| - 1] == rest[n];
    if n == 0 {
      assert all[..|all| - 1] == [value] && rest == [rest[0]];
      assert Separated([value], separator) == Sanitize(value, 64);
      assert Separated(rest, separator) == Sanitize(rest[0], 64);
    } else {
      SeparatedCons(value, rest[..n], separator);
      assert Separated(all, separator)
        == Sanitize(value, 64) + separator + (Separated(rest[..n], separator) + separator + Sanitize(rest[n], 64));
    }
  }

  lemma {:induction false} SeparatedIs(values: seq<string>, separator: string)
    ensures Join(SanitizeAll(values), separator) == Separated(values, separator)
  {
    hide Sanitize;
    if values != [] {
      var rest := values[1..];
      assert values == [values[0]] + rest;
      SeparatedIs(rest, separator);
      assert SanitizeAll(values)[1..] == SanitizeAll(rest);
      if rest == [] {
        assert SanitizeAll(values) == [Sanitize(values[0], 64)];
      } else {
        SeparatedCons(values[0], rest, separator);
        assert SanitizeAll(rest) != [];
      }
    }
  }

  lemma ShownIs(value: Option<string>, default: string)
    ensures Scalar(value, default) == Shown(value, default)
  {
    hide Sanitize;
  }

  lemma ShownListIs(values: seq<string>, separator: string)
    ensures SessionEmbed.Listed(values, separator) == ShownList(values, separator)
  {
    hide Sanitize, Join, SanitizeAll;
    SeparatedIs(values, separator);
  }

  /** What a provider's field says when it did not answer: nothing was asked, or its status. */
  function Unanswered(e: Option<Envelope>): string {
    match e case None => "unavailable" case Some(envelope) => Shown(envelope.status, "unavailable")
  }

  predicate Ok(e: Option<Envelope>) {
    e.Some? && e.value.status == Some("ok")
  }

  /** Each provider's field shows that provider's own values, and its status when that is not "ok". */
  lemma {:induction false} ShowsProviders(c: Cluster, enrichment: Enrichment, duration: string)
    ensures var fields, g, v, s :=
        Summary(c, enrichment, duration).fields, enrichment.greynoise, enrichment.virustotal, enrichment.shodan;
      && fields[3] == ("GreyNoise", if !Ok(g) then Unanswered(g) else
           "Classification: " + Shown(g.value.classification, "unknown")
           + "\nActor: " + Shown(g.value.actor, "unknown") + "\nTags: " + ShownList(g.value.tags, ", "))
      && fields[4] == ("VirusTotal", if !Ok(v) then Unanswered(v) else
           "Malicious: " + Shown(v.value.malicious, "0") + "\nSuspicious: " + Shown(v.value.suspicious, "0")
           + "\nASN: " + Shown(v.value.asn, "unknown") + "\nOwner: " + Shown(v.value.owner, "unknown"))
      && fields[5] == ("Shodan", if !Ok(s) then Unanswered(s) else
           "Org: " + Shown(s.value.org, "unknown") + "\nPorts: " + ShownList(s.value.ports, ",")
           + "\nProducts: " + ShownList(s.value.products, ", ") + "\nVulns: " + ShownList(s.value.vulns, ", "))
  {
    hide TruncateField, Description, AuthBlock, ActivityBlock, NotableBlock, FormatGreyNoise, FormatVirusTotal,
      FormatShodan, Shown, ShownList, Unanswered;
    GreyNoiseIs(enrichment.greynoise);
    VirusTotalIs(enrichment.virustotal);
    ShodanIs(enrichment.shodan);
    Fits(FormatGreyNoise(enrichment.greynoise));
    Fits(FormatVirusTotal(enrichment.virustotal));
    Fits(FormatShodan(enrichment.shodan));
  }

  lemma Fits(text: string)
    ensures |text| <= 1000 ==> TruncateField(text) == text
  {
  }

  lemma GreyNoiseIs(g: Option<Envelope>)
    ensures FormatGreyNoise(g) == if !Ok(g) then Unanswered(g) else
      "Classification: " + Shown(g.value.classification, "unknown")
      + "\nActor: " + Shown(g.value.actor, "unknown") + "\nTags: " + ShownList(g.value.tags, ", ")
  {
    hide Scalar, SessionEmbed.Listed, Shown, ShownList;
    if g.Some? {
      ShownIs(g.value.status, "unavailable");
      ShownIs(g.value.classification, "unknown");
      ShownIs(g.value.actor, "unknown");
      ShownListIs(g.value.tags, ", ");
    }
  }

  lemma VirusTotalIs(v: Option<Envelope>)
    ensures FormatVirusTotal(v) == if !Ok(v) then Unanswered(v) else
      "Malicious: " + Shown(v.value.malicious, "0") + "\nSuspicious: " + Shown(v.value.suspicious, "0")
      + "\nASN: " + Shown(v.value.asn, "unknown") + "\nOwner: " + Shown(v.value.owner, "unknown")
  {
    hide Scalar, Shown;
    if v.Some? {
      ShownIs(v.value.status, "unavailable");
      ShownIs(v.value.malicious, "0");
      ShownIs(v.value.suspicious, "0");
      ShownIs(v.value.asn, "unknown");
      ShownIs(v.value.owner, "unknown");
    }
  }

  lemma ShodanIs(s: Option<Envelope>)
    ensures FormatShodan(s) == if !Ok(s) then Unanswered(s) else
      "Org: " + Shown(s.value.org, "unknown") + "\nPorts: " + ShownList(s.value.ports, ",")
      + "\nProducts: " + ShownList(s.value.products, ", ") + "\nVulns: " + ShownList(s.value.vulns, ", ")
  {
    hide Scalar, SessionEmbed.Listed, Shown, ShownList;
    if s.Some? {
      ShownIs(s.value.status, "unavailable");
      ShownIs(s.value.org, "unknown");
      ShownListIs(s.value.ports, ",");
      ShownListIs(s.value.products, ", ");
      ShownListIs(s.value.vulns, ", ");
    }
  }
}
