/** The clusters as running summaries of the events they stand for (native/session_cluster.py:71-260). A
    second machine keeps, for each source, the list of all its events instead of a summary; every cluster
    the manager holds, hands out, overwrites or saves is the portrait of such a list. */
module SessionMembers {
  import opened Options
  import opened OrderedDict
  import opened Display
  import opened SessionClusters
  import SessionEmbed

  /** What clusters are told apart by: a session that has a name, or else an address. */
  datatype Source = BySession(id: string) | ByAddress(ip: string)

  function SourceOf(e: Event): Source {
    match e.session
    case Some(id) => if id == "" then ByAddress(e.srcIp) else BySession(id)
    case None => ByAddress(e.srcIp)
  }

  function Printed(s: Source): string {
    match s
    case BySession(id) => "session:" + id
    case ByAddress(ip) => "ip:" + ip
  }

  lemma PrintedInjective(s: Source, t: Source)
    ensures Printed(s) == Printed(t) <==> s == t
  {
    assert Printed(s)[0] == if s.BySession? then 's' else 'i';
    assert Printed(t)[0] == if t.BySession? then 's' else 'i';
    assert s.BySession? ==> Printed(s)[8..] == s.id;
    assert t.BySession? ==> Printed(t)[8..] == t.id;
    assert s.ByAddress? ==> Printed(s)[3..] == s.ip;
    assert t.ByAddress? ==> Printed(t)[3..] == t.ip;
  }

  predicate Nameless(e: Event) {
    e.session.None? || e.session.value == ""
  }

  lemma KeyPrinted(e: Event)
    ensures KeyFor(e) == Printed(SourceOf(e))
  {
  }

  /** Two events share a cluster key exactly when they name the same session, or when neither names one and
      they come from the same address. */
  lemma SameKey(e: Event, f: Event)
    ensures KeyFor(e) == KeyFor(f) <==>
      || (!Nameless(e) && !Nameless(f) && e.session.value == f.session.value)
      || (Nameless(e) && Nameless(f) && e.srcIp == f.srcIp)
  {
    hide Printed;
    KeyPrinted(e);
    KeyPrinted(f);
    PrintedInjective(SourceOf(e), SourceOf(f));
  }

  datatype Sighting = Sighting(event: Event, at: real)

  const NOTHING := Event(None, "", "", None, None, None, None, None, None)

  type Members = ms: seq<Sighting> | ms != [] witness [Sighting(NOTHING, 0.0)]

  /** The events of one kind, in order. */
  function Of(ms: seq<Sighting>, kind: string): seq<Event> {
    if ms == [] then [] else
      var n := |ms| - 1;
      Of(ms[..n], kind) + (if ms[n].event.eventid == kind then [ms[n].event] else [])
  }

  /** The timestamps that are not empty, in order. */
  function Times(ms: seq<Sighting>): seq<string> {
    if ms == [] then [] else
      var n := |ms| - 1;
      var t := ms[n].event.timestamp;
      Times(ms[..n]) + (if t.Some? && t.value != "" then [t.value] else [])
  }

  function Firsts(xs: seq<string>, n: nat): seq<string> {
    if |xs| <= n then xs else xs[..n]
  }

  function First(xs: seq<string>): Option<string> {
    if xs == [] then None else Some(xs[0])
  }

  function Last(xs: seq<string>): Option<string> {
    if xs == [] then None else Some(xs[|xs| - 1])
  }

  /** The texts of these events as the cluster shows them. */
  function Shown(es: seq<Event>, text: Event -> Option<string>, length: nat): (r: seq<string>)
    requires length > 0
    ensures |r| == |es|
  {
    if es == [] then [] else
      var n := |es| - 1;
      Shown(es[..n], text, length) + [Sanitize(if text(es[n]).Some? then text(es[n]).value else "", length)]
  }

  function Username(e: Event): Option<string> { e.username }

  function Password(e: Event): Option<string> { e.password }

  function Input(e: Event): Option<string> { e.input }

  /** The url, unless it is empty. */
  function Download(e: Event): Option<string> {
    if e.url.Some? && e.url.value != "" then e.url else e.filename
  }

  function Upload(e: Event): Option<string> { e.filename }

  /** A cluster begun by `head` once it has recorded these events. */
  function Sketch(head: Sighting, ms: seq<Sighting>, maxCommands: nat): Cluster {
    var last := if ms == [] then head else ms[|ms| - 1];
    var logins := Of(ms, "cowrie.login.success");
    var commands := Firsts(Shown(Of(ms, "cowrie.command.input"), Input, 120), maxCommands);
    Cluster(Printed(SourceOf(head.event)), head.event.srcIp, head.event.session, head.at, last.at,
            First(Times(ms)), Last(Times(ms)), |ms|,
            logins != [], Last(Shown(logins, Username, 64)), Last(Shown(logins, Password, 64)),
            commands, Firsts(SessionEmbed.SuspiciousOf(commands), 8),
            Firsts(Shown(Of(ms, "cowrie.session.file_download"), Download, 120), maxCommands),
            Firsts(Shown(Of(ms, "cowrie.session.file_upload"), Upload, 120), maxCommands), {})
  }

  /** What a cluster of these events looks like: named after the first one, alive from the first to the
      last, and showing the first and last timestamp, the credentials of the last login, the first commands,
      the first eight suspicious ones among those, and the first downloads and uploads. */
  function Portrait(ms: Members, maxCommands: nat): Cluster {
    Sketch(ms[0], ms, maxCommands)
  }

  // The second machine.

  type Groups = Dict<Source, Members>

  datatype Memory = Memory(active: Groups, flushed: Groups, evicted: Groups, superseded: Groups, seen: seq<Sighting>)

  /** The live lists and those of the last save. */
  datatype Archive = Archive(live: Memory, saved: Memory)

  const NoMemory := Memory([], [], [], [], [])

  function Later(ms: Members, m: Sighting): Members {
    ms + [m]
  }

  function Held(d: Groups, s: Source): Members
    requires Has(d, s)
  {
    Get<Source, Members>(d, s)
  }

  function LastAt(ms: Members): real {
    ms[|ms| - 1].at
  }

  /** A list that the next event of its source does not continue: of an address, and silent for too long. */
  predicate Closed(d: Groups, m: Sighting, window: real) {
    && Has(d, SourceOf(m.event)) && SourceOf(m.event).ByAddress?
    && m.at - LastAt(Held(d, SourceOf(m.event))) > window
  }

  function Remember(d: Groups, m: Sighting, window: real): Groups {
    var s := SourceOf(m.event);
    if Has(d, s) && !Closed(d, m, window) then Put<Source, Members>(d, s, Later(Held(d, s), m))
    else Put<Source, Members>(d, s, [m])
  }

  /** Silent for longer than the window, or begun longer ago than the age limit. */
  predicate Old(ms: Members, now: real, limits: Limits) {
    now - LastAt(ms) > limits.window || now - ms[0].at > limits.maxAge
  }

  function OldOf(d: Groups, now: real, limits: Limits): Groups {
    if d == [] then [] else (if Old(d[0].1, now, limits) then [d[0]] else []) + OldOf(d[1..], now, limits)
  }

  function LastRank(entry: (Source, Members)): real {
    LastAt(entry.1)
  }

  function Recall(a: Archive, op: Op, limits: Limits): Archive {
    var l := a.live;
    match op
    case Observe(e, now) =>
      var m := Sighting(e, now);
      a.(live := l.(active := Remember(l.active, m, limits.window),
                    superseded := if Closed(l.active, m, limits.window)
                                  then l.superseded + [(SourceOf(e), Held(l.active, SourceOf(e)))] else l.superseded,
                    seen := l.seen + [m]))
    case Flush(now) =>
      var gone := OldOf(l.active, now, limits);
      a.(live := l.(active := DelAll(l.active, gone), flushed := l.flushed + gone))
    case Evict =>
      var gone := Overflow(l.active, limits.maxActive, LastRank);
      a.(live := l.(active := DelAll(l.active, gone), evicted := l.evicted + gone))
    case Save => a.(saved := l)
    case Restart => a.(live := a.saved)
  }

  function Recalled(ops: seq<Op>, limits: Limits): Archive {
    if ops == [] then Archive(NoMemory, NoMemory)
    else Recall(Recalled(ops[..|ops| - 1], limits), ops[|ops| - 1], limits)
  }

  /** The dict of the portraits. */
  function Pictured(d: Groups, maxCommands: nat): (r: Clusters)
    ensures |r| == |d|
    ensures forall i :: 0 <= i < |d| ==> r[i] == (Printed(d[i].0), Portrait(d[i].1, maxCommands))
  {
    seq(|d|, i requires 0 <= i < |d| => (Printed(d[i].0), Portrait(d[i].1, maxCommands)))
  }

  function PicturedLedger(l: Memory, maxCommands: nat): Ledger {
    Ledger(Pictured(l.active, maxCommands), Pictured(l.flushed, maxCommands), Pictured(l.evicted, maxCommands),
           Pictured(l.superseded, maxCommands), |l.seen|)
  }

  // One more event.

  lemma OfSnoc(ms: seq<Sighting>, m: Sighting, kind: string)
    ensures Of(ms + [m], kind) == if m.event.eventid == kind then Of(ms, kind) + [m.event] else Of(ms, kind)
  {
    assert (ms + [m])[..|ms|] == ms;
  }

  lemma TimesSnoc(ms: seq<Sighting>, m: Sighting)
    ensures Times(ms + [m]) ==
      if Truthy(m.event.timestamp) then Times(ms) + [m.event.timestamp.value] else Times(ms)
  {
    assert (ms + [m])[..|ms|] == ms;
  }

  lemma ShownSnoc(es: seq<Event>, e: Event, text: Event -> Option<string>, length: nat)
    requires length > 0
    ensures Shown(es + [e], text, length)
      == Shown(es, text, length) + [Sanitize(if text(e).Some? then text(e).value else "", length)]
  {
    assert (es + [e])[..|es|] == es;
  }

  /** The texts of one kind with one more event. */
  lemma ShownOf(ms: seq<Sighting>, m: Sighting, kind: string, text: Event -> Option<string>, length: nat)
    requires length > 0
    ensures Shown(Of(ms + [m], kind), text, length) ==
      if m.event.eventid != kind then Shown(Of(ms, kind), text, length)
      else Shown(Of(ms, kind), text, length)
           + [Sanitize(if text(m.event).Some? then text(m.event).value else "", length)]
    ensures Of(ms + [m], kind) == [] <==> Of(ms, kind) == [] && m.event.eventid != kind
  {
    hide Sanitize, Shown;
    OfSnoc(ms, m, kind);
    ShownSnoc(Of(ms, kind), m.event, text, length);
  }

  lemma FirstsSnoc(xs: seq<string>, x: string, n: nat)
    ensures Firsts(xs + [x], n) == if |Firsts(xs, n)| < n then Firsts(xs, n) + [x] else Firsts(xs, n)
  {
  }

  lemma TouchedSketch(head: Sighting, ms: seq<Sighting>, e: Event, now: real, maxCommands: nat)
    ensures var all := ms + [Sighting(e, now)];
      Touched(Sketch(head, ms, maxCommands), e, now) ==
        Sketch(head, ms, maxCommands).(lastActivityAt := now, rawEventCount := |all|, firstSeen := First(Times(all)),
                                       lastSeen := Last(Times(all)))
  {
    hide Of, Times, Shown, Firsts, Printed, SourceOf, SessionEmbed.SuspiciousOf;
    TimesSnoc(ms, Sighting(e, now));
  }

  /** What the cluster shows of the other kinds does not change. */
  lemma SameShown(ms: seq<Sighting>, m: Sighting, kind: string, text: Event -> Option<string>, length: nat)
    requires length > 0 && m.event.eventid != kind
    ensures Of(ms + [m], kind) == Of(ms, kind)
    ensures Shown(Of(ms + [m], kind), text, length) == Shown(Of(ms, kind), text, length)
  {
    hide Shown;
    OfSnoc(ms, m, kind);
  }

  lemma LoginSketch(c: Cluster, head: Sighting, ms: seq<Sighting>, e: Event, now: real, maxCommands: nat)
    requires e.eventid == "cowrie.login.success" && c == Touched(Sketch(head, ms, maxCommands), e, now)
    ensures Classified(c, e, maxCommands) == Sketch(head, ms + [Sighting(e, now)], maxCommands)
  {
    hide Sanitize, Of, Times, Shown, Firsts, Printed, SourceOf, SessionEmbed.SuspiciousOf, Touched;
    var m := Sighting(e, now);
    TouchedSketch(head, ms, e, now, maxCommands);
    ShownOf(ms, m, "cowrie.login.success", Username, 64);
    ShownOf(ms, m, "cowrie.login.success", Password, 64);
    SameShown(ms, m, "cowrie.command.input", Input, 120);
    SameShown(ms, m, "cowrie.session.file_download", Download, 120);
    SameShown(ms, m, "cowrie.session.file_upload", Upload, 120);
  }

  lemma CommandSketch(c: Cluster, head: Sighting, ms: seq<Sighting>, e: Event, now: real, maxCommands: nat)
    requires e.eventid == "cowrie.command.input" && c == Touched(Sketch(head, ms, maxCommands), e, now)
    ensures Classified(c, e, maxCommands) == Sketch(head, ms + [Sighting(e, now)], maxCommands)
  {
    hide Sanitize, Of, Times, Shown, Firsts, Printed, SourceOf, SessionEmbed.SuspiciousOf, Touched, IsSuspicious;
    var m := Sighting(e, now);
    TouchedSketch(head, ms, e, now, maxCommands);
    SameShown(ms, m, "cowrie.login.success", Username, 64);
    SameShown(ms, m, "cowrie.login.success", Password, 64);
    ShownOf(ms, m, "cowrie.command.input", Input, 120);
    SameShown(ms, m, "cowrie.session.file_download", Download, 120);
    SameShown(ms, m, "cowrie.session.file_upload", Upload, 120);
    var commands, command := Shown(Of(ms, "cowrie.command.input"), Input, 120), Sanitize(Text(e.input), 120);
    FirstsSnoc(commands, command, maxCommands);
    SessionEmbed.SuspiciousSnoc(Firsts(commands, maxCommands), command);
    assert SessionEmbed.SuspiciousOf(Firsts(commands, maxCommands)) + []
      == SessionEmbed.SuspiciousOf(Firsts(commands, maxCommands));
    FirstsSnoc(SessionEmbed.SuspiciousOf(Firsts(commands, maxCommands)), command, 8);
  }

  lemma DownloadSketch(c: Cluster, head: Sighting, ms: seq<Sighting>, e: Event, now: real, maxCommands: nat)
    requires e.eventid == "cowrie.session.file_download" && c == Touched(Sketch(head, ms, maxCommands), e, now)
    ensures Classified(c, e, maxCommands) == Sketch(head, ms + [Sighting(e, now)], maxCommands)
  {
    hide Sanitize, Of, Times, Shown, Firsts, Printed, SourceOf, SessionEmbed.SuspiciousOf, Touched;
    var m := Sighting(e, now);
    TouchedSketch(head, ms, e, now, maxCommands);
    SameShown(ms, m, "cowrie.login.success", Username, 64);
    SameShown(ms, m, "cowrie.login.success", Password, 64);
    SameShown(ms, m, "cowrie.command.input", Input, 120);
    ShownOf(ms, m, "cowrie.session.file_download", Download, 120);
    SameShown(ms, m, "cowrie.session.file_upload", Upload, 120);
    FirstsSnoc(Shown(Of(ms, "cowrie.session.file_download"), Download, 120), Sanitize(SessionClusters.Source(e), 120),
      maxCommands);
  }

  lemma UploadSketch(c: Cluster, head: Sighting, ms: seq<Sighting>, e: Event, now: real, maxCommands: nat)
    requires e.eventid == "cowrie.session.file_upload" && c == Touched(Sketch(head, ms, maxCommands), e, now)
    ensures Classified(c, e, maxCommands) == Sketch(head, ms + [Sighting(e, now)], maxCommands)
  {
    hide Sanitize, Of, Times, Shown, Firsts, Printed, SourceOf, SessionEmbed.SuspiciousOf, Touched;
    var m := Sighting(e, now);
    TouchedSketch(head, ms, e, now, maxCommands);
    SameShown(ms, m, "cowrie.login.success", Username, 64);
    SameShown(ms, m, "cowrie.login.success", Password, 64);
    SameShown(ms, m, "cowrie.command.input", Input, 120);
    SameShown(ms, m, "cowrie.session.file_download", Download, 120);
    ShownOf(ms, m, "cowrie.session.file_upload", Upload, 120);
    FirstsSnoc(Shown(Of(ms, "cowrie.session.file_upload"), Upload, 120), Sanitize(Text(e.filename), 120), maxCommands);
  }

  lemma OtherSketch(c: Cluster, head: Sighting, ms: seq<Sighting>, e: Event, now: real, maxCommands: nat)
    requires e.eventid != "cowrie.login.success" && e.eventid != "cowrie.command.input"
    requires e.eventid != "cowrie.session.file_download" && e.eventid != "cowrie.session.file_upload"
    requires c == Touched(Sketch(head, ms, maxCommands), e, now)
    ensures Classified(c, e, maxCommands) == Sketch(head, ms + [Sighting(e, now)], maxCommands)
  {
    hide Sanitize, Of, Times, Shown, Firsts, Printed, SourceOf, SessionEmbed.SuspiciousOf, Touched;
    var m := Sighting(e, now);
    TouchedSketch(head, ms, e, now, maxCommands);
    SameShown(ms, m, "cowrie.login.success", Username, 64);
    SameShown(ms, m, "cowrie.login.success", Password, 64);
    SameShown(ms, m, "cowrie.command.input", Input, 120);
    SameShown(ms, m, "cowrie.session.file_download", Download, 120);
    SameShown(ms, m, "cowrie.session.file_upload", Upload, 120);
  }

  /** Recording an event in a sketch gives the sketch with that event. */
  lemma {:induction false} RecordedSketch(head: Sighting, ms: seq<Sighting>, e: Event, now: real, maxCommands: nat)
    ensures Recorded(Sketch(head, ms, maxCommands), e, now, maxCommands)
      == Sketch(head, ms + [Sighting(e, now)], maxCommands)
  {
    hide Touched, Classified, Sketch;
    var c := Touched(Sketch(head, ms, maxCommands), e, now);
    if e.eventid == "cowrie.login.success" {
      LoginSketch(c, head, ms, e, now, maxCommands);
    } else if e.eventid == "cowrie.command.input" {
      CommandSketch(c, head, ms, e, now, maxCommands);
    } else if e.eventid == "cowrie.session.file_download" {
      DownloadSketch(c, head, ms, e, now, maxCommands);
    } else if e.eventid == "cowrie.session.file_upload" {
      UploadSketch(c, head, ms, e, now, maxCommands);
    } else {
      OtherSketch(c, head, ms, e, now, maxCommands);
    }
  }

  lemma RecordedPortrait(ms: Members, e: Event, now: real, maxCommands: nat)
    ensures Recorded(Portrait(ms, maxCommands), e, now, maxCommands)
      == Portrait(Later(ms, Sighting(e, now)), maxCommands)
  {
    hide Recorded, Sketch;
    RecordedSketch(ms[0], ms, e, now, maxCommands);
  }

  lemma NewPortrait(e: Event, now: real, maxCommands: nat)
    ensures Recorded(NewCluster(KeyFor(e), e.srcIp, e.session, now), e, now, maxCommands)
      == Portrait([Sighting(e, now)], maxCommands)
  {
    hide Recorded, Printed, SourceOf;
    var m := Sighting(e, now);
    KeyPrinted(e);
    assert NewCluster(KeyFor(e), e.srcIp, e.session, now) == Sketch(m, [], maxCommands);
    RecordedSketch(m, [], e, now, maxCommands);
    assert [] + [m] == [m];
  }

  // The dict of portraits moves as the dict of lists does.

  lemma IndexPictured(d: Groups, s: Source, maxCommands: nat)
    ensures Index(Pictured(d, maxCommands), Printed(s)) == Index(d, s)
    ensures Has(Pictured(d, maxCommands), Printed(s)) == Has(d, s)
  {
    hide Printed, Portrait;
    var p := Pictured(d, maxCommands);
    forall i | 0 <= i < |d|
      ensures p[i].0 == Printed(s) <==> d[i].0 == s
    {
      PrintedInjective(d[i].0, s);
    }
    var i, j := Index(p, Printed(s)), Index(d, s);
    assert i < |d| ==> d[i].0 == s;
    assert j < |d| ==> p[j].0 == Printed(s);
  }

  lemma PutPictured(d: Groups, s: Source, ms: Members, maxCommands: nat)
    ensures Put(Pictured(d, maxCommands), Printed(s), Portrait(ms, maxCommands))
      == Pictured(Put<Source, Members>(d, s, ms), maxCommands)
  {
    hide Printed, Portrait, Index;
    IndexPictured(d, s, maxCommands);
  }

  lemma DelPictured(d: Groups, s: Source, maxCommands: nat)
    ensures Del(Pictured(d, maxCommands), Printed(s)) == Pictured(Del(d, s), maxCommands)
  {
    hide Printed, Portrait, Index;
    IndexPictured(d, s, maxCommands);
  }

  lemma {:induction false} DelAllPictured(d: Groups, gone: Groups, maxCommands: nat)
    ensures DelAll(Pictured(d, maxCommands), Pictured(gone, maxCommands)) == Pictured(DelAll(d, gone), maxCommands)
    decreases |gone|
  {
    hide Printed, Portrait, Del;
    if gone != [] {
      DelPictured(d, gone[0].0, maxCommands);
      assert Pictured(gone, maxCommands)[1..] == Pictured(gone[1..], maxCommands);
      DelAllPictured(Del(d, gone[0].0), gone[1..], maxCommands);
    }
  }

  lemma {:induction false} OldPictured(d: Groups, now: real, limits: Limits)
    ensures ExpiredOf(Pictured(d, limits.maxCommands), now, limits.window, limits.maxAge)
      == Pictured(OldOf(d, now, limits), limits.maxCommands)
  {
    hide Printed, Of, Times, Shown, Firsts, SourceOf;
    if d != [] {
      assert Pictured(d, limits.maxCommands)[1..] == Pictured(d[1..], limits.maxCommands);
      OldPictured(d[1..], now, limits);
    }
  }

  lemma RankPictured(entry: (Source, Members), maxCommands: nat)
    ensures ActivityRank((Printed(entry.0), Portrait(entry.1, maxCommands))) == LastRank(entry)
  {
    hide Printed, Of, Times, Shown, Firsts, SourceOf;
  }

  lemma {:induction false} InsertPictured(d: Groups, x: (Source, Members), maxCommands: nat)
    ensures Insert(Pictured(d, maxCommands), (Printed(x.0), Portrait(x.1, maxCommands)), ActivityRank)
      == Pictured(Insert(d, x, LastRank), maxCommands)
  {
    hide Printed, Portrait, ActivityRank, LastRank;
    if d != [] {
      var n := |d| - 1;
      RankPictured(d[n], maxCommands);
      RankPictured(x, maxCommands);
      assert Pictured(d, maxCommands)[..n] == Pictured(d[..n], maxCommands);
      InsertPictured(d[..n], x, maxCommands);
    }
  }

  lemma {:induction false} SortPictured(d: Groups, maxCommands: nat)
    ensures Sort(Pictured(d, maxCommands), ActivityRank) == Pictured(Sort(d, LastRank), maxCommands)
  {
    hide Printed, Portrait, ActivityRank, LastRank, Insert;
    if d != [] {
      var n := |d| - 1;
      assert Pictured(d, maxCommands)[..n] == Pictured(d[..n], maxCommands);
      SortPictured(d[..n], maxCommands);
      InsertPictured(Sort(d[..n], LastRank), d[n], maxCommands);
    }
  }

  lemma OverflowPictured(d: Groups, bound: nat, maxCommands: nat)
    ensures EvictedOf(Pictured(d, maxCommands), bound) == Pictured(Overflow(d, bound, LastRank), maxCommands)
  {
    hide Printed, Portrait, ActivityRank, LastRank, Sort;
    SortPictured(d, maxCommands);
    SortLength(d, LastRank);
    SortLength(Pictured(d, maxCommands), ActivityRank);
  }

  lemma ClosedPictured(d: Groups, e: Event, now: real, window: real, maxCommands: nat)
    ensures KeyFor(e) == Printed(SourceOf(e))
    ensures Supersedes(Pictured(d, maxCommands), e, now, window) == Closed(d, Sighting(e, now), window)
    ensures Has(d, SourceOf(e)) ==>
      Get(Pictured(d, maxCommands), KeyFor(e)) == Portrait(Held(d, SourceOf(e)), maxCommands)
  {
    hide Index, Of, Times, Shown, Firsts;
    IndexPictured(d, SourceOf(e), maxCommands);
  }

  lemma RememberPictured(d: Groups, e: Event, now: real, limits: Limits)
    ensures Observed(Pictured(d, limits.maxCommands), e, now, limits.window, limits.maxCommands)
      == Pictured(Remember(d, Sighting(e, now), limits.window), limits.maxCommands)
  {
    hide Recorded, Portrait, Put, SourceOf, KeyFor, Printed, Index, Get, Supersedes, Closed;
    var s := SourceOf(e);
    ClosedPictured(d, e, now, limits.window, limits.maxCommands);
    IndexPictured(d, s, limits.maxCommands);
    NewPortrait(e, now, limits.maxCommands);
    if Has(d, s) {
      RecordedPortrait(Held(d, s), e, now, limits.maxCommands);
      PutPictured(d, s, Later(Held(d, s), Sighting(e, now)), limits.maxCommands);
    }
    PutPictured(d, s, [Sighting(e, now)], limits.maxCommands);
  }

  lemma ConcatPictured(a: Groups, b: Groups, maxCommands: nat)
    ensures Pictured(a + b, maxCommands) == Pictured(a, maxCommands) + Pictured(b, maxCommands)
  {
    hide Printed, Portrait;
  }

  lemma StepPictured(b: Books, a: Archive, op: Op, limits: Limits)
    requires b.live == PicturedLedger(a.live, limits.maxCommands)
    requires b.saved == PicturedLedger(a.saved, limits.maxCommands)
    ensures Apply(b, op, limits).live == PicturedLedger(Recall(a, op, limits).live, limits.maxCommands)
    ensures Apply(b, op, limits).saved == PicturedLedger(Recall(a, op, limits).saved, limits.maxCommands)
  {
    hide Observed, Remember, ExpiredOf, OldOf, Overflow, EvictedOf, DelAll, Portrait, Supersedes, Closed, Get, Has,
      KeyFor, SourceOf, Printed;
    var d := a.live.active;
    match op
    case Observe(e, now) =>
      RememberPictured(d, e, now, limits);
      ClosedPictured(d, e, now, limits.window, limits.maxCommands);
      if Closed(d, Sighting(e, now), limits.window) {
        ClosedHas(d, Sighting(e, now), limits.window);
        ConcatPictured(a.live.superseded, [(SourceOf(e), Held(d, SourceOf(e)))], limits.maxCommands);
      }
    case Flush(now) =>
      OldPictured(d, now, limits);
      DelAllPictured(d, OldOf(d, now, limits), limits.maxCommands);
      ConcatPictured(a.live.flushed, OldOf(d, now, limits), limits.maxCommands);
    case Evict =>
      OverflowPictured(d, limits.maxActive, limits.maxCommands);
      DelAllPictured(d, Overflow(d, limits.maxActive, LastRank), limits.maxCommands);
      ConcatPictured(a.live.evicted, Overflow(d, limits.maxActive, LastRank), limits.maxCommands);
    case Save =>
    case Restart =>
  }

  lemma ClosedHas(d: Groups, m: Sighting, window: real)
    requires Closed(d, m, window)
    ensures Has(d, SourceOf(m.event))
  {
  }

  /** The summaries are those of the lists: over every run of observes, flushes, evictions, saves and
      restarts, all clusters, live and saved, active or gone, are the portraits of the lists the second
      machine keeps, in the same places and order. */
  lemma {:induction false} ClustersAreRemembered(ops: seq<Op>, limits: Limits)
    ensures Run(ops, limits).live == PicturedLedger(Recalled(ops, limits).live, limits.maxCommands)
    ensures Run(ops, limits).saved == PicturedLedger(Recalled(ops, limits).saved, limits.maxCommands)
  {
    hide Apply, Recall;
    if ops == [] {
      assert Pictured([], limits.maxCommands) == [];
    } else {
      ClustersAreRemembered(ops[..|ops| - 1], limits);
      StepPictured(Run(ops[..|ops| - 1], limits), Recalled(ops[..|ops| - 1], limits), ops[|ops| - 1], limits);
    }
  }

  /** Every list holds events of its own source only. */
  predicate OneSource(d: Groups) {
    forall i :: 0 <= i < |d| ==> forall j :: 0 <= j < |d[i].1| ==> SourceOf(d[i].1[j].event) == d[i].0
  }

  predicate Kept(l: Memory) {
    Unique(l.active) && OneSource(l.active) && OneSource(l.flushed) && OneSource(l.evicted) && OneSource(l.superseded)
  }

  lemma PutOneSource(d: Groups, s: Source, ms: Members)
    requires OneSource(d) && forall j :: 0 <= j < |ms| ==> SourceOf(ms[j].event) == s
    ensures OneSource(Put<Source, Members>(d, s, ms))
  {
    hide SourceOf;
  }

  lemma {:induction false} DelAllOneSource(d: Groups, gone: Groups)
    requires OneSource(d)
    ensures OneSource(DelAll(d, gone))
    decreases |gone|
  {
    hide SourceOf;
    if gone != [] {
      DelAllOneSource(Del(d, gone[0].0), gone[1..]);
    }
  }

  lemma {:induction false} OldWithin(d: Groups, now: real, limits: Limits)
    ensures multiset(OldOf(d, now, limits)) <= multiset(d)
  {
    if d != [] {
      assert d == [d[0]] + d[1..];
      OldWithin(d[1..], now, limits);
    }
  }

  lemma WithinOneSource(d: Groups, gone: Groups)
    requires OneSource(d) && multiset(gone) <= multiset(d)
    ensures OneSource(gone)
  {
    hide SourceOf;
    forall i | 0 <= i < |gone|
      ensures forall j :: 0 <= j < |gone[i].1| ==> SourceOf(gone[i].1[j].event) == gone[i].0
    {
      assert gone[i] in multiset(gone);
      assert gone[i] in multiset(d);
      var n :| 0 <= n < |d| && d[n] == gone[i];
    }
  }

  lemma OverflowWithin(d: Groups, bound: nat)
    ensures multiset(Overflow(d, bound, LastRank)) <= multiset(d)
  {
    hide Sort, LastRank;
    SortSorted(d, LastRank);
    SortLength(d, LastRank);
    if |d| > bound {
      PrefixWithin(d, Sort(d, LastRank), |d| - bound);
    } else {
      assert Overflow(d, bound, LastRank) == [];
    }
  }

  lemma RememberKept(d: Groups, m: Sighting, window: real)
    requires Unique(d) && OneSource(d)
    ensures Unique(Remember(d, m, window)) && OneSource(Remember(d, m, window))
    ensures Has(d, SourceOf(m.event)) ==> OneSource([(SourceOf(m.event), Held(d, SourceOf(m.event)))])
  {
    hide SourceOf, Put, Closed, Index;
    var s := SourceOf(m.event);
    if Has(d, s) {
      assert d[Index(d, s)].0 == s;
      PutUnique<Source, Members>(d, s, Later(Held(d, s), m));
      PutOneSource(d, s, Later(Held(d, s), m));
    }
    PutUnique<Source, Members>(d, s, [m]);
    PutOneSource(d, s, [m]);
  }

  lemma RecallKept(a: Archive, op: Op, limits: Limits)
    requires Kept(a.live) && Kept(a.saved)
    ensures Kept(Recall(a, op, limits).live) && Kept(Recall(a, op, limits).saved)
  {
    hide Remember, OldOf, Overflow, DelAll, Unique, Get, Has, SourceOf, Closed;
    var d := a.live.active;
    match op
    case Observe(e, now) =>
      RememberKept(d, Sighting(e, now), limits.window);
      if Closed(d, Sighting(e, now), limits.window) {
        ClosedHas(d, Sighting(e, now), limits.window);
      }
    case Flush(now) =>
      OldWithin(d, now, limits);
      WithinOneSource(d, OldOf(d, now, limits));
      DelAllOneSource(d, OldOf(d, now, limits));
      DelAllRemoves(d, OldOf(d, now, limits));
    case Evict =>
      var gone := Overflow(d, limits.maxActive, LastRank);
      OverflowWithin(d, limits.maxActive);
      WithinOneSource(d, gone);
      DelAllOneSource(d, gone);
      DelAllRemoves(d, gone);
    case Save =>
    case Restart =>
  }

  /** So no cluster mixes sources: all events counted in it have its session, or, if it has none, none
      either and its address. */
  lemma {:induction false} NoClusterMixes(ops: seq<Op>, limits: Limits)
    ensures Kept(Recalled(ops, limits).live) && Kept(Recalled(ops, limits).saved)
  {
    hide Recall;
    if ops != [] {
      NoClusterMixes(ops[..|ops| - 1], limits);
      RecallKept(Recalled(ops[..|ops| - 1], limits), ops[|ops| - 1], limits);
    }
  }

  // Every sighting is in one list.

  function Bag(d: Groups): multiset<Sighting> {
    if d == [] then multiset{} else Bag(d[..|d| - 1]) + multiset(d[|d| - 1].1)
  }

  lemma {:induction false} BagConcat(a: Groups, b: Groups)
    ensures Bag(a + b) == Bag(a) + Bag(b)
  {
    if b == [] {
      assert a + b == a;
    } else {
      assert (a + b)[..|a + b| - 1] == a + b[..|b| - 1];
      BagConcat(a, b[..|b| - 1]);
    }
  }

  lemma BagOne(x: (Source, Members))
    ensures Bag([x]) == multiset(x.1)
  {
    assert [x][..0] == [];
  }

  lemma BagSplit(d: Groups, i: nat)
    requires i < |d|
    ensures Bag(d) == Bag(d[..i]) + multiset(d[i].1) + Bag(d[i + 1..])
  {
    hide Bag;
    assert d == d[..i] + ([d[i]] + d[i + 1..]);
    BagConcat(d[..i], [d[i]] + d[i + 1..]);
    BagConcat([d[i]], d[i + 1..]);
    BagOne(d[i]);
  }

  lemma BagPut(d: Groups, s: Source, ms: Members)
    ensures Bag(Put<Source, Members>(d, s, ms)) + (if Has(d, s) then multiset(Held(d, s)) else multiset{})
      == Bag(d) + multiset(ms)
  {
    hide Bag;
    var i := Index(d, s);
    if i < |d| {
      BagSplit(d, i);
      var p: Groups := d[i := (s, ms)];
      BagSplit(p, i);
      assert p[..i] == d[..i] && p[i + 1..] == d[i + 1..];
    } else {
      BagConcat(d, [(s, ms)]);
      BagOne((s, ms));
    }
  }

  lemma BagDel(d: Groups, s: Source)
    requires Has(d, s)
    ensures Bag(Del(d, s)) + multiset(Held(d, s)) == Bag(d)
  {
    hide Bag;
    var i := Index(d, s);
    BagSplit(d, i);
    BagConcat(d[..i], d[i + 1..]);
  }

  lemma {:induction false} BagDelAll(d: Groups, gone: Groups)
    requires Unique(d) && multiset(gone) <= multiset(d)
    ensures Bag(DelAll(d, gone)) + Bag(gone) == Bag(d)
    decreases |gone|
  {
    if gone == [] {
    } else {
      hide Bag, Del, Index, Unique;
      assert gone == [gone[0]] + gone[1..];
      assert gone[0] in multiset(gone);
      var i :| 0 <= i < |d| && d[i] == gone[0];
      IndexAt(d, i);
      BagDel(d, gone[0].0);
      DelUnique(d, gone[0].0);
      BagDelAll(Del(d, gone[0].0), gone[1..]);
      BagConcat([gone[0]], gone[1..]);
      BagOne(gone[0]);
    }
  }

  lemma Cancel(x: multiset<Sighting>, h: multiset<Sighting>, y: multiset<Sighting>, m: multiset<Sighting>)
    requires x + h == y + (h + m)
    ensures x == y + m
  {
    forall k
      ensures x[k] == (y + m)[k]
    {
      assert (x + h)[k] == (y + (h + m))[k];
    }
  }

  lemma Moved(a: multiset<Sighting>, a': multiset<Sighting>, b: multiset<Sighting>, h: multiset<Sighting>,
              m: multiset<Sighting>, c: multiset<Sighting>, d: multiset<Sighting>)
    requires a' + h == a + m
    ensures a' + (b + h) + c + d == a + b + c + d + m
    ensures a' + c + (b + h) + d == a + c + b + d + m
    ensures a' + c + d + (b + h) == a + c + d + b + m
  {
    forall k
      ensures (a' + (b + h) + c + d)[k] == (a + b + c + d + m)[k]
      ensures (a' + c + (b + h) + d)[k] == (a + c + b + d + m)[k]
      ensures (a' + c + d + (b + h))[k] == (a + c + d + b + m)[k]
    {
      assert (a' + h)[k] == (a + m)[k];
    }
  }

  predicate AllThere(l: Memory) {
    multiset(l.seen) == Bag(l.active) + Bag(l.flushed) + Bag(l.evicted) + Bag(l.superseded)
  }

  lemma RememberBag(d: Groups, m: Sighting, window: real)
    ensures Bag(Remember(d, m, window))
      + (if Closed(d, m, window) then multiset(Held(d, SourceOf(m.event))) else multiset{}) == Bag(d) + multiset{m}
  {
    hide Bag, SourceOf, Put;
    var s := SourceOf(m.event);
    if Has(d, s) && !Closed(d, m, window) {
      BagPut(d, s, Later(Held(d, s), m));
      assert multiset(Later(Held(d, s), m)) == multiset(Held(d, s)) + multiset{m};
      Cancel(Bag(Remember(d, m, window)), multiset(Held(d, s)), Bag(d), multiset{m});
    } else {
      BagPut(d, s, [m]);
      assert multiset([m]) == multiset{m};
    }
  }

  lemma RecallAll(a: Archive, op: Op, limits: Limits)
    requires Kept(a.live) && AllThere(a.live) && AllThere(a.saved)
    ensures AllThere(Recall(a, op, limits).live) && AllThere(Recall(a, op, limits).saved)
  {
    hide Bag, Remember, OldOf, Overflow, DelAll, Unique, Held, Has, SourceOf, Closed, OneSource;
    var l := a.live;
    match op
    case Observe(e, now) =>
      var m := Sighting(e, now);
      RememberBag(l.active, m, limits.window);
      assert multiset(l.seen + [m]) == multiset(l.seen) + multiset{m};
      var now' := Bag(Remember(l.active, m, limits.window));
      if Closed(l.active, m, limits.window) {
        ClosedHas(l.active, m, limits.window);
        var lost := Held(l.active, SourceOf(e));
        BagConcat(l.superseded, [(SourceOf(e), lost)]);
        BagOne((SourceOf(e), lost));
        Moved(Bag(l.active), now', Bag(l.superseded), multiset(lost), multiset{m}, Bag(l.flushed), Bag(l.evicted));
      } else {
        Moved(Bag(l.active), now', Bag(l.superseded), multiset{}, multiset{m}, Bag(l.flushed), Bag(l.evicted));
      }
    case Flush(now) =>
      var gone := OldOf(l.active, now, limits);
      OldWithin(l.active, now, limits);
      BagDelAll(l.active, gone);
      BagConcat(l.flushed, gone);
      Moved(Bag(l.active), Bag(DelAll(l.active, gone)), Bag(l.flushed), Bag(gone), multiset{},
        Bag(l.evicted), Bag(l.superseded));
    case Evict =>
      var gone := Overflow(l.active, limits.maxActive, LastRank);
      OverflowWithin(l.active, limits.maxActive);
      BagDelAll(l.active, gone);
      BagConcat(l.evicted, gone);
      Moved(Bag(l.active), Bag(DelAll(l.active, gone)), Bag(l.evicted), Bag(gone), multiset{},
        Bag(l.flushed), Bag(l.superseded));
    case Save =>
    case Restart =>
  }

  /** No event is lost or counted twice: the lists hold every sighting the run has absorbed, each as often
      as it was absorbed. */
  lemma {:induction false} EverySightingOnce(ops: seq<Op>, limits: Limits)
    ensures AllThere(Recalled(ops, limits).live) && AllThere(Recalled(ops, limits).saved)
  {
    hide Recall, Kept;
    if ops != [] {
      EverySightingOnce(ops[..|ops| - 1], limits);
      NoClusterMixes(ops[..|ops| - 1], limits);
      RecallAll(Recalled(ops[..|ops| - 1], limits), ops[|ops| - 1], limits);
    }
  }
}
