/** Whole runs of the archiver. A run visits the rotated files first, in name order, and the current one
    last, and the first exception ends it; so one blocked file keeps every file after it from being visited
    (native/s3-archive.py:765-799). */
module ArchiveRuns {
  import opened Sequences
  import opened Records
  import opened Evidence
  import opened Anchors
  import opened WriteOnceStore
  import opened Archive
  import opened ArchiveSafety
  import opened ArchiveManifests
  import opened ArchiveAppendOnly
  import opened ArchiveStuck

  datatype Run = Run(visits: seq<Visit>, saved: bool)

  /** The visits a run gets to, and its final save. */
  function Tried(w: World, visits: seq<Visit>, saved: bool): seq<Event>
    requires WellStored(w.bucket)
    decreases |visits|
  {
    if visits == [] then [RunEnds(saved)] else
      var (w', ok) := ArchivePath(w, visits[0]);
      [Visited(visits[0])] + (if ok then Tried(w', visits[1..], saved) else [])
  }

  /** A run as a history: loading the state forgets what the process before it had not saved. */
  function RunEvents(w: World, r: Run): seq<Event>
    requires WellStored(w.bucket)
  {
    [Crashed] + Tried(w.(mem := w.disk), r.visits, r.saved)
  }

  function Runs(w: World, rs: seq<Run>): World
    requires WellStored(w.bucket)
    decreases |rs|
  {
    if rs == [] then w else Runs(LockedRun(w, rs[0].visits, rs[0].saved), rs[1..])
  }

  function AllEvents(w: World, rs: seq<Run>): seq<Event>
    requires WellStored(w.bucket)
    decreases |rs|
  {
    if rs == [] then [] else RunEvents(w, rs[0]) + AllEvents(LockedRun(w, rs[0].visits, rs[0].saved), rs[1..])
  }

  lemma ExecOne(start: World, events: seq<Event>, e: Event)
    requires WellStored(start.bucket)
    ensures Exec(start, events + [e]) == Step(Exec(start, events), e)
  {
    assert (events + [e])[..|events|] == events;
  }

  lemma {:induction false} TriedIsHistory(start: World, events: seq<Event>, visits: seq<Visit>, saved: bool)
    requires WellStored(start.bucket)
    ensures var w := Exec(start, events);
      var (after, ok) := VisitAll(w, visits);
      Exec(start, events + Tried(w, visits, saved)) ==
        if ok && saved then after.(disk := after.mem) else after.(mem := after.disk)
    decreases |visits|
  {
    hide Exec, ArchivePath;
    var w := Exec(start, events);
    if visits == [] {
      ExecOne(start, events, RunEnds(saved));
    } else {
      var first := Visited(visits[0]);
      ExecOne(start, events, first);
      var (w', ok) := ArchivePath(w, visits[0]);
      if ok {
        TriedIsHistory(start, events + [first], visits[1..], saved);
        assert events + [first] + Tried(w', visits[1..], saved) == events + Tried(w, visits, saved);
      } else {
        assert events + [first] == events + Tried(w, visits, saved);
      }
    }
  }

  /** Every run is a history, so what holds after every history holds after every run. */
  lemma {:induction false} RunIsHistory(start: World, events: seq<Event>, r: Run)
    requires WellStored(start.bucket)
    ensures Exec(start, events + RunEvents(Exec(start, events), r))
      == LockedRun(Exec(start, events), r.visits, r.saved)
  {
    hide Exec, VisitAll, Tried;
    var w := Exec(start, events);
    ExecOne(start, events, Crashed);
    TriedIsHistory(start, events + [Crashed], r.visits, r.saved);
    assert events + [Crashed] + Tried(w.(mem := w.disk), r.visits, r.saved) == events + RunEvents(w, r);
  }

  lemma {:induction false} RunsAreHistory(start: World, events: seq<Event>, rs: seq<Run>)
    requires WellStored(start.bucket)
    ensures Exec(start, events + AllEvents(Exec(start, events), rs)) == Runs(Exec(start, events), rs)
    decreases |rs|
  {
    hide Exec, RunEvents, LockedRun;
    var w := Exec(start, events);
    if rs == [] {
      assert events + [] == events;
    } else {
      RunIsHistory(start, events, rs[0]);
      var more := RunEvents(w, rs[0]);
      RunsAreHistory(start, events + more, rs[1..]);
      assert events + more + AllEvents(Exec(start, events + more), rs[1..]) == events + AllEvents(w, rs);
    }
  }

  lemma {:induction false} CommitsKeepMarkers(w: World, v: Visit, generation: nat, snapshotStart: nat, snapshot: Bytes,
                                              start: nat, records: seq<Bytes>, k: nat)
    requires WellStored(w.bucket) && w.mem.rotated == w.disk.rotated
    ensures var w' := CommitAll(w, v, generation, snapshotStart, snapshot, start, records, k).0;
      w'.mem.rotated == w'.disk.rotated == w.disk.rotated
    decreases |records|
  {
    hide Upload, SnapshotAnchor, WellStored;
    if records != [] {
      var (w', ok) := CommitOne(w, v, generation, snapshotStart, snapshot, start, records[0], v.cloud(k));
      if ok {
        CommitsKeepMarkers(w', v, generation, snapshotStart, snapshot, start + |records[0]|, records[1..], k + 1);
      }
    }
  }

  lemma StepKeepsMarkers(w: World, e: Event)
    requires WellStored(w.bucket) && w.mem.rotated == w.disk.rotated
    ensures Step(w, e).mem.rotated == Step(w, e).disk.rotated == w.disk.rotated
  {
    hide CommitAll, Stable, LineageFor, MarkerMatches, TakeSnapshot, Split;
    if e.Visited? {
      var v, l := e.visit, LineageFor(w.mem, e.visit);
      if v.regular && !MarkerMatches(v, w.mem) && 0 <= l.offset < v.file.size && Stable(v, l.offset) {
        StableLength(v, l.offset);
        var snapshot := TakeSnapshot(v, l.offset);
        CommitsKeepMarkers(w.(mem := WithLineage(w.mem, v.inode, l)), v, l.generation, WindowStart(l.offset), snapshot,
          l.offset, Split(snapshot[l.offset - WindowStart(l.offset)..]), 0);
      }
    }
  }

  /** The version 1 markers are those of the loaded state for ever. */
  lemma {:induction false} MarkersStay(from: World, events: seq<Event>)
    requires WellStored(from.bucket) && from.mem == from.disk
    ensures Exec(from, events).mem.rotated == Exec(from, events).disk.rotated == from.disk.rotated
  {
    hide Step;
    if events != [] {
      MarkersStay(from, events[..|events| - 1]);
      StepKeepsMarkers(Exec(from, events[..|events| - 1]), events[|events| - 1]);
    }
  }

  /** A visit that finds the blocked record and would write another manifest for it. */
  predicate Hits(v: Visit, markers: map<string, Marker>, i: Inode, end: nat, m: Body)
    requires m.Manifest?
  {
    v.inode == i && v.regular && !(v.rotated && v.name in markers) && end <= v.file.size && !Agrees(m, v)
  }

  /** In every one of these runs, all visits to `i` would write another manifest, and before any visit to
      `j` one of them finds the blocked record. */
  predicate Shadowed(visits: seq<Visit>, markers: map<string, Marker>, i: Inode, end: nat, m: Body, j: Inode)
    requires m.Manifest?
  {
    && (forall n :: 0 <= n < |visits| && visits[n].inode == i ==> !Agrees(m, visits[n]))
    && forall n :: 0 <= n < |visits| && visits[n].inode == j ==> HitBefore(visits, n, markers, i, end, m)
  }

  predicate HitBefore(visits: seq<Visit>, n: nat, markers: map<string, Marker>, i: Inode, end: nat, m: Body)
    requires m.Manifest? && n <= |visits|
  {
    exists p :: 0 <= p < n && Hits(visits[p], markers, i, end, m)
  }

  predicate Leaves(events: seq<Event>, j: Inode) {
    forall n :: 0 <= n < |events| && events[n].Visited? ==> events[n].visit.inode != j
  }

  lemma {:induction false} AppendOnlyPrefix(from: State, events: seq<Event>, more: seq<Event>, whole: Contents)
    requires AppendOnly(from, events + more, whole)
    ensures AppendOnly(from, events, whole)
    decreases |more|
  {
    hide FaithfulVisit, LargestSeen;
    if more == [] {
      assert events + more == events;
    } else {
      assert (events + more)[..|events + more| - 1] == events + more[..|more| - 1];
      AppendOnlyPrefix(from, events, more[..|more| - 1], whole);
    }
  }

  lemma ShadowedRest(visits: seq<Visit>, markers: map<string, Marker>, i: Inode, end: nat, m: Body, j: Inode)
    requires m.Manifest? && visits != [] && Shadowed(visits, markers, i, end, m, j)
    requires !Hits(visits[0], markers, i, end, m)
    ensures Shadowed(visits[1..], markers, i, end, m, j)
  {
    hide Hits, Agrees;
    var rest := visits[1..];
    forall n | 0 <= n < |rest| && rest[n].inode == j
      ensures HitBefore(rest, n, markers, i, end, m)
    {
      assert HitBefore(visits, n + 1, markers, i, end, m);
      var p :| 0 <= p < n + 1 && Hits(visits[p], markers, i, end, m);
      assert Hits(rest[p - 1], markers, i, end, m);
    }
  }

  lemma TriedFirst(w: World, visits: seq<Visit>, saved: bool)
    requires WellStored(w.bucket)
    ensures Tried(w, visits, saved) ==
      if visits == [] then [RunEnds(saved)] else
        var (w', ok) := ArchivePath(w, visits[0]);
        [Visited(visits[0])] + (if ok then Tried(w', visits[1..], saved) else [])
  {
  }

  lemma EndLeaves(saved: bool, i: Inode, m: Body, j: Inode)
    requires m.Manifest?
    ensures Leaves([RunEnds(saved)], j) && NoneAgrees([RunEnds(saved)], i, m)
    ensures Leaves([], j) && NoneAgrees([], i, m)
  {
  }

  lemma FirstLeaves(v: Visit, rest: seq<Event>, i: Inode, m: Body, j: Inode)
    requires m.Manifest? && v.inode != j && (v.inode == i ==> !Agrees(m, v))
    ensures Leaves(rest, j) && NoneAgrees(rest, i, m) ==>
      Leaves([Visited(v)] + rest, j) && NoneAgrees([Visited(v)] + rest, i, m)
  {
    hide Agrees;
  }

  /** The visits of one run up to the one that raises: none of them is to `j`, none agrees. */
  lemma {:induction false} TriedLeaves(from: World, events: seq<Event>, visits: seq<Visit>, saved: bool,
                                       whole: Contents, i: Inode, start: nat, record: Bytes, m: Body, j: Inode)
    requires LoadedOnTrack(from, whole) && WellStored(from.bucket)
    requires AppendOnly(from.disk, events + Tried(Exec(from, events), visits, saved), whole)
    requires m.Manifest? && Blocked(Exec(from, events), from.disk, whole, i, start, record, m)
    requires Shadowed(visits, from.disk.rotated, i, start + |record|, m, j)
    ensures Leaves(Tried(Exec(from, events), visits, saved), j)
    ensures NoneAgrees(Tried(Exec(from, events), visits, saved), i, m)
    decreases |visits|
  {
    hide Exec, Step, ArchivePath, LoadedOnTrack, Blocked, Agrees, Hits, Shadowed, FaithfulVisit, Good, AppendOnly,
      Leaves, NoneAgrees, WellStored, Tried;
    var w := Exec(from, events);
    EndLeaves(saved, i, m, j);
    TriedFirst(w, visits, saved);
    if visits != [] {
      var first, v := [Visited(visits[0])], visits[0];
      var (w', ok) := ArchivePath(w, v);
      FirstOfShadowed(visits, from.disk.rotated, i, start + |record|, m, j);
      var rest := if ok then Tried(w', visits[1..], saved) else [];
      Regroup(events, first, rest);
      AppendOnlyPrefix(from.disk, events + first, rest, whole);
      NextVisit(from, events, v, whole, i, start, record, m);
      FirstLeaves(v, rest, i, m, j);
      if ok {
        ShadowedRest(visits, from.disk.rotated, i, start + |record|, m, j);
        TriedLeaves(from, events + first, visits[1..], saved, whole, i, start, record, m, j);
      }
    }
  }

  /** One visit in front of the blocked record: it raises if it hits it, and the record stays blocked. */
  lemma NextVisit(from: World, events: seq<Event>, v: Visit, whole: Contents, i: Inode, start: nat, record: Bytes,
                  m: Body)
    requires LoadedOnTrack(from, whole) && WellStored(from.bucket)
    requires AppendOnly(from.disk, events + [Visited(v)], whole)
    requires m.Manifest? && Blocked(Exec(from, events), from.disk, whole, i, start, record, m)
    requires v.inode == i ==> !Agrees(m, v)
    ensures var (w', ok) := ArchivePath(Exec(from, events), v);
      && (Hits(v, from.disk.rotated, i, start + |record|, m) ==> !ok)
      && (ok ==> Exec(from, events + [Visited(v)]) == w')
    ensures Blocked(Exec(from, events + [Visited(v)]), from.disk, whole, i, start, record, m)
  {
    hide Exec, ArchivePath, LoadedOnTrack, Blocked, Agrees, Hits, FaithfulVisit, Good, AppendOnly;
    HitRaises(from, events, v, whole, i, start, record, m);
    ExecOne(from, events, Visited(v));
    StuckUnlessAgreed(from, events, [Visited(v)], whole, i, start, record, m);
  }

  lemma FirstOfShadowed(visits: seq<Visit>, markers: map<string, Marker>, i: Inode, end: nat, m: Body, j: Inode)
    requires m.Manifest? && visits != [] && Shadowed(visits, markers, i, end, m, j)
    ensures visits[0].inode != j && (visits[0].inode == i ==> !Agrees(m, visits[0]))
  {
    hide Hits, Agrees;
    assert visits[0].inode == j ==> HitBefore(visits, 0, markers, i, end, m);
  }

  /** A visit that hits the blocked record raises. */
  lemma HitRaises(from: World, events: seq<Event>, v: Visit, whole: Contents, i: Inode, start: nat, record: Bytes,
                  m: Body)
    requires LoadedOnTrack(from, whole) && WellStored(from.bucket)
    requires AppendOnly(from.disk, events + [Visited(v)], whole)
    requires m.Manifest? && Blocked(Exec(from, events), from.disk, whole, i, start, record, m)
    requires v.inode == i ==> !Agrees(m, v)
    ensures Hits(v, from.disk.rotated, i, start + |record|, m) ==> !ArchivePath(Exec(from, events), v).1
  {
    hide Exec, ArchivePath, Blocked, Agrees, FaithfulVisit, Good, AppendOnly, Sound, ManifestsTrue;
    LaterGood(from, events, Visited(v), whole);
    MarkersStay(from, events);
    StuckVisit(Exec(from, events), from.disk, v, whole, Seen(from.disk, events + [Visited(v)], whole), i, start, record,
      m);
  }

  lemma OtherVisitStands(w: World, v: Visit, j: Inode, g: nat, at: nat)
    requires WellStored(w.bucket) && v.inode != j && StandsAt(w, j, g, at)
    ensures StandsAt(Step(w, Visited(v)), j, g, at)
  {
    hide CommitAll, Stable, LineageFor, MarkerMatches, TakeSnapshot, Split, WellStored;
    var l := LineageFor(w.mem, v);
    if v.regular && !MarkerMatches(v, w.mem) && 0 <= l.offset < v.file.size && Stable(v, l.offset) {
      StableLength(v, l.offset);
      var snapshot := TakeSnapshot(v, l.offset);
      OthersStand(w.(mem := WithLineage(w.mem, v.inode, l)), v, l.generation, WindowStart(l.offset), snapshot, l.offset,
        Split(snapshot[l.offset - WindowStart(l.offset)..]), 0, j, g, at);
    }
  }

  /** Whatever the writer and the network do, the offset of a file that is not visited stands. */
  lemma {:induction false} UnvisitedStands(start: World, events: seq<Event>, more: seq<Event>, j: Inode, g: nat,
                                           at: nat)
    requires WellStored(start.bucket) && Leaves(more, j) && StandsAt(Exec(start, events), j, g, at)
    ensures StandsAt(Exec(start, events + more), j, g, at)
    decreases |more|
  {
    hide ArchivePath, WellStored;
    if more == [] {
      assert events + more == events;
    } else {
      var init, e := more[..|more| - 1], more[|more| - 1];
      assert (events + more)[..|events + more| - 1] == events + init;
      UnvisitedStands(start, events, init, j, g, at);
      if e.Visited? {
        hide Step, StandsAt;
        OtherVisitStands(Exec(start, events + init), e.visit, j, g, at);
      }
    }
  }

  /** Between events an on-track lineage stands where it was saved. */
  lemma GoodStands(w: World, from: State, whole: Contents, seen: Inode -> nat, j: Inode)
    requires Good(w, from, whole, seen)
    ensures var g := Gen(from, j, whole(j));
      SavedOffset(w.disk, j, g) >= 0 && StandsAt(w, j, g, SavedOffset(w.disk, j, g))
  {
    hide Sound, ManifestsTrue, Standing;
    StandingAt(w, from, whole, seen, j);
    OffsetStands(w, from, j, whole(j), seen(j));
  }

  lemma OffsetStands(w: World, from: State, j: Inode, whole: Bytes, seen: nat)
    requires Standing(w.mem, w.disk, from, w.log, j, whole, seen)
    ensures var g := Gen(from, j, whole); SavedOffset(w.mem, j, g) == SavedOffset(w.disk, j, g) >= 0
  {
    hide Split, Ranges, Matches, AtBoundary;
    SameOffset(w, from, j, whole, seen);
  }

  /** One blocked file starves the others. Take any history after which a record is blocked, and any
      sequence of runs, in each of which a visit to the blocked file comes before every visit to `j` and
      finds another name, kind or size than the stored manifest has: whatever the network does, `j` is
      never visited again. */
  lemma {:induction false} BlockedFileStarves(from: World, events: seq<Event>, rs: seq<Run>, whole: Contents,
                                              i: Inode, start: nat, record: Bytes, m: Body, j: Inode)
    requires LoadedOnTrack(from, whole) && WellStored(from.bucket)
    requires AppendOnly(from.disk, events + AllEvents(Exec(from, events), rs), whole)
    requires m.Manifest? && Blocked(Exec(from, events), from.disk, whole, i, start, record, m)
    requires forall n :: 0 <= n < |rs| ==> Shadowed(rs[n].visits, from.disk.rotated, i, start + |record|, m, j)
    ensures Leaves(AllEvents(Exec(from, events), rs), j)
    ensures StandsAt(Runs(Exec(from, events), rs), i, Gen(from.disk, i, whole(i)), start)
    decreases |rs|
  {
    hide Exec, RunEvents, LockedRun, LoadedOnTrack, Agrees, Shadowed, AppendOnly, HoldsManifest, NextKey, IsRecord;
    var w := Exec(from, events);
    if rs != [] {
      var first := RunEvents(w, rs[0]);
      var rest := AllEvents(LockedRun(w, rs[0].visits, rs[0].saved), rs[1..]);
      assert events + (first + rest) == events + first + rest;
      AppendOnlyPrefix(from.disk, events + first, rest, whole);
      RunLeaves(from, events, rs[0], whole, i, start, record, m, j);
      StuckUnlessAgreed(from, events, first, whole, i, start, record, m);
      RunIsHistory(from, events, rs[0]);
      BlockedFileStarves(from, events + first, rs[1..], whole, i, start, record, m, j);
    }
  }

  lemma RunLeaves(from: World, events: seq<Event>, r: Run, whole: Contents, i: Inode, start: nat, record: Bytes,
                  m: Body, j: Inode)
    requires LoadedOnTrack(from, whole) && WellStored(from.bucket)
    requires AppendOnly(from.disk, events + RunEvents(Exec(from, events), r), whole)
    requires m.Manifest? && Blocked(Exec(from, events), from.disk, whole, i, start, record, m)
    requires Shadowed(r.visits, from.disk.rotated, i, start + |record|, m, j)
    ensures Leaves(RunEvents(Exec(from, events), r), j) && NoneAgrees(RunEvents(Exec(from, events), r), i, m)
  {
    hide Exec, Tried, LoadedOnTrack, Agrees, Shadowed, AppendOnly, Blocked;
    var w := Exec(from, events);
    ExecOne(from, events, Crashed);
    var tried := Tried(w.(mem := w.disk), r.visits, r.saved);
    assert events + [Crashed] + tried == events + RunEvents(w, r);
    AppendOnlyPrefix(from.disk, events + [Crashed], tried, whole);
    StuckUnlessAgreed(from, events, [Crashed], whole, i, start, record, m);
    TriedLeaves(from, events + [Crashed], r.visits, r.saved, whole, i, start, record, m, j);
  }

  /** So the starved file's offset never moves again. */
  lemma {:induction false} StarvedStands(from: World, events: seq<Event>, rs: seq<Run>, whole: Contents, i: Inode,
                                         start: nat, record: Bytes, m: Body, j: Inode)
    requires LoadedOnTrack(from, whole) && WellStored(from.bucket)
    requires AppendOnly(from.disk, events + AllEvents(Exec(from, events), rs), whole)
    requires m.Manifest? && Blocked(Exec(from, events), from.disk, whole, i, start, record, m)
    requires forall n :: 0 <= n < |rs| ==> Shadowed(rs[n].visits, from.disk.rotated, i, start + |record|, m, j)
    ensures var g := Gen(from.disk, j, whole(j));
      SavedOffset(Runs(Exec(from, events), rs).disk, j, g) == SavedOffset(Exec(from, events).disk, j, g)
  {
    hide Exec, AllEvents, Runs, Good, LoadedOnTrack, Blocked, Shadowed, AppendOnly, FaithfulVisit;
    BlockedFileStarves(from, events, rs, whole, i, start, record, m, j);
    AppendOnlyPrefix(from.disk, events, AllEvents(Exec(from, events), rs), whole);
    RunTrack(from, events, whole);
    GoodStands(Exec(from, events), from.disk, whole, Seen(from.disk, events, whole), j);
    var g := Gen(from.disk, j, whole(j));
    UnvisitedStands(from, events, AllEvents(Exec(from, events), rs), j, g, SavedOffset(Exec(from, events).disk, j, g));
    RunsAreHistory(from, events, rs);
  }
}
