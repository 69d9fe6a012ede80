/** A consequence of manifests that record source name, kind and snapshot size: once the manifest of a
    segment is stored but its commit is lost, only a visit with the same three can commit that segment,
    and after growth or a rename there may never be one (native/s3-archive.py:391-432, 708-762). */
module ArchiveStuck {
  import opened Records
  import opened Evidence
  import opened Anchors
  import opened WriteOnceStore
  import opened Archive
  import opened ArchiveSafety
  import opened ArchiveManifests
  import opened ArchiveAppendOnly

  /** The manifest key of the segment after `start` of this generation of this inode. */
  function NextKey(i: Inode, g: nat, start: nat, record: Bytes): Key {
    ManifestKey(KeyOf(i, g, start, start + |record|, Sha256(Raw(record))))
  }

  predicate HoldsManifest(b: Bucket, key: Key, m: Body) {
    m.Manifest? && key in b && b[key] == [m]
  }

  /** The visit would write this manifest again: same source name, kind and snapshot size. */
  predicate Agrees(m: Body, v: Visit)
    requires m.Manifest?
  {
    m.sourceName == v.name && m.identity.kind == Kind(v) && m.identity.snapshotSize == v.file.size
  }

  /** The lineage stands at `start` in this generation, on disk and in memory; it may still have to enter
      the generation, at 0. */
  predicate StandsAt(w: World, i: Inode, g: nat, start: nat) {
    SavedOffset(w.disk, i, g) == SavedOffset(w.mem, i, g) == start
  }

  /** The next record of the inode is at `start`, and its manifest is already stored. */
  ghost predicate Blocked(w: World, from: State, whole: Contents, i: Inode, start: nat, record: Bytes, m: Body) {
    var g := Gen(from, i, whole(i));
    && m.Manifest? && StandsAt(w, i, g, start) && HoldsManifest(w.bucket, NextKey(i, g, start, record), m)
    && IsRecord(record) && start + |record| <= |whole(i)| && whole(i)[start..start + |record|] == record
  }

  /** An upload that would write another manifest than the stored one never returns. */
  lemma OtherManifestFails(b: Bucket, v: Visit, id: SourceIdentity, bytes: Bytes, fate: SegmentFate, m: Body)
    requires Sound(b) && HoldsManifest(b, ManifestKey(SegmentKeyOf(id, bytes)), m)
    requires !Agrees(m, v) && id.kind == Kind(v) && id.snapshotSize == v.file.size
    ensures WellStored(b) && !Upload(b, v.name, id, bytes, fate).1
  {
    hide PutOnce, KeyOf, Sound;
    SoundStored(b);
    var digest := Sha256(Raw(bytes));
    var key := KeyOf(id.inode, id.generation, id.start, id.end, digest);
    TagOfKey(id, digest);
    PutSafe(b, key, Raw(bytes), fate.data);
    var data := PutOnce(b, key, Raw(bytes), digest, fate.data);
    if data.result.Stored? {
      PutSafe(data.bucket, ManifestKey(key), Manifest(v.name, id, digest, |bytes|, key, 0), fate.manifest);
    }
  }

  lemma StuckCommit(w: World, v: Visit, g: nat, snapshotStart: nat, snapshot: Bytes, start: nat, record: Bytes,
                    fate: SegmentFate, m: Body)
    requires Sound(w.bucket) && HoldsManifest(w.bucket, NextKey(v.inode, g, start, record), m) && !Agrees(m, v)
    ensures WellStored(w.bucket)
    ensures var (w', ok) := CommitOne(w, v, g, snapshotStart, snapshot, start, record, fate);
      !ok && w'.disk == w.disk && w'.log == w.log
  {
    hide Upload, Sound, SnapshotAnchor, KeyOf, Agrees;
    SoundStored(w.bucket);
    var end := start + |record|;
    var id := Identity(v, g, start, end, SnapshotAnchor(v.inode, snapshotStart, snapshot, end));
    OtherManifestFails(w.bucket, v, id, record, fate, m);
  }

  /** A record at a place of a file is determined by the file. */
  lemma SameRecord(whole: Bytes, start: nat, a: Bytes, b: Bytes)
    requires IsRecord(a) && IsRecord(b) && start + |a| <= |whole| && start + |b| <= |whole|
    requires whole[start..start + |a|] == a && whole[start..start + |b|] == b
    ensures a == b
  {
    hide IsRecord, HasLF;
    var rest := whole[start..];
    assert rest[..|a|] == a && rest[..|b|] == b;
    assert rest == a + rest[|a|..] && rest == b + rest[|b|..];
    FirstLFOf(a, rest[|a|..]);
    FirstLFOf(b, rest[|b|..]);
  }

  /** Commits of one inode leave the lineages of the others where they stand. */
  lemma {:induction false} OthersStand(w: World, v: Visit, generation: nat, snapshotStart: nat, snapshot: Bytes,
                                       start: nat, records: seq<Bytes>, k: nat, i: Inode, g: nat, at: nat)
    requires WellStored(w.bucket) && v.inode != i && StandsAt(w, i, g, at)
    ensures StandsAt(CommitAll(w, v, generation, snapshotStart, snapshot, start, records, k).0, i, g, at)
    decreases |records|
  {
    hide Upload, SnapshotAnchor, WellStored;
    if records != [] {
      var (w', ok) := CommitOne(w, v, generation, snapshotStart, snapshot, start, records[0], v.cloud(k));
      if ok {
        OthersStand(w', v, generation, snapshotStart, snapshot, start + |records[0]|, records[1..], k + 1, i, g,
          at);
      }
    }
  }

  /** What a visit finds and does when the next segment is stuck: nothing moves, and a visit that
      reaches the record raises. */
  lemma StuckVisit(w: World, from: State, v: Visit, whole: Contents, seen: Inode -> nat, i: Inode, start: nat,
                   record: Bytes, m: Body)
    requires Good(w, from, whole, seen) && FaithfulVisit(v, whole(v.inode)) && seen(v.inode) == v.file.size
    requires Blocked(w, from, whole, i, start, record, m)
    requires v.inode == i ==> !Agrees(m, v)
    ensures WellStored(w.bucket)
    ensures var (w', ok) := ArchivePath(w, v);
      && StandsAt(if ok then w' else w'.(mem := w'.disk), i, Gen(from, i, whole(i)), start)
      && (v.inode == i && v.regular && !MarkerMatches(v, w.mem) && start + |record| <= v.file.size ==> !ok)
  {
    hide CommitAll, Stable, MarkerMatches, FaithfulVisit, Split, Tail, TakeSnapshot, Good, LineageFor, Remaining,
         Captured, WindowStart, IsRecord, HoldsManifest, NextKey, Agrees, Gen;
    GoodStored(w, from, whole, seen);
    SizeBound(v, whole(v.inode));
    VisitTrack(w, from, v, whole, seen);
    var l := LineageFor(w.mem, v);
    var w' := w.(mem := WithLineage(w.mem, v.inode, l));
    RecordNotEmpty(record);
    if v.inode == i {
      LineageStands(w, from, v, whole, seen, start);
    }
    if v.regular && !MarkerMatches(v, w.mem) && l.offset < v.file.size {
      SnapshotTrack(v, whole(v.inode), l.offset);
      var snapshot := TakeSnapshot(v, l.offset);
      var data := snapshot[l.offset - WindowStart(l.offset)..];
      if v.inode == i {
        TailOpen(data);
        StuckRecords(w', v, l.generation, whole(i), WindowStart(start), snapshot, start, Split(data), Tail(data),
          record, m);
      } else {
        OthersStand(w', v, l.generation, WindowStart(l.offset), snapshot, l.offset, Split(data), 0, i,
          Gen(from, i, whole(i)), start);
      }
    }
  }

  lemma RecordNotEmpty(record: Bytes)
    requires IsRecord(record)
    ensures |record| > 0 && HasLF(record)
  {
    assert record[|record| - 1] == LF;
  }

  /** The lineage a visit continues with is the one that stands. */
  lemma LineageStands(w: World, from: State, v: Visit, whole: Contents, seen: Inode -> nat, start: nat)
    requires Good(w, from, whole, seen) && FaithfulVisit(v, whole(v.inode)) && seen(v.inode) == v.file.size
    requires StandsAt(w, v.inode, Gen(from, v.inode, whole(v.inode)), start)
    ensures LineageFor(w.mem, v).offset == start
  {
    hide Continues, FaithfulVisit, Recorded, Matches, AtBoundary, Sound, ManifestsTrue;
    StandingAt(w, from, whole, seen, v.inode);
    if v.inode in w.mem.lineages {
      TrackContinues(w.mem.lineages[v.inode], v, whole(v.inode));
    }
  }

  lemma StuckRecords(w: World, v: Visit, g: nat, whole: Bytes, snapshotStart: nat, snapshot: Bytes, start: nat,
                     records: seq<Bytes>, tail: Bytes, record: Bytes, m: Body)
    requires Sound(w.bucket) && HoldsManifest(w.bucket, NextKey(v.inode, g, start, record), m) && !Agrees(m, v)
    requires Remaining(whole, v.file.size, start, records, tail) && !HasLF(tail)
    requires IsRecord(record) && start + |record| <= |whole| && whole[start..start + |record|] == record
    ensures WellStored(w.bucket)
    ensures var (w', ok) := CommitAll(w, v, g, snapshotStart, snapshot, start, records, 0);
      && (if ok then w' == w else w'.disk == w.disk && w'.log == w.log)
      && (start + |record| <= v.file.size ==> !ok)
  {
    hide CommitOne, Sound, HoldsManifest, NextKey, IsRecord, Agrees;
    SoundStored(w.bucket);
    if records != [] {
      hide Remaining;
      RemainingNext(whole, v.file.size, start, records, tail);
      SameRecord(whole, start, record, records[0]);
      StuckCommit(w, v, g, snapshotStart, snapshot, start, record, v.cloud(0), m);
    } else if start + |record| <= v.file.size {
      RecordNotEmpty(record);
      SliceOfSlice(whole, start, v.file.size, start, start + |record|);
      assert tail == [] + tail == whole[start..v.file.size];
      assert tail[..|record|] == record;
      assert tail[|record| - 1] == LF by { LastIsLF(record); }
    }
  }

  lemma LastIsLF(record: Bytes)
    requires IsRecord(record)
    ensures record != [] && record[|record| - 1] == LF
  {
  }

  lemma StuckStep(w: World, from: State, e: Event, whole: Contents, seen: Inode -> nat, i: Inode, start: nat,
                  record: Bytes, m: Body)
    requires Good(w, from, whole, seen)
    requires e.Visited? ==> FaithfulVisit(e.visit, whole(e.visit.inode)) && seen(e.visit.inode) == e.visit.file.size
    requires Blocked(w, from, whole, i, start, record, m)
    requires e.Visited? && e.visit.inode == i ==> !Agrees(m, e.visit)
    ensures WellStored(w.bucket) && StandsAt(Step(w, e), i, Gen(from, i, whole(i)), start)
  {
    hide ArchivePath, FaithfulVisit, HoldsManifest, NextKey, IsRecord, Agrees;
    GoodStored(w, from, whole, seen);
    if e.Visited? {
      StuckVisit(w, from, e.visit, whole, seen, i, start, record, m);
    }
  }

  lemma Kept(b: Bucket, b': Bucket, key: Key, m: Body)
    requires HoldsManifest(b, key, m) && Keeps(b, b')
    ensures HoldsManifest(b', key, m)
  {
  }

  /** No visit of this inode among the events would write the stored manifest again. */
  predicate NoneAgrees(events: seq<Event>, i: Inode, m: Body)
    requires m.Manifest?
  {
    forall n :: 0 <= n < |events| && events[n].Visited? && events[n].visit.inode == i ==> !Agrees(m, events[n].visit)
  }

  /** Take any history of append-only files after which the lineage stands before a record whose manifest
      is already stored. Through every continuation, whatever the network does, the offset stands, as long
      as no visit of that inode has exactly the stored source name, kind and snapshot size. */
  lemma {:induction false} StuckUnlessAgreed(from: World, events: seq<Event>, more: seq<Event>, whole: Contents,
                                             i: Inode, start: nat, record: Bytes, m: Body)
    requires LoadedOnTrack(from, whole) && AppendOnly(from.disk, events + more, whole)
    ensures WellStored(from.bucket)
    ensures Blocked(Exec(from, events), from.disk, whole, i, start, record, m) && NoneAgrees(more, i, m) ==>
      Blocked(Exec(from, events + more), from.disk, whole, i, start, record, m)
    decreases |more|
  {
    hide Step, Good, FaithfulVisit, HoldsManifest, NextKey, IsRecord, Sound, LogFits, LoadedOnTrack, Loaded, Agrees,
      StandsAt;
    LoadedWell(from, whole);
    if more == [] {
      assert events + more == events;
    } else if Blocked(Exec(from, events), from.disk, whole, i, start, record, m) && NoneAgrees(more, i, m) {
      var init, e := more[..|more| - 1], more[|more| - 1];
      var before := events + init;
      assert (events + more)[..|events + more| - 1] == before;
      StuckUnlessAgreed(from, events, init, whole, i, start, record, m);
      assert before + [e] == events + more;
      LaterGood(from, before, e, whole);
      NothingUndone(from, events, more);
      Kept(Exec(from, events).bucket, Exec(from, events + more).bucket,
        NextKey(i, Gen(from.disk, i, whole(i)), start, record), m);
      assert e == more[|more| - 1];
      StuckStep(Exec(from, before), from.disk, e, whole, Seen(from.disk, events + more, whole), i, start, record, m);
    }
  }

  lemma {:induction false} LaterIsLarger(from: State, events: seq<Event>, more: seq<Event>, whole: Contents, i: Inode,
                                         n: nat)
    requires AppendOnly(from, events + more, whole)
    requires n < |more| && more[n].Visited? && more[n].visit.inode == i
    ensures LargestSeen(from, events, whole, i) <= more[n].visit.file.size
    decreases |more|
  {
    hide FaithfulVisit;
    var init := more[..|more| - 1];
    assert (events + more)[..|events + more| - 1] == events + init;
    if n < |init| {
      LaterIsLarger(from, events, init, whole, i, n);
    } else {
      SeenGrows(from, events, init, whole, i);
    }
  }

  lemma {:induction false} SeenGrows(from: State, events: seq<Event>, more: seq<Event>, whole: Contents, i: Inode)
    ensures LargestSeen(from, events, whole, i) <= LargestSeen(from, events + more, whole, i)
    decreases |more|
  {
    if more == [] {
      assert events + more == events;
    } else {
      assert (events + more)[..|events + more| - 1] == events + more[..|more| - 1];
      SeenGrows(from, events, more[..|more| - 1], whole, i);
    }
  }

  /** Growth alone is final: if the stored manifest tells of a smaller file than was seen since, no
      continuation at all moves the offset past that record. */
  lemma StuckForEver(from: World, events: seq<Event>, more: seq<Event>, whole: Contents, i: Inode, start: nat,
                     record: Bytes, m: Body)
    requires LoadedOnTrack(from, whole) && AppendOnly(from.disk, events + more, whole)
    ensures WellStored(from.bucket)
    ensures
      (Blocked(Exec(from, events), from.disk, whole, i, start, record, m)
       && m.identity.snapshotSize < LargestSeen(from.disk, events, whole, i)) ==>
      SavedOffset(Exec(from, events + more).disk, i, Gen(from.disk, i, whole(i))) == start
  {
    hide Exec, FaithfulVisit, HoldsManifest, NextKey, IsRecord, LoadedOnTrack, LargestSeen, AppendOnly;
    LoadedWell(from, whole);
    StuckUnlessAgreed(from, events, more, whole, i, start, record, m);
    if Blocked(Exec(from, events), from.disk, whole, i, start, record, m) {
      if m.identity.snapshotSize < LargestSeen(from.disk, events, whole, i) {
        forall n | 0 <= n < |more| && more[n].Visited? && more[n].visit.inode == i
          ensures !Agrees(m, more[n].visit)
        {
          LaterIsLarger(from.disk, events, more, whole, i, n);
        }
      }
    }
  }
}
