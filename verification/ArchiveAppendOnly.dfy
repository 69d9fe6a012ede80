/** What the archiver promises for files that are append-only from a loaded state on, in whatever generation
    they are: through any slicing into runs, renames, network failures and crashes, the committed segments
    of an inode are exactly the complete records of a stretch of the file, and appends alone never reset a
    generation. */
module ArchiveAppendOnly {
  import opened Records
  import opened Evidence
  import opened Anchors
  import opened WriteOnceStore
  import opened Archive
  import opened ArchiveSafety
  import opened ArchiveManifests

  /** Every read of the visit sees a prefix of `whole` that already holds the bytes fstat counted. */
  ghost predicate FaithfulVisit(v: Visit, whole: Bytes) {
    var f := v.file;
    && f.size <= |whole| && f.size <= f.sizeAfter
    && Appending(f.lineage, whole, f.size) && Appending(f.startBefore, whole, f.size)
    && Appending(f.endBefore, whole, f.size) && Appending(f.snapshot, whole, f.size)
    && Appending(f.endAfter, whole, f.size) && Appending(f.startAfter, whole, f.size)
  }

  /** Where the archive of a file goes on from a loaded state: at the loaded offset if the lineage fits the
      file, else at its beginning. */
  function StartOf(from: State, i: Inode, whole: Bytes): (o: nat)
    ensures o <= |whole|
  {
    if i in from.lineages && Matches(from.lineages[i], i, whole) then from.lineages[i].offset else 0
  }

  /** The largest size any earlier visit saw, the loaded offset being seen already. */
  function LargestSeen(from: State, events: seq<Event>, whole: Contents, i: Inode): nat {
    if events == [] then StartOf(from, i, whole(i)) else
      var before, e := LargestSeen(from, events[..|events| - 1], whole, i), events[|events| - 1];
      if e.Visited? && e.visit.inode == i && e.visit.file.size > before then e.visit.file.size else before
  }

  /** No visit sees other bytes than `whole` has, nor a smaller file than an earlier visit did. */
  ghost predicate AppendOnly(from: State, events: seq<Event>, whole: Contents) {
    events != [] ==>
      var before, e := events[..|events| - 1], events[|events| - 1];
      && AppendOnly(from, before, whole)
      && (e.Visited? ==> FaithfulVisit(e.visit, whole(e.visit.inode))
                         && LargestSeen(from, before, whole, e.visit.inode) <= e.visit.file.size)
  }

  function BytesOf(cs: seq<Commit>): seq<Bytes> {
    if cs == [] then [] else BytesOf(cs[..|cs| - 1]) + [cs[|cs| - 1].bytes]
  }

  lemma BytesOfSnoc(cs: seq<Commit>, c: Commit)
    ensures BytesOf(cs + [c]) == BytesOf(cs) + [c.bytes]
  {
    assert (cs + [c])[..|cs|] == cs;
  }

  /** In this generation, at a record boundary within what was seen, under an anchor that matches. */
  predicate OnTrack(l: Lineage, i: Inode, g: nat, whole: Bytes, seen: nat) {
    && l.generation == g
    && 0 <= l.offset <= seen <= |whole|
    && AtBoundary(whole[..l.offset])
    && Matches(l, i, whole)
  }

  /** Still as it was loaded, and not of this file: the first visit starts the next generation. */
  predicate Dormant(l: Lineage, from: State, i: Inode, whole: Bytes) {
    i in from.lineages && from.lineages[i] == l && !Matches(l, i, whole)
  }

  function SavedOffset(s: State, i: Inode, g: nat): int {
    if i in s.lineages && s.lineages[i].generation == g then s.lineages[i].offset else 0
  }

  /** The commits of this generation since `base` are the file's records from there to `offset`. */
  predicate Recorded(log: seq<Commit>, i: Inode, g: nat, whole: Bytes, base: nat, offset: int) {
    base <= offset <= |whole| && BytesOf(Ranges(log, i, g)) == Split(whole[base..offset])
  }

  /** One inode, in memory and on disk. */
  predicate Standing(mem: State, disk: State, from: State, log: seq<Commit>, i: Inode, whole: Bytes, seen: nat) {
    var g := Gen(from, i, whole);
    && (i in mem.lineages ==> OnTrack(mem.lineages[i], i, g, whole, seen) || Dormant(mem.lineages[i], from, i, whole))
    && (i in disk.lineages ==>
          && i in mem.lineages
          && (mem.lineages[i] == disk.lineages[i]
              || (Dormant(disk.lineages[i], from, i, whole) && mem.lineages[i].generation == g
                  && mem.lineages[i].offset == 0)))
    && (i in mem.lineages && i !in disk.lineages ==> mem.lineages[i].offset == 0)
    && (i in from.lineages ==> i in disk.lineages)
    && Recorded(log, i, g, whole, StartOf(from, i, whole), SavedOffset(disk, i, g))
  }

  ghost predicate Good(w: World, from: State, whole: Contents, seen: Inode -> nat) {
    && Sound(w.bucket) && ManifestsTrue(w.bucket, whole, from)
    && (forall i: Inode :: Standing(w.mem, w.disk, from, w.log, i, whole(i), seen(i)))
    && (forall c :: c in w.log ==> c.generation == Gen(from, c.inode, whole(c.inode)))
  }

  /** Normal appends between any two reads never fail the pre/post anchor test. */
  lemma AppendsAreStable(v: Visit, whole: Bytes, start: nat)
    requires FaithfulVisit(v, whole) && start < v.file.size
    ensures TakeSnapshot(v, start) == whole[WindowStart(start)..v.file.size]
    ensures Stable(v, start)
  {
    hide ReadAt, DescriptorAnchor, SnapshotAnchor, Appending;
    var f := v.file;
    ReadAtAppending(f.snapshot, 0, WindowStart(start), f.size - WindowStart(start), whole, f.size);
    EarlierSize(f.startBefore, whole, f.size, start);
    EarlierSize(f.startAfter, whole, f.size, start);
    DescriptorAgrees(v.inode, f.size, start, f.startBefore, whole);
    DescriptorAgrees(v.inode, f.sizeAfter, start, f.startAfter, whole);
    DescriptorAgrees(v.inode, f.size, f.size, f.endBefore, whole);
    DescriptorAgrees(v.inode, f.sizeAfter, f.size, f.endAfter, whole);
    SnapshotAgrees(v.inode, f.size, whole, WindowStart(start), TakeSnapshot(v, start));
  }

  lemma EarlierSize(view: View, whole: Bytes, size: nat, smaller: nat)
    requires Appending(view, whole, size) && smaller <= size
    ensures Appending(view, whole, smaller)
  {
  }

  /** Against a file that is only appended to, a lineage continues exactly when it fits the file and the
      file reaches its offset: appends alone never reset a generation. */
  lemma TrackContinues(l: Lineage, v: Visit, whole: Bytes)
    requires FaithfulVisit(v, whole)
    ensures Continues(l, v) <==> Matches(l, v.inode, whole) && l.offset <= v.file.size
  {
    hide ReadAt, DescriptorAnchor, Appending;
    if 0 < l.offset <= v.file.size {
      EarlierSize(v.file.lineage, whole, v.file.size, l.offset);
      DescriptorAgrees(v.inode, v.file.size, l.offset, v.file.lineage, whole);
    }
  }

  /** Extending a stretch that ends at a record boundary by one record extends its records by that one. */
  lemma SplitNext(whole: Bytes, base: nat, start: nat, record: Bytes)
    requires base <= start && start + |record| <= |whole| && whole[start..start + |record|] == record
    requires AtBoundary(whole[..start]) && IsRecord(record)
    ensures Split(whole[base..start + |record|]) == Split(whole[base..start]) + [record]
    ensures AtBoundary(whole[..start + |record|])
  {
    hide HasLF, Split;
    var a, b := whole[base..start], whole[base..start + |record|];
    SliceJoin(whole, base, start, start + |record|);
    assert b == a + record;
    BoundaryFrom(whole, base, start);
    OneRecord(record);
    SplitAppend(a, record);
    assert whole[..start + |record|][start + |record| - 1] == record[|record| - 1];
  }

  lemma OneRecord(record: Bytes)
    requires IsRecord(record)
    ensures Split(record) == [record] && |record| > 0
  {
    SplitUnique([record], []);
    assert Flatten([record]) + [] == record;
  }

  lemma RecordedSnoc(log: seq<Commit>, c: Commit, i: Inode, g: nat, whole: Bytes, base: nat, offset: int)
    requires Recorded(log, i, g, whole, base, offset)
    requires c.inode == i ==>
      c.generation == g && c.start == offset && c.end == c.start + |c.bytes| && c.end <= |whole| && IsRecord(c.bytes)
      && whole[c.start..c.end] == c.bytes && AtBoundary(whole[..c.start])
    ensures Recorded(log + [c], i, g, whole, base, if c.inode == i then c.end else offset)
  {
    hide Split, Ranges, BytesOf, IsRecord, AtBoundary;
    RangesSnoc(log, c, i, g);
    if c.inode == i {
      BytesOfSnoc(Ranges(log, i, g), c);
      SplitNext(whole, base, c.start, c.bytes);
    }
  }

  /** The snapshot holds the file's bytes from before the anchor window of `start` to its end. */
  predicate Captured(whole: Bytes, snapshotStart: nat, snapshot: Bytes, start: nat, seen: nat) {
    && snapshotStart <= WindowStart(start) && start <= snapshotStart + |snapshot| <= seen <= |whole|
    && snapshot == whole[snapshotStart..snapshotStart + |snapshot|]
  }

  /** `record` is the file's bytes at `start`, inside the snapshot. */
  predicate NextRecord(whole: Bytes, stop: nat, start: nat, record: Bytes) {
    && IsRecord(record) && start + |record| <= stop <= |whole|
    && whole[start..start + |record|] == record
  }

  /** The process's copy of the lineage is on track at this offset. */
  predicate At(w: World, from: State, i: Inode, whole: Bytes, offset: nat) {
    i in w.mem.lineages && w.mem.lineages[i].offset == offset && w.mem.lineages[i].generation == Gen(from, i, whole)
  }

  lemma NextOnTrack(i: Inode, g: nat, whole: Bytes, start: nat, record: Bytes, stop: nat, seen: nat)
    requires NextRecord(whole, stop, start, record) && stop <= seen <= |whole| && AtBoundary(whole[..start])
    ensures start + |record| <= |whole|
    ensures OnTrack(Lineage(g, start + |record|, TrueAnchor(i, whole, start + |record|)), i, g, whole, seen)
  {
    hide Split;
    SplitNext(whole, 0, start, record);
  }

  /** One inode after a commit on track: its own, or another one's. */
  lemma StandingCommit(w: World, w': World, from: State, i: Inode, g: nat, start: nat, record: Bytes, l: Lineage,
                       j: Inode, whole: Bytes, seen: nat, stop: nat)
    requires Standing(w.mem, w.disk, from, w.log, j, whole, seen)
    requires w'.mem.lineages == w.mem.lineages[i := l] && w'.disk == w'.mem
    requires w'.log == w.log + [Commit(i, g, start, start + |record|, record)]
    requires j == i ==>
      && g == Gen(from, i, whole) && At(w, from, i, whole, start) && NextRecord(whole, stop, start, record)
      && stop <= seen <= |whole| && l == Lineage(g, start + |record|, TrueAnchor(i, whole, start + |record|))
    ensures Standing(w'.mem, w'.disk, from, w'.log, j, whole, seen)
  {
    hide Ranges, BytesOf, Split, TrueAnchor, AtBoundary, Matches, IsRecord;
    var h := Gen(from, j, whole);
    if j == i {
      StandsOnTrack(w, from, i, whole, seen, start);
      NextOnTrack(i, g, whole, start, record, stop, seen);
      TrackOffset(w, from, i, whole, seen, start);
    } else {
      SameOffset(w, from, j, whole, seen);
    }
    RecordedSnoc(w.log, Commit(i, g, start, start + |record|, record), j, h, whole, StartOf(from, j, whole),
      SavedOffset(w.disk, j, h));
  }

  lemma StandsOnTrack(w: World, from: State, i: Inode, whole: Bytes, seen: nat, start: nat)
    requires Standing(w.mem, w.disk, from, w.log, i, whole, seen) && At(w, from, i, whole, start)
    ensures OnTrack(w.mem.lineages[i], i, Gen(from, i, whole), whole, seen) && AtBoundary(whole[..start])
  {
    hide AtBoundary, Recorded;
  }

  /** A lineage on track in memory stands where it was saved. */
  lemma TrackOffset(w: World, from: State, i: Inode, whole: Bytes, seen: nat, start: nat)
    requires Standing(w.mem, w.disk, from, w.log, i, whole, seen) && At(w, from, i, whole, start)
    ensures SavedOffset(w.disk, i, Gen(from, i, whole)) == start
  {
    hide Recorded, Matches;
  }

  /** Saving what is in memory moves no offset. */
  lemma SameOffset(w: World, from: State, i: Inode, whole: Bytes, seen: nat)
    requires Standing(w.mem, w.disk, from, w.log, i, whole, seen)
    ensures SavedOffset(w.mem, i, Gen(from, i, whole)) == SavedOffset(w.disk, i, Gen(from, i, whole))
  {
    hide Recorded, Matches;
  }

  /** The state after a commit on track. */
  lemma StateTrack(w: World, from: State, w': World, i: Inode, whole: Contents, seen: Inode -> nat, start: nat,
                   record: Bytes, stop: nat)
    requires Good(w, from, whole, seen) && At(w, from, i, whole(i), start)
    requires NextRecord(whole(i), stop, start, record) && stop <= seen(i) <= |whole(i)|
    requires Sound(w'.bucket) && ManifestsTrue(w'.bucket, whole, from)
    requires var g := Gen(from, i, whole(i));
      && w'.mem.lineages
         == w.mem.lineages[i := Lineage(g, start + |record|, TrueAnchor(i, whole(i), start + |record|))]
      && w'.disk == w'.mem && w'.log == w.log + [Commit(i, g, start, start + |record|, record)]
    ensures Good(w', from, whole, seen)
  {
    hide Standing, TrueAnchor, NextRecord, ManifestsTrue, Sound, Gen;
    var g := Gen(from, i, whole(i));
    forall j: Inode
      ensures Standing(w'.mem, w'.disk, from, w'.log, j, whole(j), seen(j))
    {
      StandingCommit(w, w', from, i, g, start, record, w'.mem.lineages[i], j, whole(j), seen(j), stop);
    }
  }

  lemma BucketOnly(w: World, from: State, w': World, whole: Contents, seen: Inode -> nat)
    requires Good(w, from, whole, seen) && Sound(w'.bucket) && ManifestsTrue(w'.bucket, whole, from)
    requires w'.disk == w.disk && w'.log == w.log && w'.mem == w.disk
    ensures Good(w', from, whole, seen)
  {
    hide Standing, Sound, ManifestsTrue;
    DropMemory(w, from, whole, seen);
  }

  lemma CommitOneTrack(w: World, from: State, v: Visit, whole: Contents, seen: Inode -> nat, snapshotStart: nat,
                       snapshot: Bytes, start: nat, record: Bytes, fate: SegmentFate)
    requires Good(w, from, whole, seen) && At(w, from, v.inode, whole(v.inode), start)
    requires Captured(whole(v.inode), snapshotStart, snapshot, start, seen(v.inode))
    requires NextRecord(whole(v.inode), snapshotStart + |snapshot|, start, record)
    ensures WellStored(w.bucket)
    ensures var g := Gen(from, v.inode, whole(v.inode));
      var (w', ok) := CommitOne(w, v, g, snapshotStart, snapshot, start, record, fate);
      && Good(w'.(mem := w'.disk), from, whole, seen)
      && (ok ==> Good(w', from, whole, seen) && At(w', from, v.inode, whole(v.inode), start + |record|))
  {
    hide Upload, SnapshotAnchor, Good, NextRecord, TrueAnchor, Sound, ManifestsTrue, Evident, Gen;
    var end, g := start + |record|, Gen(from, v.inode, whole(v.inode));
    GoodStored(w, from, whole, seen);
    RecordInside(whole(v.inode), snapshotStart + |snapshot|, start, record);
    SnapshotAgrees(v.inode, end, whole(v.inode), snapshotStart, snapshot);
    var id := Identity(v, g, start, end, TrueAnchor(v.inode, whole(v.inode), end));
    UploadSafe(w.bucket, v.name, id, record, fate);
    UploadManifests(w.bucket, v.name, id, record, fate, whole, from);
    var (w', ok) := CommitOne(w, v, g, snapshotStart, snapshot, start, record, fate);
    if ok {
      StateTrack(w, from, w', v.inode, whole, seen, start, record, snapshotStart + |snapshot|);
    } else {
      BucketOnly(w, from, w'.(mem := w'.disk), whole, seen);
    }
  }

  lemma RecordInside(whole: Bytes, stop: nat, start: nat, record: Bytes)
    requires NextRecord(whole, stop, start, record)
    ensures |record| > 0 && start + |record| <= stop <= |whole|
  {
  }

  /** The records still to be committed are a cut of the file from `start` to `stop`. */
  predicate Remaining(whole: Bytes, stop: nat, start: nat, records: seq<Bytes>, tail: Bytes) {
    && (forall r :: r in records ==> IsRecord(r))
    && start <= stop <= |whole| && Flatten(records) + tail == whole[start..stop]
  }

  lemma RemainingNext(whole: Bytes, stop: nat, start: nat, records: seq<Bytes>, tail: Bytes)
    requires Remaining(whole, stop, start, records, tail) && records != []
    ensures NextRecord(whole, stop, start, records[0])
    ensures Remaining(whole, stop, start + |records[0]|, records[1..], tail)
    ensures |Flatten(records)| == |records[0]| + |Flatten(records[1..])|
  {
    hide IsRecord;
    var end := start + |records[0]|;
    FirstOf(whole[start..stop], records[0], Flatten(records[1..]), tail);
    SliceOfSlice(whole, start, stop, start, end);
    SliceOfSlice(whole, start, stop, end, stop);
  }

  lemma {:induction false} CommitAllTrack(w: World, from: State, v: Visit, whole: Contents, seen: Inode -> nat,
                                          snapshotStart: nat, snapshot: Bytes, start: nat, records: seq<Bytes>,
                                          tail: Bytes, k: nat)
    requires Good(w, from, whole, seen) && At(w, from, v.inode, whole(v.inode), start)
    requires Captured(whole(v.inode), snapshotStart, snapshot, start, seen(v.inode))
    requires Remaining(whole(v.inode), snapshotStart + |snapshot|, start, records, tail)
    ensures WellStored(w.bucket)
    ensures var g := Gen(from, v.inode, whole(v.inode));
      var (w', ok) := CommitAll(w, v, g, snapshotStart, snapshot, start, records, k);
      && Good(w'.(mem := w'.disk), from, whole, seen)
      && (ok ==> Good(w', from, whole, seen) && At(w', from, v.inode, whole(v.inode), start + |Flatten(records)|))
    decreases |records|
  {
    hide CommitOne, Remaining, NextRecord, Flatten, Good, Captured, At, Gen;
    var g := Gen(from, v.inode, whole(v.inode));
    GoodStored(w, from, whole, seen);
    DropMemory(w, from, whole, seen);
    if records == [] {
      FlattenNothing();
    } else {
      RemainingNext(whole(v.inode), snapshotStart + |snapshot|, start, records, tail);
      RecordInside(whole(v.inode), snapshotStart + |snapshot|, start, records[0]);
      CapturedLater(whole(v.inode), snapshotStart, snapshot, start, start + |records[0]|, seen(v.inode));
      CommitOneTrack(w, from, v, whole, seen, snapshotStart, snapshot, start, records[0], v.cloud(k));
      var (w', ok) := CommitOne(w, v, g, snapshotStart, snapshot, start, records[0], v.cloud(k));
      if ok {
        CommitAllTrack(w', from, v, whole, seen, snapshotStart, snapshot, start + |records[0]|, records[1..], tail,
          k + 1);
      }
    }
  }

  lemma CapturedLater(whole: Bytes, snapshotStart: nat, snapshot: Bytes, start: nat, later: nat, seen: nat)
    requires Captured(whole, snapshotStart, snapshot, start, seen)
    requires start <= later <= snapshotStart + |snapshot|
    ensures Captured(whole, snapshotStart, snapshot, later, seen)
  {
  }

  lemma FlattenNothing()
    ensures Flatten([]) == []
  {
  }

  lemma GoodStored(w: World, from: State, whole: Contents, seen: Inode -> nat)
    requires Good(w, from, whole, seen)
    ensures WellStored(w.bucket) && Sound(w.bucket) && ManifestsTrue(w.bucket, whole, from)
  {
    SoundStored(w.bucket);
  }

  lemma FirstOf(data: Bytes, a: Bytes, b: Bytes, tail: Bytes)
    requires (a + b) + tail == data
    ensures |a| <= |data| && data[..|a|] == a && data[|a|..] == b + tail
  {
  }

  lemma DropMemory(w: World, from: State, whole: Contents, seen: Inode -> nat)
    requires Good(w, from, whole, seen)
    ensures Good(w.(mem := w.disk), from, whole, seen)
  {
    hide Recorded, Matches, Sound, ManifestsTrue;
  }

  /** One inode when its lineage is decided, and any other one. */
  lemma StandingDecided(w: World, from: State, v: Visit, j: Inode, whole: Bytes, seen: nat)
    requires Standing(w.mem, w.disk, from, w.log, j, whole, seen)
    requires j == v.inode ==> FaithfulVisit(v, whole) && seen == v.file.size
    ensures var l := LineageFor(w.mem, v);
      && Standing(WithLineage(w.mem, v.inode, l), w.disk, from, w.log, j, whole, seen)
      && (j == v.inode ==> l.generation == Gen(from, j, whole) && 0 <= l.offset <= v.file.size)
  {
    hide Continues, FaithfulVisit, Recorded, AtBoundary, Matches;
    if j == v.inode {
      SizeBound(v, whole);
      StartIsBoundary(whole);
      if j in w.mem.lineages {
        TrackContinues(w.mem.lineages[j], v, whole);
      }
      FreshMatches(Gen(from, j, whole), j, whole);
    }
  }

  lemma FreshMatches(g: nat, i: Inode, whole: Bytes)
    ensures Matches(Lineage(g, 0, NoAnchor), i, whole)
  {
  }

  lemma StartIsBoundary(whole: Bytes)
    ensures AtBoundary(whole[..0])
  {
  }

  lemma VisitTrack(w: World, from: State, v: Visit, whole: Contents, seen: Inode -> nat)
    requires Good(w, from, whole, seen) && FaithfulVisit(v, whole(v.inode)) && seen(v.inode) == v.file.size
    ensures var l := LineageFor(w.mem, v);
      && Good(w.(mem := WithLineage(w.mem, v.inode, l)), from, whole, seen)
      && l.generation == Gen(from, v.inode, whole(v.inode)) && 0 <= l.offset <= v.file.size
  {
    hide LineageFor, FaithfulVisit, Standing, Gen, Sound, ManifestsTrue;
    var w' := w.(mem := WithLineage(w.mem, v.inode, LineageFor(w.mem, v)));
    forall j: Inode
      ensures Standing(w'.mem, w'.disk, from, w'.log, j, whole(j), seen(j))
    {
      StandingDecided(w, from, v, j, whole(j), seen(j));
    }
    StandingDecided(w, from, v, v.inode, whole(v.inode), seen(v.inode));
  }

  /** In this generation, and between its offset and the size this visit saw there is no complete record. */
  predicate Drained(s: State, i: Inode, g: nat, size: nat, whole: Bytes) {
    && i in s.lineages && s.lineages[i].generation == g && size <= |whole|
    && var o := s.lineages[i].offset;
       0 <= o <= size && !HasLF(whole[o..size])
  }

  lemma RemainingTail(whole: Bytes, stop: nat, start: nat, records: seq<Bytes>, tail: Bytes)
    requires Remaining(whole, stop, start, records, tail)
    ensures var o := start + |Flatten(records)|; o <= stop <= |whole| && whole[o..stop] == tail
  {
    hide Flatten, IsRecord;
    var f := Flatten(records);
    CutOff(whole[start..stop], f, tail);
    SliceOfSlice(whole, start, stop, start + |f|, stop);
  }

  lemma CutOff(data: Bytes, head: Bytes, tail: Bytes)
    requires head + tail == data
    ensures |head| <= |data| && data[|head|..] == tail
  {
  }

  /** A visit that returns keeps everything on track and, unless the path was rejected or
      recognised by its old marker, leaves no complete record of the file uncommitted. */
  lemma ArchivePathTrack(w: World, from: State, v: Visit, whole: Contents, seen: Inode -> nat)
    requires Good(w, from, whole, seen) && FaithfulVisit(v, whole(v.inode)) && seen(v.inode) == v.file.size
    ensures WellStored(w.bucket)
    ensures var (w', ok) := ArchivePath(w, v);
      && Good(w'.(mem := w'.disk), from, whole, seen) && (ok ==> Good(w', from, whole, seen))
      && (ok && v.regular && !MarkerMatches(v, w.mem) ==>
            Drained(w'.mem, v.inode, Gen(from, v.inode, whole(v.inode)), v.file.size, whole(v.inode)))
  {
    hide CommitAll, Stable, MarkerMatches, FaithfulVisit, Split, Tail, TakeSnapshot, Good, LineageFor, Remaining,
        Captured, WindowStart, Gen;
    GoodStored(w, from, whole, seen);
    SizeBound(v, whole(v.inode));
    VisitTrack(w, from, v, whole, seen);
    var l := LineageFor(w.mem, v);
    var w' := w.(mem := WithLineage(w.mem, v.inode, l));
    DropMemory(w, from, whole, seen);
    DropMemory(w', from, whole, seen);
    if l.offset < v.file.size {
      SnapshotTrack(v, whole(v.inode), l.offset);
      var snapshot := TakeSnapshot(v, l.offset);
      var data := snapshot[l.offset - WindowStart(l.offset)..];
      CommitAllTrack(w', from, v, whole, seen, WindowStart(l.offset), snapshot, l.offset, Split(data), Tail(data), 0);
      RemainingTail(whole(v.inode), v.file.size, l.offset, Split(data), Tail(data));
      TailOpen(data);
    }
  }

  lemma SnapshotTrack(v: Visit, whole: Bytes, start: nat)
    requires FaithfulVisit(v, whole) && start < v.file.size
    ensures Stable(v, start)
    ensures var snapshot := TakeSnapshot(v, start);
      && start - WindowStart(start) <= |snapshot|
      && var data := snapshot[start - WindowStart(start)..];
      && Captured(whole, WindowStart(start), snapshot, start, v.file.size)
      && WindowStart(start) + |snapshot| == v.file.size
      && Remaining(whole, v.file.size, start, Split(data), Tail(data))
  {
    hide TakeSnapshot, Stable, Split, Tail, Flatten, IsRecord, FaithfulVisit;
    SizeBound(v, whole);
    AppendsAreStable(v, whole, start);
    SliceOfSlice(whole, WindowStart(start), v.file.size, start, v.file.size);
    SplitCovers(whole[start..v.file.size]);
    SplitRecords(whole[start..v.file.size]);
  }

  lemma SizeBound(v: Visit, whole: Bytes)
    requires FaithfulVisit(v, whole)
    ensures v.file.size <= |whole|
  {
  }

  lemma GoodLater(w: World, from: State, whole: Contents, seen: Inode -> nat, later: Inode -> nat)
    requires Good(w, from, whole, seen) && forall i: Inode :: seen(i) <= later(i) <= |whole(i)|
    ensures Good(w, from, whole, later)
  {
    hide Standing, Sound, ManifestsTrue;
    forall i: Inode
      ensures Standing(w.mem, w.disk, from, w.log, i, whole(i), later(i))
    {
      StandingLater(w, from, i, whole(i), seen(i), later(i));
    }
  }

  lemma StandingLater(w: World, from: State, i: Inode, whole: Bytes, seen: nat, later: nat)
    requires Standing(w.mem, w.disk, from, w.log, i, whole, seen) && seen <= later <= |whole|
    ensures Standing(w.mem, w.disk, from, w.log, i, whole, later)
  {
    hide Recorded, Matches, AtBoundary;
  }

  lemma {:induction false} SeenWithin(from: State, events: seq<Event>, whole: Contents, i: Inode)
    requires AppendOnly(from, events, whole)
    ensures StartOf(from, i, whole(i)) <= LargestSeen(from, events, whole, i) <= |whole(i)|
  {
    if events != [] {
      SeenWithin(from, events[..|events| - 1], whole, i);
    }
  }

  function Seen(from: State, events: seq<Event>, whole: Contents): Inode -> nat {
    i => LargestSeen(from, events, whole, i)
  }

  lemma StepTrack(w: World, from: State, e: Event, whole: Contents, seen: Inode -> nat)
    requires Good(w, from, whole, seen)
    requires e.Visited? ==> FaithfulVisit(e.visit, whole(e.visit.inode)) && seen(e.visit.inode) == e.visit.file.size
    ensures WellStored(w.bucket) && Good(Step(w, e), from, whole, seen)
  {
    hide ArchivePath, FaithfulVisit, Good;
    GoodStored(w, from, whole, seen);
    DropMemory(w, from, whole, seen);
    match e
    case Visited(v) => ArchivePathTrack(w, from, v, whole, seen);
    case Crashed =>
    case RunEnds(saved) => SaveMemory(w, from, whole, seen);
  }

  lemma SaveMemory(w: World, from: State, whole: Contents, seen: Inode -> nat)
    requires Good(w, from, whole, seen)
    ensures Good(w.(disk := w.mem), from, whole, seen)
  {
    hide Standing, Sound, ManifestsTrue;
    forall i: Inode
      ensures Standing(w.mem, w.mem, from, w.log, i, whole(i), seen(i))
    {
      StandingSaved(w, from, i, whole(i), seen(i));
    }
  }

  lemma StandingSaved(w: World, from: State, i: Inode, whole: Bytes, seen: nat)
    requires Standing(w.mem, w.disk, from, w.log, i, whole, seen)
    ensures Standing(w.mem, w.mem, from, w.log, i, whole, seen)
  {
    hide Recorded, Matches, AtBoundary, SavedOffset;
    SameOffset(w, from, i, whole, seen);
  }

  /** A world as a new process finds it: the evidence is sound, manifests of the generations to be
      continued are those of these files, and a loaded lineage that fits its file ends a record. */
  ghost predicate LoadedOnTrack(start: World, whole: Contents) {
    && Loaded(start) && ManifestsTrue(start.bucket, whole, start.disk)
    && forall i :: i in start.disk.lineages && Matches(start.disk.lineages[i], i, whole(i)) ==>
         AtBoundary(whole(i)[..start.disk.lineages[i].offset])
  }

  lemma InitialOnTrack(whole: Contents)
    ensures LoadedOnTrack(Initial, whole)
  {
  }

  lemma LoadedGood(start: World, whole: Contents)
    requires LoadedOnTrack(start, whole)
    ensures Good(start, start.disk, whole, Seen(start.disk, [], whole))
  {
    hide ManifestsTrue, Sound, Matches, AtBoundary;
    forall i: Inode
      ensures Standing(start.mem, start.disk, start.disk, [], i, whole(i), StartOf(start.disk, i, whole(i)))
    {
      LoadedStanding(start, whole, i);
    }
  }

  lemma LoadedStanding(start: World, whole: Contents, i: Inode)
    requires LoadedOnTrack(start, whole)
    ensures Standing(start.mem, start.disk, start.disk, [], i, whole(i), StartOf(start.disk, i, whole(i)))
  {
    hide ManifestsTrue, Sound;
    var o := StartOf(start.disk, i, whole(i));
    assert whole(i)[o..o] == [];
  }

  /** A world reached by append-only histories is one to load from: runs may be cut anywhere. */
  lemma {:induction false} RunTrack(start: World, events: seq<Event>, whole: Contents)
    requires LoadedOnTrack(start, whole) && AppendOnly(start.disk, events, whole)
    ensures WellStored(start.bucket)
    ensures Good(Exec(start, events), start.disk, whole, Seen(start.disk, events, whole))
  {
    hide Step, Good, FaithfulVisit, ManifestsTrue, StartOf, Sound;
    SoundStored(start.bucket);
    LoadedGood(start, whole);
    if events != [] {
      var before, e := events[..|events| - 1], events[|events| - 1];
      RunTrack(start, before, whole);
      LaterTrack(start, before, e, whole);
      assert before + [e] == events;
      StepTrack(Exec(start, before), start.disk, e, whole, Seen(start.disk, events, whole));
    }
  }

  /** Before its last event a history is on track for the sizes seen after it. */
  lemma LaterTrack(start: World, before: seq<Event>, e: Event, whole: Contents)
    requires AppendOnly(start.disk, before + [e], whole) && WellStored(start.bucket)
    requires Good(Exec(start, before), start.disk, whole, Seen(start.disk, before, whole))
    ensures Good(Exec(start, before), start.disk, whole, Seen(start.disk, before + [e], whole))
    ensures e.Visited? ==> FaithfulVisit(e.visit, whole(e.visit.inode))
    ensures e.Visited? ==> Seen(start.disk, before + [e], whole)(e.visit.inode) == e.visit.file.size
  {
    hide Exec, Good, FaithfulVisit, StartOf;
    var all := before + [e];
    assert all[..|all| - 1] == before && all[|all| - 1] == e;
    forall i: Inode
      ensures LargestSeen(start.disk, before, whole, i) <= LargestSeen(start.disk, all, whole, i) <= |whole(i)|
    {
      SeenWithin(start.disk, all, whole, i);
    }
    GoodLater(Exec(start, before), start.disk, whole, Seen(start.disk, before, whole), Seen(start.disk, all, whole));
  }

  lemma LaterGood(start: World, before: seq<Event>, e: Event, whole: Contents)
    requires LoadedOnTrack(start, whole) && AppendOnly(start.disk, before + [e], whole)
    ensures WellStored(start.bucket) && AppendOnly(start.disk, before, whole)
    ensures Good(Exec(start, before), start.disk, whole, Seen(start.disk, before + [e], whole))
    ensures e.Visited? ==> FaithfulVisit(e.visit, whole(e.visit.inode))
    ensures e.Visited? ==> Seen(start.disk, before + [e], whole)(e.visit.inode) == e.visit.file.size
  {
    hide Exec, Good, FaithfulVisit, LoadedOnTrack, LargestSeen;
    assert (before + [e])[..|before + [e]| - 1] == before;
    LoadedWell(start, whole);
    RunTrack(start, before, whole);
    LaterTrack(start, before, e, whole);
  }

  lemma {:induction false} RangesNone(log: seq<Commit>, i: Inode, g: nat)
    requires forall c :: c in log && c.inode == i ==> c.generation != g
    ensures Ranges(log, i, g) == []
  {
    if log != [] {
      RangesNone(log[..|log| - 1], i, g);
    }
  }

  /** The archive is the file: from an empty state or any loaded one, for every source that is append-only
      from then on, however its growth was sliced into visits, renamed by rotation and interrupted by crashes
      and network failures, the committed segments are exactly the complete records between the offset the
      archive goes on from and the saved one, in order, as one single pass over that stretch yields them, and
      joined they are the stretch itself. All are in one generation: the loaded one if its lineage fits the
      file, else the next; until that one is saved, the lineage is as it was loaded and nothing is committed. */
  lemma ArchiveIsThePrefix(start: World, events: seq<Event>, whole: Contents)
    requires LoadedOnTrack(start, whole) && AppendOnly(start.disk, events, whole)
    ensures WellStored(start.bucket)
    ensures var w := Exec(start, events);
      forall i :: i in w.disk.lineages ==>
        var g, base, l := Gen(start.disk, i, whole(i)), StartOf(start.disk, i, whole(i)), w.disk.lineages[i];
        if l.generation == g then
          && base <= l.offset <= |whole(i)|
          && BytesOf(Ranges(w.log, i, g)) == Split(whole(i)[base..l.offset])
          && Flatten(BytesOf(Ranges(w.log, i, g))) == whole(i)[base..l.offset]
        else
          Dormant(l, start.disk, i, whole(i)) && Ranges(w.log, i, g) == []
    ensures forall i: Inode, g: nat :: g != Gen(start.disk, i, whole(i)) ==> Ranges(Exec(start, events).log, i, g) == []
  {
    hide Exec, Ranges, Split, Loaded, AppendOnly, Gen, StartOf, Good, LoadedOnTrack;
    RunTrack(start, events, whole);
    var w, from, seen := Exec(start, events), start.disk, Seen(start.disk, events, whole);
    GoodStored(w, from, whole, seen);
    GoodGenerations(w, from, whole, seen);
    LoadedWell(start, whole);
    forall i | i in w.disk.lineages
      ensures var g, base, l := Gen(from, i, whole(i)), StartOf(from, i, whole(i)), w.disk.lineages[i];
        if l.generation == g then
          && base <= l.offset <= |whole(i)|
          && BytesOf(Ranges(w.log, i, g)) == Split(whole(i)[base..l.offset])
          && Flatten(BytesOf(Ranges(w.log, i, g))) == whole(i)[base..l.offset]
        else
          Dormant(l, from, i, whole(i)) && Ranges(w.log, i, g) == []
    {
      StandingAt(w, from, whole, seen, i);
      StandingArchive(w, from, i, whole(i), seen(i));
    }
    forall i: Inode, g: nat | g != Gen(from, i, whole(i))
      ensures Ranges(w.log, i, g) == []
    {
      RangesNone(w.log, i, g);
    }
  }

  lemma GoodGenerations(w: World, from: State, whole: Contents, seen: Inode -> nat)
    requires Good(w, from, whole, seen)
    ensures forall c :: c in w.log ==> c.generation == Gen(from, c.inode, whole(c.inode))
  {
    hide Standing, Sound, ManifestsTrue;
  }

  lemma StandingAt(w: World, from: State, whole: Contents, seen: Inode -> nat, i: Inode)
    requires Good(w, from, whole, seen)
    ensures Standing(w.mem, w.disk, from, w.log, i, whole(i), seen(i))
  {
    hide Standing, Sound, ManifestsTrue;
  }

  /** What standing on track means for the saved lineage and the commits. */
  lemma StandingArchive(w: World, from: State, i: Inode, whole: Bytes, seen: nat)
    requires Standing(w.mem, w.disk, from, w.log, i, whole, seen) && i in w.disk.lineages
    ensures var g, base, l := Gen(from, i, whole), StartOf(from, i, whole), w.disk.lineages[i];
      if l.generation == g then
        && base <= l.offset <= |whole| && AtBoundary(whole[base..l.offset])
        && BytesOf(Ranges(w.log, i, g)) == Split(whole[base..l.offset])
        && Flatten(BytesOf(Ranges(w.log, i, g))) == whole[base..l.offset]
      else
        Dormant(l, from, i, whole) && Ranges(w.log, i, g) == []
  {
    hide Split, Ranges, HasLF, AtBoundary;
    var g, base, l := Gen(from, i, whole), StartOf(from, i, whole), w.disk.lineages[i];
    if l.generation == g {
      BoundaryFrom(whole, base, l.offset);
      SplitAppend(whole[base..l.offset], []);
    } else {
      assert whole[0..0] == [];
      NoRecords(w.log, i, g);
    }
  }

  lemma NoRecords(log: seq<Commit>, i: Inode, g: nat)
    ensures Split([]) == []
    ensures BytesOf(Ranges(log, i, g)) == [] ==> Ranges(log, i, g) == []
  {
    hide Ranges;
    assert !HasLF([]);
  }

  lemma LoadedWell(start: World, whole: Contents)
    requires LoadedOnTrack(start, whole)
    ensures Loaded(start) && WellStored(start.bucket)
  {
    SoundStored(start.bucket);
  }

  lemma BoundaryFrom(whole: Bytes, base: nat, offset: nat)
    requires base <= offset <= |whole| && AtBoundary(whole[..offset])
    ensures AtBoundary(whole[base..offset])
  {
    if base < offset {
      assert whole[base..offset][offset - base - 1] == whole[..offset][offset - 1];
    }
  }

  /** Nothing is left behind: after any such history, a visit that returns, and was neither rejected nor
      recognised by an old marker, has made the committed segments exactly the complete records of the file
      from where its archive went on up to the size the visit saw, and saved the offset they end at. */
  lemma {:induction false} VisitCatchesUp(start: World, events: seq<Event>, v: Visit, whole: Contents)
    requires LoadedOnTrack(start, whole) && AppendOnly(start.disk, events + [Visited(v)], whole)
    ensures WellStored(start.bucket) && StartOf(start.disk, v.inode, whole(v.inode)) <= v.file.size <= |whole(v.inode)|
    ensures var (w', ok) := ArchivePath(Exec(start, events), v);
      var i, file := v.inode, whole(v.inode);
      var g, base := Gen(start.disk, i, file), StartOf(start.disk, i, file);
      ok && v.regular && !MarkerMatches(v, Exec(start, events).mem) ==>
        && BytesOf(Ranges(w'.log, i, g)) == Split(file[base..v.file.size])
        && SavedOffset(w'.disk, i, g) == base + |Flatten(Split(file[base..v.file.size]))|
  {
    hide Exec, ArchivePath, Good, Gen, StartOf, LoadedOnTrack, AppendOnly, FaithfulVisit, MarkerMatches, Split, Ranges,
      Flatten, SavedOffset, BytesOf, Drained;
    LoadedWell(start, whole);
    LaterGood(start, events, Visited(v), whole);
    SeenWithin(start.disk, events + [Visited(v)], whole, v.inode);
    var seen := Seen(start.disk, events + [Visited(v)], whole);
    ArchivePathTrack(Exec(start, events), start.disk, v, whole, seen);
    var (w', ok) := ArchivePath(Exec(start, events), v);
    if ok && v.regular && !MarkerMatches(v, Exec(start, events).mem) {
      StandingAt(w', start.disk, whole, seen, v.inode);
      StandingDrained(w', start.disk, v.inode, whole(v.inode), v.file.size);
    }
  }

  lemma StandingDrained(w: World, from: State, i: Inode, whole: Bytes, size: nat)
    requires Standing(w.mem, w.disk, from, w.log, i, whole, size)
    requires Drained(w.mem, i, Gen(from, i, whole), size, whole)
    ensures var g, base := Gen(from, i, whole), StartOf(from, i, whole);
      && base <= size <= |whole|
      && BytesOf(Ranges(w.log, i, g)) == Split(whole[base..size])
      && SavedOffset(w.disk, i, g) == base + |Flatten(Split(whole[base..size]))|
  {
    hide Split, Ranges, Flatten, HasLF, Matches, AtBoundary, BytesOf;
    var base, o := StartOf(from, i, whole), w.mem.lineages[i].offset;
    TrackOffset(w, from, i, whole, size, o);
    StandsOnTrack(w, from, i, whole, size, o);
    BoundaryFrom(whole, base, o);
    SliceJoin(whole, base, o, size);
    SplitAppend(whole[base..o], whole[o..size]);
    SplitOpen(whole[o..size]);
    assert Split(whole[base..o]) + [] == Split(whole[base..o]);
  }

  lemma SplitOpen(data: Bytes)
    requires !HasLF(data)
    ensures Split(data) == []
  {
  }
}
