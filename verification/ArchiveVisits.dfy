/** One visit of the archiver to a file, whatever the writer did before and whatever generation the file is
    in: which bytes it commits, where it leaves the offset, and when a healthy network lets it finish
    (native/s3-archive.py:575-762). */
module ArchiveVisits {
  import opened Records
  import opened Evidence
  import opened Anchors
  import opened WriteOnceStore
  import opened Archive
  import opened ArchiveSafety
  import opened ArchiveManifests

  /** One commit for each record, end to end from `start`. */
  function Committed(i: Inode, g: nat, start: nat, records: seq<Bytes>): seq<Commit>
    decreases |records|
  {
    if records == [] then []
    else
      [Commit(i, g, start, start + |records[0]|, records[0])]
      + Committed(i, g, start + |records[0]|, records[1..])
  }

  /** The lineage of `i`, in memory and on disk, after its commits reached `end`. */
  predicate Saved(w: World, i: Inode, g: nat, end: nat) {
    && w.disk == w.mem && i in w.disk.lineages
    && w.disk.lineages[i].generation == g && w.disk.lineages[i].offset == end
  }

  lemma {:induction false} CommitAllArchives(w: World, v: Visit, g: nat, snapshotStart: nat, snapshot: Bytes,
                                             start: nat, records: seq<Bytes>, k: nat)
    requires WellStored(w.bucket)
    ensures var (w', ok) := CommitAll(w, v, g, snapshotStart, snapshot, start, records, k);
      ok ==>
        && w'.log == w.log + Committed(v.inode, g, start, records)
        && (if records == [] then w' == w else Saved(w', v.inode, g, start + |Flatten(records)|))
    decreases |records|
  {
    hide Upload, SnapshotAnchor, WellStored;
    if records != [] {
      var (w', ok) := CommitOne(w, v, g, snapshotStart, snapshot, start, records[0], v.cloud(k));
      if ok {
        CommitAllArchives(w', v, g, snapshotStart, snapshot, start + |records[0]|, records[1..], k + 1);
        assert w.log + [Commit(v.inode, g, start, start + |records[0]|, records[0])]
          + Committed(v.inode, g, start + |records[0]|, records[1..]) == w.log + Committed(v.inode, g, start, records);
        assert records[1..] == [] ==> Flatten(records) == records[0] + [];
      }
    }
  }

  /** The lineage a visit goes on with is one the file reaches. */
  lemma LineageReached(s: State, v: Visit)
    ensures var l := LineageFor(s, v); 0 <= l.offset <= v.file.size
  {
    hide ReadAt;
  }

  /** The stretch a stable visit reads: the file's bytes from the lineage's offset to the size fstat gave. */
  lemma SnapshotData(v: Visit, content: Bytes, start: nat)
    requires start <= v.file.size <= |content| && Appending(v.file.snapshot, content, v.file.size)
    ensures var snapshot := TakeSnapshot(v, start);
      && snapshot == content[WindowStart(start)..v.file.size]
      && snapshot[start - WindowStart(start)..] == content[start..v.file.size]
  {
    hide ReadAt;
    var size, first := v.file.size, WindowStart(start);
    ReadAtAppending(v.file.snapshot, 0, first, size - first, content, size);
    SliceOfSlice(content, first, size, start, size);
  }

  /** What a visit does, in whatever generation g the file is archived now. It goes on with a lineage of a
      reachable offset. A file without new bytes is left alone. If the reads around the snapshot disagree,
      the visit returns with the lineage at the start of generation g + 1 and nothing committed. Otherwise,
      if it returns, it has committed exactly the complete records of the bytes from the lineage's offset
      on, in order, under generation g; and the saved offset is where the last of them ends, so that no LF
      is left behind it. */
  lemma VisitArchives(w: World, v: Visit, content: Bytes)
    requires WellStored(w.bucket) && v.regular && !MarkerMatches(v, w.mem)
    requires v.file.size <= |content| && Appending(v.file.snapshot, content, v.file.size)
    ensures 0 <= LineageFor(w.mem, v).offset <= v.file.size
    ensures var l := LineageFor(w.mem, v);
      var (w', ok) := ArchivePath(w, v);
      var stretch := content[l.offset..v.file.size];
      var end := l.offset + |Flatten(Split(stretch))|;
      if l.offset == v.file.size then
        ok && w' == w.(mem := WithLineage(w.mem, v.inode, l))
      else if !Stable(v, l.offset) then
        ok && w' == w.(mem := WithLineage(w.mem, v.inode, Lineage(l.generation + 1, 0, NoAnchor)))
      else ok ==>
        && w'.log == w.log + Committed(v.inode, l.generation, l.offset, Split(stretch))
        && end <= v.file.size && !HasLF(content[end..v.file.size])
        && (if HasLF(stretch) then Saved(w', v.inode, l.generation, end)
            else w' == w.(mem := WithLineage(w.mem, v.inode, l)))
  {
    hide CommitAll, Stable, MarkerMatches, LineageFor, TakeSnapshot, Split, WellStored, Appending, HasLF, Flatten,
      Committed;
    LineageReached(w.mem, v);
    var l := LineageFor(w.mem, v);
    var w' := w.(mem := WithLineage(w.mem, v.inode, l));
    assert w.mem.lineages[v.inode := l][v.inode := Reset(l)] == w.mem.lineages[v.inode := Reset(l)];
    if l.offset < v.file.size && Stable(v, l.offset) {
      SnapshotData(v, content, l.offset);
      var stretch := content[l.offset..v.file.size];
      CommitAllArchives(w', v, l.generation, WindowStart(l.offset), TakeSnapshot(v, l.offset), l.offset, Split(stretch),
        0);
      CutAt(content, l.offset, v.file.size);
    }
  }

  /** The records of a stretch, and what follows them. */
  lemma CutAt(content: Bytes, start: nat, stop: nat)
    requires start <= stop <= |content|
    ensures var stretch := content[start..stop];
      var end := start + |Flatten(Split(stretch))|;
      && end <= stop && !HasLF(content[end..stop])
      && (Split(stretch) == [] <==> !HasLF(stretch))
  {
    hide HasLF, Flatten;
    var stretch := content[start..stop];
    SplitCovers(stretch);
    TailOpen(stretch);
    var head := Flatten(Split(stretch));
    assert stretch[|head|..] == Tail(stretch);
    assert stretch[|head|..] == content[start + |head|..stop];
  }

  /** Every record is stored under its own key, and next to it a manifest that names the file as the visit
      found it: its name, whether it was rotated, its size, and the anchor of the record's end. */
  predicate Described(b: Bucket, v: Visit, g: nat, content: Bytes, start: nat, records: seq<Bytes>)
    requires start + |Flatten(records)| <= |content|
    decreases |records|
  {
    records == [] ||
    var end, digest := start + |records[0]|, Sha256(Raw(records[0]));
    var key := KeyOf(v.inode, g, start, end, digest);
    var kind := if v.rotated then "rotated-continuation" else "current";
    var id := SourceIdentity(v.inode, g, kind, v.file.size, start, end, TrueAnchor(v.inode, content, end));
    && key in b && b[key] == [Raw(records[0])]
    && ManifestKey(key) in b && b[ManifestKey(key)] == [Manifest(v.name, id, digest, |records[0]|, key, 0)]
    && Described(b, v, g, content, end, records[1..])
  }

  /** The snapshot is the file's bytes from `snapshotStart` on. */
  predicate Holds(content: Bytes, snapshotStart: nat, snapshot: Bytes) {
    snapshotStart + |snapshot| <= |content| && snapshot == content[snapshotStart..snapshotStart + |snapshot|]
  }

  lemma DescribeOne(w: World, v: Visit, g: nat, content: Bytes, snapshotStart: nat, snapshot: Bytes, start: nat,
                    record: Bytes, fate: SegmentFate)
    requires Sound(w.bucket) && |record| > 0 && Holds(content, snapshotStart, snapshot)
    requires snapshotStart <= WindowStart(start + |record|) && start + |record| <= snapshotStart + |snapshot|
    ensures WellStored(w.bucket) && |Flatten([record])| == |record|
    ensures var (w', ok) := CommitOne(w, v, g, snapshotStart, snapshot, start, record, fate);
      Sound(w'.bucket) && Keeps(w.bucket, w'.bucket) && (ok ==> Described(w'.bucket, v, g, content, start, [record]))
  {
    hide Upload, Sound, KeyOf, SnapshotAnchor, TrueAnchor, WindowStart;
    SoundStored(w.bucket);
    SnapshotAgrees(v.inode, start + |record|, content, snapshotStart, snapshot);
    var anchor := SnapshotAnchor(v.inode, snapshotStart, snapshot, start + |record|);
    UploadSafe(w.bucket, v.name, Identity(v, g, start, start + |record|, anchor), record, fate);
    UploadWrites(w.bucket, v.name, Identity(v, g, start, start + |record|, anchor), record, fate);
    assert Flatten([record]) == record + [];
  }

  /** What is kept stays described. */
  lemma DescribedKept(b: Bucket, b': Bucket, v: Visit, g: nat, content: Bytes, start: nat, record: Bytes)
    requires |Flatten([record])| == |record| && start + |record| <= |content|
    requires Described(b, v, g, content, start, [record]) && Keeps(b, b')
    ensures Described(b', v, g, content, start, [record])
  {
    hide KeyOf, TrueAnchor;
  }

  lemma {:induction false} CommitAllDescribes(w: World, v: Visit, g: nat, content: Bytes, snapshotStart: nat,
                                              snapshot: Bytes, start: nat, records: seq<Bytes>, k: nat)
    requires Sound(w.bucket) && (forall r :: r in records ==> IsRecord(r)) && Holds(content, snapshotStart, snapshot)
    requires snapshotStart <= WindowStart(start) && start + |Flatten(records)| <= snapshotStart + |snapshot|
    ensures WellStored(w.bucket)
    ensures var (w', ok) := CommitAll(w, v, g, snapshotStart, snapshot, start, records, k);
      Sound(w'.bucket) && Keeps(w.bucket, w'.bucket) && (ok ==> Described(w'.bucket, v, g, content, start, records))
    decreases |records|
  {
    hide CommitOne, Sound, KeyOf, TrueAnchor, HasLF;
    SoundStored(w.bucket);
    if records != [] {
      var record := records[0];
      assert IsRecord(record);
      DescribeOne(w, v, g, content, snapshotStart, snapshot, start, record, v.cloud(k));
      var (w', ok) := CommitOne(w, v, g, snapshotStart, snapshot, start, record, v.cloud(k));
      if ok {
        CommitAllDescribes(w', v, g, content, snapshotStart, snapshot, start + |record|, records[1..], k + 1);
        var (w'', done) := CommitAll(w', v, g, snapshotStart, snapshot, start + |record|, records[1..], k + 1);
        DescribedKept(w'.bucket, w''.bucket, v, g, content, start, record);
      }
    }
  }

  /** A visit that returns has stored every record it committed, each beside a manifest of this visit. */
  lemma VisitDescribes(w: World, v: Visit, content: Bytes)
    requires Sound(w.bucket) && v.regular && !MarkerMatches(v, w.mem)
    requires v.file.size <= |content| && Appending(v.file.snapshot, content, v.file.size)
    requires 0 <= LineageFor(w.mem, v).offset < v.file.size && Stable(v, LineageFor(w.mem, v).offset)
    ensures WellStored(w.bucket)
    ensures var l := LineageFor(w.mem, v);
      var records := Split(content[l.offset..v.file.size]);
      var (w', ok) := ArchivePath(w, v);
      && l.offset + |Flatten(records)| <= v.file.size
      && (ok ==> Described(w'.bucket, v, l.generation, content, l.offset, records))
  {
    hide CommitAll, Stable, MarkerMatches, LineageFor, TakeSnapshot, Split, Appending, HasLF, Flatten, Described,
      Sound, IsRecord;
    SoundStored(w.bucket);
    var l := LineageFor(w.mem, v);
    var stretch := content[l.offset..v.file.size];
    SnapshotData(v, content, l.offset);
    SplitRecords(stretch);
    CutAt(content, l.offset, v.file.size);
    CommitAllDescribes(w.(mem := WithLineage(w.mem, v.inode, l)), v, l.generation, content, WindowStart(l.offset),
      TakeSnapshot(v, l.offset), l.offset, Split(stretch), 0);
  }

  /** The identity of the segment at `start`. */
  function SegmentIdentity(v: Visit, g: nat, content: Bytes, start: nat, record: Bytes): SourceIdentity
    requires start + |record| <= |content|
  {
    Identity(v, g, start, start + |record|, TrueAnchor(v.inode, content, start + |record|))
  }

  /** The manifest key of every record is free or holds the very manifest this visit writes. */
  predicate Unhindered(b: Bucket, v: Visit, g: nat, content: Bytes, start: nat, records: seq<Bytes>)
    requires start + |Flatten(records)| <= |content|
    decreases |records|
  {
    records == [] ||
    var id := SegmentIdentity(v, g, content, start, records[0]);
    var key := ManifestKey(SegmentKeyOf(id, records[0]));
    && (key in b ==> b[key] == [ManifestOf(v.name, id, records[0])])
    && Unhindered(b, v, g, content, start + |records[0]|, records[1..])
  }

  /** Both PUTs of every record are answered properly, both bodies are served, and every save works. */
  ghost predicate HealthyFrom(v: Visit, g: nat, content: Bytes, start: nat, records: seq<Bytes>, k: nat)
    requires start + |Flatten(records)| <= |content|
    decreases |records|
  {
    records == [] ||
    var id := SegmentIdentity(v, g, content, start, records[0]);
    && HealthySegment(v.cloud(k), Sha256(Raw(records[0])), Sha256(ManifestOf(v.name, id, records[0])))
    && HealthyFrom(v, g, content, start + |records[0]|, records[1..], k + 1)
  }

  /** Only these two keys differ. */
  ghost predicate SameBut(b: Bucket, b': Bucket, key: Key) {
    forall k :: k != key && k != ManifestKey(key) ==> (k in b <==> k in b') && (k in b ==> b[k] == b'[k])
  }

  lemma UploadTouches(b: Bucket, name: string, id: SourceIdentity, bytes: Bytes, fate: SegmentFate)
    requires Sound(b)
    ensures WellStored(b) && SameBut(b, Upload(b, name, id, bytes, fate).0, SegmentKeyOf(id, bytes))
  {
    hide PutOnce, KeyOf, Sound;
    SoundStored(b);
    var digest := Sha256(Raw(bytes));
    var key := KeyOf(id.inode, id.generation, id.start, id.end, digest);
    PutOnceSafe(b, key, Raw(bytes), digest, fate.data);
    var data := PutOnce(b, key, Raw(bytes), digest, fate.data);
    if data.result.Stored? {
      var manifest := Manifest(name, id, digest, |bytes|, key, data.result.version);
      PutOnceSafe(data.bucket, ManifestKey(key), manifest, Sha256(manifest), fate.manifest);
    }
  }

  /** What happens to the keys of an earlier record does not matter to the later ones. */
  lemma {:induction false} UnhinderedFrame(b: Bucket, b': Bucket, v: Visit, g: nat, content: Bytes, start: nat,
                                           records: seq<Bytes>, s: nat, e: nat, d: Digest)
    requires start + |Flatten(records)| <= |content| && s < start && SameBut(b, b', KeyOf(v.inode, g, s, e, d))
    ensures Unhindered(b, v, g, content, start, records) == Unhindered(b', v, g, content, start, records)
    decreases |records|
  {
    hide KeyOf, TrueAnchor;
    if records != [] {
      var id := SegmentIdentity(v, g, content, start, records[0]);
      KeyInjective(v.inode, g, s, e, d, v.inode, g, start, id.end, Sha256(Raw(records[0])));
      KeyInjective(v.inode, g, start, id.end, Sha256(Raw(records[0])), v.inode, g, s, e, d);
      KeyInjective(v.inode, g, s, e, d, v.inode, g, start, id.end, Sha256(Raw(records[0])));
      UnhinderedFrame(b, b', v, g, content, start + |records[0]|, records[1..], s, e, d);
    }
  }

  /** One segment on a healthy network. */
  lemma HealthyOne(w: World, v: Visit, g: nat, content: Bytes, snapshotStart: nat, snapshot: Bytes, start: nat,
                   record: Bytes, fate: SegmentFate)
    requires Sound(w.bucket) && |record| > 0 && start + |record| <= |content|
    requires snapshotStart <= WindowStart(start + |record|) && start + |record| <= snapshotStart + |snapshot|
    requires Holds(content, snapshotStart, snapshot)
    ensures WellStored(w.bucket)
    ensures var id := SegmentIdentity(v, g, content, start, record);
      var key, m := SegmentKeyOf(id, record), ManifestOf(v.name, id, record);
      HealthySegment(fate, Sha256(Raw(record)), Sha256(m)) ==>
        var (w', ok) := CommitOne(w, v, g, snapshotStart, snapshot, start, record, fate);
        && (ok <==> (ManifestKey(key) in w.bucket ==> w.bucket[ManifestKey(key)] == [m]))
        && (ok ==> Sound(w'.bucket) && SameBut(w.bucket, w'.bucket, key))
  {
    hide Upload, Sound, KeyOf, SameBut, Healthy, SnapshotAnchor, TrueAnchor, ManifestOf, WindowStart;
    SoundStored(w.bucket);
    SnapshotAgrees(v.inode, start + |record|, content, snapshotStart, snapshot);
    AnchorThere(v.inode, content, start + |record|);
    var id := SegmentIdentity(v, g, content, start, record);
    UploadSafe(w.bucket, v.name, id, record, fate);
    UploadTouches(w.bucket, v.name, id, record, fate);
    UploadHealthy(w.bucket, v.name, id, record, fate);
  }

  lemma {:induction false} CommitAllHealthy(w: World, v: Visit, g: nat, content: Bytes, snapshotStart: nat,
                                            snapshot: Bytes, start: nat, records: seq<Bytes>, k: nat)
    requires Sound(w.bucket) && forall r :: r in records ==> IsRecord(r)
    requires snapshotStart <= WindowStart(start) && start + |Flatten(records)| <= snapshotStart + |snapshot|
    requires Holds(content, snapshotStart, snapshot)
    ensures WellStored(w.bucket)
    ensures HealthyFrom(v, g, content, start, records, k) ==>
      (CommitAll(w, v, g, snapshotStart, snapshot, start, records, k).1
       <==> Unhindered(w.bucket, v, g, content, start, records))
    decreases |records|
  {
    hide CommitOne, Sound, SegmentKeyOf, KeyOf, SameBut, HealthySegment, ManifestOf, TrueAnchor, HasLF;
    SoundStored(w.bucket);
    if records != [] && HealthyFrom(v, g, content, start, records, k) {
      var record := records[0];
      assert IsRecord(record);
      HealthyOne(w, v, g, content, snapshotStart, snapshot, start, record, v.cloud(k));
      var (w', ok) := CommitOne(w, v, g, snapshotStart, snapshot, start, record, v.cloud(k));
      if ok {
        CommitAllHealthy(w', v, g, content, snapshotStart, snapshot, start + |record|, records[1..], k + 1);
        SegmentKeyIs(v, g, content, start, record);
        UnhinderedFrame(w.bucket, w'.bucket, v, g, content, start + |record|, records[1..], start, start + |record|,
          Sha256(Raw(record)));
      }
    }
  }

  lemma SegmentKeyIs(v: Visit, g: nat, content: Bytes, start: nat, record: Bytes)
    requires start + |record| <= |content|
    ensures SegmentKeyOf(SegmentIdentity(v, g, content, start, record), record)
      == KeyOf(v.inode, g, start, start + |record|, Sha256(Raw(record)))
  {
    hide KeyOf, TrueAnchor;
  }

  /** On a healthy network a stable visit returns, and so archives everything, exactly when no record of its
      stretch has another manifest under its key already. */
  lemma VisitFinishes(w: World, v: Visit, content: Bytes)
    requires Sound(w.bucket) && v.regular && !MarkerMatches(v, w.mem)
    requires v.file.size <= |content| && Appending(v.file.snapshot, content, v.file.size)
    requires 0 <= LineageFor(w.mem, v).offset < v.file.size && Stable(v, LineageFor(w.mem, v).offset)
    ensures WellStored(w.bucket)
    ensures var l := LineageFor(w.mem, v);
      var records := Split(content[l.offset..v.file.size]);
      && l.offset + |Flatten(records)| <= v.file.size
      && (HealthyFrom(v, l.generation, content, l.offset, records, 0) ==>
            (ArchivePath(w, v).1 <==> Unhindered(w.bucket, v, l.generation, content, l.offset, records)))
  {
    hide CommitAll, Stable, MarkerMatches, LineageFor, TakeSnapshot, Split, Appending, HasLF, Flatten, Unhindered,
      HealthyFrom, Sound, IsRecord;
    SoundStored(w.bucket);
    var l := LineageFor(w.mem, v);
    var w' := w.(mem := WithLineage(w.mem, v.inode, l));
    SnapshotData(v, content, l.offset);
    var stretch := content[l.offset..v.file.size];
    SplitRecords(stretch);
    CutAt(content, l.offset, v.file.size);
    CommitAllHealthy(w', v, l.generation, content, WindowStart(l.offset), TakeSnapshot(v, l.offset), l.offset,
      Split(stretch), 0);
  }
}
