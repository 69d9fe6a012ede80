/** Retrying an uncommitted segment in any reachable world of append-only files. */
module ArchiveRetry {
  import opened Records
  import opened Evidence
  import opened Anchors
  import opened WriteOnceStore
  import opened Archive
  import opened ArchiveSafety
  import opened ArchiveManifests
  import opened ArchiveAppendOnly

  lemma CapturedAnchor(i: Inode, whole: Bytes, snapshotStart: nat, snapshot: Bytes, start: nat, end: nat)
    requires Captured(whole, snapshotStart, snapshot, start, |whole|)
    requires start < end <= snapshotStart + |snapshot|
    ensures end <= |whole|
    ensures SnapshotAnchor(i, snapshotStart, snapshot, end) == TrueAnchor(i, whole, end) != NoAnchor
  {
    SnapshotAgrees(i, end, whole, snapshotStart, snapshot);
  }

  /** One segment of a visit that goes on with lineage `l`, when saving works. */
  lemma CommitIs(w: World, l: Lineage, v: Visit, g: nat, snapshotStart: nat, snapshot: Bytes, start: nat, record: Bytes,
                 anchor: Anchor, fate: SegmentFate)
    requires WellStored(w.bucket) && fate.saved
    requires SnapshotAnchor(v.inode, snapshotStart, snapshot, start + |record|) == anchor != NoAnchor
    ensures var end := start + |record|;
      var during := w.(mem := WithLineage(w.mem, v.inode, l));
      var (b, ok) := Upload(w.bucket, v.name, Identity(v, g, start, end, anchor), record, fate);
      var s := State(w.mem.lineages[v.inode := Lineage(g, end, anchor)], w.mem.rotated, w.mem.uploaded + 1);
      CommitOne(during, v, g, snapshotStart, snapshot, start, record, fate)
      == if ok then (World(b, s, s, w.log + [Commit(v.inode, g, start, end, record)]), true)
         else (during.(bucket := b), false)
  {
    hide Upload, SnapshotAnchor;
    assert w.mem.lineages[v.inode := l][v.inode := Lineage(g, start + |record|, anchor)]
      == w.mem.lineages[v.inode := Lineage(g, start + |record|, anchor)];
  }

  /** After any history of append-only files, from any loaded state on track, and whatever earlier
      attempts left in the bucket, a retry of the segment with a healthy network, in a visit that goes on
      with lineage `l`, commits exactly when no manifest was stored for it before, or the stored one has
      this visit's name, kind and snapshot size. Otherwise it fails closed: state, log and offset stay as
      they were. The data object is there either way. */
  lemma {:induction false} RetryDecides(from: World, events: seq<Event>, v: Visit, whole: Contents, snapshotStart: nat,
                                        snapshot: Bytes, start: nat, record: Bytes, l: Lineage, fate: SegmentFate)
    requires LoadedOnTrack(from, whole) && AppendOnly(from.disk, events, whole)
    requires Captured(whole(v.inode), snapshotStart, snapshot, start, |whole(v.inode)|)
    requires NextRecord(whole(v.inode), snapshotStart + |snapshot|, start, record)
    ensures start + |record| <= |whole(v.inode)| && WellStored(from.bucket)
    ensures var w, end := Exec(from, events), start + |record|;
      var during, g := w.(mem := WithLineage(w.mem, v.inode, l)), Gen(from.disk, v.inode, whole(v.inode));
      var anchor := TrueAnchor(v.inode, whole(v.inode), end);
      var id := Identity(v, g, start, end, anchor);
      var key := ManifestKey(SegmentKeyOf(id, record));
      HealthySegment(fate, Sha256(Raw(record)), Sha256(ManifestOf(v.name, id, record))) ==>
        var (w', ok) := CommitOne(during, v, g, snapshotStart, snapshot, start, record, fate);
        && (key in w.bucket ==> w.bucket[key] != [] && w.bucket[key][0].Manifest?)
        && (ok <==> (key in w.bucket ==>
             && w.bucket[key][0].sourceName == v.name
             && w.bucket[key][0].identity.kind == Kind(v)
             && w.bucket[key][0].identity.snapshotSize == v.file.size))
        && (ok ==> w'.mem == w'.disk && w'.disk.lineages == w.mem.lineages[v.inode := Lineage(g, end, anchor)]
                   && w'.log == w.log + [Commit(v.inode, g, start, end, record)])
        && (!ok ==> w'.disk == w.disk && w'.mem == during.mem && w'.log == w.log)
        && SegmentKeyOf(id, record) in w'.bucket && w'.bucket[SegmentKeyOf(id, record)] == [Raw(record)]
  {
    hide Upload, Healthy, SnapshotAnchor, NextRecord, Captured, TrueAnchor, Exec, SegmentKeyOf, AppendOnly,
      LoadedOnTrack, WithLineage, CommitOne, Good, Gen, ManifestOf, TrueManifest, TrueIdentity;
    LoadedWell(from, whole);
    var w, end, g := Exec(from, events), start + |record|, Gen(from.disk, v.inode, whole(v.inode));
    RecordInside(whole(v.inode), snapshotStart + |snapshot|, start, record);
    CapturedAnchor(v.inode, whole(v.inode), snapshotStart, snapshot, start, end);
    var id := Identity(v, g, start, end, TrueAnchor(v.inode, whole(v.inode), end));
    RunTrack(from, events, whole);
    GoodStored(w, from.disk, whole, Seen(from.disk, events, whole));
    UploadHealthy(w.bucket, v.name, id, record, fate);
    if fate.saved {
      CommitIs(w, l, v, g, snapshotStart, snapshot, start, record, id.anchor, fate);
    }
    var key := ManifestKey(SegmentKeyOf(id, record));
    ManifestIsTrue(v.name, id, record, whole, from.disk);
    StoredIsTrue(w, from.disk, whole, Seen(from.disk, events, whole), key);
    if key in w.bucket {
      ManifestsDiffer(w.bucket[key][0], ManifestOf(v.name, id, record), whole, from.disk);
    }
  }

  lemma ManifestIsTrue(name: string, id: SourceIdentity, bytes: Bytes, whole: Contents, from: State)
    requires id.generation == Gen(from, id.inode, whole(id.inode)) && id.end <= |whole(id.inode)|
    requires id.anchor == TrueAnchor(id.inode, whole(id.inode), id.end)
    ensures var m := ManifestOf(name, id, bytes);
      && TrueManifest(m, whole, from) && m.objectKey == SegmentKeyOf(id, bytes)
      && m.identity == id && m.sourceName == name && TrueIdentity(id, whole, from)
  {
  }

  lemma StoredIsTrue(w: World, from: State, whole: Contents, seen: Inode -> nat, key: Key)
    requires Good(w, from, whole, seen)
    ensures key.ManifestKey? && key in w.bucket ==>
      && |w.bucket[key]| == 1 && TrueManifest(w.bucket[key][0], whole, from)
      && w.bucket[key][0].Manifest? && w.bucket[key][0].objectKey == key.of
  {
    hide Standing, TrueManifest;
    if key.ManifestKey? && key in w.bucket {
      assert w.bucket[key][0].Manifest? && w.bucket[key][0].objectKey == key.of;
    }
  }
}
