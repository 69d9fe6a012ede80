/** One visit of the evidence archiver to one source file, and whole histories of visits, run
    ends and crashes (native/s3-archive.py:563-785). The file, the network and the disk answer
    through the visit's parameters, so a history fixes everything the outside world does. */
module Archive {
  import opened Records
  import opened Evidence
  import opened Anchors
  import opened WriteOnceStore

  datatype Lineage = Lineage(generation: nat, offset: int, anchor: Anchor)

  /** A version 1 marker: the rotated file was archived whole when it looked like this. */
  datatype Marker = Marker(inode: Inode, size: nat, content: Digest)

  datatype State = State(lineages: map<Inode, Lineage>, rotated: map<string, Marker>, uploaded: nat)

  /** What one committed offset advance claimed: bytes [start, end) of one generation. */
  datatype Commit = Commit(inode: Inode, generation: nat, start: nat, end: nat, bytes: Bytes)

  /** What the open descriptor shows: the two fstat sizes, and the content behind each read. */
  datatype FileView = FileView(
    size: nat, marker: View, markerSize: nat, lineage: View, startBefore: View, endBefore: View,
    snapshot: View, sizeAfter: nat, endAfter: View, startAfter: View)

  /** The outside world during the k-th segment: both PUT scripts, and whether save_state returns. */
  datatype SegmentFate = SegmentFate(data: Script, manifest: Script, saved: bool)

  datatype Visit = Visit(inode: Inode, name: string, rotated: bool, regular: bool, file: FileView,
                         cloud: nat -> SegmentFate)

  /** `disk` is the last saved state, `mem` the running process's copy, `log` the commits. */
  datatype World = World(bucket: Bucket, disk: State, mem: State, log: seq<Commit>)

  datatype Event = Visited(visit: Visit) | RunEnds(saved: bool) | Crashed

  const DefaultState := State(map[], map[], 0)
  const Initial := World(map[], DefaultState, DefaultState, [])

  function Kind(v: Visit): string {
    if v.rotated then "rotated-continuation" else "current"
  }

  function Reset(l: Lineage): Lineage {
    Lineage(l.generation + 1, 0, NoAnchor)
  }

  /** Whether the persisted range may continue: not negative, not past the end, same window. */
  predicate Continues(l: Lineage, v: Visit) {
    && 0 <= l.offset <= v.file.size
    && (l.offset > 0 ==>
          AnchorsMatch(l.anchor, DescriptorAnchor(v.inode, v.file.size, l.offset, v.file.lineage)))
  }

  function LineageFor(state: State, v: Visit): Lineage {
    if v.inode !in state.lineages then Lineage(0, 0, NoAnchor)
    else
      var l := state.lineages[v.inode];
      if Continues(l, v) then l else Reset(l)
  }

  predicate MarkerMatches(v: Visit, state: State) {
    && v.rotated && v.name in state.rotated
    && var m := state.rotated[v.name];
       var data := ReadAt(v.file.marker, 0, 0, v.file.size);
       && m.inode == v.inode && m.size == v.file.size
       && |data| == v.file.size && v.file.markerSize == v.file.size
       && m.content == Sha256(Raw(data))
  }

  function TakeSnapshot(v: Visit, start: nat): (s: Bytes)
    requires start <= v.file.size
    ensures |s| <= v.file.size - WindowStart(start)
  {
    ReadAt(v.file.snapshot, 0, WindowStart(start), v.file.size - WindowStart(start))
  }

  /** The pre/post anchor comparison around the snapshot read. */
  predicate Stable(v: Visit, start: nat)
    requires start <= v.file.size
  {
    var f := v.file;
    var snapshot := TakeSnapshot(v, start);
    var startAnchor := if start > 0 then DescriptorAnchor(v.inode, f.size, start, f.startBefore) else NoAnchor;
    var captured := SnapshotAnchor(v.inode, WindowStart(start), snapshot, f.size);
    && |snapshot| == f.size - WindowStart(start)
    && f.sizeAfter >= f.size
    && AnchorsMatch(DescriptorAnchor(v.inode, f.size, f.size, f.endBefore), captured)
    && AnchorsMatch(captured, DescriptorAnchor(v.inode, f.sizeAfter, f.size, f.endAfter))
    && (startAnchor != NoAnchor ==>
          AnchorsMatch(startAnchor, DescriptorAnchor(v.inode, f.sizeAfter, start, f.startAfter)))
  }

  function WithLineage(s: State, i: Inode, l: Lineage): State {
    s.(lineages := s.lineages[i := l])
  }

  function Identity(v: Visit, generation: nat, start: nat, end: nat, anchor: Anchor): SourceIdentity {
    SourceIdentity(v.inode, generation, Kind(v), v.file.size, start, end, anchor)
  }

  /** upload_with_manifest: the data PUT, then the manifest PUT; the bucket and whether it returned. */
  function Upload(b: Bucket, name: string, id: SourceIdentity, bytes: Bytes, fate: SegmentFate): (r: (Bucket, bool))
    requires WellStored(b)
    ensures WellStored(r.0)
  {
    var digest := Sha256(Raw(bytes));
    var key := KeyOf(id.inode, id.generation, id.start, id.end, digest);
    var data := PutOnce(b, key, Raw(bytes), digest, fate.data);
    if data.result.Raised? then (data.bucket, false) else
    var manifest := Manifest(name, id, digest, |bytes|, key, data.result.version);
    var m := PutOnce(data.bucket, ManifestKey(key), manifest, Sha256(manifest), fate.manifest);
    (m.bucket, m.result.Stored?)
  }

  /** One segment: upload, advance the lineage, save. False when an exception ends the run. */
  function CommitOne(w: World, v: Visit, generation: nat, snapshotStart: nat, snapshot: Bytes, start: nat,
                     segment: Bytes, fate: SegmentFate): (r: (World, bool))
    requires WellStored(w.bucket)
    ensures WellStored(r.0.bucket)
  {
    var end := start + |segment|;
    var anchor := SnapshotAnchor(v.inode, snapshotStart, snapshot, end);
    if anchor == NoAnchor then (w, false) else   // "archive segment anchor is unavailable"
    var (bucket, uploaded) := Upload(w.bucket, v.name, Identity(v, generation, start, end, anchor), segment, fate);
    if !uploaded then (w.(bucket := bucket), false) else
    var mem := WithLineage(w.mem, v.inode, Lineage(generation, end, anchor)).(uploaded := w.mem.uploaded + 1);
    if !fate.saved then (w.(bucket := bucket, mem := mem), false) else
    (World(bucket, mem, mem, w.log + [Commit(v.inode, generation, start, end, segment)]), true)
  }

  function CommitAll(w: World, v: Visit, generation: nat, snapshotStart: nat, snapshot: Bytes, start: nat,
                     records: seq<Bytes>, k: nat): (r: (World, bool))
    requires WellStored(w.bucket)
    ensures WellStored(r.0.bucket)
    decreases |records|
  {
    if records == [] then (w, true) else
      var (w', ok) := CommitOne(w, v, generation, snapshotStart, snapshot, start, records[0], v.cloud(k));
      if !ok then (w', false)
      else CommitAll(w', v, generation, snapshotStart, snapshot, start + |records[0]|, records[1..], k + 1)
  }

  function ArchivePath(w: World, v: Visit): (r: (World, bool))
    requires WellStored(w.bucket)
    ensures WellStored(r.0.bucket)
  {
    if !v.regular || MarkerMatches(v, w.mem) then (w, true) else
    var l := LineageFor(w.mem, v);
    var w' := w.(mem := WithLineage(w.mem, v.inode, l));
    if l.offset < 0 || v.file.size <= l.offset then (w', true)
    else if !Stable(v, l.offset) then (w'.(mem := WithLineage(w.mem, v.inode, Reset(l))), true)
    else
      var snapshot := TakeSnapshot(v, l.offset);
      CommitAll(w', v, l.generation, WindowStart(l.offset), snapshot, l.offset,
                Split(snapshot[l.offset - WindowStart(l.offset)..]), 0)
  }

  /** An exception or a crash loses `mem`; the next run starts from `disk`. */
  function Step(w: World, e: Event): (w': World)
    requires WellStored(w.bucket)
    ensures WellStored(w'.bucket)
  {
    match e
    case Visited(v) =>
      var (w', ok) := ArchivePath(w, v);
      if ok then w' else w'.(mem := w'.disk)
    case RunEnds(saved) =>
      var d := if saved then w.mem else w.disk;
      w.(disk := d, mem := d)
    case Crashed => w.(mem := w.disk)
  }

  /** A history from any world, such as the one an upgraded archiver finds: objects already stored,
      and a state file just loaded. */
  function Exec(start: World, events: seq<Event>): (w: World)
    requires WellStored(start.bucket)
    ensures WellStored(w.bucket)
  {
    if events == [] then start else Step(Exec(start, events[..|events| - 1]), events[|events| - 1])
  }

  /** The visits of one run, in their order, up to the first that raises. */
  function VisitAll(w: World, visits: seq<Visit>): (r: (World, bool))
    requires WellStored(w.bucket)
    ensures WellStored(r.0.bucket)
    decreases |visits|
  {
    if visits == [] then (w, true) else
      var (w', ok) := ArchivePath(w, visits[0]);
      if ok then VisitAll(w', visits[1..]) else (w', false)
  }

  /** locked_run: load the state, visit the rotated files in name order and the current one last, save.
      An exception ends the process, whose copy of the state is lost. */
  function LockedRun(w: World, visits: seq<Visit>, saved: bool): (w': World)
    requires WellStored(w.bucket)
    ensures WellStored(w'.bucket)
  {
    var (after, ok) := VisitAll(w.(mem := w.disk), visits);
    if ok && saved then after.(disk := after.mem) else after.(mem := after.disk)
  }

  /** The archiver process: its bucket client and its two copies of the state. */
  class Archiver {
    const client: EvidenceClient
    var disk: State
    var mem: State
    var log: seq<Commit>

    constructor ()
      ensures fresh(client) && Now() == Initial
    {
      client := new EvidenceClient();
      disk, mem, log := DefaultState, DefaultState, [];
    }

    function Now(): World
      reads this, client
    {
      World(client.bucket, disk, mem, log)
    }

    method UploadWithManifest(name: string, id: SourceIdentity, bytes: Bytes, fate: SegmentFate) returns (ok: bool)
      requires WellStored(client.bucket)
      modifies client
      ensures (client.bucket, ok) == Upload(old(client.bucket), name, id, bytes, fate)
    {
      hide PutOnce;
      var digest := Sha256(Raw(bytes));
      var key := KeyOf(id.inode, id.generation, id.start, id.end, digest);
      var response := client.PutOnceCall(key, Raw(bytes), digest, fate.data);
      if response.Raised? {
        return false;
      }
      var manifest := Manifest(name, id, digest, |bytes|, key, response.version);
      var stored := client.PutOnceCall(ManifestKey(key), manifest, Sha256(manifest), fate.manifest);
      return stored.Stored?;
    }

    method CommitSegment(v: Visit, generation: nat, snapshotStart: nat, snapshot: Bytes, start: nat, segment: Bytes,
                         fate: SegmentFate) returns (ok: bool)
      requires WellStored(client.bucket)
      modifies this, client
      ensures (Now(), ok) == CommitOne(old(Now()), v, generation, snapshotStart, snapshot, start, segment, fate)
    {
      hide Upload, SnapshotAnchor;
      var end := start + |segment|;
      var anchor := SnapshotAnchor(v.inode, snapshotStart, snapshot, end);
      if anchor == NoAnchor {
        return false;
      }
      var uploaded := UploadWithManifest(v.name, Identity(v, generation, start, end, anchor), segment, fate);
      if !uploaded {
        return false;
      }
      mem := WithLineage(mem, v.inode, Lineage(generation, end, anchor));
      mem := mem.(uploaded := mem.uploaded + 1);
      if !fate.saved {
        return false;
      }
      disk := mem;
      log := log + [Commit(v.inode, generation, start, end, segment)];
      return true;
    }

    method CommitSnapshot(v: Visit, generation: nat, snapshotStart: nat, snapshot: Bytes, initialStart: nat)
      returns (ok: bool)
      requires WellStored(client.bucket)
      requires snapshotStart <= initialStart <= snapshotStart + |snapshot|
      modifies this, client
      ensures (Now(), ok) == CommitAll(old(Now()), v, generation, snapshotStart, snapshot, initialStart,
                                         Split(snapshot[initialStart - snapshotStart..]), 0)
    {
      hide CommitOne, Split;
      var ends, segments := CompleteRecords(snapshot[initialStart - snapshotStart..]);
      ghost var goal := CommitAll(Now(), v, generation, snapshotStart, snapshot, initialStart, segments, 0);
      var k, start := 0, initialStart;
      while k < |segments|
        invariant 0 <= k <= |segments|
        invariant WellStored(client.bucket)
        invariant start == initialStart + |Flatten(segments[..k])|
        invariant CommitAll(Now(), v, generation, snapshotStart, snapshot, start, segments[k..], k) == goal
      {
        var fate := v.cloud(k);
        var committed := CommitSegment(v, generation, snapshotStart, snapshot, start, segments[k], fate);
        if !committed {
          return false;
        }
        start := initialStart + ends[k];
        FlattenSnoc(segments, k);
        assert segments[k..][1..] == segments[k + 1..];
        k := k + 1;
      }
      return true;
    }

    method ArchivePathCall(v: Visit) returns (ok: bool)
      requires WellStored(client.bucket)
      modifies this, client
      ensures (Now(), ok) == ArchivePath(old(Now()), v)
    {
      hide CommitAll, Stable, LineageFor, MarkerMatches, ReadAt;
      if !v.regular || MarkerMatches(v, mem) {
        return true;
      }
      var l := LineageFor(mem, v);
      ghost var before := mem;
      mem := WithLineage(mem, v.inode, l);
      if l.offset < 0 || v.file.size <= l.offset {
        return true;
      }
      if !Stable(v, l.offset) {
        mem := WithLineage(mem, v.inode, Reset(l));
        assert mem.lineages == before.lineages[v.inode := Reset(l)];
        return true;
      }
      var snapshotStart := WindowStart(l.offset);
      var snapshot := ReadRange(v.file.snapshot, snapshotStart, v.file.size - snapshotStart);
      StableLength(v, l.offset);
      ok := CommitSnapshot(v, l.generation, snapshotStart, snapshot, l.offset);
    }

    method LockedRunCall(visits: seq<Visit>, saved: bool)
      requires WellStored(client.bucket)
      modifies this, client
      ensures Now() == LockedRun(old(Now()), visits, saved)
    {
      hide ArchivePath;
      mem := disk;
      ghost var goal := VisitAll(Now(), visits);
      var n := 0;
      while n < |visits|
        invariant 0 <= n <= |visits| && WellStored(client.bucket)
        invariant VisitAll(Now(), visits[n..]) == goal
      {
        assert visits[n..][1..] == visits[n + 1..];
        var ok := ArchivePathCall(visits[n]);
        if !ok {
          mem := disk;
          return;
        }
        n := n + 1;
      }
      if saved {
        disk := mem;
      } else {
        mem := disk;
      }
    }
  }

  lemma FlattenSnoc(rs: seq<Bytes>, k: nat)
    requires k < |rs|
    ensures |Flatten(rs[..k + 1])| == |Flatten(rs[..k])| + |rs[k]|
  {
    assert rs[..k + 1] == rs[..k] + [rs[k]];
    FlattenAppend(rs[..k], [rs[k]]);
  }

  lemma StableLength(v: Visit, start: nat)
    requires start <= v.file.size && Stable(v, start)
    ensures |TakeSnapshot(v, start)| == v.file.size - WindowStart(start)
  {
  }
}
