/** What every history of the archiver keeps, whatever the writer does to the files and the
    network does to the requests: committed ranges tile, offsets never move back, and every
    committed segment is stored under a key that holds that one content for ever. */
module ArchiveSafety {
  import opened Options
  import opened Records
  import opened Evidence
  import opened Anchors
  import opened WriteOnceStore
  import opened Archive

  /** The commits of one generation of one inode, oldest first. */
  function Ranges(log: seq<Commit>, i: Inode, g: nat): (cs: seq<Commit>)
  {
    if log == [] then [] else
      var c := log[|log| - 1];
      var before := Ranges(log[..|log| - 1], i, g);
      if c.inode == i && c.generation == g then before + [c] else before
  }

  lemma RangesSnoc(log: seq<Commit>, c: Commit, i: Inode, g: nat)
    ensures Ranges(log + [c], i, g) ==
              if c.inode == i && c.generation == g then Ranges(log, i, g) + [c] else Ranges(log, i, g)
  {
    assert (log + [c])[..|log|] == log;
  }

  function EndOf(cs: seq<Commit>, base: int): int {
    if cs == [] then base else cs[|cs| - 1].end
  }

  /** Non-empty ranges, each holding its own bytes, with no gap and no overlap from `base` on. */
  predicate Tiles(cs: seq<Commit>, base: int) {
    cs == [] ||
    var c, before := cs[|cs| - 1], cs[..|cs| - 1];
    c.start == EndOf(before, base) && |c.bytes| > 0 && c.end == c.start + |c.bytes| && Tiles(before, base)
  }

  lemma TilesSnoc(cs: seq<Commit>, base: int, c: Commit)
    requires Tiles(cs, base) && c.start == EndOf(cs, base) && |c.bytes| > 0 && c.end == c.start + |c.bytes|
    ensures Tiles(cs + [c], base) && EndOf(cs + [c], base) == c.end
  {
    assert (cs + [c])[..|cs|] == cs;
  }

  /** Every key holds one version; a segment key holds the content its digest names, a manifest
      key holds a manifest of the object it belongs to. */
  predicate Sound(b: Bucket) {
    forall k :: k in b ==>
      && |b[k]| == 1
      && (k.SegmentKey? ==> Sha256(b[k][0]) == k.tag)
      && (k.ManifestKey? ==> b[k][0].Manifest? && b[k][0].objectKey == k.of)
  }

  predicate Keeps(b: Bucket, b': Bucket) {
    forall k :: k in b ==> k in b' && b'[k] == b[k]
  }

  function CommitKey(c: Commit): Key {
    KeyOf(c.inode, c.generation, c.start, c.end, Sha256(Raw(c.bytes)))
  }

  /** The committed bytes and a manifest describing them are in the bucket. */
  predicate Evident(b: Bucket, c: Commit) {
    var k := CommitKey(c);
    && k in b && b[k] == [Raw(c.bytes)]
    && ManifestKey(k) in b
    && var m := b[ManifestKey(k)];
       && |m| == 1 && m[0].Manifest? && m[0].sha == Sha256(Raw(c.bytes)) && m[0].size == |c.bytes|
       && m[0].objectKey == k && m[0].identity.start == c.start && m[0].identity.end == c.end
       && m[0].identity.inode == c.inode && m[0].identity.generation == c.generation
  }

  /** A body may be put under a key when `Sound` allows it there. */
  predicate Fits(key: Key, body: Body) {
    && (key.SegmentKey? ==> Sha256(body) == key.tag)
    && (key.ManifestKey? ==> body.Manifest? && body.objectKey == key.of)
  }

  lemma PutSafe(b: Bucket, key: Key, body: Body, script: Script)
    requires Sound(b) && Fits(key, body)
    ensures var o := PutOnce(b, key, body, Sha256(body), script);
      && Sound(o.bucket) && Keeps(b, o.bucket)
      && (o.result.Stored? ==> o.result.version == 0 && key in o.bucket && o.bucket[key] == [body])
  {
    hide PutOnce;
    PutOnceSafe(b, key, body, Sha256(body), script);
  }

  lemma UploadSafe(b: Bucket, name: string, id: SourceIdentity, bytes: Bytes, fate: SegmentFate)
    requires Sound(b)
    ensures var (b', ok) := Upload(b, name, id, bytes, fate);
      var c := Commit(id.inode, id.generation, id.start, id.end, bytes);
      Sound(b') && Keeps(b, b') && (ok ==> Evident(b', c))
  {
    hide PutOnce, KeyOf, Sound;
    var digest := Sha256(Raw(bytes));
    var key := KeyOf(id.inode, id.generation, id.start, id.end, digest);
    TagOfKey(id, digest);
    PutSafe(b, key, Raw(bytes), fate.data);
    var data := PutOnce(b, key, Raw(bytes), digest, fate.data);
    if data.result.Stored? {
      PutSafe(data.bucket, ManifestKey(key), Manifest(name, id, digest, |bytes|, key, 0), fate.manifest);
    }
  }

  /** The manifest an upload that returns leaves is the very one it wrote. */
  lemma UploadWrites(b: Bucket, name: string, id: SourceIdentity, bytes: Bytes, fate: SegmentFate)
    requires Sound(b)
    ensures var (b', ok) := Upload(b, name, id, bytes, fate);
      var digest := Sha256(Raw(bytes));
      var key := KeyOf(id.inode, id.generation, id.start, id.end, digest);
      ok ==> ManifestKey(key) in b' && b'[ManifestKey(key)] == [Manifest(name, id, digest, |bytes|, key, 0)]
  {
    hide PutOnce, KeyOf, Sound, Evident;
    var digest := Sha256(Raw(bytes));
    var key := KeyOf(id.inode, id.generation, id.start, id.end, digest);
    TagOfKey(id, digest);
    PutSafe(b, key, Raw(bytes), fate.data);
    var data := PutOnce(b, key, Raw(bytes), digest, fate.data);
    if data.result.Stored? {
      PutSafe(data.bucket, ManifestKey(key), Manifest(name, id, digest, |bytes|, key, 0), fate.manifest);
    }
  }

  lemma TagOfKey(id: SourceIdentity, digest: Digest)
    ensures KeyOf(id.inode, id.generation, id.start, id.end, digest).SegmentKey?
    ensures KeyOf(id.inode, id.generation, id.start, id.end, digest).tag == digest
  {
  }

  /** A lineage in memory is the saved one, or a fresh start in a generation never saved. */
  predicate MemoryFits(mem: State, disk: State) {
    && disk.lineages.Keys <= mem.lineages.Keys
    && forall i :: i in mem.lineages ==>
         || (i in disk.lineages && mem.lineages[i] == disk.lineages[i])
         || (mem.lineages[i].offset == 0
             && (i in disk.lineages ==> mem.lineages[i].generation > disk.lineages[i].generation))
  }

  /** Where a generation starts: at 0, or at the offset a loaded state file already claims for it. */
  function Base(from: State, i: Inode, g: nat): int {
    if i in from.lineages && from.lineages[i].generation == g then from.lineages[i].offset else 0
  }

  /** The commits of this generation tile; if it is the saved one they reach exactly the saved
      offset, and if it is beyond the saved one there are none. */
  predicate FitsAt(log: seq<Commit>, disk: State, from: State, i: Inode, g: nat) {
    var cs, base := Ranges(log, i, g), Base(from, i, g);
    && Tiles(cs, base)
    && (i in disk.lineages && disk.lineages[i].generation == g ==> disk.lineages[i].offset == EndOf(cs, base))
    && ((i in disk.lineages ==> g > disk.lineages[i].generation) ==> cs == [])
  }

  ghost predicate LogFits(log: seq<Commit>, disk: State, from: State) {
    forall i: Inode, g: nat :: FitsAt(log, disk, from, i, g)
  }

  /** No lineage is older than in the loaded state. */
  predicate Ahead(from: State, s: State) {
    forall i :: i in from.lineages ==>
      i in s.lineages && s.lineages[i].generation >= from.lineages[i].generation
  }

  predicate StillLoaded(from: State, s: State, i: Inode)
    requires i in s.lineages
  {
    i in from.lineages && from.lineages[i] == s.lineages[i]
  }

  /** A saved positive offset carries a full anchor for exactly that offset of that inode, unless the
      lineage is still as it was loaded. */
  predicate Anchored(s: State, from: State) {
    forall i :: i in s.lineages && s.lineages[i].offset != 0 ==>
      WellAnchored(i, s.lineages[i]) || StillLoaded(from, s, i)
  }

  predicate WellAnchored(i: Inode, l: Lineage) {
    && l.offset > 0
    && l.anchor.Fields? && l.anchor.sha256.Some? && l.anchor.sha256.value.preimage.Raw?
    && |l.anchor.sha256.value.preimage.bytes| == l.offset - WindowStart(l.offset)
    && l.anchor.offset == Some(l.offset) && l.anchor.windowStart == Some(WindowStart(l.offset))
    && l.anchor.inode == Some(i)
  }

  ghost predicate Inv(w: World, from: State) {
    && Sound(w.bucket)
    && (forall c :: c in w.log ==> Evident(w.bucket, c))
    && MemoryFits(w.mem, w.disk)
    && LogFits(w.log, w.disk, from) && Ahead(from, w.disk)
    && Anchored(w.mem, from) && Anchored(w.disk, from)
  }

  /** Lexicographic (generation, offset) order, lineage by lineage. */
  predicate NeverBack(d: State, d': State) {
    forall i :: i in d.lineages ==>
      && i in d'.lineages
      && var l, l' := d.lineages[i], d'.lineages[i];
         l'.generation > l.generation || (l'.generation == l.generation && l'.offset >= l.offset)
  }

  lemma FitsSnoc(log: seq<Commit>, mem: State, from: State, c: Commit, l: Lineage, i: Inode, g: nat)
    requires FitsAt(log, mem, from, i, g)
    requires c.inode in mem.lineages
    requires mem.lineages[c.inode].generation == c.generation && mem.lineages[c.inode].offset == c.start
    requires |c.bytes| > 0 && c.end == c.start + |c.bytes|
    requires l.generation == c.generation && l.offset == c.end
    ensures FitsAt(log + [c], WithLineage(mem, c.inode, l), from, i, g)
  {
    hide Tiles, Ranges, EndOf, Base;
    RangesSnoc(log, c, i, g);
    if i == c.inode && g == c.generation {
      TilesSnoc(Ranges(log, i, g), Base(from, i, g), c);
    }
  }

  lemma LogFitsSnoc(log: seq<Commit>, disk: State, mem: State, from: State, c: Commit, l: Lineage)
    requires LogFits(log, disk, from) && MemoryFits(mem, disk) && Ahead(from, disk)
    requires c.inode in mem.lineages
    requires mem.lineages[c.inode].generation == c.generation && mem.lineages[c.inode].offset == c.start
    requires |c.bytes| > 0 && c.end == c.start + |c.bytes|
    requires l.generation == c.generation && l.offset == c.end
    ensures LogFits(log + [c], WithLineage(mem, c.inode, l), from)
  {
    hide FitsAt;
    SaveFits(log, disk, mem, from);
    forall i: Inode, g: nat
      ensures FitsAt(log + [c], WithLineage(mem, c.inode, l), from, i, g)
    {
      assert FitsAt(log, mem, from, i, g);
      FitsSnoc(log, mem, from, c, l, i, g);
    }
  }

  /** Saving the process's copy keeps the log fitting: unsaved lineages have no commits yet. */
  lemma SaveFits(log: seq<Commit>, disk: State, mem: State, from: State)
    requires LogFits(log, disk, from) && MemoryFits(mem, disk) && Ahead(from, disk)
    ensures LogFits(log, mem, from) && NeverBack(disk, mem) && Ahead(from, mem)
  {
    forall i: Inode, g: nat
      ensures FitsAt(log, mem, from, i, g)
    {
      assert FitsAt(log, disk, from, i, g);
    }
  }

  /** The saved state and the log after one commit. */
  lemma CommitSafe(log: seq<Commit>, disk: State, mem: State, from: State, c: Commit, anchor: Anchor, n: nat)
    requires LogFits(log, disk, from) && MemoryFits(mem, disk) && Ahead(from, disk)
    requires Anchored(mem, from) && Anchored(disk, from)
    requires c.inode in mem.lineages
    requires mem.lineages[c.inode].generation == c.generation && mem.lineages[c.inode].offset == c.start
    requires |c.bytes| > 0 && c.end == c.start + |c.bytes|
    requires WellAnchored(c.inode, Lineage(c.generation, c.end, anchor))
    ensures var d := WithLineage(mem, c.inode, Lineage(c.generation, c.end, anchor)).(uploaded := n);
      LogFits(log + [c], d, from) && MemoryFits(d, d) && Anchored(d, from) && NeverBack(disk, d) && Ahead(from, d)
  {
    hide LogFits, WellAnchored;
    SaveFits(log, disk, mem, from);
    LogFitsSnoc(log, disk, mem, from, c, Lineage(c.generation, c.end, anchor));
    CountIrrelevant(log + [c], WithLineage(mem, c.inode, Lineage(c.generation, c.end, anchor)), from, n);
  }

  lemma CommitOneSafe(w: World, from: State, v: Visit, generation: nat, snapshotStart: nat, snapshot: Bytes, start: nat,
                      segment: Bytes, fate: SegmentFate)
    requires Inv(w, from) && v.inode in w.mem.lineages && |segment| > 0
    requires w.mem.lineages[v.inode].generation == generation && w.mem.lineages[v.inode].offset == start
    ensures var (w', ok) := CommitOne(w, v, generation, snapshotStart, snapshot, start, segment, fate);
      && Keeps(w.bucket, w'.bucket) && w.log <= w'.log && NeverBack(w.disk, w'.disk)
      && Inv(w'.(mem := w'.disk), from)
      && (ok ==> Inv(w', from) && v.inode in w'.mem.lineages
                 && w'.mem.lineages[v.inode].generation == generation
                 && w'.mem.lineages[v.inode].offset == start + |segment|)
  {
    hide Upload, Sound, Evident, SnapshotAnchor, LogFits, WellAnchored;
    var end := start + |segment|;
    var anchor := SnapshotAnchor(v.inode, snapshotStart, snapshot, end);
    var c := Commit(v.inode, generation, start, end, segment);
    var id := Identity(v, generation, start, end, anchor);
    SaveNothing(w, from);
    SnapshotAnchored(v.inode, generation, snapshotStart, snapshot, end);
    UploadSafe(w.bucket, v.name, id, segment, fate);
    EvidenceKept(w.bucket, Upload(w.bucket, v.name, id, segment, fate).0, w.log);
    if anchor != NoAnchor {
      CommitSafe(w.log, w.disk, w.mem, from, c, anchor, w.mem.uploaded + 1);
    }
  }

  lemma SnapshotAnchored(i: Inode, generation: nat, snapshotStart: nat, snapshot: Bytes, end: nat)
    ensures var a := SnapshotAnchor(i, snapshotStart, snapshot, end);
      a != NoAnchor ==> WellAnchored(i, Lineage(generation, end, a))
  {
  }

  lemma CountIrrelevant(log: seq<Commit>, disk: State, from: State, n: nat)
    requires LogFits(log, disk, from)
    ensures LogFits(log, disk.(uploaded := n), from)
  {
    forall i: Inode, g: nat
      ensures FitsAt(log, disk.(uploaded := n), from, i, g)
    {
      assert FitsAt(log, disk, from, i, g);
    }
  }

  lemma EvidenceKept(b: Bucket, b': Bucket, log: seq<Commit>)
    requires Keeps(b, b') && forall c :: c in log ==> Evident(b, c)
    ensures forall c :: c in log ==> Evident(b', c)
  {
  }

  lemma {:induction false} CommitAllSafe(w: World, from: State, v: Visit, generation: nat, snapshotStart: nat,
      snapshot: Bytes,
                                         start: nat, records: seq<Bytes>, k: nat)
    requires Inv(w, from) && v.inode in w.mem.lineages && forall r :: r in records ==> IsRecord(r)
    requires w.mem.lineages[v.inode].generation == generation && w.mem.lineages[v.inode].offset == start
    ensures var (w', ok) := CommitAll(w, v, generation, snapshotStart, snapshot, start, records, k);
      && Keeps(w.bucket, w'.bucket) && w.log <= w'.log && NeverBack(w.disk, w'.disk)
      && Inv(w'.(mem := w'.disk), from)
      && (ok ==> Inv(w', from))
    decreases |records|
  {
    hide CommitOne, Inv, Sound;
    SaveNothing(w, from);
    if records != [] {
      assert IsRecord(records[0]);
      CommitOneSafe(w, from, v, generation, snapshotStart, snapshot, start, records[0], v.cloud(k));
      var (w', ok) := CommitOne(w, v, generation, snapshotStart, snapshot, start, records[0], v.cloud(k));
      if ok {
        CommitAllSafe(w', from, v, generation, snapshotStart, snapshot, start + |records[0]|, records[1..], k + 1);
      }
    }
  }

  /** Losing memory is always safe. */
  lemma SaveNothing(w: World, from: State)
    requires Inv(w, from)
    ensures Inv(w.(mem := w.disk), from)
  {
  }

  /** Deciding the lineage of a visit, or resetting it, only touches the process's copy. */
  lemma LineageSafe(w: World, from: State, v: Visit)
    requires Inv(w, from)
    ensures var l := LineageFor(w.mem, v);
      && Inv(w.(mem := WithLineage(w.mem, v.inode, l)), from)
      && Inv(w.(mem := WithLineage(w.mem, v.inode, Reset(l))), from)
  {
    hide Sound, Evident, LogFits, WellAnchored, Continues, Ahead;
  }

  lemma NothingMoves(w: World)
    ensures Keeps(w.bucket, w.bucket) && w.log <= w.log && NeverBack(w.disk, w.disk)
  {
  }

  lemma ArchivePathSafe(w: World, from: State, v: Visit)
    requires Inv(w, from)
    ensures WellStored(w.bucket)
    ensures var (w', ok) := ArchivePath(w, v);
      && Keeps(w.bucket, w'.bucket) && w.log <= w'.log && NeverBack(w.disk, w'.disk)
      && Inv(w'.(mem := w'.disk), from) && (ok ==> Inv(w', from))
  {
    hide CommitAll, Inv, Keeps, NeverBack, LineageFor, Stable, MarkerMatches, TakeSnapshot, Split, WellStored;
    InvStored(w, from);
    SaveNothing(w, from);
    LineageSafe(w, from, v);
    NothingMoves(w);
    var l := LineageFor(w.mem, v);
    var w' := w.(mem := WithLineage(w.mem, v.inode, l));
    if v.regular && !MarkerMatches(v, w.mem) && 0 <= l.offset < v.file.size && Stable(v, l.offset) {
      StableLength(v, l.offset);
      var snapshot := TakeSnapshot(v, l.offset);
      var data := snapshot[l.offset - WindowStart(l.offset)..];
      SplitRecords(data);
      CommitAllSafe(w', from, v, l.generation, WindowStart(l.offset), snapshot, l.offset, Split(data), 0);
    }
  }

  lemma InvStored(w: World, from: State)
    requires Inv(w, from)
    ensures WellStored(w.bucket)
  {
    SoundStored(w.bucket);
  }

  /** One event, any writer, any network: the invariant holds, stored objects stay as they are,
      the commit log only grows, and no saved (generation, offset) moves back. */
  lemma StepSafe(w: World, from: State, e: Event)
    requires Inv(w, from)
    ensures var w' := Step(w, e);
      Inv(w', from) && Keeps(w.bucket, w'.bucket) && w.log <= w'.log && NeverBack(w.disk, w'.disk)
  {
    hide ArchivePath, Sound, Evident, LogFits;
    match e
    case Visited(v) => ArchivePathSafe(w, from, v);
    case RunEnds(saved) => SaveFits(w.log, w.disk, w.mem, from);
    case Crashed => SaveNothing(w, from);
  }

  /** A world as a new process finds it: sound evidence, a loaded state, nothing committed yet. */
  ghost predicate Loaded(start: World) {
    Sound(start.bucket) && start.mem == start.disk && start.log == []
  }

  lemma LoadedSafe(start: World)
    requires Loaded(start)
    ensures WellStored(start.bucket) && Inv(start, start.disk)
  {
    SoundStored(start.bucket);
    forall i: Inode, g: nat
      ensures FitsAt([], start.disk, start.disk, i, g)
    {
    }
  }

  lemma SoundStored(b: Bucket)
    requires Sound(b)
    ensures WellStored(b)
  {
  }

  lemma {:induction false} RunSafe(start: World, events: seq<Event>)
    requires Loaded(start)
    ensures WellStored(start.bucket) && Inv(Exec(start, events), start.disk)
  {
    hide Step, Sound, Evident, Inv, Loaded;
    LoadedSafe(start);
    if events != [] {
      RunSafe(start, events[..|events| - 1]);
      StepSafe(Exec(start, events[..|events| - 1]), start.disk, events[|events| - 1]);
    }
  }

  /** Tiling: in every world reachable from any loaded state, an empty or a migrated one, the commits
      of every generation cover [base, offset) without gap or overlap, where the base is 0 or the
      offset the loaded file already claimed; and each committed segment and its manifest are stored. */
  lemma {:induction false} CommittedRangesTile(start: World, events: seq<Event>)
    requires Loaded(start)
    ensures WellStored(start.bucket)
    ensures var w := Exec(start, events);
      && (forall i: Inode, g: nat :: Tiles(Ranges(w.log, i, g), Base(start.disk, i, g)))
      && (forall i :: i in w.disk.lineages ==>
            var g := w.disk.lineages[i].generation;
            w.disk.lineages[i].offset == EndOf(Ranges(w.log, i, g), Base(start.disk, i, g)))
      && (forall c :: c in w.log ==> Evident(w.bucket, c))
  {
    hide Sound, Evident, Exec, Ranges, Tiles, Loaded, Base;
    RunSafe(start, events);
    var w := Exec(start, events);
    forall i: Inode, g: nat
      ensures Tiles(Ranges(w.log, i, g), Base(start.disk, i, g))
      ensures i in w.disk.lineages && w.disk.lineages[i].generation == g ==>
                w.disk.lineages[i].offset == EndOf(Ranges(w.log, i, g), Base(start.disk, i, g))
    {
      assert FitsAt(w.log, w.disk, start.disk, i, g);
    }
  }

  /** Over any continuation of any history no saved lineage moves back, no commit is withdrawn and
      no key ever holds a second content. */
  lemma {:induction false} NothingUndone(start: World, events: seq<Event>, more: seq<Event>)
    requires Loaded(start)
    ensures WellStored(start.bucket)
    ensures var w, w' := Exec(start, events), Exec(start, events + more);
      && NeverBack(w.disk, w'.disk) && w.log <= w'.log && Keeps(w.bucket, w'.bucket) && Sound(w'.bucket)
    decreases |more|
  {
    hide Step, Sound, Evident, LogFits, Loaded;
    RunSafe(start, events);
    if more == [] {
      assert events + more == events;
    } else {
      var before := events + more[..|more| - 1];
      NothingUndone(start, events, more[..|more| - 1]);
      RunSafe(start, before);
      StepSafe(Exec(start, before), start.disk, more[|more| - 1]);
      assert (events + more)[..|events + more| - 1] == before;
      NeverBackTransitive(Exec(start, events).disk, Exec(start, before).disk, Exec(start, events + more).disk);
    }
  }

  lemma NeverBackTransitive(a: State, b: State, c: State)
    requires NeverBack(a, b) && NeverBack(b, c)
    ensures NeverBack(a, c)
  {
  }

  /** Two commits of one generation never overlap: equal to being different entries of a tiling. */
  lemma {:induction false} TilesDisjoint(cs: seq<Commit>, base: int, a: nat, b: nat)
    requires Tiles(cs, base) && a < b < |cs|
    ensures cs[a].end <= cs[b].start && cs[b].end <= EndOf(cs, base)
  {
    var before := cs[..|cs| - 1];
    if b < |before| {
      TilesDisjoint(before, base, a, b);
    } else if a < |before| - 1 {
      TilesDisjoint(before, base, a, |before| - 1);
      assert Tiles(before, base);
    }
  }

  /** "archive segment anchor is unavailable" cannot happen: a stable snapshot reaches back far
      enough for the anchor of every record end inside it, whatever the writer did. */
  lemma SegmentAnchorAvailable(v: Visit, start: nat, end: nat)
    requires start < end <= v.file.size && Stable(v, start)
    ensures SnapshotAnchor(v.inode, WindowStart(start), TakeSnapshot(v, start), end) != NoAnchor
  {
    hide TakeSnapshot;
    StableLength(v, start);
  }

  /** The bytes of the anchor window before `end`, as one read of the visit sees them. */
  function WindowRead(view: View, end: int): Bytes
    requires end >= 0
  {
    ReadAt(view, 0, WindowStart(end), end - WindowStart(end))
  }

  /** For an arbitrary writer: the stability test holds exactly when the snapshot is complete, the
      file did not shrink below it, its last window reads the same before, in and after the snapshot,
      and so does the window at the start, if it could be read whole before. */
  lemma StableMeans(v: Visit, start: nat)
    requires start < v.file.size
    ensures var f, size := v.file, v.file.size;
      var snapshot, first := TakeSnapshot(v, start), WindowStart(start);
      Stable(v, start) <==>
        && |snapshot| == size - first && f.sizeAfter >= size
        && WindowRead(f.endBefore, size) == snapshot[WindowStart(size) - first..] == WindowRead(f.endAfter, size)
        && (start > 0 && |WindowRead(f.startBefore, start)| == start - first ==>
              WindowRead(f.startAfter, start) == WindowRead(f.startBefore, start))
  {
    hide ReadAt;
    var f, size := v.file, v.file.size;
    var snapshot, first := TakeSnapshot(v, start), WindowStart(start);
    if |snapshot| == size - first {
      assert snapshot[WindowStart(size) - first..size - first] == snapshot[WindowStart(size) - first..];
    }
  }

  /** The fields the anchor has besides its digest are those of this offset of this inode. */
  predicate SaysNothingWrong(a: Anchor, i: Inode, offset: int) {
    a.Fields? ==>
      && a.offset in {None, Some(offset)} && a.windowStart in {None, Some(WindowStart(offset) as int)}
      && a.inode in {None, Some(i)}
  }

  /** In every reachable world the lineage decision of a visit to a known inode resets its generation
      exactly when the file no longer reaches the saved offset or the bytes read back from the anchor
      window are not the anchored ones; otherwise the lineage continues unchanged. A lineage that is
      still as it was loaded may have a weaker anchor: it continues exactly when its offset is one the
      file reaches and, past 0, the anchor has a digest, that of the whole window read back, and says
      nothing else that is wrong. */
  lemma ResetsExactly(start: World, events: seq<Event>, v: Visit)
    requires Loaded(start)
    ensures WellStored(start.bucket)
    ensures var s := Exec(start, events).mem;
      v.inode in s.lineages && !StillLoaded(start.disk, s, v.inode) ==>
        var l := s.lineages[v.inode];
        var fits := l.offset <= v.file.size
          && (l.offset > 0 ==>
                l.anchor.Fields? && l.anchor.sha256.Some? && l.anchor.sha256.value.preimage.Raw?
                && WindowRead(v.file.lineage, l.offset) == l.anchor.sha256.value.preimage.bytes);
        LineageFor(s, v) == if fits then l else Reset(l)
    ensures var s := Exec(start, events).mem;
      v.inode in s.lineages ==>
        var l := s.lineages[v.inode];
        var fits := 0 <= l.offset <= v.file.size
          && (l.offset > 0 ==>
                && |WindowRead(v.file.lineage, l.offset)| == l.offset - WindowStart(l.offset)
                && AnchorDigest(l.anchor) == Some(Sha256(Raw(WindowRead(v.file.lineage, l.offset))))
                && SaysNothingWrong(l.anchor, v.inode, l.offset));
        LineageFor(s, v) == if fits then l else Reset(l)
  {
    hide Exec, ReadAt, Sound, Evident, LogFits, Loaded;
    RunSafe(start, events);
    var s := Exec(start, events).mem;
    if v.inode in s.lineages && s.lineages[v.inode].offset != 0 && !StillLoaded(start.disk, s, v.inode) {
      assert WellAnchored(v.inode, s.lineages[v.inode]);
    }
  }
}
