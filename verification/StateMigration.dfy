/** load_state's migration of version 1 and 2 archive state (native/s3-archive.py:105-144), and
    what the first visit after it does with the migrated lineages. */
module StateMigration {
  import opened Options
  import opened Records
  import opened Evidence
  import opened Anchors
  import opened WriteOnceStore
  import opened Archive
  import opened ArchiveSafety
  import opened ArchiveManifests
  import opened ArchiveAppendOnly

  /** A parsed state file. Version 1 knew one current source; version 2 kept bare digests. */
  datatype StateFile =
    | Missing
    | V1(current: Option<(Inode, int)>, markers: map<string, Marker>)
    | V2(lineages: map<Inode, Lineage>, markers: map<string, Marker>)
    | V3(state: State)

  function MigrateAnchor(a: Anchor, offset: int): Anchor {
    if a.DigestOnly? then
      Fields(Some(a.text), Some(offset), Some(if offset > ANCHOR_BYTES then offset - ANCHOR_BYTES else 0), None)
    else a
  }

  function MigrateV2(lineages: map<Inode, Lineage>): map<Inode, Lineage> {
    map i | i in lineages :: lineages[i].(anchor := MigrateAnchor(lineages[i].anchor, lineages[i].offset))
  }

  function LoadState(file: StateFile): State {
    match file
    case Missing => DefaultState
    case V1(current, markers) =>
      var lineages := match current case None => map[] case Some((i, offset)) => map[i := Lineage(0, offset, NoAnchor)];
      State(MigrateV2(lineages), markers, 0)
    case V2(lineages, markers) => State(MigrateV2(lineages), markers, 0)
    case V3(state) => state
  }

  /** Migrating a version 2 witness neither weakens nor tightens it: a bare digest is accepted on
      reload exactly for the descriptors whose window digest it matched before, so a source that
      was already advanced durably is not replayed. */
  lemma MigrationKeepsWitness(lineages: map<Inode, Lineage>, markers: map<string, Marker>, v: Visit)
    requires v.inode in lineages
    ensures Continues(LoadState(V2(lineages, markers)).lineages[v.inode], v) == Continues(lineages[v.inode], v)
  {
    hide ReadAt;
  }

  /** A version 1 source that had advanced carries no anchor, so its first visit starts over in
      generation 1; one that had not advanced continues in generation 0. */
  lemma Version1Restarts(i: Inode, offset: int, markers: map<string, Marker>, v: Visit)
    requires v.inode == i
    ensures LineageFor(LoadState(V1(Some((i, offset)), markers)), v)
         == if offset == 0 then Lineage(0, 0, NoAnchor) else Lineage(1, 0, NoAnchor)
  {
  }

  /** A version 1 marker stops a whole-file replay exactly while the rotated file still has the
      recorded inode, size and content. */
  lemma {:induction false} MarkerDecides(w: World, v: Visit, content: Bytes)
    requires WellStored(w.bucket)
    requires v.regular && v.rotated && v.name in w.mem.rotated
    requires v.file.size == |content| == v.file.markerSize && forall k: nat :: v.file.marker(k) == content
    ensures var m := w.mem.rotated[v.name];
      m.inode == v.inode && m.size == |content| && m.content == Sha256(Raw(content)) ==> ArchivePath(w, v) == (w, true)
    ensures var m := w.mem.rotated[v.name];
      MarkerMatches(v, w.mem) <==> m.inode == v.inode && m.size == |content| && m.content == Sha256(Raw(content))
  {
    hide CommitAll, Stable, LineageFor;
    ReadAtAppending(v.file.marker, 0, 0, |content|, content, |content|);
    assert content[0..|content|] == content;
  }

  /** An upgraded archiver: over the evidence it already stored and whatever state file it loads and
      migrates, every later history tiles from the offset that file claims, and never goes back. */
  lemma {:induction false} UpgradeKeepsTiling(b: Bucket, file: StateFile, events: seq<Event>)
    requires Sound(b)
    ensures WellStored(b)
    ensures var loaded := LoadState(file);
      var w := Exec(World(b, loaded, loaded, []), events);
      && (forall i: Inode, g: nat :: Tiles(Ranges(w.log, i, g), Base(loaded, i, g)))
      && NeverBack(loaded, w.disk) && Keeps(b, w.bucket)
  {
    hide Exec, LoadState, Sound, Ranges, Tiles, Base;
    var loaded := LoadState(file);
    var start := World(b, loaded, loaded, []);
    CommittedRangesTile(start, events);
    NothingUndone(start, [], events);
    assert [] + events == events;
    NoEvents(start);
  }

  function Version1(i: Inode, offset: int, markers: map<string, Marker>): State {
    LoadState(V1(Some((i, offset)), markers))
  }

  /** The file a version 1 state knew is archived whole again: after any append-only history since the
      upgrade, a visit that returns has committed exactly the complete records of the file from its first
      byte on, in generation 1 if version 1 had advanced it, and in generation 0 otherwise. */
  lemma {:induction false} Version1Archived(b: Bucket, i: Inode, offset: int, markers: map<string, Marker>,
                                            events: seq<Event>, v: Visit, whole: Contents)
    requires Sound(b) && ManifestsTrue(b, whole, Version1(i, offset, markers))
    requires AppendOnly(Version1(i, offset, markers), events + [Visited(v)], whole) && v.inode == i
    ensures WellStored(b) && v.file.size <= |whole(i)|
    ensures var start := World(b, Version1(i, offset, markers), Version1(i, offset, markers), []);
      var (w', ok) := ArchivePath(Exec(start, events), v);
      ok && v.regular && !MarkerMatches(v, Exec(start, events).mem) ==>
        BytesOf(Ranges(w'.log, i, if offset == 0 then 0 else 1)) == Split(whole(i)[..v.file.size])
  {
    hide Exec, ArchivePath, Sound, ManifestsTrue, AppendOnly, Ranges, Split, BytesOf, MarkerMatches;
    var loaded := Version1(i, offset, markers);
    assert whole(i)[..0] == [];
    VisitCatchesUp(World(b, loaded, loaded, []), events, v, whole);
    assert whole(i)[0..v.file.size] == whole(i)[..v.file.size];
  }

  /** Loading forgets nothing: a version 3 file is the state that was saved, and a version 2 file keeps its
      markers and every lineage's generation and offset. */
  lemma LoadKeeps(state: State, lineages: map<Inode, Lineage>, markers: map<string, Marker>)
    ensures LoadState(V3(state)) == state && LoadState(Missing) == State(map[], map[], 0)
    ensures var s := LoadState(V2(lineages, markers));
      && s.rotated == markers && s.lineages.Keys == lineages.Keys
      && forall i :: i in lineages ==>
           var l, l' := lineages[i], s.lineages[i];
           && l'.generation == l.generation && l'.offset == l.offset
           && (l.anchor.DigestOnly? || l'.anchor == l.anchor)
  {
  }

  lemma NoEvents(start: World)
    requires WellStored(start.bucket)
    ensures Exec(start, []) == start
  {
  }
}
