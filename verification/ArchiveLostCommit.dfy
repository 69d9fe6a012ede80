/** The run behind a stuck segment: a process dies after the manifest of a first record reached the
    bucket and before the commit was saved. A later visit to the same file with a healthy network then
    commits exactly when nothing the manifest records has changed (native/s3-archive.py:391-432, 708-762). */
module ArchiveLostCommit {
  import opened Options
  import opened Records
  import opened Evidence
  import opened Anchors
  import opened WriteOnceStore
  import opened Archive
  import opened ArchiveSafety
  import opened ArchiveManifests
  import opened ArchiveAppendOnly
  import opened ArchiveRetry
  import opened ArchiveStuck

  /** A file nobody writes to during the visit. */
  function Still(content: Bytes): FileView {
    var view := (k: nat) => content;
    FileView(|content|, view, |content|, view, view, view, view, |content|, view, view)
  }

  function Answering(fate: PutFate): Script {
    Script(attempt => fate, Served(None))
  }

  const HEALTHY := SegmentFate(Answering(Answered(WellFormed)), Answering(Answered(WellFormed)), true)

  /** The manifest PUT is evaluated by the server, and the process dies before the answer. */
  const DYING := SegmentFate(Answering(Answered(WellFormed)), Answering(Death(true)), true)

  function Lost(i: Inode, name: string, record: Bytes): Visit {
    Visit(i, name, false, true, Still(record), k => DYING)
  }

  function Again(i: Inode, name: string, rotated: bool, content: Bytes): Visit {
    Visit(i, name, rotated, true, Still(content), k => HEALTHY)
  }

  /** What the lost visit stored. */
  function StoredManifest(i: Inode, name: string, record: Bytes): Body {
    var v := Lost(i, name, record);
    ManifestOf(name, Identity(v, 0, 0, |record|, TrueAnchor(i, record, |record|)), record)
  }

  lemma StillIsFaithful(v: Visit, content: Bytes, whole: Bytes)
    requires v.file == Still(content) && content <= whole
    ensures FaithfulVisit(v, whole)
  {
  }

  /** Reading a still file from its beginning. */
  lemma StillSnapshot(v: Visit, content: Bytes)
    requires v.file == Still(content) && content != []
    ensures WindowStart(0) == 0 && Stable(v, 0) && TakeSnapshot(v, 0) == content
  {
    hide Stable, TakeSnapshot, FaithfulVisit;
    StillIsFaithful(v, content, content);
    SizeBound(v, content);
    AppendsAreStable(v, content, 0);
    assert content[0..|content|] == content;
  }

  /** A first visit to an unknown inode is the loop over the records of the whole file. */
  lemma FirstVisit(w: World, v: Visit, content: Bytes)
    requires WellStored(w.bucket) && v.regular && v.file == Still(content) && content != []
    requires v.inode !in w.mem.lineages && v.name !in w.mem.rotated
    ensures ArchivePath(w, v) == CommitAll(w.(mem := WithLineage(w.mem, v.inode, Lineage(0, 0, NoAnchor))),
                                           v, 0, 0, content, 0, Split(content), 0)
  {
    hide CommitAll, Stable, TakeSnapshot, Split;
    StillSnapshot(v, content);
    assert content[0..] == content;
  }

  /** The PUT of the lost manifest. */
  lemma DyingPut(b: Bucket, key: Key, body: Body)
    requires WellStored(b) && key.ManifestKey? && key !in b
    ensures var o := PutOnce(b, key, body, Sha256(body), Answering(Death(true)));
      o.bucket == b[key := [body]] && o.result.Raised?
  {
    NextRound(b, key, body, Sha256(body), Answering(Death(true)), 1, 0);
  }

  lemma LostUpload(name: string, id: SourceIdentity, record: Bytes)
    ensures WellStored(map[])
    ensures var key := SegmentKeyOf(id, record);
      Upload(map[], name, id, record, DYING)
      == (map[key := [Raw(record)], ManifestKey(key) := [ManifestOf(name, id, record)]], false)
  {
    hide PutOnce, KeyOf;
    var key := SegmentKeyOf(id, record);
    TagOfKey(id, Sha256(Raw(record)));
    PutOnceHealthy(map[], key, Raw(record), DYING.data);
    var b := map[key := [Raw(record)]];
    DyingPut(b, ManifestKey(key), ManifestOf(name, id, record));
    assert b[ManifestKey(key) := [ManifestOf(name, id, record)]]
      == map[key := [Raw(record)], ManifestKey(key) := [ManifestOf(name, id, record)]];
  }

  /** After the lost visit nothing is committed, and the record's manifest is stored. */
  lemma CommitIsLost(i: Inode, name: string, record: Bytes)
    requires IsRecord(record)
    ensures var w := Exec(Initial, [Visited(Lost(i, name, record))]);
      && w.mem == w.disk == DefaultState && w.log == []
      && HoldsManifest(w.bucket, NextKey(i, 0, 0, record), StoredManifest(i, name, record))
      && w.bucket.Keys == {NextKey(i, 0, 0, record).of, NextKey(i, 0, 0, record)}
  {
    hide ArchivePath, Upload, Split, SnapshotAnchor, TrueAnchor, KeyOf;
    var v := Lost(i, name, record);
    RecordNotEmpty(record);
    FirstVisit(Initial, v, record);
    OneRecord(record);
    SnapshotAgrees(i, |record|, record, 0, record) by {
      assert record[0..|record|] == record;
    }
    AnchorThere(i, record, |record|);
    var id := Identity(v, 0, 0, |record|, TrueAnchor(i, record, |record|));
    LostUpload(name, id, record);
    assert [Visited(v)][..0] == [];
  }

  /** The lost visit is an append-only history of whatever the file becomes later. */
  lemma LostIsAppendOnly(i: Inode, name: string, record: Bytes, whole: Contents)
    requires record <= whole(i)
    ensures AppendOnly(DefaultState, [Visited(Lost(i, name, record))], whole)
  {
    hide FaithfulVisit;
    StillIsFaithful(Lost(i, name, record), record, whole(i));
    assert [Visited(Lost(i, name, record))][..0] == [];
  }

  lemma FirstRecord(record: Bytes, content: Bytes)
    requires IsRecord(record) && record <= content
    ensures Split(content) != [] && Split(content)[0] == record
    ensures content == record ==> Split(content)[1..] == []
  {
    hide IsRecord;
    assert content == record + content[|record|..];
    FirstLFOf(record, content[|record|..]);
    RecordNotEmpty(record);
    if content == record {
      OneRecord(record);
    }
  }

  /** The retry, with a healthy network, under whatever name the file now has and however much it has
      grown: it commits exactly when name, kind and size are those the lost manifest recorded. */
  lemma {:induction false} RetryAfterLoss(i: Inode, name: string, record: Bytes, later: string, rotated: bool,
                                          content: Bytes)
    requires IsRecord(record) && record <= content
    ensures WellStored(Exec(Initial, [Visited(Lost(i, name, record))]).bucket)
    ensures var (w, ok) :=
        ArchivePath(Exec(Initial, [Visited(Lost(i, name, record))]), Again(i, later, rotated, content));
      && (ok <==> later == name && !rotated && content == record)
      && (!ok ==> w.disk == DefaultState && w.log == [])
      && (ok ==> w.log == [Commit(i, 0, 0, |record|, record)] && SavedOffset(w.disk, i, 0) == |record|)
  {
    hide Exec, ArchivePath, CommitOne, Split, TrueAnchor, KeyOf, IsRecord;
    var events := [Visited(Lost(i, name, record))];
    var v, w := Again(i, later, rotated, content), Exec(Initial, events);
    RecordNotEmpty(record);
    CommitIsLost(i, name, record);
    FirstVisit(w, v, content);
    FirstRecord(record, content);
    RetryHere(i, name, record, v, content);
    var w0 := w.(mem := WithLineage(w.mem, i, Lineage(0, 0, NoAnchor)));
    var (w', ok) := CommitOne(w0, v, 0, 0, content, 0, record, HEALTHY);
    if ok {
      assert content == record;
    }
  }

  /** The retried segment itself. */
  lemma {:induction false} RetryHere(i: Inode, name: string, record: Bytes, v: Visit, content: Bytes)
    requires IsRecord(record) && record <= content && v == Again(i, v.name, v.rotated, content)
    ensures WellStored(Exec(Initial, [Visited(Lost(i, name, record))]).bucket)
    ensures var w := Exec(Initial, [Visited(Lost(i, name, record))]);
      var w0 := w.(mem := WithLineage(w.mem, i, Lineage(0, 0, NoAnchor)));
      var (w', ok) := CommitOne(w0, v, 0, 0, content, 0, record, HEALTHY);
      && (ok <==> v.name == name && !v.rotated && content == record)
      && (ok ==> w'.log == [Commit(i, 0, 0, |record|, record)] && SavedOffset(w'.disk, i, 0) == |record|)
      && (!ok ==> w'.disk == DefaultState && w'.log == [])
  {
    hide Exec, CommitOne, TrueAnchor, KeyOf, IsRecord, AppendOnly, LoadedOnTrack;
    var whole := (j: Inode) => content;
    var events := [Visited(Lost(i, name, record))];
    CommitIsLost(i, name, record);
    LostIsAppendOnly(i, name, record, whole);
    InitialOnTrack(whole);
    FirstCaptured(record, content);
    RetryDecides(Initial, events, v, whole, 0, content, 0, record, Lineage(0, 0, NoAnchor), HEALTHY);
  }

  lemma FirstCaptured(record: Bytes, content: Bytes)
    requires IsRecord(record) && record <= content
    ensures Captured(content, 0, content, 0, |content|)
    ensures NextRecord(content, 0 + |content|, 0, record)
  {
    hide IsRecord;
    assert content[0..|content|] == content;
    assert content[0..0 + |record|] == record;
  }

  /** The lost visit leaves the record blocked, whatever the file becomes later. */
  lemma LossBlocks(i: Inode, name: string, record: Bytes, whole: Contents)
    requires IsRecord(record) && record <= whole(i)
    ensures Blocked(Exec(Initial, [Visited(Lost(i, name, record))]), DefaultState, whole, i, 0, record,
                    StoredManifest(i, name, record))
  {
    hide Exec, IsRecord, NextKey, HoldsManifest, StoredManifest;
    CommitIsLost(i, name, record);
    assert whole(i)[0..0 + |record|] == record;
    assert StoredManifest(i, name, record).Manifest? by { ManifestStored(i, name, record); }
  }

  lemma ManifestStored(i: Inode, name: string, record: Bytes)
    ensures var m := StoredManifest(i, name, record);
      m.Manifest? && forall v: Visit :: Agrees(m, v) <==> v.name == name && !v.rotated && v.file.size == |record|
  {
    hide TrueAnchor, KeyOf;
  }

  /** A rename, or any growth, is final: after the lost visit no history whatever moves the offset, until
      one visit finds the inode under its first name, not rotated and exactly as long as the record. */
  lemma LossIsFinal(i: Inode, name: string, record: Bytes, more: seq<Event>, whole: Contents)
    requires IsRecord(record) && record <= whole(i)
    requires AppendOnly(DefaultState, [Visited(Lost(i, name, record))] + more, whole)
    requires forall n :: 0 <= n < |more| && more[n].Visited? && more[n].visit.inode == i ==>
      var v := more[n].visit; v.name != name || v.rotated || v.file.size != |record|
    ensures SavedOffset(Exec(Initial, [Visited(Lost(i, name, record))] + more).disk, i, 0) == 0
  {
    hide Exec, IsRecord, NextKey, HoldsManifest, StoredManifest, AppendOnly, Agrees;
    var events, m := [Visited(Lost(i, name, record))], StoredManifest(i, name, record);
    InitialOnTrack(whole);
    LossBlocks(i, name, record, whole);
    ManifestStored(i, name, record);
    StuckUnlessAgreed(Initial, events, more, whole, i, 0, record, m);
  }

  /** Once one visit has seen the file grown, no condition on the later ones is left. */
  lemma GrowthIsFinal(i: Inode, name: string, record: Bytes, later: string, rotated: bool, content: Bytes,
                      more: seq<Event>, whole: Contents)
    requires IsRecord(record) && record <= content <= whole(i) && |record| < |content|
    requires AppendOnly(DefaultState, Grown(i, name, record, later, rotated, content) + more, whole)
    ensures SavedOffset(Exec(Initial, Grown(i, name, record, later, rotated, content) + more).disk, i, 0) == 0
  {
    hide Exec, IsRecord, FaithfulVisit;
    var first, second := [Visited(Lost(i, name, record))], [Visited(Again(i, later, rotated, content))];
    var rest := second + more;
    assert first + rest == Grown(i, name, record, later, rotated, content) + more;
    forall n | 0 <= n < |rest| && rest[n].Visited? && rest[n].visit.inode == i
      ensures rest[n].visit.file.size != |record|
    {
      if n > 0 {
        LaterIsLarger(DefaultState, first + second, more, whole, i, n - 1);
        assert (first + second)[..1] == first;
      }
    }
    LossIsFinal(i, name, record, rest, whole);
  }

  function Grown(i: Inode, name: string, record: Bytes, later: string, rotated: bool, content: Bytes): seq<Event> {
    [Visited(Lost(i, name, record))] + [Visited(Again(i, later, rotated, content))]
  }

  /** Both are histories an append-only file can have. */
  lemma GrownIsAppendOnly(i: Inode, name: string, record: Bytes, later: string, rotated: bool, content: Bytes)
    requires record <= content
    ensures AppendOnly(DefaultState, Grown(i, name, record, later, rotated, content), (j: Inode) => content)
  {
    hide FaithfulVisit;
    var whole := (j: Inode) => content;
    var first, all := [Visited(Lost(i, name, record))], Grown(i, name, record, later, rotated, content);
    LostIsAppendOnly(i, name, record, whole);
    StillIsFaithful(Again(i, later, rotated, content), content, content);
    assert all[..1] == first && first[..0] == [];
  }

  /** The run after a rotation: the renamed file comes first and raises, so the new current file is not
      archived although the network is healthy, and a run of that file alone does archive it. */
  lemma RotationStarves(i: Inode, j: Inode, name: string, record: Bytes, later: string, other: Bytes)
    requires IsRecord(record) && IsRecord(other) && i != j
    ensures var w := Exec(Initial, [Visited(Lost(i, name, record))]);
      && WellStored(w.bucket)
      && LockedRun(w, [Again(i, later, true, record), Again(j, name, false, other)], true).disk == DefaultState
      && SavedOffset(LockedRun(w, [Again(j, name, false, other)], true).disk, j, 0) == |other|
  {
    hide Exec, ArchivePath, IsRecord, LockedRun, NextKey, HoldsManifest, StoredManifest, Lost, Again;
    var w := Exec(Initial, [Visited(Lost(i, name, record))]);
    CommitIsLost(i, name, record);
    RetryAfterLoss(i, name, record, later, true, record);
    FirstFails(w, [Again(i, later, true, record), Again(j, name, false, other)]);
    CurrentCommits(i, j, name, record, other);
    OnlyVisit(w, Again(j, name, false, other));
  }

  lemma FirstFails(w: World, visits: seq<Visit>)
    requires WellStored(w.bucket) && w.mem == w.disk && visits != []
    ensures var (after, ok) := ArchivePath(w, visits[0]);
      !ok ==> LockedRun(w, visits, true).disk == after.disk
  {
    hide ArchivePath;
    assert w.(mem := w.disk) == w;
  }

  lemma OnlyVisit(w: World, v: Visit)
    requires WellStored(w.bucket) && w.mem == w.disk
    ensures var (after, ok) := ArchivePath(w, v);
      ok ==> LockedRun(w, [v], true).disk == after.mem
  {
    hide ArchivePath;
    assert w.(mem := w.disk) == w;
    var (after, ok) := ArchivePath(w, v);
    assert [v][1..] == [];
    assert VisitAll(after, []) == (after, true);
    assert ok ==> VisitAll(w, [v]) == (after, true);
  }

  lemma NoManifestYet(i: Inode, j: Inode, name: string, record: Bytes, other: Bytes)
    requires IsRecord(record) && i != j
    ensures NextKey(j, 0, 0, other) !in Exec(Initial, [Visited(Lost(i, name, record))]).bucket
  {
    hide Exec, KeyOf, IsRecord;
    CommitIsLost(i, name, record);
    var d, d' := Sha256(Raw(record)), Sha256(Raw(other));
    KeyInjective(i, 0, 0, |record|, d, j, 0, 0, |other|, d');
    KeyInjective(i, 0, 0, |record|, d, j, 0, 0, 0 + |other|, d');
    KeyInjective(j, 0, 0, |other|, d', i, 0, 0, |record|, d);
  }

  lemma {:induction false} CurrentCommits(i: Inode, j: Inode, name: string, record: Bytes, other: Bytes)
    requires IsRecord(record) && IsRecord(other) && i != j
    ensures WellStored(Exec(Initial, [Visited(Lost(i, name, record))]).bucket)
    ensures var (w, ok) := ArchivePath(Exec(Initial, [Visited(Lost(i, name, record))]), Again(j, name, false, other));
      ok && SavedOffset(w.mem, j, 0) == |other|
  {
    hide Exec, CommitOne, TrueAnchor, KeyOf, IsRecord, ArchivePath, Split, HoldsManifest, NextKey, StoredManifest;
    var v, w := Again(j, name, false, other), Exec(Initial, [Visited(Lost(i, name, record))]);
    RecordNotEmpty(other);
    CommitIsLost(i, name, record);
    FirstVisit(w, v, other);
    FirstRecord(other, other);
    CurrentHere(i, j, name, record, v, other);
    var w0 := w.(mem := WithLineage(w.mem, j, Lineage(0, 0, NoAnchor)));
    var (w', ok) := CommitOne(w0, v, 0, 0, other, 0, other, HEALTHY);
    assert CommitAll(w0, v, 0, 0, other, 0, Split(other), 0) == (w', true);
    assert v.inode == j && ArchivePath(w, v) == (w', true);
  }

  lemma {:induction false} CurrentHere(i: Inode, j: Inode, name: string, record: Bytes, v: Visit, other: Bytes)
    requires IsRecord(record) && IsRecord(other) && i != j && v == Again(j, name, false, other)
    ensures WellStored(Exec(Initial, [Visited(Lost(i, name, record))]).bucket)
    ensures var w := Exec(Initial, [Visited(Lost(i, name, record))]);
      var w0 := w.(mem := WithLineage(w.mem, j, Lineage(0, 0, NoAnchor)));
      var (w', ok) := CommitOne(w0, v, 0, 0, other, 0, other, HEALTHY);
      ok && SavedOffset(w'.mem, j, 0) == |other|
  {
    hide Exec, CommitOne, TrueAnchor, KeyOf, IsRecord, AppendOnly, LoadedOnTrack;
    var whole := (k: Inode) => if k == i then record else other;
    var events := [Visited(Lost(i, name, record))];
    LostIsAppendOnly(i, name, record, whole);
    InitialOnTrack(whole);
    FirstCaptured(other, other);
    NoManifestYet(i, j, name, record, other);
    RetryDecides(Initial, events, v, whole, 0, other, 0, other, Lineage(0, 0, NoAnchor), HEALTHY);
  }
}
