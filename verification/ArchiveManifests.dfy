/** Manifests of append-only files, and what a retry of an uncommitted segment meets
    (native/s3-archive.py:391-432, 708-762). The data object is always found again; the manifest
    also records source name, kind and snapshot size, so it is found again exactly when none of
    the three changed since the attempt that stored it. */
module ArchiveManifests {
  import opened Records
  import opened Evidence
  import opened Anchors
  import opened WriteOnceStore
  import opened Archive
  import opened ArchiveSafety

  /** All bytes each inode will ever hold. */
  type Contents = Inode -> Bytes

  /** Whether a saved lineage fits a file that holds `whole`: its offset is a place of that file, and past
      0 its anchor matches there. */
  predicate Matches(l: Lineage, i: Inode, whole: Bytes) {
    0 <= l.offset <= |whole| && (l.offset > 0 ==> AnchorsMatch(l.anchor, TrueAnchor(i, whole, l.offset)))
  }

  /** The generation in which a file is archived from a loaded state on: the loaded one if it fits, else
      the next. */
  function Gen(from: State, i: Inode, whole: Bytes): nat {
    if i !in from.lineages then 0
    else if Matches(from.lineages[i], i, whole) then from.lineages[i].generation
    else from.lineages[i].generation + 1
  }

  /** A manifest that follows from the key it is stored under, but for source name, kind and snapshot size.
      Those of generations a file has left describe contents it no longer has. */
  predicate TrueManifest(m: Body, whole: Contents, from: State) {
    && m.Manifest?
    && var id := m.identity;
    && m.sha.preimage.Raw? && m.size == |m.sha.preimage.bytes| && m.version == 0
    && m.objectKey == KeyOf(id.inode, id.generation, id.start, id.end, m.sha)
    && (id.generation == Gen(from, id.inode, whole(id.inode)) ==>
          id.end <= |whole(id.inode)| && id.anchor == TrueAnchor(id.inode, whole(id.inode), id.end))
  }

  /** What the identity of a segment of an append-only file is. */
  predicate TrueIdentity(id: SourceIdentity, whole: Contents, from: State) {
    && id.generation == Gen(from, id.inode, whole(id.inode))
    && id.end <= |whole(id.inode)| && id.anchor == TrueAnchor(id.inode, whole(id.inode), id.end)
  }

  predicate ManifestsTrue(b: Bucket, whole: Contents, from: State) {
    forall k :: k in b && k.ManifestKey? ==> |b[k]| == 1 && TrueManifest(b[k][0], whole, from)
  }

  lemma ManifestsKept(b: Bucket, key: Key, body: Body, script: Script, whole: Contents,
                      from: State)
    requires WellStored(b) && ManifestsTrue(b, whole, from)
    requires key.ManifestKey? ==> TrueManifest(body, whole, from)
    ensures ManifestsTrue(PutOnce(b, key, body, Sha256(body), script).bucket, whole, from)
  {
    hide PutOnce, TrueManifest;
    PutOnceSafe(b, key, body, Sha256(body), script);
  }

  lemma UploadManifests(b: Bucket, name: string, id: SourceIdentity, bytes: Bytes, fate: SegmentFate, whole: Contents,
                        from: State)
    requires Sound(b) && ManifestsTrue(b, whole, from) && TrueIdentity(id, whole, from)
    ensures ManifestsTrue(Upload(b, name, id, bytes, fate).0, whole, from)
  {
    hide PutOnce, ManifestsTrue, Sound;
    var digest := Sha256(Raw(bytes));
    var key := KeyOf(id.inode, id.generation, id.start, id.end, digest);
    SoundStored(b);
    PutSafe(b, key, Raw(bytes), fate.data);
    ManifestsKept(b, key, Raw(bytes), fate.data, whole, from);
    var data := PutOnce(b, key, Raw(bytes), digest, fate.data);
    if data.result.Stored? {
      ManifestsKept(data.bucket, ManifestKey(key), Manifest(name, id, digest, |bytes|, key, 0), fate.manifest, whole,
        from);
    }
  }

  /** Two manifests under one key differ at most in name, kind and snapshot size. */
  lemma ManifestsDiffer(m: Body, m': Body, whole: Contents, from: State)
    requires TrueManifest(m, whole, from) && TrueManifest(m', whole, from) && m.objectKey == m'.objectKey
    requires TrueIdentity(m'.identity, whole, from)
    ensures m == m' <==>
      m.sourceName == m'.sourceName && m.identity.kind == m'.identity.kind
      && m.identity.snapshotSize == m'.identity.snapshotSize
  {
    var a, b := m.identity, m'.identity;
    KeyInjective(a.inode, a.generation, a.start, a.end, m.sha, b.inode, b.generation, b.start, b.end, m'.sha);
  }

  predicate HealthySegment(fate: SegmentFate, digest: Digest, manifest: Digest) {
    Healthy(fate.data, digest) && Healthy(fate.manifest, manifest) && fate.saved
  }

  function ManifestOf(name: string, id: SourceIdentity, bytes: Bytes): Body {
    var digest := Sha256(Raw(bytes));
    Manifest(name, id, digest, |bytes|, KeyOf(id.inode, id.generation, id.start, id.end, digest), 0)
  }

  function SegmentKeyOf(id: SourceIdentity, bytes: Bytes): Key {
    KeyOf(id.inode, id.generation, id.start, id.end, Sha256(Raw(bytes)))
  }

  /** With a healthy network an upload returns exactly when its manifest key is free or already
      holds this very manifest; the data object is there either way. */
  lemma UploadHealthy(b: Bucket, name: string, id: SourceIdentity, bytes: Bytes, fate: SegmentFate)
    requires Sound(b)
    ensures var key, manifest := SegmentKeyOf(id, bytes), ManifestOf(name, id, bytes);
      HealthySegment(fate, Sha256(Raw(bytes)), Sha256(manifest)) ==>
        var (b', ok) := Upload(b, name, id, bytes, fate);
        && (ok <==> (ManifestKey(key) !in b || b[ManifestKey(key)] == [manifest]))
        && key in b' && b'[key] == [Raw(bytes)]
        && (!ok ==> ManifestKey(key) in b' && b'[ManifestKey(key)] == b[ManifestKey(key)])
  {
    hide PutOnce, KeyOf;
    var key, manifest := SegmentKeyOf(id, bytes), ManifestOf(name, id, bytes);
    if HealthySegment(fate, Sha256(Raw(bytes)), Sha256(manifest)) {
      TagOfKey(id, Sha256(Raw(bytes)));
      PutOnceHealthy(b, key, Raw(bytes), fate.data);
      var data := PutOnce(b, key, Raw(bytes), Sha256(Raw(bytes)), fate.data);
      assert data.result.Stored? && data.result.version == 0;
      assert data.bucket == b || data.bucket == b[key := [Raw(bytes)]];
      PutOnceHealthy(data.bucket, ManifestKey(key), manifest, fate.manifest);
    }
  }
}
