/** The values the archiver passes around (native/s3-archive.py): inodes, digests, object
    bodies, manifests and keys. A digest is represented by what was hashed, so two digests are
    equal exactly when the hashed contents are. */
module Evidence {
  import opened Options
  import opened Records
  import ObjectKeys

  datatype Inode = Inode(device: nat, number: nat)

  datatype Digest = Sha256(preimage: Body)

  /** The bytes of a stored object: raw segment bytes, or the JSON rendering of a manifest. */
  datatype Body =
    | Raw(bytes: Bytes)
    | Manifest(sourceName: string, identity: SourceIdentity, sha: Digest, size: nat,
               objectKey: Key, version: nat)

  datatype SourceIdentity = SourceIdentity(
    inode: Inode, generation: nat, kind: string, snapshotSize: nat,
    start: nat, end: nat, anchor: Anchor)

  /** `SegmentKey` is `{path}{digest}.json`; `ManifestKey` appends `.manifest.json`. */
  datatype Key = SegmentKey(path: string, tag: Digest) | ManifestKey(of: Key)

  /** A persisted anchor: absent, a bare digest string (state version 2), or a dict whose fields
      may each be missing (a migrated dict has no device and inode). */
  datatype Anchor =
    | NoAnchor
    | DigestOnly(text: Digest)
    | Fields(sha256: Option<Digest>, offset: Option<int>, windowStart: Option<int>, inode: Option<Inode>)

  function KeyOf(inode: Inode, generation: nat, start: nat, end: nat, digest: Digest): Key {
    SegmentKey(ObjectKeys.RangePath(inode.device, inode.number, generation, start, end), digest)
  }

  /** Segment keys, and their manifest keys, name one inode, generation, range and content. */
  lemma KeyInjective(i: Inode, g: nat, s: nat, e: nat, d: Digest, i': Inode, g': nat, s': nat, e': nat, d': Digest)
    ensures KeyOf(i, g, s, e, d) == KeyOf(i', g', s', e', d')
       <==> i == i' && g == g' && s == s' && e == e' && d == d'
    ensures KeyOf(i, g, s, e, d) != ManifestKey(KeyOf(i', g', s', e', d'))
  {
    ObjectKeys.RangePathInjective(i.device, i.number, g, s, e, i'.device, i'.number, g', s', e');
  }

  /** The whole key as text, given how digests print. */
  function KeyText(base: string, k: Key, hex: Digest -> string): string {
    match k
    case SegmentKey(path, tag) => base + path + hex(tag) + ".json"
    case ManifestKey(of) => KeyText(base, of, hex) + ".manifest.json"
  }

  predicate HexDigits(h: string) {
    |h| == 64 && forall i :: 0 <= i < 64 ==> '0' <= h[i] <= '9' || 'a' <= h[i] <= 'f'
  }

  lemma SameEnd(a: string, x: string, b: string, y: string)
    requires a + x == b + y && |x| == |y|
    ensures a == b && x == y
  {
    assert |a| == |b|;
    assert (a + x)[..|a|] == a && (b + y)[..|a|] == b && (a + x)[|a|..] == x && (b + y)[|a|..] == y;
  }

  /** The printed keys: for digests whose 64 hexadecimal characters differ when they do, two segment
      keys have one text exactly when inode, generation, range and digest are equal, and no segment
      key has the text of a manifest key. */
  lemma KeyTextInjective(base: string, hex: Digest -> string, i: Inode, g: nat, s: nat, e: nat, d: Digest,
                         i': Inode, g': nat, s': nat, e': nat, d': Digest)
    requires HexDigits(hex(d)) && HexDigits(hex(d')) && (hex(d) == hex(d') ==> d == d')
    ensures KeyText(base, KeyOf(i, g, s, e, d), hex) == KeyText(base, KeyOf(i', g', s', e', d'), hex)
       <==> i == i' && g == g' && s == s' && e == e' && d == d'
    ensures KeyText(base, KeyOf(i, g, s, e, d), hex) != KeyText(base, ManifestKey(KeyOf(i', g', s', e', d')), hex)
  {
    hide ObjectKeys.RangePath;
    var p := ObjectKeys.RangePath(i.device, i.number, g, s, e);
    var p' := ObjectKeys.RangePath(i'.device, i'.number, g', s', e');
    ObjectKeys.RangePathInjective(i.device, i.number, g, s, e, i'.device, i'.number, g', s', e');
    TextInjective(base, p, hex(d), p', hex(d'));
  }

  lemma TextInjective(base: string, p: string, h: string, p': string, h': string)
    requires HexDigits(h) && HexDigits(h')
    ensures base + p + h + ".json" == base + p' + h' + ".json" <==> p == p' && h == h'
    ensures base + p + h + ".json" != base + p' + h' + ".json" + ".manifest.json"
  {
    var t, t' := base + p + h + ".json", base + p' + h' + ".json";
    if t == t' {
      SameEnd(base + p + h, ".json", base + p' + h', ".json");
      SameEnd(base + p, h, base + p', h');
      assert (base + p)[|base|..] == p && (base + p')[|base|..] == p';
    }
    SixthFromEnd(base + p + h, ".json");
    SixthFromEnd(t' + ".manifest", ".json");
    assert t' + ".manifest" + ".json" == t' + ".manifest.json";
    assert (base + p + h)[|base + p + h| - 1] == h[63];
  }

  lemma SixthFromEnd(a: string, x: string)
    requires a != [] && |x| == 5
    ensures (a + x)[|a + x| - 6] == a[|a| - 1]
  {
  }

  /** content_address_matches: only a segment's own digest ends its file name. */
  predicate ContentAddressMatches(key: Key, digest: Digest) {
    key.SegmentKey? && key.tag == digest
  }
}
