/** Bounded reads from one open descriptor and the 64-byte anchors built from them
    (native/s3-archive.py:480-560). The file may change between any two `read` calls:
    a `View` gives its content at the instant of the k-th call. */
module Anchors {
  import opened Sequences
  import opened Options
  import opened Records
  import opened Evidence

  const ANCHOR_BYTES := 64
  const READ_CHUNK_BYTES := 1024 * 1024

  type View = nat -> Bytes

  function Min(a: nat, b: nat): nat { if a < b then a else b }

  /** handle.seek(start); handle.read(length), at an instant when the file holds `content`. */
  function ReadOnce(content: Bytes, start: nat, length: nat): (chunk: Bytes)
    ensures |chunk| <= length
    ensures start + length <= |content| ==> chunk == content[start..start + length]
  {
    content[Min(start, |content|)..Min(start + length, |content|)]
  }

  /** read_at: chunks until `length` bytes were read or a read finds the end of the file. */
  function ReadAt(view: View, k: nat, start: nat, length: nat): (data: Bytes)
    ensures |data| <= length
    decreases length
  {
    if length == 0 then [] else
      var chunk := ReadOnce(view(k), start, Min(READ_CHUNK_BYTES, length));
      if chunk == [] then [] else chunk + ReadAt(view, k + 1, start + |chunk|, length - |chunk|)
  }

  lemma SliceOfSlice(s: Bytes, lo: nat, hi: nat, a: nat, b: nat)
    requires lo <= a <= b <= hi <= |s|
    ensures s[lo..hi][a - lo..b - lo] == s[a..b]
  {
    assert forall i :: 0 <= i < b - a ==> s[lo..hi][a - lo..b - lo][i] == s[a..b][i];
  }

  lemma SliceJoin(s: Bytes, a: nat, b: nat, c: nat)
    requires a <= b <= c <= |s|
    ensures s[a..b] + s[b..c] == s[a..c]
  {
  }

  lemma PrefixSlice(p: Bytes, s: Bytes, a: nat, b: nat)
    requires p <= s && a <= b <= |p|
    ensures p[a..b] == s[a..b]
  {
  }

  method ReadRange(view: View, start: nat, length: nat) returns (data: Bytes)
    ensures data == ReadAt(view, 0, start, length)
  {
    hide ReadOnce;
    data := [];
    var k: nat, remaining: nat := 0, length;
    while remaining > 0
      invariant |data| + remaining == length
      invariant data + ReadAt(view, k, start + |data|, remaining) == ReadAt(view, 0, start, length)
      decreases remaining
    {
      var chunk := ReadOnce(view(k), start + |data|, Min(READ_CHUNK_BYTES, remaining));
      if chunk == [] {
        break;
      }
      Regroup(data, chunk, ReadAt(view, k + 1, start + |data| + |chunk|, remaining - |chunk|));
      data := data + chunk;
      remaining := remaining - |chunk|;
      k := k + 1;
    }
  }

  /** Every instant of the view is a state of an append-only file that ends up as `whole`
      and already holds `size` bytes. */
  ghost predicate Appending(view: View, whole: Bytes, size: nat) {
    forall k: nat :: view(k) <= whole && |view(k)| >= size
  }

  /** Appends that land between the chunk reads are invisible inside the requested range. */
  lemma {:induction false} ReadAtAppending(view: View, k: nat, start: nat, length: nat, whole: Bytes, size: nat)
    requires Appending(view, whole, size) && start + length <= size <= |whole|
    ensures ReadAt(view, k, start, length) == whole[start..start + length]
    decreases length
  {
    if length > 0 {
      var n := Min(READ_CHUNK_BYTES, length);
      PrefixSlice(view(k), whole, start, start + n);
      ReadAtAppending(view, k + 1, start + n, length - n, whole, size);
      SliceJoin(whole, start, start + n, start + length);
    }
  }

  function WindowStart(end: int): (s: nat)
    ensures 0 <= end ==> s <= end && end - s <= ANCHOR_BYTES
  {
    if end > ANCHOR_BYTES then end - ANCHOR_BYTES else 0
  }

  function AnchorFromWindow(inode: Inode, end: int, window: Bytes): Anchor {
    if end <= 0 || |window| != end - WindowStart(end) then NoAnchor
    else Fields(Some(Sha256(Raw(window))), Some(end), Some(WindowStart(end)), Some(inode))
  }

  function DescriptorAnchor(inode: Inode, size: nat, end: int, view: View): Anchor {
    if end < 0 || size < end then NoAnchor
    else AnchorFromWindow(inode, end, ReadAt(view, 0, WindowStart(end), end - WindowStart(end)))
  }

  function SnapshotAnchor(inode: Inode, snapshotStart: nat, snapshot: Bytes, end: int): Anchor {
    var first, last := WindowStart(end) - snapshotStart, end - snapshotStart;
    if first < 0 || last > |snapshot| || last < first then NoAnchor
    else AnchorFromWindow(inode, end, snapshot[first..last])
  }

  function AnchorDigest(a: Anchor): Option<Digest> {
    match a
    case NoAnchor => None
    case DigestOnly(text) => Some(text)
    case Fields(sha256, _, _, _) => sha256
  }

  predicate FieldAgrees<T(==)>(expected: Option<T>, actual: Option<T>) {
    expected.Some? ==> expected == actual
  }

  function AnchorsMatch(expected: Anchor, actual: Anchor): bool {
    && AnchorDigest(expected).Some? && AnchorDigest(actual).Some?
    && AnchorDigest(expected) == AnchorDigest(actual)
    && (expected.Fields? ==>
          && actual.Fields?
          && FieldAgrees(expected.offset, actual.offset)
          && FieldAgrees(expected.windowStart, actual.windowStart)
          && FieldAgrees(expected.inode, actual.inode))
  }

  /** The anchor of `content` at `end`: what both anchor functions are meant to compute. */
  function TrueAnchor(inode: Inode, content: Bytes, end: nat): Anchor
    requires end <= |content|
  {
    if end == 0 then NoAnchor else
    Fields(Some(Sha256(Raw(content[WindowStart(end)..end]))), Some(end), Some(WindowStart(end)), Some(inode))
  }

  lemma AnchorThere(i: Inode, content: Bytes, end: nat)
    requires 0 < end <= |content|
    ensures TrueAnchor(i, content, end) != NoAnchor
  {
  }

  /** Anchor agreement: from a snapshot taken far enough back, and from the descriptor while
      the file is only appended to, the same anchor comes out. */
  lemma AnchorsAgree(inode: Inode, size: nat, end: nat, view: View, whole: Bytes, snapshotStart: nat, snapshot: Bytes)
    requires end <= size && end <= |whole| && Appending(view, whole, end)
    requires snapshotStart <= WindowStart(end) && snapshotStart + |snapshot| <= |whole|
    requires end <= snapshotStart + |snapshot|
    requires snapshot == whole[snapshotStart..snapshotStart + |snapshot|]
    ensures DescriptorAnchor(inode, size, end, view) == TrueAnchor(inode, whole, end)
    ensures SnapshotAnchor(inode, snapshotStart, snapshot, end) == TrueAnchor(inode, whole, end)
  {
    hide ReadAt, Appending;
    DescriptorAgrees(inode, size, end, view, whole);
    SnapshotAgrees(inode, end, whole, snapshotStart, snapshot);
  }

  lemma SnapshotAgrees(inode: Inode, end: nat, whole: Bytes, snapshotStart: nat, snapshot: Bytes)
    requires snapshotStart <= WindowStart(end) && end <= snapshotStart + |snapshot| <= |whole|
    requires snapshot == whole[snapshotStart..snapshotStart + |snapshot|]
    ensures SnapshotAnchor(inode, snapshotStart, snapshot, end) == TrueAnchor(inode, whole, end)
  {
    SliceOfSlice(whole, snapshotStart, snapshotStart + |snapshot|, WindowStart(end), end);
  }

  lemma DescriptorAgrees(inode: Inode, size: nat, end: nat, view: View, whole: Bytes)
    requires end <= size && end <= |whole| && Appending(view, whole, end)
    ensures DescriptorAnchor(inode, size, end, view) == TrueAnchor(inode, whole, end)
  {
    ReadAtAppending(view, 0, WindowStart(end), end - WindowStart(end), whole, end);
  }

  /** When a saved anchor of `saved` is checked against a file that now holds `now`, it matches
      exactly when the file still reaches the offset and the 64-byte window is unchanged. */
  lemma AnchorDecides(inode: Inode, saved: Bytes, now: Bytes, offset: nat)
    requires 0 < offset <= |saved|
    ensures var w := if offset > 64 then offset - 64 else 0;
      AnchorsMatch(TrueAnchor(inode, saved, offset), DescriptorAnchor(inode, |now|, offset, (k: nat) => now))
      <==> offset <= |now| && now[w..offset] == saved[w..offset]
  {
    if offset <= |now| {
      DescriptorAgrees(inode, |now|, offset, (k: nat) => now, now);
    }
  }

  /** A truncated and regrown file with the same last 64 bytes is not detected: an anchor says
      nothing about bytes before its window. */
  lemma RegrowthUndetected(inode: Inode, saved: Bytes, now: Bytes, offset: nat)
    requires 64 < offset <= |saved| && offset <= |now|
    requires now[offset - 64..offset] == saved[offset - 64..offset]
    requires now[..offset] != saved[..offset]
    ensures AnchorsMatch(TrueAnchor(inode, saved, offset), DescriptorAnchor(inode, |now|, offset, (k: nat) => now))
  {
    AnchorDecides(inode, saved, now, offset);
  }
}
