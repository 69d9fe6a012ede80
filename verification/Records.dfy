/** Newline-delimited records: what `complete_records` (native/s3-archive.py) yields,
    and the laws that make archiving a growing file slice by slice safe. */
module Records {
  newtype Byte = x: int | 0 <= x < 256
  type Bytes = seq<Byte>

  const LF: Byte := 10

  predicate HasLF(data: Bytes) {
    exists i :: 0 <= i < |data| && data[i] == LF
  }

  /** One complete record: a single LF, at the very end. */
  predicate IsRecord(r: Bytes) {
    r != [] && r[|r| - 1] == LF && !HasLF(r[..|r| - 1])
  }

  /** Empty, or ending in LF: the only places where a byte offset may be committed. */
  predicate AtBoundary(data: Bytes) {
    data == [] || data[|data| - 1] == LF
  }

  function FirstLF(data: Bytes): (i: nat)
    requires HasLF(data)
    ensures i < |data| && data[i] == LF && !HasLF(data[..i])
  {
    if data[0] == LF then 0 else
      assert HasLF(data[1..]) by {
        var i :| 0 <= i < |data| && data[i] == LF;
        assert data[1..][i - 1] == LF;
      }
      var j := FirstLF(data[1..]);
      assert forall k :: 1 <= k < j + 1 ==> data[k] == data[1..][..j][k - 1];
      j + 1
  }

  /** The LF-terminated records of `data`, in order. */
  function Split(data: Bytes): (rs: seq<Bytes>)
    decreases |data|
  {
    if HasLF(data) then
      var i := FirstLF(data);
      [data[..i + 1]] + Split(data[i + 1..])
    else []
  }

  function Flatten(rs: seq<Bytes>): Bytes {
    if rs == [] then [] else rs[0] + Flatten(rs[1..])
  }

  /** The unterminated tail that `Split` leaves alone. */
  function Tail(data: Bytes): Bytes
    decreases |data|
  {
    if HasLF(data) then Tail(data[FirstLF(data) + 1..]) else data
  }

  lemma FlattenAppend(a: seq<Bytes>, b: seq<Bytes>)
    ensures Flatten(a + b) == Flatten(a) + Flatten(b)
  {
    if a == [] {
      assert a + b == b;
    } else {
      assert (a + b)[1..] == a[1..] + b;
      FlattenAppend(a[1..], b);
    }
  }

  lemma {:induction false} SplitCovers(data: Bytes)
    ensures Flatten(Split(data)) + Tail(data) == data
    decreases |data|
  {
    if HasLF(data) {
      var i := FirstLF(data);
      var head, rest := data[..i + 1], data[i + 1..];
      SplitCovers(rest);
      CoverCons(data, head, rest, Split(rest), Tail(rest));
    }
  }
  lemma CoverCons(data: Bytes, head: Bytes, rest: Bytes, rs: seq<Bytes>, tail: Bytes)
    requires data == head + rest
    requires Flatten(rs) + tail == rest
    ensures Flatten([head] + rs) + tail == data
  {
    FlattenCons(head, rs);
  }

  lemma {:induction false} TailOpen(data: Bytes)
    ensures !HasLF(Tail(data))
    decreases |data|
  {
    if HasLF(data) {
      TailOpen(data[FirstLF(data) + 1..]);
    }
  }

  lemma {:induction false} SplitRecords(data: Bytes)
    ensures forall r :: r in Split(data) ==> IsRecord(r)
    decreases |data|
  {
    if HasLF(data) {
      var i := FirstLF(data);
      SplitRecords(data[i + 1..]);
      assert data[..i + 1][..i] == data[..i];
    }
  }

  lemma FlattenCons(r: Bytes, rs: seq<Bytes>)
    ensures Flatten([r] + rs) == r + Flatten(rs)
  {
    assert ([r] + rs)[1..] == rs;
  }

  /** Whole records end at a boundary. */
  lemma {:induction false} FlattenBoundary(rs: seq<Bytes>)
    requires forall r :: r in rs ==> IsRecord(r)
    ensures AtBoundary(Flatten(rs))
  {
    if rs != [] {
      FlattenBoundary(rs[1..]);
      assert IsRecord(rs[0]);
    }
  }

  lemma FirstLFOf(r: Bytes, rest: Bytes)
    requires IsRecord(r)
    ensures HasLF(r + rest) && FirstLF(r + rest) == |r| - 1
  {
    var d := r + rest;
    assert d[|r| - 1] == LF;
    var i := FirstLF(d);
    assert forall k :: 0 <= k < |r| - 1 ==> d[k] == r[..|r| - 1][k];
    assert forall k :: 0 <= k < i ==> d[..i][k] == d[k];
  }

  /** `Split` is the only way to cut `data` into complete records and an LF-free tail. */
  lemma {:induction false} SplitUnique(rs: seq<Bytes>, tail: Bytes)
    requires forall r :: r in rs ==> IsRecord(r)
    requires !HasLF(tail)
    ensures Split(Flatten(rs) + tail) == rs && Tail(Flatten(rs) + tail) == tail
  {
    if rs == [] {
      assert Flatten(rs) + tail == tail;
    } else {
      var rest := Flatten(rs[1..]) + tail;
      assert Flatten(rs) + tail == rs[0] + rest;
      FirstLFOf(rs[0], rest);
      SplitUnique(rs[1..], tail);
      assert (rs[0] + rest)[|rs[0]|..] == rest && (rs[0] + rest)[..|rs[0]|] == rs[0];
    }
  }

  lemma BoundaryTail(x: Bytes, t: Bytes)
    ensures AtBoundary(x + t) ==> t == [] || HasLF(t)
  {
    if t != [] {
      assert (x + t)[|x + t| - 1] == t[|t| - 1];
    }
  }

  /** Reading a file in two slices whose boundary is a committed offset finds exactly the
      records of one single pass. */
  lemma {:induction false} SplitAppend(a: Bytes, b: Bytes)
    requires AtBoundary(a)
    ensures Split(a + b) == Split(a) + Split(b) && Tail(a) == [] && Flatten(Split(a)) == a
  {
    SplitCovers(a);
    SplitRecords(a);
    SplitCovers(b);
    SplitRecords(b);
    TailOpen(a);
    TailOpen(b);
    BoundaryTail(Flatten(Split(a)), Tail(a));
    assert Flatten(Split(a)) == a;
    FlattenAppend(Split(a), Split(b));
    assert a + b == Flatten(Split(a) + Split(b)) + Tail(b);
    SplitUnique(Split(a) + Split(b), Tail(b));
  }

  /** The first k records of `data` are the records of the prefix they cover. */
  lemma SplitPrefix(data: Bytes, k: nat)
    requires k <= |Split(data)|
    ensures var p := Flatten(Split(data)[..k]);
            p <= data && AtBoundary(p) && Split(p) == Split(data)[..k]
  {
    var rs := Split(data);
    var p := Flatten(rs[..k]);
    SplitCovers(data);
    SplitRecords(data);
    FlattenAppend(rs[..k], rs[k..]);
    assert rs == rs[..k] + rs[k..];
    SplitUnique(rs[..k], []);
    assert p + [] == p;
    FlattenBoundary(rs[..k]);
  }

  /** bytes.find(b"\n", cursor): the loop behind the generator's search, or |data| when absent. */
  method Find(data: Bytes, cursor: nat) returns (at: nat)
    requires cursor <= |data|
    ensures cursor <= at <= |data|
    ensures !HasLF(data[cursor..at])
    ensures at < |data| ==> data[at] == LF
  {
    at := cursor;
    while at < |data| && data[at] != LF
      invariant cursor <= at <= |data|
      invariant forall k :: cursor <= k < at ==> data[k] != LF
    {
      at := at + 1;
    }
  }

  /** The generator as one call: the records and the relative end of each. */
  method CompleteRecords(data: Bytes) returns (ends: seq<nat>, segments: seq<Bytes>)
    ensures segments == Split(data)
    ensures |ends| == |segments|
    ensures forall i :: 0 <= i < |ends| ==> ends[i] == |Flatten(segments[..i + 1])|
  {
    ends, segments := [], [];
    var cursor := 0;
    while true
      invariant 0 <= cursor <= |data|
      invariant Flatten(segments) == data[..cursor]
      invariant forall r :: r in segments ==> IsRecord(r)
      invariant |ends| == |segments|
      invariant forall i :: 0 <= i < |ends| ==> ends[i] == |Flatten(segments[..i + 1])|
      decreases |data| - cursor
    {
      var newline := Find(data, cursor);
      if newline == |data| {
        assert data[cursor..newline] == data[cursor..];
        SplitUnique(segments, data[cursor..]);
        assert data == data[..cursor] + data[cursor..];
        return;
      }
      var end := newline + 1;
      ghost var before := segments;
      var segment := data[cursor..end];
      assert segment[..|segment| - 1] == data[cursor..newline];
      FlattenAppend(before, [segment]);
      assert Flatten([segment]) == segment;
      segments := segments + [segment];
      ends := ends + [end];
      assert forall i {:trigger ends[i]} :: 0 <= i < |before| ==> segments[..i + 1] == before[..i + 1];
      assert segments[..|before| + 1] == segments;
      assert data[..end] == data[..cursor] + segment;
      cursor := end;
    }
  }
}
