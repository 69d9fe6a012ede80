/** A Python dict as the code relies on it: unique keys in insertion order, assignment to an
    existing key keeps its place. Also `sorted(items, key=...)`, and the "delete the lowest"
    eviction that the cluster manager and the enrichment cache share. */
module OrderedDict {
  type Dict<K, V> = seq<(K, V)>

  predicate Unique<K(==), V>(d: Dict<K, V>) {
    forall i, j :: 0 <= i < j < |d| ==> d[i].0 != d[j].0
  }

  predicate Has<K(==), V>(d: Dict<K, V>, k: K) {
    exists i :: 0 <= i < |d| && d[i].0 == k
  }

  /** The position of a key, or |d|. */
  function Index<K(==), V>(d: Dict<K, V>, k: K): (i: nat)
    ensures i <= |d| && (i < |d| <==> Has(d, k))
    ensures i < |d| ==> d[i].0 == k
    ensures forall j :: 0 <= j < i ==> d[j].0 != k
  {
    if d == [] then 0 else if d[0].0 == k then 0 else
      var i := Index(d[1..], k);
      assert Has(d, k) <==> Has(d[1..], k) by {
        assert forall j :: 1 <= j < |d| ==> d[j] == d[1..][j - 1];
      }
      1 + i
  }

  function Get<K(==), V>(d: Dict<K, V>, k: K): V
    requires Has(d, k)
  {
    d[Index(d, k)].1
  }

  function Put<K(==), V>(d: Dict<K, V>, k: K, v: V): Dict<K, V> {
    var i := Index(d, k);
    if i < |d| then d[i := (k, v)] else d + [(k, v)]
  }

  function Del<K(==), V>(d: Dict<K, V>, k: K): Dict<K, V> {
    var i := Index(d, k);
    if i < |d| then d[..i] + d[i + 1..] else d
  }

  lemma IndexAt<K, V>(d: Dict<K, V>, i: nat)
    requires Unique(d) && i < |d|
    ensures Has(d, d[i].0) && Index(d, d[i].0) == i && Get(d, d[i].0) == d[i].1
  {
  }

  lemma PutUnique<K, V>(d: Dict<K, V>, k: K, v: V)
    requires Unique(d)
    ensures Unique(Put(d, k, v)) && Has(Put(d, k, v), k) && Get(Put(d, k, v), k) == v
    ensures forall j: K :: j != k ==> (Has(Put(d, k, v), j) <==> Has(d, j))
    ensures forall j: K :: j != k && Has(d, j) ==> Get(Put(d, k, v), j) == Get(d, j)
  {
    var p := Put(d, k, v);
    IndexAt(p, Index(d, k));
    forall j: K | j != k
      ensures Has(p, j) <==> Has(d, j)
      ensures Has(d, j) ==> Get(p, j) == Get(d, j)
    {
      if Has(d, j) {
        assert p[Index(d, j)] == d[Index(d, j)];
        IndexAt(p, Index(d, j));
      }
      if Has(p, j) {
        assert d[Index(p, j)] == p[Index(p, j)];
      }
    }
  }

  /** Assignment keeps the place of a key, and puts a new one last. */
  lemma PutKeepsPlaces<K, V>(d: Dict<K, V>, k: K, v: V)
    ensures var p := Put(d, k, v);
      && (if Has(d, k) then |p| == |d| && p[Index(d, k)] == (k, v) else p == d + [(k, v)])
      && forall i :: 0 <= i < |d| && d[i].0 != k ==> p[i] == d[i]
  {
  }

  lemma DelUnique<K, V>(d: Dict<K, V>, k: K)
    requires Unique(d)
    ensures Unique(Del(d, k)) && !Has(Del(d, k), k)
    ensures Has(d, k) ==> multiset(Del(d, k)) == multiset(d) - multiset{(k, Get(d, k))}
  {
    var i := Index(d, k);
    if i < |d| {
      assert d == d[..i] + [d[i]] + d[i + 1..];
    }
  }

  /** Stable insertion: after every element of no greater rank. */
  function Insert<T>(sorted: seq<T>, x: T, rank: T -> real): seq<T> {
    if sorted == [] || rank(sorted[|sorted| - 1]) <= rank(x) then sorted + [x]
    else Insert(sorted[..|sorted| - 1], x, rank) + [sorted[|sorted| - 1]]
  }

  /** sorted(items, key=rank) */
  function Sort<T>(items: seq<T>, rank: T -> real): seq<T> {
    if items == [] then [] else Insert(Sort(items[..|items| - 1], rank), items[|items| - 1], rank)
  }

  predicate Ascending<T>(s: seq<T>, rank: T -> real) {
    forall i, j :: 0 <= i < j < |s| ==> rank(s[i]) <= rank(s[j])
  }

  lemma {:induction false} InsertContents<T>(s: seq<T>, x: T, rank: T -> real)
    ensures multiset(Insert(s, x, rank)) == multiset(s) + multiset{x}
  {
    if s != [] && rank(s[|s| - 1]) > rank(x) {
      assert s == s[..|s| - 1] + [s[|s| - 1]];
      InsertContents(s[..|s| - 1], x, rank);
    }
  }

  predicate AtMost<T>(s: seq<T>, b: real, rank: T -> real) {
    forall i :: 0 <= i < |s| ==> rank(s[i]) <= b
  }

  lemma {:induction false} InsertAtMost<T>(s: seq<T>, x: T, b: real, rank: T -> real)
    requires AtMost(s, b, rank) && rank(x) <= b
    ensures AtMost(Insert(s, x, rank), b, rank)
  {
    if s != [] && rank(s[|s| - 1]) > rank(x) {
      InsertAtMost(s[..|s| - 1], x, b, rank);
    }
  }

  lemma {:induction false} InsertAscending<T>(s: seq<T>, x: T, rank: T -> real)
    requires Ascending(s, rank)
    ensures Ascending(Insert(s, x, rank), rank)
  {
    if s != [] && rank(s[|s| - 1]) > rank(x) {
      InsertAscending(s[..|s| - 1], x, rank);
      InsertAtMost(s[..|s| - 1], x, rank(s[|s| - 1]), rank);
    }
  }

  lemma {:induction false} SortSorted<T>(items: seq<T>, rank: T -> real)
    ensures Ascending(Sort(items, rank), rank) && multiset(Sort(items, rank)) == multiset(items)
  {
    if items != [] {
      var init, last := items[..|items| - 1], items[|items| - 1];
      assert items == init + [last];
      SortSorted(init, rank);
      InsertAscending(Sort(init, rank), last, rank);
      InsertContents(Sort(init, rank), last, rank);
    }
  }

  /** The elements of one rank, in their order. */
  function OfRank<T>(s: seq<T>, rank: T -> real, r: real): seq<T> {
    if s == [] then [] else
      var n := |s| - 1;
      if rank(s[n]) == r then OfRank(s[..n], rank, r) + [s[n]] else OfRank(s[..n], rank, r)
  }

  lemma OfRankSnoc<T>(s: seq<T>, x: T, rank: T -> real, r: real)
    ensures OfRank(s + [x], rank, r) == if rank(x) == r then OfRank(s, rank, r) + [x] else OfRank(s, rank, r)
  {
    assert (s + [x])[..|s|] == s;
  }

  lemma {:induction false} InsertStable<T>(s: seq<T>, x: T, rank: T -> real, r: real)
    ensures OfRank(Insert(s, x, rank), rank, r)
      == if rank(x) == r then OfRank(s, rank, r) + [x] else OfRank(s, rank, r)
  {
    if s == [] || rank(s[|s| - 1]) <= rank(x) {
      OfRankSnoc(s, x, rank, r);
    } else {
      var n := |s| - 1;
      InsertStable(s[..n], x, rank, r);
      OfRankSnoc(Insert(s[..n], x, rank), s[n], rank, r);
    }
  }

  /** The sort is stable: what ranks the same keeps its order. */
  lemma {:induction false} SortStable<T>(items: seq<T>, rank: T -> real, r: real)
    ensures OfRank(Sort(items, rank), rank, r) == OfRank(items, rank, r)
  {
    hide Insert;
    if items != [] {
      SortStable(items[..|items| - 1], rank, r);
      InsertStable(Sort(items[..|items| - 1], rank), items[|items| - 1], rank, r);
    }
  }

  function DelAll<K(==), V>(d: Dict<K, V>, gone: seq<(K, V)>): Dict<K, V> {
    if gone == [] then d else DelAll(Del(d, gone[0].0), gone[1..])
  }

  lemma {:induction false} DelAllRemoves<K, V>(d: Dict<K, V>, gone: seq<(K, V)>)
    requires Unique(d) && multiset(gone) <= multiset(d)
    ensures Unique(DelAll(d, gone)) && multiset(DelAll(d, gone)) == multiset(d) - multiset(gone)
  {
    if gone != [] {
      var (k, v) := gone[0];
      assert gone == [gone[0]] + gone[1..];
      assert gone[0] in multiset(gone);
      assert gone[0] in d;
      var i :| 0 <= i < |d| && d[i] == gone[0];
      IndexAt(d, i);
      DelUnique(d, k);
      DelAllRemoves(Del(d, k), gone[1..]);
    }
  }

  /** What eviction down to `bound` entries removes, lowest rank first. */
  function Overflow<K, V>(d: Dict<K, V>, bound: nat, rank: ((K, V)) -> real): (gone: seq<(K, V)>)
    ensures |gone| == if |d| <= bound then 0 else |d| - bound
  {
    SortLength(d, rank);
    if |d| <= bound then [] else Sort(d, rank)[..|d| - bound]
  }

  lemma SortLength<T>(items: seq<T>, rank: T -> real)
    ensures |Sort(items, rank)| == |items|
  {
    SortSorted(items, rank);
    assert |multiset(Sort(items, rank))| == |multiset(items)|;
  }

  lemma SameLength<T>(a: seq<T>, b: seq<T>)
    requires multiset(a) == multiset(b)
    ensures |a| == |b| && forall x :: x in a <==> x in b
  {
    assert |multiset(a)| == |multiset(b)|;
    assert forall x :: x in a <==> x in multiset(a);
    assert forall x :: x in b <==> x in multiset(b);
  }

  lemma RestOf<T>(d: seq<T>, s: seq<T>, n: nat, kept: seq<T>)
    requires n <= |s| && multiset(s) == multiset(d)
    requires multiset(kept) == multiset(d) - multiset(s[..n])
    ensures multiset(kept) == multiset(s[n..]) && multiset(kept) + multiset(s[..n]) == multiset(d)
    ensures |kept| == |s| - n && forall k :: k in kept ==> k in s[n..]
  {
    assert s == s[..n] + s[n..];
    SameLength(kept, s[n..]);
  }

  lemma PrefixWithin<T>(d: seq<T>, s: seq<T>, n: nat)
    requires n <= |s| && multiset(s) == multiset(d)
    ensures multiset(s[..n]) <= multiset(d)
  {
    assert s == s[..n] + s[n..];
  }

  /** Eviction splits the dict: nothing is lost or copied, at most `bound` entries are kept, and
      no evicted entry ranks above a kept one. */
  lemma EvictionSplits<K, V>(d: Dict<K, V>, bound: nat, rank: ((K, V)) -> real)
    requires Unique(d)
    ensures var gone := Overflow(d, bound, rank);
      var kept := DelAll(d, gone);
      && Unique(kept) && |kept| == (if |d| <= bound then |d| else bound)
      && multiset(kept) + multiset(gone) == multiset(d)
      && (forall g, k :: g in gone && k in kept ==> rank(g) <= rank(k))
      && (|d| <= bound ==> kept == d)
  {
    hide Sort, DelAll, Unique, Ascending;
    SortSorted(d, rank);
    SortLength(d, rank);
    var s, gone := Sort(d, rank), Overflow(d, bound, rank);
    var n := |gone|;
    assert gone == s[..n];
    PrefixWithin(d, s, n);
    DelAllRemoves(d, gone);
    var kept := DelAll(d, gone);
    RestOf(d, s, n, kept);
    LowestGone(s, n, kept, rank);
    DelNone(d);
  }

  lemma LowestGone<T>(s: seq<T>, n: nat, kept: seq<T>, rank: T -> real)
    requires n <= |s| && Ascending(s, rank)
    requires forall k :: k in kept ==> k in s[n..]
    ensures forall g, k :: g in s[..n] && k in kept ==> rank(g) <= rank(k)
  {
  }

  lemma DelNone<K, V>(d: Dict<K, V>)
    ensures DelAll(d, []) == d
  {
  }
}
