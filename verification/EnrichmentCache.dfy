/** The bounded, expiring lookup cache (native/threat_intel/cache.py:52-76) as a lossy map:
    it may forget, but it never answers with anything but the last unexpired value set. */
module EnrichmentCache {
  import opened Options
  import opened OrderedDict

  datatype Entry<E> = Entry(envelope: E, expiresAt: real)

  type Entries<E> = Dict<string, Entry<E>>

  datatype SetOp<E> = SetOp(key: string, envelope: E, ttl: real, now: real)

  function ExpiryRank<E>(x: (string, Entry<E>)): real {
    x.1.expiresAt
  }

  function Stored<E>(op: SetOp<E>): Entry<E> {
    Entry(op.envelope, op.now + op.ttl)
  }

  function Evicted<E>(d: Entries<E>, maxEntries: nat): Entries<E> {
    Overflow(d, maxEntries, x => ExpiryRank(x))
  }

  /** set: store with its expiry, then delete the entries expiring first until the bound holds. */
  function SetEntry<E>(d: Entries<E>, op: SetOp<E>, maxEntries: nat): Entries<E> {
    var p := Put(d, op.key, Stored(op));
    DelAll(p, Evicted(p, maxEntries))
  }

  /** get: nothing for an unknown or expired key. */
  function GetEntry<E>(d: Entries<E>, key: string, now: real): Option<E> {
    if !Has(d, key) || now >= Get(d, key).expiresAt then None else Some(Get(d, key).envelope)
  }

  function Exec<E>(loaded: Entries<E>, ops: seq<SetOp<E>>, maxEntries: nat): Entries<E> {
    if ops == [] then loaded else SetEntry(Exec(loaded, ops[..|ops| - 1], maxEntries), ops[|ops| - 1], maxEntries)
  }

  /** An unbounded map's answer: the last value set for the key, or the loaded one. */
  function Last<E>(loaded: Entries<E>, ops: seq<SetOp<E>>, key: string): Option<Entry<E>> {
    if ops == [] then (if Has(loaded, key) then Some(Get(loaded, key)) else None)
    else if ops[|ops| - 1].key == key then Some(Stored(ops[|ops| - 1]))
    else Last(loaded, ops[..|ops| - 1], key)
  }

  lemma InDict<K, V>(d: Dict<K, V>, k: K)
    requires Unique(d) && Has(d, k)
    ensures (k, Get(d, k)) in d && forall x :: x in d && x.0 == k ==> x == (k, Get(d, k))
  {
    assert d[Index(d, k)] in d;
    forall x | x in d && x.0 == k
      ensures x == (k, Get(d, k))
    {
      var i :| 0 <= i < |d| && d[i] == x;
      IndexAt(d, i);
    }
  }

  /** One set: the bound holds, every other survivor is untouched, and whatever was evicted
      expires no later than everything kept. */
  lemma SetSplits<E>(d: Entries<E>, op: SetOp<E>, maxEntries: nat)
    requires Unique(d)
    ensures var p := Put(d, op.key, Stored(op));
      var d', gone := SetEntry(d, op, maxEntries), Evicted(p, maxEntries);
      && Unique(d') && |d'| <= maxEntries
      && multiset(d') + multiset(gone) == multiset(p)
      && (forall g, k :: g in gone && k in d' ==> g.1.expiresAt <= k.1.expiresAt)
      && (forall k :: Has(d', k) ==> Has(p, k) && Get(d', k) == Get(p, k))
  {
    hide Overflow, DelAll;
    var p := Put(d, op.key, Stored(op));
    PutUnique(d, op.key, Stored(op));
    var rank := (x: (string, Entry<E>)) => ExpiryRank(x);
    EvictionSplits(p, maxEntries, rank);
    var d', gone := SetEntry(d, op, maxEntries), Evicted(p, maxEntries);
    forall g, k | g in gone && k in d'
      ensures g.1.expiresAt <= k.1.expiresAt
    {
      assert rank(g) <= rank(k);
    }
    forall k | Has(d', k)
      ensures Has(p, k) && Get(d', k) == Get(p, k)
    {
      InDict(d', k);
      assert (k, Get(d', k)) in multiset(p);
      assert (k, Get(d', k)) in p;
      InDict(p, k);
    }
  }

  /** Nothing is evicted that there is room for. */
  lemma SetSize<E>(d: Entries<E>, op: SetOp<E>, maxEntries: nat)
    requires Unique(d)
    ensures var p, d' := Put(d, op.key, Stored(op)), SetEntry(d, op, maxEntries);
      |d'| == (if |p| <= maxEntries then |p| else maxEntries) && (|p| <= maxEntries ==> d' == p)
  {
    hide Overflow, DelAll;
    PutUnique(d, op.key, Stored(op));
    EvictionSplits(Put(d, op.key, Stored(op)), maxEntries, (x: (string, Entry<E>)) => ExpiryRank(x));
  }

  /** An entry set with room left is answered until its time to live is over, and not from then on. */
  lemma SetThenGet<E>(d: Entries<E>, key: string, envelope: E, ttl: real, at: real, maxEntries: nat, now: real)
    requires Unique(d) && |d| < maxEntries
    ensures GetEntry(SetEntry(d, SetOp(key, envelope, ttl, at), maxEntries), key, now)
      == if now < at + ttl then Some(envelope) else None
  {
    hide SetEntry;
    var op := SetOp(key, envelope, ttl, at);
    SetSize(d, op, maxEntries);
    PutUnique(d, key, Stored(op));
  }

  lemma {:induction false} CacheIsLossy<E>(loaded: Entries<E>, ops: seq<SetOp<E>>, maxEntries: nat)
    requires Unique(loaded)
    ensures var d := Exec(loaded, ops, maxEntries);
      && Unique(d) && (ops != [] ==> |d| <= maxEntries)
      && forall k :: Has(d, k) ==> Last(loaded, ops, k) == Some(Get(d, k))
  {
    hide SetEntry, Has, Get;
    if ops != [] {
      var before, op := Exec(loaded, ops[..|ops| - 1], maxEntries), ops[|ops| - 1];
      CacheIsLossy(loaded, ops[..|ops| - 1], maxEntries);
      SetSplits(before, op, maxEntries);
      PutUnique(before, op.key, Stored(op));
    }
  }

  /** For every history of sets and any clock, get returns nothing, or the last value set for
      that key, and then only before its expiry. A key that is still held is answered just so, and
      only an evicted or expired one is not. */
  lemma {:induction false} GetReturnsLast<E>(loaded: Entries<E>, ops: seq<SetOp<E>>, maxEntries: nat, key: string,
      now: real)
    requires Unique(loaded)
    ensures var got := GetEntry(Exec(loaded, ops, maxEntries), key, now);
      got.Some? ==>
        var last := Last(loaded, ops, key);
        last.Some? && got.value == last.value.envelope && now < last.value.expiresAt
    ensures (exists x :: x in Exec(loaded, ops, maxEntries) && x.0 == key) ==>
      var last := Last(loaded, ops, key);
      && last.Some?
      && GetEntry(Exec(loaded, ops, maxEntries), key, now)
         == if now < last.value.expiresAt then Some(last.value.envelope) else None
  {
    CacheIsLossy(loaded, ops, maxEntries);
    var d := Exec(loaded, ops, maxEntries);
    if x :| x in d && x.0 == key {
      var i :| 0 <= i < |d| && d[i] == x;
    }
  }

  /** All keys of the history are among these. */
  predicate Within<E>(loaded: Entries<E>, ops: seq<SetOp<E>>, keys: set<string>) {
    (forall i :: 0 <= i < |loaded| ==> loaded[i].0 in keys) && forall n :: 0 <= n < |ops| ==> ops[n].key in keys
  }

  lemma {:induction false} FewKeys<E>(d: Entries<E>, keys: set<string>)
    requires Unique(d) && forall i :: 0 <= i < |d| ==> d[i].0 in keys
    ensures |d| <= |keys|
    decreases |d|
  {
    if d != [] {
      FewKeys(d[1..], keys - {d[0].0});
    }
  }

  lemma {:induction false} RoomKeepsAll<E>(loaded: Entries<E>, ops: seq<SetOp<E>>, maxEntries: nat, keys: set<string>)
    requires Unique(loaded) && Within(loaded, ops, keys) && |keys| <= maxEntries
    ensures var d := Exec(loaded, ops, maxEntries);
      && Unique(d) && (forall i :: 0 <= i < |d| ==> d[i].0 in keys)
      && forall k :: Has(d, k) <==> Last(loaded, ops, k).Some?
  {
    hide SetEntry;
    if ops != [] {
      var init, op := ops[..|ops| - 1], ops[|ops| - 1];
      RoomKeepsAll(loaded, init, maxEntries, keys);
      var before := Exec(loaded, init, maxEntries);
      SetSize(before, op, maxEntries);
      PutUnique(before, op.key, Stored(op));
      FewKeys(Put(before, op.key, Stored(op)), keys);
    }
  }

  /** While there is room for every key, nothing is forgotten: get answers exactly as an unbounded map whose
      values expire, from `now` plus their time to live on. */
  lemma {:induction false} RoomyCacheAnswers<E>(loaded: Entries<E>, ops: seq<SetOp<E>>, maxEntries: nat,
                                                keys: set<string>, key: string, now: real)
    requires Unique(loaded) && Within(loaded, ops, keys) && |keys| <= maxEntries
    ensures GetEntry(Exec(loaded, ops, maxEntries), key, now)
      == match Last(loaded, ops, key)
         case None => None
         case Some(entry) => if now < entry.expiresAt then Some(entry.envelope) else None
  {
    hide Exec, Last;
    RoomKeepsAll(loaded, ops, maxEntries, keys);
    CacheIsLossy(loaded, ops, maxEntries);
  }

  lemma {:induction false} InsertHead<T>(s: seq<T>, x: T, rank: T -> real)
    requires Ascending(s, rank)
    ensures Insert(s, x, rank)[0] == if s == [] || rank(s[0]) > rank(x) then x else s[0]
    ensures |Insert(s, x, rank)| == |s| + 1
  {
    if s != [] && rank(s[|s| - 1]) > rank(x) {
      InsertHead(s[..|s| - 1], x, rank);
    }
  }

  /** In a full cache the entry just stored under a new key is the one evicted exactly when
      it expires before every entry already there; on a tie an older entry goes. */
  lemma SetMayEvictItself<E>(d: Entries<E>, op: SetOp<E>)
    requires Unique(d) && !Has(d, op.key) && d != []
    ensures Has(SetEntry(d, op, |d|), op.key) <==> exists x :: x in d && x.1.expiresAt <= Stored(op).expiresAt
  {
    hide Overflow, DelAll, Sort;
    var rank := (x: (string, Entry<E>)) => ExpiryRank(x);
    var entry := (op.key, Stored(op));
    var p := d + [entry];
    var s := Sort(d, rank);
    SortSorted(d, rank);
    SortLength(d, rank);
    SameLength(s, d);
    InsertHead(s, entry, rank);
    SortSnoc(d, entry, rank);
    SetSplits(d, op, |d|);
    OverflowOne(d, entry, rank);
    var d' := SetEntry(d, op, |d|);
    var gone := Evicted(p, |d|);
    assert gone == [Insert(s, entry, rank)[0]];
    NewSurvives(d', p, entry, gone[0]);
    assert rank(s[0]) == s[0].1.expiresAt;
    assert s[0] in s && s[0] in d;
    assert forall x :: x in d ==> x in s;
    assert forall x :: x in s ==> rank(s[0]) <= rank(x);
  }

  lemma SortSnoc<T>(d: seq<T>, x: T, rank: T -> real)
    ensures Sort(d + [x], rank) == Insert(Sort(d, rank), x, rank)
  {
    assert (d + [x])[..|d|] == d;
  }

  lemma OverflowOne<K, V>(d: Dict<K, V>, x: (K, V), rank: ((K, V)) -> real)
    ensures |Sort(d + [x], rank)| == |d| + 1
    ensures Overflow(d + [x], |d|, rank) == [Sort(d + [x], rank)[0]]
  {
    SortLength(d + [x], rank);
  }

  lemma NewSurvives<K, V>(kept: Dict<K, V>, p: Dict<K, V>, entry: (K, V), gone: (K, V))
    requires Unique(kept) && Unique(p) && multiset(kept) + multiset([gone]) == multiset(p)
    requires entry in p
    ensures Has(kept, entry.0) <==> gone != entry
  {
    var i :| 0 <= i < |p| && p[i] == entry;
    IndexAt(p, i);
    OnceOnly(p, i);
    InDict(p, entry.0);
    assert multiset([gone]) == multiset{gone};
    assert multiset(kept)[entry] + multiset{gone}[entry] == multiset(p)[entry] == 1;
    if Has(kept, entry.0) {
      InDict(kept, entry.0);
      assert (entry.0, Get(kept, entry.0)) in multiset(p);
    }
    if multiset(kept)[entry] == 1 {
      assert entry in multiset(kept);
      assert entry in kept;
    }
  }

  lemma OnceOnly<K, V>(p: Dict<K, V>, i: nat)
    requires Unique(p) && i < |p|
    ensures multiset(p)[p[i]] == 1
  {
    assert p == p[..i] + [p[i]] + p[i + 1..];
    assert multiset(p) == multiset(p[..i]) + multiset{p[i]} + multiset(p[i + 1..]);
  }

  class Cache<E> {
    const maxEntries: nat
    var entries: Entries<E>

    constructor (loaded: Entries<E>, maxEntries: nat)
      requires Unique(loaded)
      ensures entries == loaded && this.maxEntries == maxEntries
    {
      entries, this.maxEntries := loaded, maxEntries;
    }

    method Lookup(key: string, now: real) returns (found: Option<E>)
      ensures found == GetEntry(entries, key, now)
    {
      var i := Index(entries, key);
      if i == |entries| || now >= entries[i].1.expiresAt {
        return None;
      }
      return Some(entries[i].1.envelope);
    }

    method Store(key: string, envelope: E, ttl: real, now: real)
      requires Unique(entries)
      modifies this
      ensures Unique(entries) && |entries| <= maxEntries
      ensures entries == SetEntry(old(entries), SetOp(key, envelope, ttl, now), maxEntries)
    {
      hide DelAll, Overflow, Put;
      var op := SetOp(key, envelope, ttl, now);
      SetSplits(entries, op, maxEntries);
      PutUnique(entries, key, Stored(op));
      entries := Put(entries, key, Stored(op));
      EvictIfNeeded();
    }

    method EvictIfNeeded()
      requires Unique(entries)
      modifies `entries
      ensures entries == DelAll(old(entries), Evicted(old(entries), maxEntries))
    {
      hide Sort, Del;
      ghost var goal := DelAll(entries, Evicted(entries, maxEntries));
      if |entries| <= maxEntries {
        return;
      }
      var gone := Evicted(entries, maxEntries);
      var n := 0;
      while n < |gone|
        invariant 0 <= n <= |gone|
        invariant DelAll(entries, gone[n..]) == goal
      {
        assert gone[n..][1..] == gone[n + 1..];
        entries := Del(entries, gone[n].0);
        n := n + 1;
      }
    }
  }
}
