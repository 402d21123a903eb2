/** The compiled-script caches of the script processor: an insertion-ordered map
    (a `LinkedHashMap` in insertion-order mode) bounded by a maximum size. A store
    puts the entry and then evicts from the front of insertion order until the
    bound holds again, so eviction is first-in-first-out; a lookup never changes
    the order. */
module ScriptCache {
  import opened Wrappers

  /** Default bound of each cache. */
  const DefaultMaxScriptCacheSize: nat := 200

  /** Entries in insertion order, oldest first. */
  type Cache<K, V> = seq<(K, V)>

  /** The keys of a cache in insertion order. */
  function Keys<K, V>(c: Cache<K, V>): (ks: seq<K>)
    ensures |ks| == |c|
    ensures forall i {:trigger ks[i]} :: 0 <= i < |c| ==> ks[i] == c[i].0
  {
    seq(|c|, i requires 0 <= i < |c| => c[i].0)
  }

  /** No key occurs twice (the map invariant). */
  ghost predicate DistinctKeys<K, V>(c: Cache<K, V>) {
    forall i, j :: 0 <= i < j < |c| ==> c[i].0 != c[j].0
  }

  /** Position of the first entry with key `k`. */
  function IndexOf<K(==), V>(c: Cache<K, V>, k: K): (r: Option<nat>)
    ensures r.Some? ==> r.value < |c| && c[r.value].0 == k
    ensures r.Some? ==> forall j :: 0 <= j < r.value ==> c[j].0 != k
    ensures r.None? <==> k !in Keys(c)
  {
    KeysAt(c);
    if |c| == 0 then None
    else if c[0].0 == k then Some(0)
    else
      assert Keys(c) == [c[0].0] + Keys(c[1..]);
      match IndexOf(c[1..], k)
      case None => None
      case Some(i) => Some(i + 1)
  }

  /** `cache.get(key)`: the value stored under `k`, or None. */
  function Get<K(==), V>(c: Cache<K, V>, k: K): (r: Option<V>)
    ensures r.Some? <==> k in Keys(c)
    ensures DistinctKeys(c) ==> forall i :: 0 <= i < |c| && c[i].0 == k ==> r == Some(c[i].1)
  {
    KeysAt(c);
    match IndexOf(c, k)
    case None => None
    case Some(i) => Some(c[i].1)
  }

  /** `cache.put(key, value)`: a present key has its value replaced in place and
      keeps its position; an absent key is appended as the newest entry. */
  function Put<K(==), V>(c: Cache<K, V>, k: K, v: V): (r: Cache<K, V>)
    ensures Get(r, k) == Some(v)
    ensures k in Keys(c) ==> Keys(r) == Keys(c)
    ensures k !in Keys(c) ==> r == c + [(k, v)]
  {
    match IndexOf(c, k)
    case None =>
      KeysAt(c);
      var r := c + [(k, v)];
      assert IndexOf(r, k) == Some(|c|) by { IndexOfFirst(r, k, |c|); }
      r
    case Some(i) =>
      var r := c[i := (k, v)];
      assert Keys(r) == Keys(c) by { assert forall j :: 0 <= j < |r| ==> Keys(r)[j] == Keys(c)[j]; }
      assert IndexOf(r, k) == Some(i) by { IndexOfFirst(r, k, i); }
      r
  }

  /** A put leaves every other key's lookup as it was. */
  lemma PutKeepsOtherKeys<K, V>(c: Cache<K, V>, k: K, v: V, other: K)
    requires other != k
    ensures Get(Put(c, k, v), other) == Get(c, other)
  {
    match IndexOf(c, k)
    case None => IndexOfAppend(c, k, v, other);
    case Some(i) => IndexOfReplace(c, i, (k, v), other);
  }

  /** A put keeps keys distinct. */
  lemma PutKeepsKeysDistinct<K, V>(c: Cache<K, V>, k: K, v: V)
    requires DistinctKeys(c)
    ensures DistinctKeys(Put(c, k, v))
  {
    var r := Put(c, k, v);
    if k in Keys(c) {
      forall i, j | 0 <= i < j < |r| ensures r[i].0 != r[j].0 {
        assert Keys(r)[i] == Keys(c)[i] && Keys(r)[j] == Keys(c)[j];
      }
    } else {
      forall i, j | 0 <= i < j < |r| ensures r[i].0 != r[j].0 {
        if j == |c| { assert Keys(c)[i] == c[i].0; }
      }
    }
  }

  /** The `n` newest entries (all of them when there are at most `n`). */
  function Newest<T>(s: seq<T>, n: nat): (r: seq<T>)
    ensures |r| == if |s| > n then n else |s|
    ensures r == s[|s| - |r|..]
  {
    if |s| > n then s[|s| - n..] else s
  }

  /** The cache after `updateScriptCache`: put, then evict oldest-first until at
      most `maxSize` entries remain. */
  function Store<K(==), V>(c: Cache<K, V>, k: K, v: V, maxSize: nat): (r: Cache<K, V>)
    ensures |r| <= maxSize
    ensures |r| == if |Put(c, k, v)| > maxSize then maxSize else |Put(c, k, v)|
    ensures r == Put(c, k, v)[|Put(c, k, v)| - |r|..]
    ensures |c| <= maxSize && 0 < maxSize ==> Get(r, k) == Some(v)
  {
    StoreKeepsStoredEntry(c, k, v, maxSize);
    Newest(Put(c, k, v), maxSize)
  }

  /** Eviction keeps keys distinct, and every surviving key still maps to the value
      it had after the put. */
  lemma StoreKeepsSurvivors<K, V>(c: Cache<K, V>, k: K, v: V, maxSize: nat, survivor: K)
    requires DistinctKeys(c)
    ensures DistinctKeys(Store(c, k, v, maxSize))
    ensures survivor in Keys(Store(c, k, v, maxSize)) ==>
      Get(Store(c, k, v, maxSize), survivor) == Get(Put(c, k, v), survivor)
  {
    var p := Put(c, k, v);
    PutKeepsKeysDistinct(c, k, v);
    SuffixGet(p, |p| - |Store(c, k, v, maxSize)|);
  }

  /** Lines 872-882 as written: put, then, while the cache is over its bound, take
      the next key of one key iterator and remove it. The iterator is created
      before the first removal, and a removal made through the map rather than the
      iterator makes its next `next()` throw `ConcurrentModificationException`
      (None). So the store succeeds, and equals the FIFO reference `Store`,
      exactly when at most one entry has to go. */
  method UpdateScriptCache<K(==), V>(c: Cache<K, V>, k: K, v: V, maxSize: nat) returns (r: Option<Cache<K, V>>)
    ensures r.Some? <==> |Put(c, k, v)| <= maxSize + 1
    ensures r.Some? ==> r.value == Store(c, k, v, maxSize)
    ensures |c| <= maxSize ==> r == Some(Store(c, k, v, maxSize))
  {
    var p := Put(c, k, v);
    r := EvictOldest(p, maxSize);
  }

  /** The eviction loop of lines 874-882: while over the bound, the iterator yields
      the oldest key and it is removed; a second `next()` after a removal throws
      (None). */
  method EvictOldest<T>(p: seq<T>, maxSize: nat) returns (r: Option<seq<T>>)
    ensures r.Some? <==> |p| <= maxSize + 1
    ensures r.Some? ==> r.value == Newest(p, maxSize)
  {
    var entries := p;
    if |entries| > maxSize {
      var modified := false;
      while |entries| > maxSize
        invariant maxSize <= |entries| <= |p|
        invariant entries == p[|p| - |entries|..]
        invariant modified <==> |entries| == |p| - 1
        invariant |entries| == |p| || |entries| == |p| - 1
        decreases |entries|
      {
        if modified {
          return None;
        }
        entries := entries[1..];
        modified := true;
      }
    }
    r := Some(entries);
  }

  /** A bound lowered below the cache's size by two or more: the second eviction
      throws, so the store fails instead of shrinking the cache to the bound. */
  method ShrunkBoundFailsStore() returns (r: Option<Cache<int, int>>)
    ensures r.None?
  {
    var c: Cache<int, int> := [(1, 1), (2, 2), (3, 3)];
    assert 4 !in Keys(c) by { assert Keys(c) == [1, 2, 3]; }
    r := UpdateScriptCache(c, 4, 4, 1);
  }

  /** The cache after a series of stores, in order. */
  function StoreAll<K(==), V>(c: Cache<K, V>, entries: seq<(K, V)>, maxSize: nat): Cache<K, V>
    decreases |entries|
  {
    if |entries| == 0 then c
    else StoreAll(Store(c, entries[0].0, entries[0].1, maxSize), entries[1..], maxSize)
  }

  /** FIFO over a series of stores of fresh keys: the cache holds exactly the
      `maxSize` most recently inserted entries, in insertion order. */
  lemma {:induction false} StoreAllKeepsNewest<K, V>(c: Cache<K, V>, entries: seq<(K, V)>, maxSize: nat)
    requires DistinctKeys(c + entries)
    requires |c| <= maxSize
    ensures StoreAll(c, entries, maxSize) == Newest(c + entries, maxSize)
    decreases |entries|
  {
    if |entries| == 0 {
      assert c + entries == c;
    } else {
      var e := entries[0];
      var rest := entries[1..];
      var c' := Store(c, e.0, e.1, maxSize);
      assert c' == Newest(c + [e], maxSize) by { FirstEntryIsFresh(c, entries); }
      NewestThenRest(c, entries, maxSize);
      assert DistinctKeys(c' + rest) by { SuffixDistinct(c + entries, |c| + 1 - |c'|); }
      StoreAllKeepsNewest(c', rest, maxSize);
    }
  }

  /** A hit does not protect a key: when the cache is full and its oldest key was
      just found by a lookup, storing a fresh key still evicts it. */
  lemma HitDoesNotProtectFromEviction<K, V>(c: Cache<K, V>, k: K, newKey: K, v: V, maxSize: nat)
    requires DistinctKeys(c) && |c| == maxSize && 0 < maxSize
    requires c[0].0 == k && newKey !in Keys(c)
    ensures Get(c, k) == Some(c[0].1)
    ensures Get(Store(c, newKey, v, maxSize), k) == None
  {
    var r := Store(c, newKey, v, maxSize);
    assert r == (c + [(newKey, v)])[1..];
    assert k !in Keys(r) by {
      forall j | 0 <= j < |r| ensures r[j].0 != k {
        if j < |r| - 1 {
          assert r[j] == c[j + 1];
        } else {
          assert r[j].0 == newKey;
          assert Keys(c)[0] == k;
        }
      }
    }
  }

  // ---------------------------------------------------------------- helpers

  /** Every entry's key is among the keys. */
  lemma KeysAt<K, V>(c: Cache<K, V>)
    ensures forall i :: 0 <= i < |c| ==> c[i].0 in Keys(c)
  {
    forall i | 0 <= i < |c| ensures c[i].0 in Keys(c) { assert Keys(c)[i] == c[i].0; }
  }

  lemma StoreKeepsStoredEntry<K, V>(c: Cache<K, V>, k: K, v: V, maxSize: nat)
    ensures |c| <= maxSize && 0 < maxSize ==> Get(Newest(Put(c, k, v), maxSize), k) == Some(v)
  {
    var p := Put(c, k, v);
    var r := Newest(p, maxSize);
    if |c| <= maxSize && 0 < maxSize && k !in Keys(c) {
      assert r[|r| - 1] == (k, v);
      forall j | 0 <= j < |r| - 1 ensures r[j].0 != k {
        assert r[j] == c[|p| - |r| + j];
        assert Keys(c)[|p| - |r| + j] == r[j].0;
      }
      IndexOfFirst(r, k, |r| - 1);
    }
  }

  lemma IndexOfFirst<K, V>(c: Cache<K, V>, k: K, i: nat)
    requires i < |c| && c[i].0 == k
    requires forall j :: 0 <= j < i ==> c[j].0 != k
    ensures IndexOf(c, k) == Some(i)
  {
    assert k in Keys(c) by { assert Keys(c)[i] == k; }
    var r := IndexOf(c, k);
    assert r.Some?;
  }

  lemma IndexOfAppend<K, V>(c: Cache<K, V>, k: K, v: V, k': K)
    requires k' != k
    ensures IndexOf(c + [(k, v)], k') == IndexOf(c, k')
  {
    var r := c + [(k, v)];
    match IndexOf(c, k')
    case Some(i) =>
      assert r[i] == c[i];
      forall j | 0 <= j < i ensures r[j].0 != k' { assert r[j] == c[j]; }
      IndexOfFirst(r, k', i);
    case None =>
      assert k' !in Keys(r) by {
        forall j | 0 <= j < |r| ensures r[j].0 != k' {
          if j < |c| { assert r[j] == c[j]; assert Keys(c)[j] == c[j].0; }
        }
      }
  }

  lemma IndexOfReplace<K, V>(c: Cache<K, V>, i: nat, e: (K, V), k': K)
    requires i < |c| && c[i].0 == e.0 && k' != e.0
    ensures IndexOf(c[i := e], k') == IndexOf(c, k')
  {
    var r := c[i := e];
    match IndexOf(c, k')
    case Some(m) =>
      assert m != i;
      IndexOfFirst(r, k', m);
    case None =>
      assert k' !in Keys(r) by {
        forall j | 0 <= j < |r| ensures r[j].0 != k' {
          if j != i { assert Keys(c)[j] == c[j].0; }
        }
      }
  }

  lemma SuffixDistinct<K, V>(c: Cache<K, V>, from: nat)
    requires from <= |c| && DistinctKeys(c)
    ensures DistinctKeys(c[from..])
  {
    var s := c[from..];
    forall i, j | 0 <= i < j < |s| ensures s[i].0 != s[j].0 {
      assert s[i] == c[from + i] && s[j] == c[from + j];
    }
  }

  /** On distinct keys, a suffix answers lookups of its own keys as the whole does. */
  lemma SuffixGet<K, V>(c: Cache<K, V>, from: nat)
    requires from <= |c| && DistinctKeys(c)
    ensures DistinctKeys(c[from..])
    ensures forall k :: k in Keys(c[from..]) ==> Get(c[from..], k) == Get(c, k)
  {
    SuffixDistinct(c, from);
    var s := c[from..];
    forall k | k in Keys(s) ensures Get(s, k) == Get(c, k) {
      var i := IndexOf(s, k).value;
      assert s[i] == c[from + i];
      assert Get(c, k) == Some(c[from + i].1);
    }
  }

  lemma FirstEntryIsFresh<K, V>(c: Cache<K, V>, entries: seq<(K, V)>)
    requires 0 < |entries| && DistinctKeys(c + entries)
    ensures entries[0].0 !in Keys(c)
  {
    forall j | 0 <= j < |c| ensures c[j].0 != entries[0].0 {
      assert c[j] == (c + entries)[j] && entries[0] == (c + entries)[|c|];
    }
  }

  /** Keeping the newest after the first entry, then appending the remaining
      entries, gives a suffix of all entries with the same newest `n`. */
  lemma NewestThenRest<T>(c: seq<T>, entries: seq<T>, n: nat)
    requires 0 < |entries|
    ensures var kept := Newest(c + [entries[0]], n);
      && kept + entries[1..] == (c + entries)[|c| + 1 - |kept|..]
      && Newest(kept + entries[1..], n) == Newest(c + entries, n)
  {
    assert c + entries == (c + [entries[0]]) + entries[1..];
    NewestAppend(c + [entries[0]], entries[1..], n);
  }

  /** Keeping the newest `n` and appending more is a suffix of appending first. */
  lemma NewestAppend<T>(s: seq<T>, t: seq<T>, n: nat)
    ensures Newest(s, n) + t == (s + t)[|s| - |Newest(s, n)|..]
    ensures Newest(Newest(s, n) + t, n) == Newest(s + t, n)
  {
    var a := Newest(s, n);
    assert a + t == (s + t)[|s| - |a|..];
  }
}
