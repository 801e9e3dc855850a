/** A bounded map in insertion order, deleted from and re-inserted into, is a least-recently-used cache. */
module Lru {
  import opened Sequences
  import opened InsertionMap

  function LastN<T>(s: seq<T>, n: nat): seq<T> {
    if |s| <= n then s else s[|s| - n..]
  }

  /** The simple cache: move `k` to the end and keep the last `capacity` keys. */
  function Touch<K(==, !new)>(keys: seq<K>, k: K, capacity: nat): seq<K> {
    LastN(Without(keys, k) + [k], capacity)
  }

  /** The distinct keys of a trace, in the order of their last use. */
  function Recency<K(==, !new)>(trace: seq<K>): seq<K> {
    if trace == [] then []
    else
      var last := trace[|trace| - 1];
      Without(Recency(trace[..|trace| - 1]), last) + [last]
  }

  lemma {:induction false} WithoutAppend<K(!new)>(a: seq<K>, b: seq<K>, k: K)
    ensures Without(a + b, k) == Without(a, k) + Without(b, k)
  {
    if a == [] {
      assert a + b == b;
    } else {
      assert (a + b)[1..] == a[1..] + b;
      WithoutAppend(a[1..], b, k);
    }
  }

  ghost predicate NoDuplicates<T>(s: seq<T>) {
    forall i, j :: 0 <= i < j < |s| ==> s[i] != s[j]
  }

  lemma {:induction false} WithoutDistinct<K(!new)>(keys: seq<K>, k: K)
    requires NoDuplicates(keys)
    ensures NoDuplicates(Without(keys, k))
    ensures |Without(keys, k)| == if k in keys then |keys| - 1 else |keys|
  {
    if keys != [] {
      WithoutDistinct(keys[1..], k);
      assert keys == [keys[0]] + keys[1..];
      assert forall i :: 0 <= i < |keys| - 1 ==> keys[1..][i] == keys[i + 1];
      assert keys[0] !in keys[1..];
      var r := Without(keys[1..], k);
      assert keys[0] !in r;
    }
  }

  /** The position of the last use of `k`, or -1. */
  function LastUse<K(==)>(trace: seq<K>, k: K): (i: int)
    ensures -1 <= i < |trace| && (i >= 0 ==> trace[i] == k)
    ensures forall j :: i < j < |trace| ==> trace[j] != k
  {
    if trace == [] then -1
    else if trace[|trace| - 1] == k then |trace| - 1
    else LastUse(trace[..|trace| - 1], k)
  }

  /** The keys are listed in the order of their last use. */
  ghost predicate ByLastUse<K(!new)>(keys: seq<K>, trace: seq<K>) {
    forall i, j :: 0 <= i < j < |keys| ==> LastUse(trace, keys[i]) < LastUse(trace, keys[j])
  }

  lemma {:induction false} WithoutByLastUse<K(!new)>(keys: seq<K>, trace: seq<K>, k: K)
    requires ByLastUse(keys, trace)
    ensures ByLastUse(Without(keys, k), trace)
  {
    if keys != [] {
      var first, rest := keys[0], keys[1..];
      assert forall i :: 0 <= i < |rest| ==> rest[i] == keys[i + 1];
      WithoutByLastUse(rest, trace, k);
      var r := Without(rest, k);
      forall j | 0 <= j < |r| ensures LastUse(trace, first) < LastUse(trace, r[j]) {
        assert r[j] in r;
        var i :| 0 <= i < |rest| && rest[i] == r[j];
        assert keys[i + 1] == r[j];
      }
    }
  }

  /** Each key of the trace is listed once, and a key used later is listed later. */
  lemma {:induction false} RecencyLists<K(!new)>(trace: seq<K>)
    ensures NoDuplicates(Recency(trace))
    ensures forall k :: k in Recency(trace) <==> k in trace
    ensures ByLastUse(Recency(trace), trace)
  {
    if trace != [] {
      var before, last := trace[..|trace| - 1], trace[|trace| - 1];
      RecencyLists(before);
      WithoutDistinct(Recency(before), last);
      assert trace == before + [last];
      var r := Without(Recency(before), last);
      WithoutByLastUse(Recency(before), before, last);
      assert forall x :: x in r ==> LastUse(trace, x) == LastUse(before, x);
      assert forall i :: 0 <= i < |r| ==> r[i] in r;
    }
  }

  /** Forgetting the oldest keys and moving one key to the end commute. */
  lemma TouchLastN<K(!new)>(keys: seq<K>, k: K, capacity: nat)
    requires NoDuplicates(keys) && capacity > 0
    ensures Touch(LastN(keys, capacity), k, capacity) == Touch(keys, k, capacity)
  {
    if |keys| > capacity {
      var oldest, recent := keys[..|keys| - capacity], keys[|keys| - capacity..];
      assert keys == oldest + recent;
      WithoutAppend(oldest, recent, k);
      WithoutDistinct(keys, k);
      assert NoDuplicates(recent);
      WithoutDistinct(recent, k);
      var a, b := Without(oldest, k), Without(recent, k);
      if k in recent {
        var i :| 0 <= i < |recent| && recent[i] == k;
        forall j | 0 <= j < |oldest| ensures oldest[j] != k { assert keys[j] == oldest[j] && keys[|oldest| + i] == k; }
        WithoutAbsent(oldest, k);
      }
      assert Without(keys, k) + [k] == a + (b + [k]);
      LastNAppend(a, b + [k], capacity);
    }
  }

  lemma LastNAppend<T>(a: seq<T>, b: seq<T>, n: nat)
    requires |b| >= n
    ensures LastN(a + b, n) == LastN(b, n)
  {
    assert (a + b)[|a| + |b| - n..] == b[|b| - n..];
  }

  /** The keys of the bounded cache after a trace of uses. */
  function CacheKeys<K(==, !new)>(trace: seq<K>, capacity: nat): seq<K> {
    if trace == [] then [] else Touch(CacheKeys(trace[..|trace| - 1], capacity), trace[|trace| - 1], capacity)
  }

  /** Evicting at every step keeps the same keys as remembering everything and cutting once. */
  lemma {:induction false} CacheIsRecency<K(!new)>(trace: seq<K>, capacity: nat)
    requires capacity > 0
    ensures CacheKeys(trace, capacity) == LastN(Recency(trace), capacity)
  {
    if trace != [] {
      var before := trace[..|trace| - 1];
      CacheIsRecency(before, capacity);
      RecencyLists(before);
      TouchLastN(Recency(before), trace[|trace| - 1], capacity);
    }
  }

  /** A list without duplicates is its own recency list. */
  lemma {:induction false} RecencyOfDistinct<K(!new)>(keys: seq<K>)
    requires NoDuplicates(keys)
    ensures Recency(keys) == keys
  {
    if keys != [] {
      var before := keys[..|keys| - 1];
      RecencyOfDistinct(before);
      WithoutAbsent(before, keys[|keys| - 1]);
      assert keys == before + [keys[|keys| - 1]];
    }
  }

  // ----- The same on a JavaScript Map

  /** Drop the oldest entry if there are too many. */
  function DropOldest<K, V>(m: Entries<K, V>, capacity: nat): Entries<K, V> {
    if |m| > capacity then m[1..] else m
  }

  /** Delete and re-insert `k`, then drop the oldest entry if there are too many. */
  function Refresh<K(==), V>(m: Entries<K, V>, k: K, v: V, capacity: nat): Entries<K, V> {
    DropOldest(Set(Delete(m, k), k, v), capacity)
  }

  lemma Reinserted<K(!new), V>(m: Entries<K, V>, k: K, v: V)
    requires UniqueKeys(m)
    ensures UniqueKeys(Set(Delete(m, k), k, v))
    ensures Keys(Set(Delete(m, k), k, v)) == Without(Keys(m), k) + [k]
    ensures forall x :: Get(Set(Delete(m, k), k, v), x) == if x == k then Some(v) else Get(m, x)
  {
    var d := Delete(m, k);
    DeleteKeys(m, k);
    SetKeys(d, k, v);
    forall x ensures Get(Set(d, k, v), x) == if x == k then Some(v) else Get(m, x) {
      GetSet(d, k, v, x);
      GetDelete(m, k, x);
    }
  }

  lemma OldestDropped<K(!new), V>(m: Entries<K, V>, capacity: nat)
    requires UniqueKeys(m) && |m| <= capacity + 1
    ensures UniqueKeys(DropOldest(m, capacity)) && Keys(DropOldest(m, capacity)) == LastN(Keys(m), capacity)
    ensures forall x :: x in Keys(DropOldest(m, capacity)) ==> Get(DropOldest(m, capacity), x) == Get(m, x)
  {
    if |m| > capacity {
      assert m == [m[0]] + m[1..];
      FirstEntry(m[0], m[1..]);
    }
  }

  lemma RefreshTouches<K(!new), V>(m: Entries<K, V>, k: K, v: V, capacity: nat)
    requires UniqueKeys(m) && |m| <= capacity && capacity > 0
    ensures UniqueKeys(Refresh(m, k, v, capacity)) && |Refresh(m, k, v, capacity)| <= capacity
    ensures Keys(Refresh(m, k, v, capacity)) == Touch(Keys(m), k, capacity)
  {
    var m' := Set(Delete(m, k), k, v);
    Reinserted(m, k, v);
    assert |m'| == |Keys(m')| && |Keys(m)| == |m|;
    OldestDropped(m', capacity);
  }

  lemma RefreshGet<K(!new), V>(m: Entries<K, V>, k: K, v: V, capacity: nat, x: K)
    requires UniqueKeys(m) && |m| <= capacity && capacity > 0 && x in Touch(Keys(m), k, capacity)
    ensures Get(Refresh(m, k, v, capacity), x) == if x == k then Some(v) else Get(m, x)
  {
    RefreshTouches(m, k, v, capacity);
    Reinserted(m, k, v);
    OldestDropped(Set(Delete(m, k), k, v), capacity);
  }

  lemma TouchedLast<K(!new)>(keys: seq<K>, k: K, capacity: nat)
    requires capacity > 0
    ensures Touch(keys, k, capacity) != [] && Touch(keys, k, capacity)[|Touch(keys, k, capacity)| - 1] == k
    ensures k in Touch(keys, k, capacity)
  {
    var t := Touch(keys, k, capacity);
    assert t[|t| - 1] == k;
  }
}
