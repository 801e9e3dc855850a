/** A JavaScript `Map`: entries in insertion order, one per key. */
module InsertionMap {
  import opened Sequences

  type Entries<K, V> = seq<(K, V)>

  function Keys<K, V>(m: Entries<K, V>): (keys: seq<K>)
    ensures |keys| == |m|
    ensures forall i :: 0 <= i < |m| ==> keys[i] == m[i].0
  {
    seq(|m|, i requires 0 <= i < |m| => m[i].0)
  }

  ghost predicate UniqueKeys<K, V>(m: Entries<K, V>) {
    forall i, j :: 0 <= i < j < |m| ==> m[i].0 != m[j].0
  }

  /** `Map.prototype.get`. */
  function Get<K(==), V>(m: Entries<K, V>, k: K): (v: Option<V>)
    ensures v.None? <==> k !in Keys(m)
    ensures v.Some? ==> exists i :: 0 <= i < |m| && m[i] == (k, v.value)
  {
    if m == [] then None
    else if m[0].0 == k then
      assert m[0] == (k, m[0].1);
      assert Keys(m)[0] == k;
      Some(m[0].1)
    else
      var v := Get(m[1..], k);
      assert Keys(m) == [m[0].0] + Keys(m[1..]);
      assert forall i :: 0 <= i < |m| - 1 ==> m[1..][i] == m[i + 1];
      v
  }

  /** `Map.prototype.set`: an existing key keeps its place, a new one goes last. */
  function Set<K(==), V>(m: Entries<K, V>, k: K, v: V): Entries<K, V> {
    if m == [] then [(k, v)]
    else if m[0].0 == k then [(k, v)] + m[1..]
    else [m[0]] + Set(m[1..], k, v)
  }

  /** `Map.prototype.delete`. */
  function Delete<K(==), V>(m: Entries<K, V>, k: K): Entries<K, V> {
    if m == [] then []
    else if m[0].0 == k then m[1..]
    else [m[0]] + Delete(m[1..], k)
  }

  /** The sequence without any occurrence of `k`. */
  function Without<K(==, !new)>(keys: seq<K>, k: K): (r: seq<K>)
    ensures k !in r && |r| <= |keys|
    ensures forall x :: x in r <==> x in keys && x != k
  {
    if keys == [] then []
    else if keys[0] == k then Without(keys[1..], k)
    else [keys[0]] + Without(keys[1..], k)
  }

  lemma {:induction false} GetSet<K, V>(m: Entries<K, V>, k: K, v: V, x: K)
    ensures Get(Set(m, k, v), x) == if x == k then Some(v) else Get(m, x)
  {
    if m != [] && m[0].0 != k {
      GetSet(m[1..], k, v, x);
      assert ([m[0]] + Set(m[1..], k, v))[1..] == Set(m[1..], k, v);
    } else if m != [] {
      assert ([(k, v)] + m[1..])[1..] == m[1..];
    } else {
      assert [(k, v)][1..] == [];
    }
  }

  lemma {:induction false} GetDelete<K, V>(m: Entries<K, V>, k: K, x: K)
    requires UniqueKeys(m)
    ensures Get(Delete(m, k), x) == if x == k then None else Get(m, x)
  {
    if m == [] {
    } else if m[0].0 == k {
      assert forall i :: 0 <= i < |m| - 1 ==> m[1..][i] == m[i + 1];
      assert k !in Keys(m[1..]);
    } else {
      assert forall i :: 0 <= i < |m| - 1 ==> m[1..][i] == m[i + 1];
      GetDelete(m[1..], k, x);
      assert ([m[0]] + Delete(m[1..], k))[1..] == Delete(m[1..], k);
    }
  }

  lemma KeysFirst<K, V>(e: (K, V), m: Entries<K, V>)
    ensures Keys([e] + m) == [e.0] + Keys(m)
  {
    var whole := [e] + m;
    forall i | 0 <= i < |whole| ensures Keys(whole)[i] == ([e.0] + Keys(m))[i] {
      if i > 0 { assert whole[i] == m[i - 1] && Keys(m)[i - 1] == m[i - 1].0; }
    }
    assert Keys(whole) == [e.0] + Keys(m);
  }

  lemma UniqueFirst<K, V>(e: (K, V), m: Entries<K, V>)
    requires UniqueKeys(m) && forall i :: 0 <= i < |m| ==> m[i].0 != e.0
    ensures UniqueKeys([e] + m)
  {
    var whole := [e] + m;
    forall i, j | 0 <= i < j < |whole| ensures whole[i].0 != whole[j].0 {
      assert whole[j] == m[j - 1];
      if i > 0 { assert whole[i] == m[i - 1]; }
    }
  }

  lemma UniqueRest<K, V>(e: (K, V), m: Entries<K, V>)
    requires UniqueKeys([e] + m)
    ensures UniqueKeys(m) && forall i :: 0 <= i < |m| ==> m[i].0 != e.0
  {
    var whole := [e] + m;
    assert forall i :: 0 <= i < |m| ==> whole[i + 1] == m[i];
    forall i, j | 0 <= i < j < |m| ensures m[i].0 != m[j].0 { assert whole[i + 1].0 != whole[j + 1].0; }
    forall i | 0 <= i < |m| ensures m[i].0 != e.0 { assert whole[0].0 != whole[i + 1].0; }
  }

  lemma AbsentKey<K, V>(m: Entries<K, V>, k: K)
    ensures k !in Keys(m) <==> forall i :: 0 <= i < |m| ==> m[i].0 != k
  {
    assert forall i :: 0 <= i < |m| ==> Keys(m)[i] == m[i].0;
  }

  /** Keys of a map seen as its first entry and the rest. */
  lemma FirstEntry<K, V>(e: (K, V), m: Entries<K, V>)
    ensures Keys([e] + m) == [e.0] + Keys(m)
    ensures UniqueKeys([e] + m) <==> UniqueKeys(m) && e.0 !in Keys(m)
  {
    KeysFirst(e, m);
    AbsentKey(m, e.0);
    if UniqueKeys([e] + m) { UniqueRest(e, m); }
    if UniqueKeys(m) && e.0 !in Keys(m) { UniqueFirst(e, m); }
  }

  /** What `delete` does to the order of the keys. */
  lemma {:induction false} DeleteKeys<K(!new), V>(m: Entries<K, V>, k: K)
    requires UniqueKeys(m)
    ensures Keys(Delete(m, k)) == Without(Keys(m), k)
    ensures UniqueKeys(Delete(m, k))
  {
    if m != [] {
      assert m == [m[0]] + m[1..];
      FirstEntry(m[0], m[1..]);
      DeleteKeys(m[1..], k);
      if m[0].0 == k {
        WithoutAbsent(Keys(m[1..]), k);
      } else {
        FirstEntry(m[0], Delete(m[1..], k));
      }
    }
  }

  lemma {:induction false} GetAt<K, V>(m: Entries<K, V>, k: nat)
    requires UniqueKeys(m) && k < |m|
    ensures Get(m, m[k].0) == Some(m[k].1)
  {
    if k > 0 {
      assert forall i :: 0 <= i < |m| - 1 ==> m[1..][i] == m[i + 1];
      GetAt(m[1..], k - 1);
    }
  }

  lemma {:induction false} WithoutAbsent<K(!new)>(keys: seq<K>, k: K)
    requires k !in keys
    ensures Without(keys, k) == keys
  {
    if keys != [] { WithoutAbsent(keys[1..], k); }
  }

  lemma {:induction false} DeleteAbsent<K, V>(m: Entries<K, V>, k: K)
    requires k !in Keys(m)
    ensures Delete(m, k) == m
  {
    if m != [] {
      assert Keys(m) == [m[0].0] + Keys(m[1..]);
      DeleteAbsent(m[1..], k);
    }
  }

  /** What `set` does to the order of the keys. */
  lemma {:induction false} SetKeys<K, V>(m: Entries<K, V>, k: K, v: V)
    requires UniqueKeys(m)
    ensures UniqueKeys(Set(m, k, v))
    ensures Keys(Set(m, k, v)) == if k in Keys(m) then Keys(m) else Keys(m) + [k]
  {
    if m != [] {
      var first, rest := m[0], m[1..];
      assert m == [first] + rest;
      FirstEntry(first, rest);
      if first.0 == k {
        FirstEntry((k, v), rest);
      } else {
        SetKeys(rest, k, v);
        FirstEntry(first, Set(rest, k, v));
        assert [first.0] + (Keys(rest) + [k]) == [first.0] + Keys(rest) + [k];
        assert k in Keys(m) <==> k in Keys(rest);
      }
    }
  }
}
