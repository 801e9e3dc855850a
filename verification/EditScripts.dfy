/** The contract of a line diff, and what any diff meeting it says about where each new line comes from. */
module EditScripts {
  import opened Sequences

  datatype Change = Added(count: nat) | Removed(count: nat) | Kept(count: nat)

  /** `changes` turns `before` into `after`. */
  predicate Valid<T(==)>(changes: seq<Change>, before: seq<T>, after: seq<T>)
    decreases changes
  {
    if changes == [] then before == [] && after == []
    else
      match changes[0]
      case Added(n) => n <= |after| && Valid(changes[1..], before, after[n..])
      case Removed(n) => n <= |before| && Valid(changes[1..], before[n..], after)
      case Kept(n) =>
        n <= |before| && n <= |after| && before[..n] == after[..n] && Valid(changes[1..], before[n..], after[n..])
  }

  /** For every new line, the old line it is kept from, counting old lines from `from`. */
  function Origins(changes: seq<Change>, from: nat): seq<Option<nat>> {
    if changes == [] then []
    else
      match changes[0]
      case Added(n) => seq(n, i => None) + Origins(changes[1..], from)
      case Removed(n) => Origins(changes[1..], from + n)
      case Kept(n) => seq(n, i => Some(from + i)) + Origins(changes[1..], from + n)
  }

  /** How many old lines the script passes over. */
  function OldLength(changes: seq<Change>): nat {
    if changes == [] then 0
    else (if changes[0].Added? then 0 else changes[0].count) + OldLength(changes[1..])
  }

  lemma {:induction false} OldLengthIs<T>(changes: seq<Change>, before: seq<T>, after: seq<T>)
    requires Valid(changes, before, after)
    ensures OldLength(changes) == |before|
    decreases changes
  {
    if changes != [] {
      match changes[0]
      case Added(n) => OldLengthIs(changes[1..], before, after[n..]);
      case Removed(n) => OldLengthIs(changes[1..], before[n..], after);
      case Kept(n) => OldLengthIs(changes[1..], before[n..], after[n..]);
    }
  }

  /** Every new line has its place in the origins. */
  lemma {:induction false} OriginsLength<T>(changes: seq<Change>, before: seq<T>, after: seq<T>, from: nat)
    requires Valid(changes, before, after)
    ensures |Origins(changes, from)| == |after|
    decreases changes
  {
    if changes != [] {
      match changes[0]
      case Added(n) => OriginsLength(changes[1..], before, after[n..], from);
      case Removed(n) => OriginsLength(changes[1..], before[n..], after, from + n);
      case Kept(n) => OriginsLength(changes[1..], before[n..], after[n..], from + n);
    }
  }

  /** The origin of a new line is an equal old line. */
  lemma {:induction false} OriginMatches<T>(changes: seq<Change>, before: seq<T>, after: seq<T>, from: nat, j: nat)
    requires Valid(changes, before, after)
    requires j < |Origins(changes, from)| == |after| && Origins(changes, from)[j].Some?
    ensures from <= Origins(changes, from)[j].value < from + |before|
    ensures before[Origins(changes, from)[j].value - from] == after[j]
    decreases changes
  {
    match changes[0] {
      case Added(n) =>
        OriginsLength(changes[1..], before, after[n..], from);
        assert Origins(changes, from)[j] == Origins(changes[1..], from)[j - n];
        OriginMatches(changes[1..], before, after[n..], from, j - n);
      case Removed(n) =>
        OriginMatches(changes[1..], before[n..], after, from + n, j);
      case Kept(n) =>
        if j < n {
          assert before[..n][j] == after[..n][j];
        } else {
          OriginsLength(changes[1..], before[n..], after[n..], from + n);
          assert Origins(changes, from)[j] == Origins(changes[1..], from + n)[j - n];
          OriginMatches(changes[1..], before[n..], after[n..], from + n, j - n);
        }
    }
  }

  /** Kept lines stay in order, and no old line is kept twice. */
  lemma {:induction false} OriginsAscend(changes: seq<Change>, from: nat, i: nat, j: nat)
    requires i < j < |Origins(changes, from)|
    requires Origins(changes, from)[i].Some? && Origins(changes, from)[j].Some?
    ensures Origins(changes, from)[i].value < Origins(changes, from)[j].value
  {
    var o := Origins(changes, from);
    match changes[0] {
      case Added(n) =>
        assert forall k :: n <= k < |o| ==> o[k] == Origins(changes[1..], from)[k - n];
        OriginsAscend(changes[1..], from, i - n, j - n);
      case Removed(n) =>
        OriginsAscend(changes[1..], from + n, i, j);
      case Kept(n) =>
        var later := Origins(changes[1..], from + n);
        assert forall k :: n <= k < |o| ==> o[k] == later[k - n];
        if i >= n {
          OriginsAscend(changes[1..], from + n, i - n, j - n);
        } else if j >= n {
          OriginsStart(changes[1..], from + n, j - n);
        }
    }
  }

  lemma {:induction false} OriginsStart(changes: seq<Change>, from: nat, j: nat)
    requires j < |Origins(changes, from)| && Origins(changes, from)[j].Some?
    ensures from <= Origins(changes, from)[j].value
  {
    var o := Origins(changes, from);
    match changes[0] {
      case Added(n) => assert o[j] == Origins(changes[1..], from)[j - n]; OriginsStart(changes[1..], from, j - n);
      case Removed(n) => OriginsStart(changes[1..], from + n, j);
      case Kept(n) =>
        if j >= n {
          assert o[j] == Origins(changes[1..], from + n)[j - n];
          OriginsStart(changes[1..], from + n, j - n);
        }
    }
  }

  /** A diff: common prefix and suffix are kept, the middle is replaced. */
  method DiffArrays<T(==)>(before: seq<T>, after: seq<T>) returns (changes: seq<Change>)
    ensures Valid(changes, before, after)
  {
    var p := 0;
    while p < |before| && p < |after| && before[p] == after[p]
      invariant p <= |before| && p <= |after| && before[..p] == after[..p]
    {
      p := p + 1;
    }
    var b, a := before[p..], after[p..];
    var s := 0;
    while s < |b| && s < |a| && b[|b| - 1 - s] == a[|a| - 1 - s]
      invariant s <= |b| && s <= |a| && b[|b| - s..] == a[|a| - s..]
    {
      assert b[|b| - s - 1..] == [b[|b| - 1 - s]] + b[|b| - s..];
      assert a[|a| - s - 1..] == [a[|a| - 1 - s]] + a[|a| - s..];
      s := s + 1;
    }
    changes := [Kept(p), Removed(|b| - s), Added(|a| - s), Kept(s)];
    assert changes[1..] == [Removed(|b| - s), Added(|a| - s), Kept(s)];
    assert changes[1..][1..] == [Added(|a| - s), Kept(s)];
    assert [Added(|a| - s), Kept(s)][1..] == [Kept(s)];
    var tail := a[|a| - s..];
    assert tail[..s] == tail && tail[s..] == [];
    assert Valid([], tail[s..], tail[s..]) by { assert [Kept(s)][1..] == []; }
    assert Valid([Kept(s)], tail, tail);
    assert Valid([Added(|a| - s), Kept(s)], tail, a);
    assert Valid([Removed(|b| - s), Added(|a| - s), Kept(s)], b, a);
  }
}
