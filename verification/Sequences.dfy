/** Lists, text search and splitting, shared by the other modules. */
module Sequences {

  datatype Option<+T> = None | Some(value: T) {
    function GetOr<U>(other: U, f: T -> U): U {
      match this
      case None => other
      case Some(v) => f(v)
    }
  }

  /** `pattern` occurs in `s` at position `i`. */
  predicate OccursAt<T(==)>(s: seq<T>, pattern: seq<T>, i: nat) {
    i + |pattern| <= |s| && s[i..i + |pattern|] == pattern
  }

  /** The first position at or after `from` where `pattern` occurs in `s`, or -1. */
  function IndexOf<T(==)>(s: seq<T>, pattern: seq<T>, from: nat): (i: int)
    ensures i == -1 || (from <= i && OccursAt(s, pattern, i))
    ensures forall j: nat :: from <= j && (i == -1 || j < i) ==> !OccursAt(s, pattern, j)
    decreases |s| - from
  {
    if from + |pattern| > |s| then -1
    else if OccursAt(s, pattern, from) then from
    else IndexOf(s, pattern, from + 1)
  }

  /** The position of the first occurrence is determined by its two defining properties. */
  lemma IndexOfIs<T>(s: seq<T>, pattern: seq<T>, from: nat, i: nat)
    requires from <= i && OccursAt(s, pattern, i)
    requires forall j: nat :: from <= j < i ==> !OccursAt(s, pattern, j)
    ensures IndexOf(s, pattern, from) == i
  {
    var k := IndexOf(s, pattern, from);
    assert k == -1 ==> !OccursAt(s, pattern, i);
  }

  /** Splits on one separating element, as `String.prototype.split` does. */
  function Split<T(==)>(s: seq<T>, sep: T): (parts: seq<seq<T>>)
    ensures |parts| > 0
  {
    if s == [] then [[]]
    else
      var rest := Split(s[1..], sep);
      if s[0] == sep then [[]] + rest else [[s[0]] + rest[0]] + rest[1..]
  }

  function Join<T>(parts: seq<seq<T>>, sep: seq<T>): seq<T> {
    if parts == [] then []
    else if |parts| == 1 then parts[0]
    else parts[0] + sep + Join(parts[1..], sep)
  }

  lemma {:induction false} SplitPrefix<T>(a: seq<T>, s: seq<T>, sep: T)
    requires sep !in a
    ensures Split(a + s, sep) == [a + Split(s, sep)[0]] + Split(s, sep)[1..]
  {
    if a == [] {
      assert a + s == s;
      assert a + Split(s, sep)[0] == Split(s, sep)[0];
    } else {
      SplitPrefix(a[1..], s, sep);
      assert (a + s)[1..] == a[1..] + s;
      assert a == [a[0]] + a[1..];
      assert [a[0]] + (a[1..] + Split(s, sep)[0]) == a + Split(s, sep)[0];
    }
  }

  /** Joining separator-free parts and splitting again gives the parts back. */
  lemma {:induction false} SplitJoin<T>(parts: seq<seq<T>>, sep: T)
    requires |parts| > 0
    requires forall i :: 0 <= i < |parts| ==> sep !in parts[i]
    ensures Split(Join(parts, [sep]), sep) == parts
  {
    var a := parts[0];
    if |parts| == 1 {
      SplitPrefix(a, [], sep);
      assert a + [] == a;
    } else {
      var rest := Join(parts[1..], [sep]);
      SplitJoin(parts[1..], sep);
      SplitPrefix(a, [sep] + rest, sep);
      assert ([sep] + rest)[1..] == rest;
      assert a + [sep] + rest == a + ([sep] + rest);
      assert Split([sep] + rest, sep) == [[]] + parts[1..];
      assert a + [] == a;
    }
  }

  /** Splitting and joining again gives the text back. */
  lemma {:induction false} JoinSplit<T>(s: seq<T>, sep: T)
    ensures Join(Split(s, sep), [sep]) == s
    ensures forall i :: 0 <= i < |Split(s, sep)| ==> sep !in Split(s, sep)[i]
  {
    if s != [] {
      var rest := Split(s[1..], sep);
      JoinSplit(s[1..], sep);
      if s[0] == sep {
        assert ([[]] + rest)[1..] == rest;
        assert [] + [sep] + s[1..] == s;
      } else {
        var parts := [[s[0]] + rest[0]] + rest[1..];
        assert parts[1..] == rest[1..];
        if |rest| > 1 {
          assert [s[0]] + rest[0] + [sep] + Join(rest[1..], [sep]) == [s[0]] + (rest[0] + [sep] + Join(rest[1..], [sep]));
        }
        assert [s[0]] + s[1..] == s;
      }
    }
  }

  /** Drops leading elements that satisfy `space`. */
  function TrimStart<T>(space: T -> bool, s: seq<T>): (r: seq<T>)
    ensures |r| <= |s| && r == s[|s| - |r|..]
    ensures r != [] ==> !space(r[0])
    ensures forall i :: 0 <= i < |s| - |r| ==> space(s[i])
  {
    if s != [] && space(s[0]) then TrimStart(space, s[1..]) else s
  }

  /** Drops trailing elements that satisfy `space`. */
  function TrimEnd<T>(space: T -> bool, s: seq<T>): (r: seq<T>)
    ensures r <= s
    ensures r != [] ==> !space(r[|r| - 1])
    ensures forall i :: |r| <= i < |s| ==> space(s[i])
  {
    if s != [] && space(s[|s| - 1]) then TrimEnd(space, s[..|s| - 1]) else s
  }

  function Trim<T>(space: T -> bool, s: seq<T>): (r: seq<T>)
    ensures r != [] ==> !space(r[0]) && !space(r[|r| - 1])
  {
    TrimEnd(space, TrimStart(space, s))
  }

  /** `s` has no space at either end. */
  predicate Trimmed<T>(space: T -> bool, s: seq<T>) {
    s != [] ==> !space(s[0]) && !space(s[|s| - 1])
  }

  predicate AllSpace<T>(space: T -> bool, s: seq<T>) {
    forall i :: 0 <= i < |s| ==> space(s[i])
  }

  lemma {:induction false} TrimStartPadded<T>(space: T -> bool, a: seq<T>, s: seq<T>)
    requires AllSpace(space, a) && (s != [] ==> !space(s[0]))
    ensures TrimStart(space, a + s) == s
  {
    if a == [] {
      assert a + s == s;
    } else {
      assert (a + s)[0] == a[0] && (a + s)[1..] == a[1..] + s;
      TrimStartPadded(space, a[1..], s);
    }
  }

  lemma {:induction false} TrimEndPadded<T>(space: T -> bool, s: seq<T>, b: seq<T>)
    requires AllSpace(space, b) && (s != [] ==> !space(s[|s| - 1]))
    ensures TrimEnd(space, s + b) == s
  {
    if b == [] {
      assert s + b == s;
    } else {
      var n := |b| - 1;
      assert (s + b)[|s + b| - 1] == b[n] && (s + b)[..|s + b| - 1] == s + b[..n];
      TrimEndPadded(space, s, b[..n]);
    }
  }

  /** Padding a trimmed text with spaces and trimming it gives the text back. */
  lemma TrimPadded<T>(space: T -> bool, a: seq<T>, s: seq<T>, b: seq<T>)
    requires AllSpace(space, a) && AllSpace(space, b) && Trimmed(space, s)
    ensures Trim(space, a + s + b) == s
  {
    if s == [] {
      assert a + s + b == (a + b) + [];
      TrimStartPadded(space, a + b, []);
    } else {
      assert a + s + b == a + (s + b);
      TrimStartPadded(space, a, s + b);
      TrimEndPadded(space, s, b);
    }
  }

  /** Trimming only ever strips spaces: the text is the trimmed text in a padding of spaces. */
  lemma TrimDecomposes<T>(space: T -> bool, s: seq<T>) returns (a: seq<T>, b: seq<T>)
    ensures AllSpace(space, a) && AllSpace(space, b)
    ensures s == a + Trim(space, s) + b
  {
    var left := TrimStart(space, s);
    a := s[..|s| - |left|];
    b := left[|Trim(space, s)|..];
  }

  /** Trimming ignores spaces already around the text. */
  lemma TrimAbsorbs<T>(space: T -> bool, a: seq<T>, s: seq<T>, b: seq<T>)
    requires AllSpace(space, a) && AllSpace(space, b)
    ensures Trim(space, a + s + b) == Trim(space, s)
  {
    var x, y := TrimDecomposes(space, s);
    Regroup(a, x, Trim(space, s), y, b);
    TrimPadded(space, a + x, Trim(space, s), y + b);
  }

  lemma Regroup<T>(a: seq<T>, x: seq<T>, t: seq<T>, y: seq<T>, b: seq<T>)
    ensures a + (x + t + y) + b == (a + x) + t + (y + b)
  {
  }
}
