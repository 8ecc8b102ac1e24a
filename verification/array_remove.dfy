/**
 The `Array.remove(_:)` extension for `Equatable` elements: find the first
 element equal to the argument with `index(of:)` and remove it with
 `remove(at:)`; do nothing when there is none. Swift arrays are values, so the
 mutating method is modelled as a method returning the new array.
 */
module ArrayRemove {
  import opened Wrappers

  /** The position `index(of: x)` reports: the first one holding x, if any. */
  function FirstIndex<T(==)>(s: seq<T>, x: T): (r: Option<nat>)
    ensures r.None? <==> x !in s
    ensures r.Some? ==> r.value < |s| && s[r.value] == x
    ensures r.Some? ==> forall j | 0 <= j < r.value :: s[j] != x
  {
    if |s| == 0 then None
    else if s[0] == x then Some(0)
    else match FirstIndex(s[1..], x)
      case None => None
      case Some(i) => Some(i + 1)
  }

  /** The array after `remove(x)`: without its first element equal to x. */
  function RemovedFirst<T(==)>(s: seq<T>, x: T): (r: seq<T>)
    ensures |r| == if x in s then |s| - 1 else |s|
  {
    match FirstIndex(s, x)
    case None => s
    case Some(i) => s[..i] + s[i + 1..]
  }

  /** `index(of:)`: a linear scan from the front that stops at the first equal element. */
  method IndexOf<T(==)>(s: seq<T>, x: T) returns (r: Option<nat>)
    ensures r == FirstIndex(s, x)
  {
    var i := 0;
    while i < |s|
      invariant 0 <= i <= |s|
      invariant x !in s[..i]
    {
      if s[i] == x {
        return Some(i);
      }
      i := i + 1;
    }
    assert s[..i] == s;
    return None;
  }

  /** `remove(_:)` itself (lines 6-10). */
  method Remove<T(==)>(s: seq<T>, x: T) returns (r: seq<T>)
    ensures r == RemovedFirst(s, x)
  {
    var index := IndexOf(s, x);
    if index.Some? {
      r := s[..index.value] + s[index.value + 1..];
    } else {
      r := s;
    }
  }

  /** With no element equal to x the array is unchanged. */
  lemma RemovedFirstAbsent<T>(s: seq<T>, x: T)
    requires x !in s
    ensures RemovedFirst(s, x) == s
  {
  }

  /**
   With an element equal to x, exactly one element goes, at the first such
   position; the elements before and after it keep their order.
   */
  lemma RemovedFirstPresent<T>(s: seq<T>, x: T)
    requires x in s
    ensures FirstIndex(s, x).Some?
    ensures var i := FirstIndex(s, x).value;
      var r := RemovedFirst(s, x);
      && |r| == |s| - 1
      && r[..i] == s[..i]
      && r[i..] == s[i + 1..]
  {
  }

  /** As a bag, removal takes away one occurrence of x and nothing else. */
  lemma RemovedFirstMultiset<T>(s: seq<T>, x: T)
    ensures multiset(RemovedFirst(s, x)) == multiset(s) - multiset{x}
  {
    var f := FirstIndex(s, x);
    if f.Some? {
      var i := f.value;
      assert s == s[..i] + [s[i]] + s[i + 1..];
      assert multiset(s) == multiset(s[..i]) + multiset{x} + multiset(s[i + 1..]);
    } else {
      assert multiset(s)[x] == 0;
    }
  }

  /** Elements before the removed position keep their places; those after it move down by one. */
  lemma RemovedFirstPositions<T>(s: seq<T>, x: T, k: nat)
    requires FirstIndex(s, x).Some? && k < |s|
    ensures var i := FirstIndex(s, x).value;
      && (k < i ==> RemovedFirst(s, x)[k] == s[k])
      && (k > i ==> RemovedFirst(s, x)[k - 1] == s[k])
  {
    var i := FirstIndex(s, x).value;
    var r := RemovedFirst(s, x);
    assert r == s[..i] + s[i + 1..];
    if k < i {
      assert r[k] == s[..i][k];
    } else if k > i {
      assert r[k - 1] == s[i + 1..][k - 1 - i];
    }
  }

  /** Removing the element at i removes exactly position i when no earlier element equals it. */
  lemma RemovedFirstAt<T>(s: seq<T>, i: nat)
    requires i < |s|
    requires forall j | 0 <= j < i :: s[j] != s[i]
    ensures FirstIndex(s, s[i]) == Some(i)
    ensures RemovedFirst(s, s[i]) == s[..i] + s[i + 1..]
  {
    var f := FirstIndex(s, s[i]);
    assert f.Some? && f.value <= i;
  }
}
