/** Small facts about sequences shared by the crawler's modules. */
module Sequences {

  function Min(a: int, b: int): int
  {
    if a <= b then a else b
  }

  /** `a` is obtained from `b` by deleting some of its elements (order kept). */
  ghost predicate IsSubsequence<T>(a: seq<T>, b: seq<T>)
    decreases |b|
  {
    if b == [] then a == []
    else
      (a != [] && a[|a| - 1] == b[|b| - 1] && IsSubsequence(a[..|a| - 1], b[..|b| - 1]))
      || IsSubsequence(a, b[..|b| - 1])
  }

  /** The elements of `s` from last to first. */
  function Reversed<T>(s: seq<T>): (r: seq<T>)
    ensures |r| == |s|
  {
    if s == [] then [] else Reversed(s[1..]) + [s[0]]
  }

  lemma {:induction false} SubsequenceReflexive<T>(s: seq<T>)
    ensures IsSubsequence(s, s)
  {
    if s != [] {
      SubsequenceReflexive(s[..|s| - 1]);
    }
  }

  lemma {:induction false} SubsequenceEmpty<T>(s: seq<T>)
    ensures IsSubsequence([], s)
  {
    if s != [] {
      SubsequenceEmpty(s[..|s| - 1]);
    }
  }

  /** Appending an element to the larger sequence keeps a subsequence one. */
  lemma SubsequenceExtend<T>(a: seq<T>, b: seq<T>, x: T)
    requires IsSubsequence(a, b)
    ensures IsSubsequence(a, b + [x])
  {
    assert (b + [x])[..|b|] == b;
  }

  /** Appending the same element to both sides keeps a subsequence one. */
  lemma SubsequenceAppend<T>(a: seq<T>, b: seq<T>, x: T)
    requires IsSubsequence(a, b)
    ensures IsSubsequence(a + [x], b + [x])
  {
    assert (a + [x])[..|a|] == a;
    assert (b + [x])[..|b|] == b;
  }

  /** Removing index `i` from `s[..i + 1] + t` leaves `s[..i] + t`. */
  lemma RemoveAtBoundary<T>(s: seq<T>, i: nat, t: seq<T>)
    requires i < |s|
    ensures (s[..i + 1] + t)[..i] + (s[..i + 1] + t)[i + 1..] == s[..i] + t
  {
    var u := s[..i + 1] + t;
    assert u[..i] == s[..i];
    assert u[i + 1..] == t;
  }
}
