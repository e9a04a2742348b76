/** Slices: removal where order does not matter, and concatenation. */
module Slices {
  // The last element takes the place of element i.
  function SwapRemove<T>(s: seq<T>, i: nat): (r: seq<T>)
    requires i < |s|
    ensures |r| == |s| - 1
    ensures forall j | 0 <= j < |r| :: r[j] == if j == i then s[|s| - 1] else s[j]
  {
    s[i := s[|s| - 1]][..|s| - 1]
  }

  // Nothing is lost but element i.
  lemma SwapRemoveKeeps<T>(s: seq<T>, i: nat)
    requires i < |s|
    ensures multiset(SwapRemove(s, i)) == multiset(s) - multiset{s[i]}
  {
    var moved := s[i := s[|s| - 1]];
    assert moved == moved[..|s| - 1] + [s[|s| - 1]];
    assert s[..|s| - 1] + [s[|s| - 1]] == s;
  }

  // One chunk is itself, and chunks side by side are concatenated side by side.
  lemma {:induction false} ConcatJoins<T>(a: seq<seq<T>>, b: seq<seq<T>>)
    ensures Concat(a + b) == Concat(a) + Concat(b)
    ensures |b| == 1 ==> Concat(b) == b[0]
  {
    if b == [] {
      assert a + b == a;
    } else {
      var front := b[..|b| - 1];
      ConcatJoins(a, front);
      assert (a + b)[..|a + b| - 1] == a + front;
    }
  }

  function Concat<T>(chunks: seq<seq<T>>): seq<T> {
    if chunks == [] then [] else Concat(chunks[..|chunks| - 1]) + chunks[|chunks| - 1]
  }
}
