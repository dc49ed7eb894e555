/** The insertion sort both orderings use, over any strict total order of the indices. */
module Sorting {

  ghost predicate Permutation(s: seq<nat>, n: nat) {
    && |s| == n
    && (forall k :: 0 <= k < n ==> s[k] < n)
    && (forall a, b :: 0 <= a < b < n ==> s[a] != s[b])
  }

  /** A strict total order on the first n indices. */
  ghost predicate StrictOrder(less: (nat, nat) -> bool, n: nat) {
    && (forall a: nat, b: nat, c: nat :: a < n && b < n && c < n && less(a, b) && less(b, c) ==> less(a, c))
    && (forall a: nat, b: nat :: a < n && b < n && a != b ==> less(a, b) || less(b, a))
  }

  ghost predicate Sorted(less: (nat, nat) -> bool, s: seq<nat>, n: nat) {
    n <= |s| && forall a, b :: 0 <= a < b < n ==> less(s[a], s[b])
  }

  lemma HoleMoves(s: seq<nat>, n: nat, j: nat, x: nat)
    requires |s| == n && 0 < j < n && Permutation(s[j := x], n)
    ensures Permutation(s[j := s[j - 1]][j - 1 := x], n)
  {
    var before, after := s[j := x], s[j := s[j - 1]][j - 1 := x];
    forall a, b | 0 <= a < b < n ensures after[a] != after[b] {
      var a' := if a == j then j - 1 else if a == j - 1 then j else a;
      var b' := if b == j then j - 1 else if b == j - 1 then j else b;
      assert after[a] == before[a'] && after[b] == before[b'];
    }
    forall k | 0 <= k < n ensures after[k] < n {
      assert after[k] == before[if k == j then j - 1 else if k == j - 1 then j else k];
    }
  }

  /** The state of a slide: `key` is lifted out, and the hole it left has moved from i to j. */
  ghost predicate Sliding(less: (nat, nat) -> bool, s: seq<nat>, i: nat, j: nat, key: nat) {
    && j <= i < |s|
    && Permutation(s[j := key], |s|)
    && (forall a, b :: 0 <= a < b <= i && a != j && b != j ==> less(s[a], s[b]))
    && (forall b :: j < b <= i ==> less(key, s[b]))
  }

  lemma SlideStarts(less: (nat, nat) -> bool, s: seq<nat>, i: nat, key: nat)
    requires i < |s| && Permutation(s[i := key], |s|) && Sorted(less, s, i)
    ensures Sliding(less, s, i, i, key)
  {
  }

  lemma SlideStep(less: (nat, nat) -> bool, s: seq<nat>, i: nat, j: nat, key: nat)
    requires Sliding(less, s, i, j, key) && 0 < j && less(key, s[j - 1])
    ensures Sliding(less, s[j := s[j - 1]], i, j - 1, key)
  {
    HoleMoves(s, |s|, j, key);
    var s' := s[j := s[j - 1]];
    forall a, b | 0 <= a < b <= i && a != j - 1 && b != j - 1 ensures less(s'[a], s'[b]) {
      var a' := if a == j then j - 1 else a;
      var b' := if b == j then j - 1 else b;
      assert s'[a] == s[a'] && s'[b] == s[b'];
    }
  }

  lemma SlideEnds(less: (nat, nat) -> bool, s: seq<nat>, i: nat, j: nat, key: nat)
    requires StrictOrder(less, |s|) && Sliding(less, s, i, j, key)
    requires j > 0 ==> !less(key, s[j - 1])
    ensures Permutation(s[j := key], |s|) && Sorted(less, s[j := key], i + 1)
  {
    var s' := s[j := key];
    assert key == s'[j] && key < |s|;
    forall a | 0 <= a < j ensures s[a] < |s| && less(s[a], key) {
      assert s'[a] == s[a] && s'[j - 1] == s[j - 1];
      assert s'[j - 1] != s'[j];
      assert less(s[j - 1], key);
    }
    forall a, b | 0 <= a < b <= i ensures less(s'[a], s'[b]) {
      if b != j && a != j { assert less(s[a], s[b]); }
    }
  }

  lemma PermutationGrows(s: seq<nat>, n: nat, x: nat)
    requires |s| == n + 1 && Permutation(s[..n], n) && x == n
    ensures Permutation(s[n := x], n + 1)
  {
    var s' := s[n := x];
    assert forall k :: 0 <= k < n ==> s'[k] == s[..n][k];
  }
}
