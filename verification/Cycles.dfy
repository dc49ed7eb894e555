/**
 * The dependency chains of a manifest.  `depends_on` gives every declaration at most one successor,
 * so the declarations form a functional graph; the validation walks each chain for as many steps as
 * there are declarations and calls anything longer a cycle.
 */
module Cycles {
  import opened Basics
  import opened Manifest

  function Next(es: seq<Entity>, i: nat): (r: Option<nat>)
    requires i < |es|
    ensures r.Some? ==> r.value < |es|
  {
    if es[i].dependsOn.None? then None else FindKey(es, es[i].dependsOn.value)
  }

  /** The declaration reached after n steps, or None once the chain has ended. */
  function Follow(es: seq<Entity>, i: nat, n: nat): (r: Option<nat>)
    requires i < |es|
    ensures r.Some? ==> r.value < |es|
  {
    if n == 0 then Some(i)
    else match Follow(es, i, n - 1)
      case None => None
      case Some(j) => Next(es, j)
  }

  ghost predicate NoDanglingDependency(es: seq<Entity>) {
    forall i :: 0 <= i < |es| && es[i].dependsOn.Some? ==> Next(es, i).Some?
  }

  ghost predicate OnCycle(es: seq<Entity>, i: nat, n: nat)
    requires i < |es|
  {
    n > 0 && Follow(es, i, n) == Some(i)
  }

  ghost predicate Acyclic(es: seq<Entity>) {
    forall i, n: nat :: 0 <= i < |es| ==> !OnCycle(es, i, n)
  }

  /** The chain of i takes more steps than there are declarations. */
  predicate TooLong(es: seq<Entity>, i: nat)
    requires i < |es|
  {
    Follow(es, i, |es| + 1).Some?
  }

  lemma {:induction false} FollowAdds(es: seq<Entity>, i: nat, a: nat, b: nat)
    requires i < |es|
    ensures Follow(es, i, a + b)
         == (match Follow(es, i, a) case None => None case Some(j) => Follow(es, j, b))
    decreases b
  {
    if b > 0 {
      FollowAdds(es, i, a, b - 1);
      assert a + b - 1 == a + (b - 1);
    }
  }

  lemma {:induction false} FollowPrefix(es: seq<Entity>, i: nat, a: nat, b: nat)
    requires i < |es| && a <= b && Follow(es, i, b).Some?
    ensures Follow(es, i, a).Some?
    decreases b - a
  {
    if a < b { FollowPrefix(es, i, a + 1, b); }
  }

  lemma {:induction false} DistinctBelow(s: seq<nat>, n: nat)
    requires forall k :: 0 <= k < |s| ==> s[k] < n
    requires forall a, b :: 0 <= a < b < |s| ==> s[a] != s[b]
    ensures |s| <= n
    decreases n
  {
    if s != [] { assert s[0] < n; }
    if n > 0 {
      if k :| 0 <= k < |s| && s[k] == n - 1 {
        DistinctBelow(s[..k] + s[k + 1..], n - 1);
      } else {
        DistinctBelow(s, n - 1);
      }
    }
  }

  lemma SomethingRepeats(s: seq<nat>, n: nat) returns (a: nat, b: nat)
    requires n < |s| && forall k :: 0 <= k < |s| ==> s[k] < n
    ensures a < b < |s| && s[a] == s[b]
  {
    if a', b' :| 0 <= a' < b' < |s| && s[a'] == s[b'] {
      a, b := a', b';
    } else {
      DistinctBelow(s, n);
    }
  }

  function NodeAfter(es: seq<Entity>, i: nat, n: nat): (j: nat)
    requires i < |es|
    ensures j < |es|
  {
    match Follow(es, i, n) case Some(j) => j case None => i
  }

  /** Every chain longer than the number of declarations has come back to one of them. */
  lemma LongChainRepeats(es: seq<Entity>, i: nat) returns (j: nat, n: nat)
    requires i < |es| && TooLong(es, i)
    ensures j < |es| && OnCycle(es, j, n)
  {
    var s := seq(|es| + 1, k requires k >= 0 => NodeAfter(es, i, k));
    var a, b := SomethingRepeats(s, |es|);
    FollowPrefix(es, i, a, |es| + 1);
    FollowPrefix(es, i, b, |es| + 1);
    FollowAdds(es, i, a, b - a);
    j, n := s[a], b - a;
  }

  lemma {:induction false} CycleNeverEnds(es: seq<Entity>, i: nat, n: nat, k: nat)
    requires i < |es| && OnCycle(es, i, n)
    ensures Follow(es, i, k).Some?
    decreases k
  {
    if k <= n {
      FollowPrefix(es, i, k, n);
    } else {
      CycleNeverEnds(es, i, n, k - n);
      FollowAdds(es, i, n, k - n);
    }
  }

  /** The bounded walk decides acyclicity exactly. */
  lemma WalkDecidesAcyclicity(es: seq<Entity>)
    ensures (forall i :: 0 <= i < |es| ==> !TooLong(es, i)) <==> Acyclic(es)
  {
    if i :| 0 <= i < |es| && TooLong(es, i) {
      var j, n := LongChainRepeats(es, i);
    }
    if !Acyclic(es) {
      var i, n: nat :| 0 <= i < |es| && OnCycle(es, i, n);
      CycleNeverEnds(es, i, n, |es| + 1);
      assert TooLong(es, i);
    }
  }

  /** The walk itself: it counts steps and gives up past the number of declarations. */
  method Walk(es: seq<Entity>, start: nat) returns (tooLong: bool)
    requires start < |es| && NoDanglingDependency(es)
    ensures tooLong == TooLong(es, start)
  {
    var e: Option<nat> := Some(start);
    var steps := 0;
    while e.Some? && es[e.value].dependsOn.Some?
      invariant 0 <= steps <= |es|
      invariant e == Follow(es, start, steps)
      decreases |es| - steps
    {
      steps := steps + 1;
      if steps > |es| { return true; }
      e := FindKey(es, es[e.value].dependsOn.value);
    }
    if TooLong(es, start) { FollowPrefix(es, start, steps + 1, |es| + 1); }
    return false;
  }
}
