/** The derived order of a manifest: by kind, then by depth under same-kind parents, then by key. */
module Order {
  import opened Basics
  import opened Manifest
  import opened Cycles
  import opened Sorting

  // ----- Depth -----

  function SameKindParent(es: seq<Entity>, i: nat): (r: Option<nat>)
    requires i < |es|
    ensures r.Some? ==> r.value < |es| && es[r.value].kind == es[i].kind && Next(es, i) == r
  {
    match Next(es, i)
    case None => None
    case Some(p) => if es[p].kind == es[i].kind then Some(p) else None
  }

  /** How many same-kind parents a climb of at most `fuel` steps meets. */
  function Climb(es: seq<Entity>, i: nat, fuel: nat): nat
    requires i < |es|
    decreases fuel
  {
    if fuel == 0 then 0
    else match SameKindParent(es, i)
      case None => 0
      case Some(p) => 1 + Climb(es, p, fuel - 1)
  }

  /** The guard of the climb lets it take one step more than there are declarations. */
  function Depth(es: seq<Entity>, i: nat): nat
    requires i < |es|
  {
    Climb(es, i, |es| + 1)
  }

  lemma {:induction false} FollowShifts(es: seq<Entity>, i: nat, n: nat)
    requires i < |es| && Next(es, i).Some?
    ensures Follow(es, i, n + 1) == Follow(es, Next(es, i).value, n)
  {
    assert Follow(es, i, 1) == Next(es, i) by { assert Follow(es, i, 0) == Some(i); }
    FollowAdds(es, i, 1, n);
    assert 1 + n == n + 1;
  }

  lemma {:induction false} CutClimbFollows(es: seq<Entity>, i: nat, fuel: nat)
    requires i < |es| && Climb(es, i, fuel) == fuel
    ensures Follow(es, i, fuel).Some?
    decreases fuel
  {
    if fuel > 0 {
      var p := SameKindParent(es, i).value;
      CutClimbFollows(es, p, fuel - 1);
      FollowShifts(es, i, fuel - 1);
    }
  }

  lemma {:induction false} ClimbStopsByItself(es: seq<Entity>, i: nat, fuel: nat)
    requires i < |es| && Climb(es, i, fuel) < fuel
    ensures Climb(es, i, fuel + 1) == Climb(es, i, fuel)
    decreases fuel
  {
    match SameKindParent(es, i)
    case None =>
    case Some(p) => ClimbStopsByItself(es, p, fuel - 1);
  }

  lemma {:induction false} ClimbWithinFuel(es: seq<Entity>, i: nat, fuel: nat)
    requires i < |es|
    ensures Climb(es, i, fuel) <= fuel
    decreases fuel
  {
    if fuel > 0 && SameKindParent(es, i).Some? { ClimbWithinFuel(es, SameKindParent(es, i).value, fuel - 1); }
  }

  lemma AcyclicClimbIsShort(es: seq<Entity>, i: nat)
    requires i < |es| && Acyclic(es)
    ensures Depth(es, i) <= |es|
  {
    ClimbWithinFuel(es, i, |es| + 1);
    if Climb(es, i, |es| + 1) == |es| + 1 {
      CutClimbFollows(es, i, |es| + 1);
      WalkDecidesAcyclicity(es);
      assert TooLong(es, i);
    }
  }

  /** On an acyclic manifest the guard never cuts a climb short: more fuel finds no more parents. */
  lemma {:induction false} GuardNeverCuts(es: seq<Entity>, i: nat, extra: nat)
    requires i < |es| && Acyclic(es)
    ensures Climb(es, i, |es| + 1 + extra) == Depth(es, i)
    decreases extra
  {
    AcyclicClimbIsShort(es, i);
    if extra > 0 {
      GuardNeverCuts(es, i, extra - 1);
      ClimbStopsByItself(es, i, |es| + 1 + (extra - 1));
    }
  }

  lemma ChildIsDeeper(es: seq<Entity>, i: nat)
    requires i < |es| && Acyclic(es) && SameKindParent(es, i).Some?
    ensures Depth(es, i) == Depth(es, SameKindParent(es, i).value) + 1
  {
    GuardNeverCuts(es, i, 1);
  }

  method DepthOf(es: seq<Entity>, start: nat) returns (depth: nat)
    requires start < |es|
    ensures depth == Depth(es, start)
  {
    depth := 0;
    var guard := 0;
    var e: nat := start;
    while guard <= |es| && es[e].dependsOn.Some?
      invariant e < |es|
      invariant 0 <= guard <= |es| + 1
      invariant depth == guard
      invariant Depth(es, start) == depth + Climb(es, e, |es| + 1 - guard)
      decreases |es| + 1 - guard
    {
      guard := guard + 1;
      var parent := FindKey(es, es[e].dependsOn.value);
      if parent.None? || es[parent.value].kind != es[e].kind { return; }
      depth := depth + 1;
      e := parent.value;
    }
  }

  // ----- The order -----

  predicate KeyBefore(rankA: nat, depthA: nat, keyA: string, rankB: nat, depthB: nat, keyB: string) {
    rankA < rankB || (rankA == rankB && (depthA < depthB || (depthA == depthB && Before(keyA, keyB))))
  }

  predicate Precedes(es: seq<Entity>, a: nat, b: nat)
    requires a < |es| && b < |es|
  {
    KeyBefore(Rank(es[a].kind), Depth(es, a), es[a].key, Rank(es[b].kind), Depth(es, b), es[b].key)
  }

  lemma PrecedesTransitive(es: seq<Entity>, a: nat, b: nat, c: nat)
    requires a < |es| && b < |es| && c < |es| && Precedes(es, a, b) && Precedes(es, b, c)
    ensures Precedes(es, a, c)
  {
    if Before(es[a].key, es[b].key) && Before(es[b].key, es[c].key) {
      BeforeTransitive(es[a].key, es[b].key, es[c].key);
    }
  }

  lemma PrecedesTotal(es: seq<Entity>, a: nat, b: nat)
    requires a < |es| && b < |es| && a != b && UniqueKeysWithinKind(es)
    ensures Precedes(es, a, b) || Precedes(es, b, a)
  {
    BeforeTotal(es[a].key, es[b].key);
    assert es[a].kind == es[b].kind ==> es[a].key != es[b].key;
  }

  /** The order as a relation on indices. */
  function InOrderOf(es: seq<Entity>): (nat, nat) -> bool {
    (a: nat, b: nat) => a < |es| && b < |es| && Precedes(es, a, b)
  }

  lemma OrderIsStrict(es: seq<Entity>)
    requires UniqueKeysWithinKind(es)
    ensures StrictOrder(InOrderOf(es), |es|)
  {
    var less := InOrderOf(es);
    forall a: nat, b: nat, c: nat | a < |es| && b < |es| && c < |es| && less(a, b) && less(b, c) ensures less(a, c) {
      PrecedesTransitive(es, a, b, c);
    }
    forall a: nat, b: nat | a < |es| && b < |es| && a != b ensures less(a, b) || less(b, a) {
      PrecedesTotal(es, a, b);
    }
  }

  /** The result of order_entities(): every declaration once, strictly in order. */
  ghost predicate DerivedOrder(es: seq<Entity>, ord: seq<nat>) {
    Permutation(ord, |es|) && forall a, b :: 0 <= a < b < |ord| ==> Precedes(es, ord[a], ord[b])
  }

  /** order_entities(): the in-place insertion sort. */
  method OrderEntities(es: seq<Entity>, out: array<nat>)
    requires out.Length == |es| && UniqueKeysWithinKind(es)
    modifies out
    ensures DerivedOrder(es, out[..])
  {
    for k := 0 to out.Length
      invariant forall p :: 0 <= p < k ==> out[p] == p
    {
      out[k] := k;
    }
    OrderIsStrict(es);
    ghost var less := InOrderOf(es);
    if out.Length == 0 { return; }
    for i := 1 to out.Length
      invariant Permutation(out[..], |es|)
      invariant Sorted(less, out[..], i)
    {
      InsertAt(es, out, i);
    }
    assert forall a, b :: 0 <= a < b < out.Length ==> less(out[..][a], out[..][b]);
  }

  /** One outer iteration: slide the i-th declaration left past everything that comes after it. */
  method InsertAt(es: seq<Entity>, out: array<nat>, i: nat)
    requires out.Length == |es| && StrictOrder(InOrderOf(es), |es|) && 1 <= i < out.Length
    requires Permutation(out[..], |es|) && Sorted(InOrderOf(es), out[..], i)
    modifies out
    ensures Permutation(out[..], |es|) && Sorted(InOrderOf(es), out[..], i + 1)
  {
    ghost var less := InOrderOf(es);
    var key: nat := out[i];
    var j: nat := i;
    ghost var s: seq<nat> := out[..];
    assert s[i := key] == s;
    SlideStarts(less, s, i, key);
    while j > 0
      invariant s == out[..] && |s| == |es| && Sliding(less, s, i, j, key) && key < |es|
    {
      var prev := out[j - 1];
      assert s[j := key][j - 1] == prev < |es|;
      if !Precedes(es, key, prev) { break; }
      SlideStep(less, s, i, j, key);
      out[j] := out[j - 1];
      s := s[j := s[j - 1]];
      j := j - 1;
    }
    SlideEnds(less, s, i, j, key);
    out[j] := key;
    assert out[..] == s[j := key];
  }
}
