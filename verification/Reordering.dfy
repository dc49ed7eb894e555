/** When the derived order does not depend on how the manifest is written. */
module Reordering {
  import opened Basics
  import opened Manifest
  import opened Order
  import opened OrderLaws
  import opened Sorting

  // ----- Two writings of one manifest -----

  /** The two manifests declare the same things, in whatever order. */
  ghost predicate SameDeclarations(es: seq<Entity>, fs: seq<Entity>) {
    multiset(es) == multiset(fs)
  }

  lemma DeclaredInBoth(es: seq<Entity>, fs: seq<Entity>, i: nat) returns (j: nat)
    requires SameDeclarations(es, fs) && i < |es|
    ensures j < |fs| && fs[j] == es[i]
  {
    assert es[i] in multiset(es);
    j :| 0 <= j < |fs| && fs[j] == es[i];
  }

  lemma SameLength(es: seq<Entity>, fs: seq<Entity>)
    requires SameDeclarations(es, fs)
    ensures |es| == |fs|
  {
    assert |multiset(es)| == |es| && |multiset(fs)| == |fs|;
  }

  lemma TwicePresent(fs: seq<Entity>, i: nat, j: nat)
    requires i < j < |fs| && fs[i] == fs[j]
    ensures multiset(fs)[fs[i]] >= 2
  {
    assert fs == fs[..j] + fs[j..];
    assert fs[i] in multiset(fs[..j]) by { assert fs[..j][i] == fs[i]; }
    assert fs[i] in multiset(fs[j..]) by { assert fs[j..][0] == fs[i]; }
  }

  lemma OncePresent(es: seq<Entity>, a: nat)
    requires UniqueKeysWithinKind(es) && a < |es|
    ensures multiset(es)[es[a]] == 1
  {
    assert es == es[..a] + [es[a]] + es[a + 1..];
    assert es[a] !in es[..a];
    assert es[a] !in es[a + 1..];
  }

  lemma OneOfAKind(es: seq<Entity>, a: nat, b: nat)
    requires UniqueKeysWithinKind(es) && a < |es| && b < |es| && es[a].kind == es[b].kind && es[a].key == es[b].key
    ensures a == b
  {
    assert !(a < b) && !(b < a);
  }

  lemma UniquenessIgnoresOrder(es: seq<Entity>, fs: seq<Entity>)
    requires SameDeclarations(es, fs) && UniqueKeysWithinKind(es)
    ensures UniqueKeysWithinKind(fs)
  {
    forall i, j | 0 <= i < j < |fs| && fs[i].kind == fs[j].kind ensures fs[i].key != fs[j].key {
      if fs[i].key == fs[j].key {
        var a := DeclaredInBoth(fs, es, i);
        var b := DeclaredInBoth(fs, es, j);
        OneOfAKind(es, a, b);
        TwicePresent(fs, i, j);
        OncePresent(es, a);
      }
    }
  }

  // ----- Depth, by what the names mean -----

  function OfKindFrom(es: seq<Entity>, key: string, kind: Kind, from: nat): (r: Option<nat>)
    requires from <= |es|
    ensures r.Some? ==> r.value < |es| && es[r.value].key == key && es[r.value].kind == kind
    ensures r.None? ==> forall j :: from <= j < |es| ==> !(es[j].key == key && es[j].kind == kind)
    decreases |es| - from
  {
    if from == |es| then None
    else if es[from].key == key && es[from].kind == kind then Some(from)
    else OfKindFrom(es, key, kind, from + 1)
  }

  /** The same-kind parent a declaration names, whatever else is declared under that key. */
  function Parent(es: seq<Entity>, i: nat): (r: Option<nat>)
    requires i < |es|
    ensures r.Some? ==> r.value < |es| && NamesParent(es, i, r.value)
    ensures r.None? ==> forall p :: 0 <= p < |es| ==> !NamesParent(es, i, p)
  {
    if es[i].dependsOn.None? then None else OfKindFrom(es, es[i].dependsOn.value, es[i].kind, 0)
  }

  /** How many parents a climb meets when no parent is found under the cut keys. */
  function Rise(es: seq<Entity>, cut: set<string>, i: nat, fuel: nat): nat
    requires i < |es|
    decreases fuel
  {
    if fuel == 0 || Parent(es, i).None? || es[i].dependsOn.value in cut then 0
    else 1 + Rise(es, cut, Parent(es, i).value, fuel - 1)
  }

  /** In this writing the key finds a declaration of another kind. */
  predicate Hidden(fs: seq<Entity>, key: string, kind: Kind) {
    FindKey(fs, key).Some? && fs[FindKey(fs, key).value].kind != kind
  }

  ghost function CutOf(fs: seq<Entity>, kind: Kind): (cut: set<string>)
    ensures forall key :: key in cut <==> Hidden(fs, key, kind)
  {
    set j | 0 <= j < |fs| && Hidden(fs, fs[j].key, kind) :: fs[j].key
  }

  /** A writing finds the parent that is named, or none when its key is hidden. */
  lemma ParentIsFound(es: seq<Entity>, fs: seq<Entity>, i: nat, j: nat)
    requires SameDeclarations(es, fs) && UniqueKeysWithinKind(es) && i < |es| && j < |fs| && es[i] == fs[j]
    ensures SameKindParent(fs, j).Some? <==> Parent(es, i).Some? && !Hidden(fs, es[i].dependsOn.value, es[i].kind)
    ensures SameKindParent(fs, j).Some? ==> fs[SameKindParent(fs, j).value] == es[Parent(es, i).value]
  {
    var p, q := SameKindParent(fs, j), Parent(es, i);
    if p.Some? {
      var q' := DeclaredInBoth(fs, es, p.value);
      assert NamesParent(es, i, q');
      OneOfAKind(es, q', q.value);
    } else if q.Some? {
      var h := DeclaredInBoth(es, fs, q.value);
      assert FindKey(fs, fs[h].key).Some?;
    }
  }

  lemma {:induction false} ClimbIsRise(es: seq<Entity>, fs: seq<Entity>, i: nat, j: nat, fuel: nat)
    requires SameDeclarations(es, fs) && UniqueKeysWithinKind(es) && i < |es| && j < |fs| && es[i] == fs[j]
    ensures Climb(fs, j, fuel) == Rise(es, CutOf(fs, es[i].kind), i, fuel)
    decreases fuel
  {
    ParentIsFound(es, fs, i, j);
    if fuel > 0 && SameKindParent(fs, j).Some? {
      ClimbIsRise(es, fs, Parent(es, i).value, SameKindParent(fs, j).value, fuel - 1);
    }
  }

  lemma DepthIsRise(es: seq<Entity>, fs: seq<Entity>, i: nat, j: nat)
    requires SameDeclarations(es, fs) && UniqueKeysWithinKind(es) && i < |es| && j < |fs| && es[i] == fs[j]
    ensures Depth(fs, j) == Rise(es, CutOf(fs, es[i].kind), i, |es| + 1)
  {
    SameLength(es, fs);
    var fuel := |fs| + 1;
    ClimbIsRise(es, fs, i, j, fuel);
    assert Depth(fs, j) == Climb(fs, j, fuel);
  }

  /** Only the keys that name a parent of this kind matter to a climb. */
  ghost predicate CutAlike(es: seq<Entity>, kind: Kind, cut: set<string>, other: set<string>) {
    forall x :: 0 <= x < |es| && es[x].kind == kind && Parent(es, x).Some? ==> (es[x].dependsOn.value in cut <==> es[x].dependsOn.value in other)
  }

  lemma {:induction false} RiseAlike(es: seq<Entity>, cut: set<string>, other: set<string>, i: nat, fuel: nat)
    requires i < |es| && CutAlike(es, es[i].kind, cut, other)
    ensures Rise(es, cut, i, fuel) == Rise(es, other, i, fuel)
    decreases fuel
  {
    if fuel > 0 && Parent(es, i).Some? && es[i].dependsOn.value !in cut { RiseAlike(es, cut, other, Parent(es, i).value, fuel - 1); }
  }

  // ----- Clear and unclear parents -----

  /** The key of the parent it names is also that of a declaration of another kind. */
  ghost predicate Unclear(es: seq<Entity>, i: nat)
    requires i < |es|
  {
    Parent(es, i).Some? && exists b :: 0 <= b < |es| && es[b].key == es[i].dependsOn.value && es[b].kind != es[i].kind
  }

  ghost predicate ClearParents(es: seq<Entity>) {
    forall i :: 0 <= i < |es| ==> !Unclear(es, i)
  }

  lemma HiddenIsUnclear(es: seq<Entity>, fs: seq<Entity>, x: nat)
    requires SameDeclarations(es, fs) && x < |es| && Parent(es, x).Some? && Hidden(fs, es[x].dependsOn.value, es[x].kind)
    ensures Unclear(es, x)
  {
    var b := DeclaredInBoth(fs, es, FindKey(fs, es[x].dependsOn.value).value);
  }

  /** Of one kind, where `x` and `y` go when the cut keys find no parent. */
  ghost predicate Earlier(es: seq<Entity>, cut: set<string>, x: nat, y: nat)
    requires x < |es| && y < |es|
  {
    var n := |es| + 1;
    KeyBefore(Rank(es[x].kind), Rise(es, cut, x, n), es[x].key, Rank(es[y].kind), Rise(es, cut, y, n), es[y].key)
  }

  lemma PrecedesIsEarlier(es: seq<Entity>, fs: seq<Entity>, x: nat, y: nat, c: nat, d: nat)
    requires SameDeclarations(es, fs) && UniqueKeysWithinKind(es) && x < |es| && y < |es| && c < |fs| && d < |fs|
    requires es[x] == fs[c] && es[y] == fs[d] && es[x].kind == es[y].kind
    ensures Precedes(fs, c, d) == Earlier(es, CutOf(fs, es[x].kind), x, y)
  {
    DepthIsRise(es, fs, x, c);
    DepthIsRise(es, fs, y, d);
  }

  lemma EarlierAlike(es: seq<Entity>, cut: set<string>, other: set<string>, x: nat, y: nat)
    requires x < |es| && y < |es| && es[x].kind == es[y].kind && CutAlike(es, es[x].kind, cut, other)
    ensures Earlier(es, cut, x, y) == Earlier(es, other, x, y)
  {
    RiseAlike(es, cut, other, x, |es| + 1);
    RiseAlike(es, cut, other, y, |es| + 1);
  }

  /**
   * Within each kind at most one parent is unclear, and its children's depths, counted with it and
   * without it, put every two declarations of the kind the same way round.
   */
  ghost predicate Steady(es: seq<Entity>) {
    && (forall x, y :: 0 <= x < |es| && 0 <= y < |es| && es[x].kind == es[y].kind && Unclear(es, x) && Unclear(es, y)
          ==> es[x].dependsOn == es[y].dependsOn)
    && (forall z :: 0 <= z < |es| && Unclear(es, z) ==> SameWayRound(es, z))
  }

  ghost predicate SameWayRound(es: seq<Entity>, z: nat)
    requires z < |es| && Parent(es, z).Some?
  {
    forall x, y :: 0 <= x < |es| && 0 <= y < |es| && es[x].kind == es[y].kind == es[z].kind
      ==> Earlier(es, {}, x, y) == Earlier(es, {es[z].dependsOn.value}, x, y)
  }

  lemma ClearIsSteady(es: seq<Entity>)
    requires ClearParents(es)
    ensures Steady(es)
  {
  }

  // ----- Steady manifests are stable -----

  ghost predicate Alike(es: seq<Entity>, fs: seq<Entity>) {
    forall a, b, c, d :: 0 <= a < |es| && 0 <= b < |es| && 0 <= c < |fs| && 0 <= d < |fs| && es[a] == fs[c] && es[b] == fs[d]
      ==> Precedes(es, a, b) == Precedes(fs, c, d)
  }

  lemma SteadyCut(es: seq<Entity>, fs: seq<Entity>, x: nat, y: nat)
    requires SameDeclarations(es, fs) && Steady(es) && x < |es| && y < |es| && es[x].kind == es[y].kind
    ensures Earlier(es, CutOf(fs, es[x].kind), x, y) == Earlier(es, {}, x, y)
  {
    var kind, cut := es[x].kind, CutOf(fs, es[x].kind);
    forall w | 0 <= w < |es| && es[w].kind == kind && Parent(es, w).Some? && es[w].dependsOn.value in cut ensures Unclear(es, w) {
      HiddenIsUnclear(es, fs, w);
    }
    if z :| 0 <= z < |es| && es[z].kind == kind && Parent(es, z).Some? && es[z].dependsOn.value in cut {
      EarlierAlike(es, cut, {es[z].dependsOn.value}, x, y);
      assert SameWayRound(es, z);
    } else {
      EarlierAlike(es, cut, {}, x, y);
    }
  }

  lemma SteadyIsAlike(es: seq<Entity>, fs: seq<Entity>)
    requires SameDeclarations(es, fs) && UniqueKeysWithinKind(es) && Steady(es)
    ensures Alike(es, fs)
  {
    forall a, b, c, d | 0 <= a < |es| && 0 <= b < |es| && 0 <= c < |fs| && 0 <= d < |fs| && es[a] == fs[c] && es[b] == fs[d]
      ensures Precedes(es, a, b) == Precedes(fs, c, d)
    {
      if es[a].kind == es[b].kind {
        PrecedesIsEarlier(es, es, a, b, a, b);
        PrecedesIsEarlier(es, fs, a, b, c, d);
        SteadyCut(es, es, a, b);
        SteadyCut(es, fs, a, b);
      } else {
        RanksDiffer(es[a].kind, es[b].kind);
      }
    }
  }

  lemma RanksDiffer(a: Kind, b: Kind)
    ensures Rank(a) == Rank(b) <==> a == b
  {
  }

  // ----- Only steady ones are -----

  function Only(es: seq<Entity>, kind: Kind, within: bool): (r: seq<Entity>)
    ensures forall j :: 0 <= j < |r| ==> (r[j].kind == kind) == within
  {
    if es == [] then [] else (if (es[0].kind == kind) == within then [es[0]] else []) + Only(es[1..], kind, within)
  }

  lemma OneMore<T>(x: T, a: seq<T>, b: seq<T>)
    ensures multiset([x] + a + b) == multiset{x} + multiset(a + b) && multiset(a + ([x] + b)) == multiset{x} + multiset(a + b)
  {
    assert [x] + a + b == [x] + (a + b);
    assert multiset(a + b) == multiset(a) + multiset(b);
    assert multiset(a + ([x] + b)) == multiset(a) + multiset([x] + b);
  }

  lemma OnlyUnfolds(es: seq<Entity>, kind: Kind)
    requires es != []
    ensures Only(es, kind, true) == (if es[0].kind == kind then [es[0]] else []) + Only(es[1..], kind, true)
    ensures Only(es, kind, false) == (if es[0].kind == kind then [] else [es[0]]) + Only(es[1..], kind, false)
  {
  }

  lemma Together(x: Entity, rest: seq<Entity>, a: seq<Entity>, b: seq<Entity>, front: bool)
    requires multiset(a + b) == multiset(rest)
    ensures multiset(((if front then [x] else []) + a) + ((if front then [] else [x]) + b)) == multiset([x] + rest)
  {
    OneMore(x, a, b);
    OneMore(x, rest, []);
    assert [x] + rest + [] == [x] + rest && rest + [] == rest && [] + a == a && [] + b == b;
  }

  lemma {:induction false} OnlySplits(es: seq<Entity>, kind: Kind)
    ensures multiset(Only(es, kind, true) + Only(es, kind, false)) == multiset(es)
    decreases |es|
  {
    if es != [] {
      OnlySplits(es[1..], kind);
      OnlyUnfolds(es, kind);
      Together(es[0], es[1..], Only(es[1..], kind, true), Only(es[1..], kind, false), es[0].kind == kind);
      assert es == [es[0]] + es[1..];
    }
  }

  lemma FoundAhead(ahead: seq<Entity>, rest: seq<Entity>, x: nat)
    requires x < |ahead|
    ensures FindKey(ahead + rest, ahead[x].key).Some? && FindKey(ahead + rest, ahead[x].key).value < |ahead|
  {
    assert (ahead + rest)[x].key == ahead[x].key;
  }

  /** A writing that hides nothing of one kind. */
  lemma KindFirst(es: seq<Entity>, kind: Kind) returns (fs: seq<Entity>)
    ensures SameDeclarations(es, fs)
    ensures forall x :: 0 <= x < |es| && es[x].kind == kind ==> !Hidden(fs, es[x].key, kind)
  {
    var ahead, rest := Only(es, kind, true), Only(es, kind, false);
    fs := ahead + rest;
    OnlySplits(es, kind);
    forall x | 0 <= x < |es| && es[x].kind == kind ensures !Hidden(fs, es[x].key, kind) {
      var j := DeclaredInBoth(es, fs, x);
      assert j < |ahead|;
      FoundAhead(ahead, rest, j);
    }
  }

  /** A writing that hides one key from one kind, and nothing else. */
  lemma OneFirst(es: seq<Entity>, b: nat, kind: Kind) returns (fs: seq<Entity>)
    requires b < |es| && es[b].kind != kind
    ensures SameDeclarations(es, fs) && Hidden(fs, es[b].key, kind)
    ensures forall x :: 0 <= x < |es| && es[x].kind == kind && es[x].key != es[b].key ==> !Hidden(fs, es[x].key, kind)
  {
    var others := es[..b] + es[b + 1..];
    var gs := KindFirst(others, kind);
    fs := [es[b]] + gs;
    assert es == es[..b] + [es[b]] + es[b + 1..];
    assert multiset(es) == multiset{es[b]} + multiset(others);
    FoundAhead([es[b]], gs, 0);
    forall x | 0 <= x < |es| && es[x].kind == kind && es[x].key != es[b].key ensures !Hidden(fs, es[x].key, kind) {
      var x' := if x < b then x else x - 1;
      assert others[x'] == es[x];
      assert !Hidden(gs, es[x].key, kind);
      FoundLater(es[b], gs, es[x].key);
    }
  }

  lemma FoundLater(e: Entity, gs: seq<Entity>, key: string)
    requires e.key != key
    ensures FindKey([e] + gs, key).Some? <==> FindKey(gs, key).Some?
    ensures FindKey(gs, key).Some? ==> FindKey([e] + gs, key).value == FindKey(gs, key).value + 1
  {
    var fs, r, q := [e] + gs, FindKey(gs, key), FindKey([e] + gs, key);
    if r.Some? { assert fs[r.value + 1].key == key; }
    if q.Some? { assert gs[q.value - 1].key == key; }
  }

  /** What a stable manifest's declarations do in any writing, they do in this one. */
  lemma StableEarlier(es: seq<Entity>, fs: seq<Entity>, cut: set<string>, x: nat, y: nat)
    requires SameDeclarations(es, fs) && UniqueKeysWithinKind(es) && Alike(es, fs)
    requires x < |es| && y < |es| && es[x].kind == es[y].kind && CutAlike(es, es[x].kind, CutOf(fs, es[x].kind), cut)
    ensures Earlier(es, cut, x, y) == Precedes(es, x, y)
  {
    var c := DeclaredInBoth(es, fs, x);
    var d := DeclaredInBoth(es, fs, y);
    PrecedesIsEarlier(es, fs, x, y, c, d);
    EarlierAlike(es, CutOf(fs, es[x].kind), cut, x, y);
  }

  /** With nothing hidden, and with the key of one unclear parent hidden: both can be written. */
  lemma BothWritings(es: seq<Entity>, z: nat, x: nat, y: nat)
    requires UniqueKeysWithinKind(es) && (forall fs :: SameDeclarations(es, fs) ==> Alike(es, fs))
    requires z < |es| && Unclear(es, z) && x < |es| && y < |es| && es[x].kind == es[y].kind == es[z].kind
    ensures Earlier(es, {}, x, y) == Precedes(es, x, y) == Earlier(es, {es[z].dependsOn.value}, x, y)
  {
    var kind := es[z].kind;
    var fs := KindFirst(es, kind);
    assert CutAlike(es, kind, CutOf(fs, kind), {}) by {
      forall w | 0 <= w < |es| && es[w].kind == kind && Parent(es, w).Some? ensures es[w].dependsOn.value !in CutOf(fs, kind) {
        assert !Hidden(fs, es[Parent(es, w).value].key, kind);
      }
    }
    StableEarlier(es, fs, {}, x, y);
    var b :| 0 <= b < |es| && es[b].key == es[z].dependsOn.value && es[b].kind != kind;
    var gs := OneFirst(es, b, kind);
    assert CutAlike(es, kind, CutOf(gs, kind), {es[z].dependsOn.value}) by {
      forall w | 0 <= w < |es| && es[w].kind == kind && Parent(es, w).Some?
        ensures es[w].dependsOn.value in CutOf(gs, kind) <==> es[w].dependsOn.value == es[z].dependsOn.value
      {
        assert es[Parent(es, w).value].key != es[b].key ==> !Hidden(gs, es[Parent(es, w).value].key, kind);
      }
    }
    StableEarlier(es, gs, {es[z].dependsOn.value}, x, y);
  }

  lemma AlikeIsSteady(es: seq<Entity>)
    requires UniqueKeysWithinKind(es) && forall fs :: SameDeclarations(es, fs) ==> Alike(es, fs)
    ensures Steady(es)
  {
    forall z | 0 <= z < |es| && Unclear(es, z) ensures SameWayRound(es, z) {
      forall x, y | 0 <= x < |es| && 0 <= y < |es| && es[x].kind == es[y].kind == es[z].kind
        ensures Earlier(es, {}, x, y) == Earlier(es, {es[z].dependsOn.value}, x, y)
      {
        BothWritings(es, z, x, y);
      }
    }
    forall x, y | 0 <= x < |es| && 0 <= y < |es| && es[x].kind == es[y].kind && Unclear(es, x) && Unclear(es, y)
      ensures es[x].dependsOn == es[y].dependsOn
    {
      if es[x].dependsOn != es[y].dependsOn {
        BothWritings(es, x, x, y);
        BothWritings(es, y, x, y);
      }
    }
  }

  // ----- Sequences -----

  ghost predicate SameSequence(es: seq<Entity>, ord: seq<nat>, fs: seq<Entity>, ord': seq<nat>)
    requires Permutation(ord, |es|) && Permutation(ord', |fs|)
  {
    |ord| == |ord'| && forall k :: 0 <= k < |ord| ==> es[ord[k]] == fs[ord'[k]]
  }

  /** The n-th declarations agree when all before them do. */
  lemma SameAt(es: seq<Entity>, fs: seq<Entity>, ord: seq<nat>, ord': seq<nat>, n: nat)
    requires SameDeclarations(es, fs) && Alike(es, fs) && UniqueKeysWithinKind(es) && UniqueKeysWithinKind(fs)
    requires DerivedOrder(es, ord) && DerivedOrder(fs, ord') && n < |ord| && n < |ord'|
    requires forall k :: 0 <= k < n ==> es[ord[k]] == fs[ord'[k]]
    ensures es[ord[n]] == fs[ord'[n]]
  {
    var x, y := ord[n], ord'[n];
    var x' := DeclaredInBoth(es, fs, x);
    var y' := DeclaredInBoth(fs, es, y);
    var q := PermutationHits(ord', |fs|, x');
    var p := PermutationHits(ord, |es|, y');
    PrecedesAsymmetric(fs);
    assert Precedes(es, x, y') == Precedes(fs, x', y);
    assert !(InOrderOf(fs)(y, x') && InOrderOf(fs)(x', y));
  }

  lemma {:induction false} SamePrefix(es: seq<Entity>, fs: seq<Entity>, ord: seq<nat>, ord': seq<nat>, n: nat)
    requires SameDeclarations(es, fs) && Alike(es, fs) && UniqueKeysWithinKind(es) && UniqueKeysWithinKind(fs)
    requires DerivedOrder(es, ord) && DerivedOrder(fs, ord') && n <= |ord| && n <= |ord'|
    ensures forall k :: 0 <= k < n ==> es[ord[k]] == fs[ord'[k]]
    decreases n
  {
    if n > 0 {
      SamePrefix(es, fs, ord, ord', n - 1);
      SameAt(es, fs, ord, ord', n - 1);
    }
  }

  /** Two writings come out in one sequence exactly when they order every two declarations alike. */
  lemma SequencesAgreeIff(es: seq<Entity>, fs: seq<Entity>, ord: seq<nat>, ord': seq<nat>)
    requires SameDeclarations(es, fs) && UniqueKeysWithinKind(es) && DerivedOrder(es, ord) && DerivedOrder(fs, ord')
    ensures SameSequence(es, ord, fs, ord') <==> Alike(es, fs)
  {
    SameLength(es, fs);
    UniquenessIgnoresOrder(es, fs);
    if Alike(es, fs) { SamePrefix(es, fs, ord, ord', |ord|); }
    if SameSequence(es, ord, fs, ord') {
      forall a, b, c, d | 0 <= a < |es| && 0 <= b < |es| && 0 <= c < |fs| && 0 <= d < |fs| && es[a] == fs[c] && es[b] == fs[d]
        ensures Precedes(es, a, b) == Precedes(fs, c, d)
      {
        SameSequenceOrders(es, fs, ord, ord', a, b, c, d);
      }
    }
  }

  lemma PlaceIs(es: seq<Entity>, fs: seq<Entity>, ord: seq<nat>, ord': seq<nat>, a: nat, c: nat) returns (p: nat)
    requires UniqueKeysWithinKind(fs) && Permutation(ord, |es|) && Permutation(ord', |fs|) && SameSequence(es, ord, fs, ord')
    requires a < |es| && c < |fs| && es[a] == fs[c]
    ensures p < |ord| && ord[p] == a && ord'[p] == c
  {
    p := PermutationHits(ord, |es|, a);
    OneOfAKind(fs, ord'[p], c);
  }

  lemma SameSequenceOrders(es: seq<Entity>, fs: seq<Entity>, ord: seq<nat>, ord': seq<nat>, a: nat, b: nat, c: nat, d: nat)
    requires UniqueKeysWithinKind(fs) && DerivedOrder(es, ord) && DerivedOrder(fs, ord') && SameSequence(es, ord, fs, ord')
    requires a < |es| && b < |es| && c < |fs| && d < |fs| && es[a] == fs[c] && es[b] == fs[d]
    ensures Precedes(es, a, b) == Precedes(fs, c, d)
  {
    var p := PlaceIs(es, fs, ord, ord', a, c);
    var q := PlaceIs(es, fs, ord, ord', b, d);
    PrecedesAsymmetric(es);
    PrecedesAsymmetric(fs);
    assert InOrderOf(es)(a, b) == Precedes(es, a, b) && InOrderOf(es)(b, a) == Precedes(es, b, a);
    assert InOrderOf(fs)(c, d) == Precedes(fs, c, d) && InOrderOf(fs)(d, c) == Precedes(fs, d, c);
  }

  /** Every strict total order can be sorted by. */
  lemma {:induction false} SortedExists(less: (nat, nat) -> bool, n: nat) returns (s: seq<nat>)
    requires StrictOrder(less, n)
    ensures Permutation(s, n) && Sorted(less, s, n)
    decreases n
  {
    if n == 0 {
      s := [];
    } else {
      var r := SortedExists(less, n - 1);
      var x, p := n - 1, 0;
      while p < |r| && less(r[p], x)
        invariant p <= |r| && forall k :: 0 <= k < p ==> less(r[k], x)
      {
        p := p + 1;
      }
      s := r[..p] + [x] + r[p..];
      InsertedIsSorted(less, r, x, p);
    }
  }

  lemma InsertedIsSorted(less: (nat, nat) -> bool, r: seq<nat>, x: nat, p: nat)
    requires x == |r| && StrictOrder(less, x + 1) && Permutation(r, x) && Sorted(less, r, x) && p <= |r|
    requires (forall k :: 0 <= k < p ==> less(r[k], x)) && (p < |r| ==> !less(r[p], x))
    ensures Permutation(r[..p] + [x] + r[p..], x + 1) && Sorted(less, r[..p] + [x] + r[p..], x + 1)
  {
    var s := r[..p] + [x] + r[p..];
    assert forall k :: 0 <= k < |s| ==> s[k] == if k < p then r[k] else if k == p then x else r[k - 1];
    forall k | p <= k < |r| ensures less(x, r[k]) {
      assert less(x, r[p]);
      if p < k { assert less(r[p], r[k]); }
    }
  }

  lemma DerivedOrderExists(es: seq<Entity>) returns (ord: seq<nat>)
    requires UniqueKeysWithinKind(es)
    ensures DerivedOrder(es, ord)
  {
    OrderIsStrict(es);
    ord := SortedExists(InOrderOf(es), |es|);
    assert forall a, b :: 0 <= a < b < |ord| ==> InOrderOf(es)(ord[a], ord[b]);
  }

  // ----- Exactly when -----

  /** However the declarations are written, they come out in one sequence. */
  ghost predicate Stable(es: seq<Entity>) {
    forall fs, ord, ord' :: SameDeclarations(es, fs) && DerivedOrder(es, ord) && DerivedOrder(fs, ord') ==> SameSequence(es, ord, fs, ord')
  }

  /**
   * A plan is stable exactly when the manifest is steady: a key shared across kinds does harm only
   * where it names a same-kind parent, and there only if it moves a child past a sibling.
   */
  lemma StableIff(es: seq<Entity>)
    requires UniqueKeysWithinKind(es)
    ensures Stable(es) <==> Steady(es)
  {
    if Steady(es) {
      forall fs, ord, ord' | SameDeclarations(es, fs) && DerivedOrder(es, ord) && DerivedOrder(fs, ord') ensures SameSequence(es, ord, fs, ord') {
        OrderIsStable(es, fs, ord, ord');
      }
    }
    if Stable(es) {
      forall fs | SameDeclarations(es, fs) ensures Alike(es, fs) {
        UniquenessIgnoresOrder(es, fs);
        var ord := DerivedOrderExists(es);
        var ord' := DerivedOrderExists(fs);
        SequencesAgreeIff(es, fs, ord, ord');
      }
      AlikeIsSteady(es);
    }
  }

  lemma OrderIsStable(es: seq<Entity>, fs: seq<Entity>, ord: seq<nat>, ord': seq<nat>)
    requires SameDeclarations(es, fs) && UniqueKeysWithinKind(es) && Steady(es)
    requires DerivedOrder(es, ord) && DerivedOrder(fs, ord')
    ensures |ord| == |ord'| && forall k :: 0 <= k < |ord| ==> es[ord[k]] == fs[ord'[k]]
  {
    SteadyIsAlike(es, fs);
    SequencesAgreeIff(es, fs, ord, ord');
  }

  ghost predicate DepthsStay(es: seq<Entity>) {
    forall fs, i, j :: SameDeclarations(es, fs) && 0 <= i < |es| && 0 <= j < |fs| && es[i] == fs[j] ==> Depth(es, i) == Depth(fs, j)
  }

  /** The depths themselves are the same in every writing exactly when no parent is unclear. */
  lemma DepthsStayIff(es: seq<Entity>)
    requires UniqueKeysWithinKind(es)
    ensures DepthsStay(es) <==> ClearParents(es)
  {
    if ClearParents(es) {
      forall fs, i, j | SameDeclarations(es, fs) && 0 <= i < |es| && 0 <= j < |fs| && es[i] == fs[j] ensures Depth(es, i) == Depth(fs, j) {
        ClearDepth(es, es, i, i);
        ClearDepth(es, fs, i, j);
      }
    }
    if DepthsStay(es) {
      forall z | 0 <= z < |es| ensures !Unclear(es, z) {
        if Unclear(es, z) { UnclearDepthMoves(es, z); }
      }
    }
  }

  lemma ClearDepth(es: seq<Entity>, fs: seq<Entity>, i: nat, j: nat)
    requires SameDeclarations(es, fs) && UniqueKeysWithinKind(es) && ClearParents(es) && i < |es| && j < |fs| && es[i] == fs[j]
    ensures Depth(fs, j) == Rise(es, {}, i, |es| + 1)
  {
    DepthIsRise(es, fs, i, j);
    forall w | 0 <= w < |es| && es[w].kind == es[i].kind && Parent(es, w).Some? ensures es[w].dependsOn.value !in CutOf(fs, es[i].kind) {
      if Hidden(fs, es[w].dependsOn.value, es[i].kind) { HiddenIsUnclear(es, fs, w); }
    }
    RiseAlike(es, CutOf(fs, es[i].kind), {}, i, |es| + 1);
  }

  lemma DepthInKindFirst(es: seq<Entity>, z: nat) returns (fs: seq<Entity>, j: nat)
    requires UniqueKeysWithinKind(es) && z < |es| && Parent(es, z).Some?
    ensures SameDeclarations(es, fs) && j < |fs| && fs[j] == es[z] && Depth(fs, j) > 0
  {
    fs := KindFirst(es, es[z].kind);
    j := DeclaredInBoth(es, fs, z);
    assert !Hidden(fs, es[Parent(es, z).value].key, es[z].kind);
    DepthIsRise(es, fs, z, j);
  }

  lemma DepthInOneFirst(es: seq<Entity>, z: nat, b: nat) returns (fs: seq<Entity>, j: nat)
    requires UniqueKeysWithinKind(es) && z < |es| && b < |es| && es[z].dependsOn == Some(es[b].key) && es[b].kind != es[z].kind
    ensures SameDeclarations(es, fs) && j < |fs| && fs[j] == es[z] && Depth(fs, j) == 0
  {
    fs := OneFirst(es, b, es[z].kind);
    j := DeclaredInBoth(es, fs, z);
    DepthIsRise(es, fs, z, j);
  }

  /** Written with its parent's kind first, a child of an unclear parent has a depth; written with the other first, none. */
  lemma UnclearDepthMoves(es: seq<Entity>, z: nat)
    requires UniqueKeysWithinKind(es) && z < |es| && Unclear(es, z)
    ensures !DepthsStay(es)
  {
    var fs, j := DepthInKindFirst(es, z);
    var b :| 0 <= b < |es| && es[b].key == es[z].dependsOn.value && es[b].kind != es[z].kind;
    var gs, k := DepthInOneFirst(es, z, b);
  }

  // ----- A key that collides across kinds -----

  /**
   * An unsteady manifest: a permission sharing the parent resource's key, and declared before it, puts
   * the child resource before its parent.
   */
  lemma CollidingKeysReorder() returns (es: seq<Entity>, fs: seq<Entity>)
    ensures SameDeclarations(es, fs) && UniqueKeysWithinKind(es) && UniqueKeysWithinKind(fs)
    ensures |es| == 3 && |fs| == 3 && fs[1] == es[0] && fs[2] == es[2]
    ensures NamesParent(es, 2, 0) && Precedes(es, 0, 2)
    ensures NamesParent(fs, 2, 1) && Precedes(fs, 2, 1)
  {
    var parent, permission := Plain(Resource, "x", None), Plain(Permission, "x", None);
    var child := Plain(Resource, "a", Some("x"));
    es, fs := [parent, permission, child], [permission, parent, child];
    assert FindKey(es, "x") == Some(0);
    assert FindKey(fs, "x") == Some(0);
    assert SameKindParent(es, 2) == Some(0) && SameKindParent(es, 0) == None;
    assert SameKindParent(fs, 2) == None && SameKindParent(fs, 1) == None;
    assert Climb(es, 0, 3) == 0 && Climb(es, 2, 4) == 1;
    assert Depth(fs, 2) == 0 && Depth(fs, 1) == 0;
    assert Before("a", "x");
  }
}
