/** What the derived order is for: parents first, and one sequence. */
module OrderLaws {
  import opened Basics
  import opened Manifest
  import opened Cycles
  import opened Order
  import opened Sorting

  ghost predicate Comes(ord: seq<nat>, a: nat, b: nat) {
    exists p, q :: 0 <= p < q < |ord| && ord[p] == a && ord[q] == b
  }

  lemma PermutationHits(s: seq<nat>, n: nat, x: nat) returns (p: nat)
    requires Permutation(s, n) && x < n
    ensures p < n && s[p] == x
  {
    if x in s {
      p :| 0 <= p < n && s[p] == x;
    } else {
      DistinctBelow(s + [x], n);
    }
  }

  ghost predicate Asymmetric(less: (nat, nat) -> bool, n: nat) {
    forall a: nat, b: nat :: a < n && b < n && less(a, b) ==> !less(b, a)
  }

  lemma SortedAt(less: (nat, nat) -> bool, a: seq<nat>, b: seq<nat>, n: nat)
    requires Permutation(a, |a|) && Permutation(b, |a|) && Sorted(less, a, |a|) && Sorted(less, b, |a|) && Asymmetric(less, |a|)
    requires n < |a| && forall k :: 0 <= k < n ==> a[k] == b[k]
    ensures a[n] == b[n]
  {
    var p := PermutationHits(a, |a|, b[n]);
    var q := PermutationHits(b, |a|, a[n]);
  }

  lemma {:induction false} SortedPrefix(less: (nat, nat) -> bool, a: seq<nat>, b: seq<nat>, n: nat)
    requires Permutation(a, |a|) && Permutation(b, |a|) && Sorted(less, a, |a|) && Sorted(less, b, |a|) && Asymmetric(less, |a|)
    requires n <= |a|
    ensures forall k :: 0 <= k < n ==> a[k] == b[k]
    decreases n
  {
    if n > 0 {
      SortedPrefix(less, a, b, n - 1);
      SortedAt(less, a, b, n - 1);
    }
  }

  /** A strict order puts the indices in one sequence. */
  lemma SortedIsUnique(less: (nat, nat) -> bool, a: seq<nat>, b: seq<nat>)
    requires Permutation(a, |a|) && Permutation(b, |a|) && Sorted(less, a, |a|) && Sorted(less, b, |a|) && Asymmetric(less, |a|)
    ensures a == b
  {
    SortedPrefix(less, a, b, |a|);
  }

  lemma PrecedesAsymmetric(es: seq<Entity>)
    ensures Asymmetric(InOrderOf(es), |es|)
  {
    forall a: nat, b: nat | a < |es| && b < |es| && Precedes(es, a, b) ensures !Precedes(es, b, a) {
      if Precedes(es, b, a) {
        PrecedesTransitive(es, a, b, a);
        BeforeIrreflexive(es[a].key);
      }
    }
  }

  /** There is one derived order, whatever keys are shared: a plan cannot depend on how it was sorted. */
  lemma DerivedOrderIsUnique(es: seq<Entity>, a: seq<nat>, b: seq<nat>)
    requires DerivedOrder(es, a) && DerivedOrder(es, b)
    ensures a == b
  {
    PrecedesAsymmetric(es);
    SortedIsUnique(InOrderOf(es), a, b);
  }

  /** The place in the order and the order relation say the same. */
  lemma ComesIffPrecedes(es: seq<Entity>, ord: seq<nat>, a: nat, b: nat)
    requires DerivedOrder(es, ord) && a < |es| && b < |es|
    ensures Comes(ord, a, b) <==> Precedes(es, a, b)
  {
    var p := PermutationHits(ord, |es|, a);
    var q := PermutationHits(ord, |es|, b);
    if Precedes(es, a, b) {
      if p == q {
        BeforeIrreflexive(es[a].key);
      } else if q < p {
        PrecedesTransitive(es, a, b, a);
        BeforeIrreflexive(es[a].key);
      }
    }
  }

  /** Five blocks: resources, permissions, roles, groups, service accounts. */
  lemma KindsComeInBlocks(es: seq<Entity>, ord: seq<nat>, a: nat, b: nat)
    requires DerivedOrder(es, ord) && a < b < |ord|
    ensures var x, y := es[ord[a]].kind, es[ord[b]].kind;
      match y
      case Resource => x == Resource
      case Permission => x == Resource || x == Permission
      case Role => x == Resource || x == Permission || x == Role
      case Group => x != ServiceAccount
      case ServiceAccount => true
  {
    assert Precedes(es, ord[a], ord[b]);
  }

  /** With keys unique within a kind, at most one declaration of the child's own kind is meant. */
  ghost predicate NamesParent(es: seq<Entity>, child: nat, parent: nat)
    requires child < |es| && parent < |es|
  {
    es[child].dependsOn == Some(es[parent].key) && es[parent].kind == es[child].kind
  }

  /**
   * When a parent is put before its child.  The key is looked up across kinds, so a declaration of
   * another kind under the same key, written earlier, hides the parent; the child then counts as a
   * root, and comes after its parent only if the parent is a root with a smaller key.
   */
  lemma ParentBeforeChildIff(es: seq<Entity>, ord: seq<nat>, child: nat, parent: nat)
    requires UniqueKeysWithinKind(es) && Acyclic(es) && DerivedOrder(es, ord)
    requires child < |es| && parent < |es| && NamesParent(es, child, parent)
    ensures Comes(ord, parent, child)
       <==> FindKey(es, es[parent].key) == Some(parent)
            || (Depth(es, parent) == 0 && Before(es[parent].key, es[child].key))
  {
    ComesIffPrecedes(es, ord, parent, child);
    var hit := FindKey(es, es[parent].key);
    if hit == Some(parent) {
      ChildIsDeeper(es, child);
    } else {
      assert SameKindParent(es, child).None?;
    }
  }

  function Plain(kind: Kind, key: string, dependsOn: Option<string>): Entity {
    Entity(kind, key, Some(key), None, "folder", Some(key), false, None, [], dependsOn)
  }
}
