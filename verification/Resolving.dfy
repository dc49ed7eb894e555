/** Manifest keys to server ids: when the two lookups agree, and why no binding is ever left unresolved. */
module Resolving {
  import opened Basics
  import opened Manifest
  import opened Planning
  import opened Cycles
  import opened Order
  import opened OrderLaws
  import opened Validate
  import opened Rebinding
  import opened Wire
  import opened Applying
  import opened Runs

  ghost predicate InOrder(es: seq<Entity>, ord: seq<nat>, cs: seq<Change>) {
    DerivedOrder(es, ord) && |cs| == |ord| && forall p :: 0 <= p < |ord| ==> cs[p].entity == ord[p]
  }

  /**
   * Both lookups ignore the kind: the validation takes the first declaration under a key, an apply
   * the first planned change.  They name the same declaration exactly when the first declared is of
   * the least kind among all under that key.
   */
  lemma LookupsAgreeIff(es: seq<Entity>, ord: seq<nat>, cs: seq<Change>, key: string)
    requires UniqueKeysWithinKind(es) && InOrder(es, ord, cs) && FindKey(es, key).Some?
    ensures Refers(es, cs) && FindChange(es, cs, key, 0).Some?
    ensures cs[FindChange(es, cs, key, 0).value].entity == FindKey(es, key).value
       <==> FoundInPlan(es, FindKey(es, key).value)
  {
    var i := FindKey(es, key).value;
    var p := PermutationHits(ord, |es|, i);
    assert es[cs[p].entity].key == key;
    var k := FindChange(es, cs, key, 0).value;
    forall j | 0 <= j < |es| && es[j].key == key ensures Rank(es[ord[k]].kind) <= Rank(es[j].kind) {
      var q := PermutationHits(ord, |es|, j);
      assert es[cs[q].entity].key == key;
      if k < q { assert Precedes(es, ord[k], ord[q]); }
    }
  }

  /** Two entities of different kinds under one key: the manifest is accepted, and a group's role resolves to a resource. */
  lemma CollidingKeysMisresolve() returns (es: seq<Entity>, ord: seq<nat>, cs: seq<Change>, ref: BindingRef)
    ensures EntitiesAccepted(es) && InOrder(es, ord, cs) && ValidRef(es, ref)
    ensures var key := es[ref.subject].roles[ref.binding].roleKey;
      && NamesKind(es, key, Role) && Refers(es, cs) && FindChange(es, cs, key, 0).Some?
      && es[cs[FindChange(es, cs, key, 0).value].entity].kind == Resource
  {
    var role, resource := Plain(Role, "x", None), Plain(Resource, "x", None);
    var group := Plain(Group, "g", None).(roles := [RoleBinding("x", None, false)]);
    es, ord := [role, resource, group], [1, 0, 2];
    cs := [Change(1, Create, None), Change(0, Create, None), Change(2, Create, None)];
    ref := BindingRef(2, 0);
    assert FindKey(es, "x") == Some(0);
    forall i, n: nat | 0 <= i < |es| ensures !OnCycle(es, i, n) { NoDependencyNoCycle(es, i, n); }
    assert forall r :: ValidRef(es, r) ==> r == ref;
    assert BoundOnce(es, ref);
  }

  lemma {:induction false} NoDependencyNoCycle(es: seq<Entity>, i: nat, n: nat)
    requires i < |es| && forall j :: 0 <= j < |es| ==> es[j].dependsOn.None?
    ensures !OnCycle(es, i, n) && (n > 0 ==> Follow(es, i, n).None?)
    decreases n
  {
    if n > 0 { NoDependencyNoCycle(es, i, n - 1); }
  }

  // ----- Nothing is left unresolved -----

  /** Every successful create answers with a body, and so with an id. */
  ghost predicate BodiesAlways(script: Script) {
    forall n: nat :: script(n) != AcceptBare
  }

  /** Everything done has a known id. */
  ghost predicate IdsKnown(r: Run) {
    r.entity <= |r.changes| && forall p :: 0 <= p < r.entity ==> r.changes[p].id.Some?
  }

  /** A planned change that is not a create knows its id already. */
  ghost predicate PlannedIdsKnown(plan: Plan) {
    forall p :: 0 <= p < |plan.changes| && plan.changes[p].action != Create ==> plan.changes[p].id.Some?
  }

  ghost predicate Resolvable(es: seq<Entity>, ord: seq<nat>, plan: Plan, r: Run) {
    && InOrder(es, ord, r.changes) && |r.changes| == |plan.changes| && IdsKnown(r)
    && (forall p :: r.entity <= p < |r.changes| ==> r.changes[p] == plan.changes[p])
  }

  lemma StepEntityKeepsResolvable(m: Manifest, ord: seq<nat>, plan: Plan, r: Run, script: Script)
    requires Resolvable(m.entities, ord, plan, r) && PlannedIdsKnown(plan) && BodiesAlways(script)
    requires EntityReady(m, r) && r.stop == Running
    ensures Resolvable(m.entities, ord, plan, StepEntity(m, r, script))
    ensures StepEntity(m, r, script).stop != Unresolved
  {
    assert script(|r.world.trace|) != AcceptBare;
    assert r.changes[r.entity] == plan.changes[r.entity];
  }

  /** The first change under a key comes no later than any other, so its id is known as soon as one is. */
  lemma KnownKeyResolves(es: seq<Entity>, ord: seq<nat>, plan: Plan, r: Run, i: nat)
    requires Resolvable(es, ord, plan, r) && i < |es|
    requires exists p :: 0 <= p < r.entity && ord[p] == i
    ensures Refers(es, r.changes) && Resolved(es, r.changes, es[i].key).Some?
  {
    var p :| 0 <= p < r.entity && ord[p] == i;
    assert es[r.changes[p].entity].key == es[i].key;
    var k := FindChange(es, r.changes, es[i].key, 0).value;
    assert k <= p;
  }

  /** In the derived order everything but service accounts comes before the first service account. */
  lemma AccountsComeLast(es: seq<Entity>, ord: seq<nat>, cs: seq<Change>, i: nat) returns (p: nat)
    requires InOrder(es, ord, cs) && Refers(es, cs) && i < |es| && es[i].kind != ServiceAccount
    ensures p < FirstAccount(es, cs, 0) && p < |ord| && ord[p] == i
  {
    p := PermutationHits(ord, |es|, i);
    var k := FirstAccount(es, cs, 0);
  }

  lemma EarlyKeyResolves(es: seq<Entity>, ord: seq<nat>, plan: Plan, r: Run, key: string, kind: Kind)
    requires Resolvable(es, ord, plan, r) && NamesKind(es, key, kind) && kind != ServiceAccount
    requires Refers(es, r.changes) && r.entity >= FirstAccount(es, r.changes, 0)
    ensures Resolved(es, r.changes, key).Some?
  {
    var i := FindKey(es, key).value;
    var p := AccountsComeLast(es, ord, r.changes, i);
    KnownKeyResolves(es, ord, plan, r, i);
  }

  lemma SubjectResolves(es: seq<Entity>, ord: seq<nat>, plan: Plan, r: Run, i: nat)
    requires Resolvable(es, ord, plan, r) && i < |es|
    requires Refers(es, r.changes) && r.entity >= FirstAccount(es, r.changes, 0)
    requires es[i].kind == ServiceAccount ==> r.entity == |r.changes|
    ensures Resolved(es, r.changes, es[i].key).Some?
  {
    if es[i].kind != ServiceAccount {
      var p := AccountsComeLast(es, ord, r.changes, i);
    } else {
      var p := PermutationHits(ord, |es|, i);
    }
    KnownKeyResolves(es, ord, plan, r, i);
  }

  ghost predicate PartiesResolve(es: seq<Entity>, cs: seq<Change>, ref: BindingRef)
    requires Refers(es, cs) && ValidRef(es, ref)
  {
    var rb := es[ref.subject].roles[ref.binding];
    && Resolved(es, cs, es[ref.subject].key).Some? && Resolved(es, cs, rb.roleKey).Some?
    && (rb.resourceKey.Some? ==> ResolvedOption(es, cs, rb.resourceKey).Some?)
  }

  lemma UnresolvedIff(m: Manifest, plan: Plan, r: Run, script: Script)
    requires BindingReady(m, plan, r) && r.stop == Running && Refers(m.entities, r.changes)
    ensures StepBinding(m, plan, r, script).stop == Unresolved
       <==> plan.bindings[r.binding].action != Unchanged && !PartiesResolve(m.entities, r.changes, plan.bindings[r.binding].ref)
  {
  }

  /** What a binding needs has been written by the time the binding is. */
  lemma PartiesAreWritten(es: seq<Entity>, ord: seq<nat>, plan: Plan, r: Run, ref: BindingRef)
    requires EntitiesAccepted(es) && Resolvable(es, ord, plan, r) && ValidRef(es, ref)
    requires Refers(es, r.changes) && r.entity >= FirstAccount(es, r.changes, 0)
    requires es[ref.subject].kind == ServiceAccount ==> r.entity == |r.changes|
    ensures PartiesResolve(es, r.changes, ref)
  {
    assert BindingAccepted(es, ref);
    var rb := es[ref.subject].roles[ref.binding];
    EarlyKeyResolves(es, ord, plan, r, rb.roleKey, Role);
    if rb.resourceKey.Some? { EarlyKeyResolves(es, ord, plan, r, rb.resourceKey.value, Resource); }
    SubjectResolves(es, ord, plan, r, ref.subject);
  }

  /** Before the network phase: nothing is ever left unresolved. */
  ghost predicate BoundSoFar(es: seq<Entity>, ord: seq<nat>, plan: Plan, r: Run) {
    Resolvable(es, ord, plan, r) && r.stop != Unresolved
  }

  /** A run past what its bindings need, in a phase that changes no id. */
  ghost predicate BindingsReady(m: Manifest, ord: seq<nat>, plan: Plan, cs: seq<Change>, e: nat, x: Run) {
    BoundSoFar(m.entities, ord, plan, x) && x.changes == cs && x.entity == e
  }

  lemma StepBindingResolves(m: Manifest, ord: seq<nat>, plan: Plan, cs: seq<Change>, e: nat, x: Run, script: Script)
    requires EntitiesAccepted(m.entities) && Runnable(m, plan, x) && BindingsReady(m, ord, plan, cs, e, x)
    requires x.stop == Running && x.binding < |plan.bindings| && e >= FirstAccount(m.entities, cs, 0)
    requires e < |cs| ==> m.entities[plan.bindings[x.binding].ref.subject].kind != ServiceAccount
    ensures BindingsReady(m, ord, plan, cs, e, StepBinding(m, plan, x, script))
  {
    PartiesAreWritten(m.entities, ord, plan, x, plan.bindings[x.binding].ref);
    UnresolvedIff(m, plan, x, script);
    BindingFields(m, plan, x, script);
  }

  lemma BindingPhaseResolves(m: Manifest, ord: seq<nat>, plan: Plan, r: Run, bound: nat, script: Script)
    requires EntitiesAccepted(m.entities) && Runnable(m, plan, r) && bound <= |plan.bindings|
    requires BoundSoFar(m.entities, ord, plan, r)
    requires r.stop == Running ==> r.entity >= FirstAccount(m.entities, r.changes, 0)
    requires r.stop == Running && r.entity < |r.changes| ==>
      forall b :: 0 <= b < bound ==> m.entities[plan.bindings[b].ref.subject].kind != ServiceAccount
    ensures BoundSoFar(m.entities, ord, plan, RunBindings(m, plan, r, bound, script))
  {
    if r.stop == Running {
      var inv := (x: Run) => BindingsReady(m, ord, plan, r.changes, r.entity, x);
      forall x: Run | Runnable(m, plan, x) && inv(x) && x.stop == Running && x.binding < bound
        ensures inv(StepBinding(m, plan, x, script))
      {
        StepBindingResolves(m, ord, plan, r.changes, r.entity, x, script);
      }
      RunBindingsKeeps(m, plan, r, bound, script, inv);
    }
  }

  lemma SameFirstAccount(es: seq<Entity>, ord: seq<nat>, cs: seq<Change>, ds: seq<Change>)
    requires InOrder(es, ord, cs) && InOrder(es, ord, ds) && Refers(es, cs) && Refers(es, ds)
    ensures FirstAccount(es, cs, 0) == FirstAccount(es, ds, 0)
  {
    var k, l := FirstAccount(es, cs, 0), FirstAccount(es, ds, 0);
  }

  lemma EntityPhaseResolves(m: Manifest, ord: seq<nat>, plan: Plan, r: Run, bound: nat, script: Script)
    requires PlannedIdsKnown(plan) && BodiesAlways(script) && Runnable(m, plan, r) && bound <= |plan.changes|
    requires BoundSoFar(m.entities, ord, plan, r)
    ensures var r' := RunEntities(m, plan, r, bound, script);
      BoundSoFar(m.entities, ord, plan, r') && (r'.stop == Running ==> r'.entity >= bound)
  {
    var inv := (x: Run) => BoundSoFar(m.entities, ord, plan, x);
    forall x: Run | Runnable(m, plan, x) && inv(x) && x.stop == Running && x.entity < bound
      ensures inv(StepEntity(m, x, script))
    {
      StepEntityKeepsResolvable(m, ord, plan, x, script);
    }
    RunEntitiesKeeps(m, plan, r, bound, script, inv);
  }

  /**
   * For an accepted manifest and answers that carry their bodies, no role binding ever fails for want
   * of an id.  A key shared across kinds may resolve to another object's id, but never to none.
   */
  lemma BindingsNeverUnresolved(m: Manifest, ord: seq<nat>, plan: Plan, w: World, script: Script)
    requires EntitiesAccepted(m.entities) && InOrder(m.entities, ord, plan.changes) && Fits(m, plan)
    requires PlannedIdsKnown(plan) && BodiesAlways(script)
    ensures RunIdentity(m, plan, w, script).stop != Unresolved
  {
    var es := m.entities;
    var accounts, accountBindings := FirstAccount(es, plan.changes, 0), FirstAccountBinding(es, plan.bindings, 0);
    var r1 := RunEntities(m, plan, Start(plan, w), accounts, script);
    EntityPhaseResolves(m, ord, plan, Start(plan, w), accounts, script);
    SameFirstAccount(es, ord, plan.changes, r1.changes);
    var r2 := RunBindings(m, plan, r1, accountBindings, script);
    BindingPhaseResolves(m, ord, plan, r1, accountBindings, script);
    var r3 := RunEntities(m, plan, r2, |plan.changes|, script);
    EntityPhaseResolves(m, ord, plan, r2, |plan.changes|, script);
    BindingPhaseResolves(m, ord, plan, r3, |plan.bindings|, script);
  }
}
