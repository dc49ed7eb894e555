/** The run's invariant across role bindings. */
module TrackingBindings {
  import opened Manifest
  import opened Directory
  import opened Planning
  import opened Order
  import opened Sorting
  import opened Validate
  import opened Rebinding
  import opened Wire
  import opened Applying
  import opened RebindOutcomes
  import opened Tracking
  import opened Runs

  /** An id resolved through the running plan is the server's. */
  lemma ResolvedIsTrue(es: seq<Entity>, ord: seq<nat>, planned: seq<Change>, cs: seq<Change>, d: Directory, n: nat, i: nat)
    requires UniqueKeysWithinKind(es) && DerivedOrder(es, ord) && EntitiesOnTrack(es, ord, planned, cs, d, n)
    requires i < |es| && FoundInPlan(es, i)
    ensures Refers(es, cs)
    ensures Resolved(es, cs, es[i].key).Some? ==> Resolved(es, cs, es[i].key) == IdOf(es[i], d)
  {
    FindsOwnChange(es, ord, cs, i);
    var k := FindChange(es, cs, es[i].key, 0).value;
    if k < n { assert EntityDone(es[ord[k]], d, cs[k]); } else { assert EntityToDo(es[ord[k]], d, planned[k]); }
  }

  /** The three ids a binding's writes carry, as the run resolves them, are the server's. */
  lemma PartiesAreTrue(es: seq<Entity>, ord: seq<nat>, planned: seq<Change>, cs: seq<Change>, d: Directory, n: nat, ref: BindingRef)
    requires UsableManifest(es) && DerivedOrder(es, ord) && EntitiesOnTrack(es, ord, planned, cs, d, n) && ValidRef(es, ref)
    ensures Refers(es, cs)
    ensures var rb := es[ref.subject].roles[ref.binding];
      var s, r, q := Resolved(es, cs, es[ref.subject].key), Resolved(es, cs, rb.roleKey), ResolvedOption(es, cs, rb.resourceKey);
      && (s.Some? ==> s == SubjectId(es, d, ref))
      && (r.Some? ==> r == RoleId(es, d, ref))
      && (q.Some? || rb.resourceKey.None? ==> q == ResourceId(es, d, ref))
  {
    assert BindingAccepted(es, ref) && KeysMeant(es, ref);
    var rb := es[ref.subject].roles[ref.binding];
    ResolvedIsTrue(es, ord, planned, cs, d, n, ref.subject);
    ResolvedIsTrue(es, ord, planned, cs, d, n, RoleOf(es, ref));
    if rb.resourceKey.Some? { ResolvedIsTrue(es, ord, planned, cs, d, n, FindKey(es, rb.resourceKey.value).value); }
  }

  lemma IdIsIssued(e: Entity, d: Directory)
    requires WellFormed(d)
    ensures IdOf(e, d).Some? ==> IdOf(e, d).value < d.nextId
  {
    if IdOf(e, d).Some? { var at := IdIsARow(e, d); }
  }

  lemma HoldingKeepsWellFormed(d: Directory, subject: Id, role: Id, a: Assignment)
    requires WellFormed(d) && subject < d.nextId && role < d.nextId && (a.resource.Some? ==> a.resource.value < d.nextId)
    ensures WellFormed(WithHeld(d, subject, role, a)) && WellFormed(WithoutHeld(d, subject, role))
    ensures DiffersAtHeld(d, WithHeld(d, subject, role, a), subject, role)
    ensures DiffersAtHeld(d, WithoutHeld(d, subject, role), subject, role)
  {
    var w, o := WithHeld(d, subject, role, a), WithoutHeld(d, subject, role);
    assert forall k :: RowsOf(w, k) == RowsOf(d, k) && RowsOf(o, k) == RowsOf(d, k);
  }

  /** What any write to one (subject, role) leaves unmoved. */
  ghost predicate OthersUnmoved(es: seq<Entity>, d: Directory, d': Directory, ref: BindingRef) {
    && (forall i :: 0 <= i < |es| ==> DecideOn(es[i], d') == DecideOn(es[i], d))
    && (forall other :: ValidRef(es, other) && other != ref ==> BindingNow(es, d', other) == BindingNow(es, d, other))
  }

  lemma HeldWriteLeavesOthers(es: seq<Entity>, d: Directory, d': Directory, ref: BindingRef)
    requires UsableManifest(es) && WellFormed(d) && WellFormed(d') && RolesSeen(es, d) && ValidRef(es, ref)
    requires SubjectId(es, d, ref).Some? && RoleId(es, d, ref).Some?
    requires DiffersAtHeld(d, d', SubjectId(es, d, ref).value, RoleId(es, d, ref).value)
    ensures OthersUnmoved(es, d, d', ref)
  {
    forall i | 0 <= i < |es| ensures DecideOn(es[i], d') == DecideOn(es[i], d) {
      HeldWriteLeavesEntities(es[i], d, d');
    }
    forall other | ValidRef(es, other) && other != ref ensures BindingNow(es, d', other) == BindingNow(es, d, other) {
      HeldWriteLeavesBindings(es, d, d', ref, other);
    }
  }

  /** The directory with the declared binding in place, keeping a scope. */
  ghost function Bound(es: seq<Entity>, d: Directory, ref: BindingRef, scope: seq<string>): Directory
    requires ValidRef(es, ref) && SubjectId(es, d, ref).Some? && RoleId(es, d, ref).Some?
  {
    WithHeld(d, SubjectId(es, d, ref).value, RoleId(es, d, ref).value,
             Assignment(ResourceId(es, d, ref), !es[ref.subject].roles[ref.binding].inheritFalse, scope))
  }

  ghost predicate PartiesKnown(es: seq<Entity>, d: Directory, ref: BindingRef)
    requires ValidRef(es, ref)
  {
    && SubjectId(es, d, ref).Some? && RoleId(es, d, ref).Some?
    && (es[ref.subject].roles[ref.binding].resourceKey.Some? ==> ResourceId(es, d, ref).Some?)
  }

  lemma PartiesAreIssued(es: seq<Entity>, d: Directory, ref: BindingRef)
    requires UsableManifest(es) && WellFormed(d) && RolesSeen(es, d) && ValidRef(es, ref) && PartiesKnown(es, d, ref)
    ensures SubjectId(es, d, ref).value < d.nextId && RoleId(es, d, ref).value < d.nextId
    ensures ResourceId(es, d, ref).Some? ==> ResourceId(es, d, ref).value < d.nextId
  {
    assert BindingAccepted(es, ref);
    var rb := es[ref.subject].roles[ref.binding];
    IdIsIssued(es[ref.subject], d);
    IdIsIssued(es[RoleOf(es, ref)], d);
    if rb.resourceKey.Some? { IdIsIssued(es[FindKey(es, rb.resourceKey.value).value], d); }
  }

  lemma IdsUnmoved(es: seq<Entity>, d: Directory, d': Directory, ref: BindingRef)
    requires ValidRef(es, ref) && forall i :: 0 <= i < |es| ==> DecideOn(es[i], d') == DecideOn(es[i], d)
    ensures SubjectId(es, d', ref) == SubjectId(es, d, ref) && RoleId(es, d', ref) == RoleId(es, d, ref)
    ensures ResourceId(es, d', ref) == ResourceId(es, d, ref)
  {
  }

  /** Putting the declared binding in place moves nothing else. */
  lemma BoundMovesOne(es: seq<Entity>, d: Directory, ref: BindingRef, scope: seq<string>)
    requires UsableManifest(es) && WellFormed(d) && RolesSeen(es, d) && ValidRef(es, ref) && PartiesKnown(es, d, ref)
    ensures var d' := Bound(es, d, ref, scope); WellFormed(d') && OthersUnmoved(es, d, d', ref) && d'.rows == d.rows
  {
    var d' := Bound(es, d, ref, scope);
    PartiesAreIssued(es, d, ref);
    HoldingKeepsWellFormed(d, SubjectId(es, d, ref).value, RoleId(es, d, ref).value,
                           Assignment(ResourceId(es, d, ref), !es[ref.subject].roles[ref.binding].inheritFalse, scope));
    HeldWriteLeavesOthers(es, d, d', ref);
  }

  lemma BoundSettles(es: seq<Entity>, d: Directory, ref: BindingRef, scope: seq<string>)
    requires UsableManifest(es) && WellFormed(d) && RolesSeen(es, d) && ValidRef(es, ref) && PartiesKnown(es, d, ref)
    ensures var d' := Bound(es, d, ref, scope);
      && WellFormed(d') && OthersUnmoved(es, d, d', ref) && d'.rows == d.rows
      && BindingNow(es, d', ref).action == Unchanged
  {
    BoundMovesOne(es, d, ref, scope);
    IdsUnmoved(es, d, Bound(es, d, ref, scope), ref);
    SettledIffHeld(es, Bound(es, d, ref, scope), ref);
  }

  /** What the plan recorded as the old binding is what the server holds. */
  lemma PlannedIsRecorded(es: seq<Entity>, w: World, ref: BindingRef)
    requires UsableManifest(es) && WellFormed(w.dir) && RolesSeen(es, w.dir) && ValidRef(es, ref) && PartiesKnown(es, w.dir, ref)
    ensures var pb := BindingNow(es, w.dir, ref);
      var s, r := SubjectId(es, w.dir, ref).value, RoleId(es, w.dir, ref).value;
      && (pb.action == Update ==> Recorded(w, s, r, pb))
      && (pb.action == Create <==> (s, r) !in w.dir.held)
  {
    ExistingIsHeld(es, w.dir, ref);
  }

  /** A binding written without a failure is in place, and nothing else moved. */
  lemma WrittenIsBound(es: seq<Entity>, w: World, ref: BindingRef, script: Script)
    requires UsableManifest(es) && WellFormed(w.dir) && RolesSeen(es, w.dir) && ValidRef(es, ref) && PartiesKnown(es, w.dir, ref)
    requires BindingNow(es, w.dir, ref).action != Unchanged
    ensures var pb := BindingNow(es, w.dir, ref);
      var b := WriteBinding(w, SubjectId(es, w.dir, ref).value, RoleId(es, w.dir, ref).value, ResourceId(es, w.dir, ref),
                            !es[ref.subject].roles[ref.binding].inheritFalse, pb, script);
      b.world.net == w.net && (b.ok ==> b.world.dir == Bound(es, w.dir, ref, pb.oldScope))
  {
    var pb := BindingNow(es, w.dir, ref);
    var s, r := SubjectId(es, w.dir, ref).value, RoleId(es, w.dir, ref).value;
    var inherit := !es[ref.subject].roles[ref.binding].inheritFalse;
    PlannedIsRecorded(es, w, ref);
    if pb.action == Update {
      RebindLeavesOneOfThree(w, s, r, ResourceId(es, w.dir, ref), inherit, pb, script);
    } else {
      AssignStores(w, s, r, ResourceId(es, w.dir, ref), inherit, pb.oldScope, script(|w.trace|));
    }
  }

  lemma EntitiesUnmoved(es: seq<Entity>, ord: seq<nat>, planned: seq<Change>, cs: seq<Change>, d: Directory, d': Directory, n: nat)
    requires Permutation(ord, |es|) && EntitiesOnTrack(es, ord, planned, cs, d, n)
    requires d'.rows == d.rows && forall i :: 0 <= i < |es| ==> DecideOn(es[i], d') == DecideOn(es[i], d)
    ensures EntitiesOnTrack(es, ord, planned, cs, d', n)
  {
    forall p | 0 <= p < n ensures EntityDone(es[ord[p]], d', cs[p]) { assert EntityDone(es[ord[p]], d, cs[p]); }
    forall p | n <= p < |ord| ensures EntityToDo(es[ord[p]], d', planned[p]) { assert EntityToDo(es[ord[p]], d, planned[p]); }
  }

  lemma AdvanceBindings(es: seq<Entity>, planned: seq<PlannedBinding>, d: Directory, d': Directory, n: nat)
    requires RefsValid(es) && BindingsOnTrack(es, planned, d, n) && n < |BindingRefs(es)|
    requires OthersUnmoved(es, d, d', BindingRefs(es)[n]) && BindingNow(es, d', BindingRefs(es)[n]).action == Unchanged
    ensures BindingsOnTrack(es, planned, d', n + 1)
  {
    var refs := BindingRefs(es);
    forall b | 0 <= b < |refs| && b != n ensures BindingNow(es, d', refs[b]) == BindingNow(es, d, refs[b]) {
      assert ValidRef(es, refs[b]) && refs[b] != refs[n];
    }
  }

  /** The parties of a binding that a step did not give up on. */
  lemma StepKnowsParties(m: Manifest, ord: seq<nat>, plan: Plan, r: Run, script: Script)
    requires UsableManifest(m.entities) && DerivedOrder(m.entities, ord) && OnTrack(m.entities, ord, plan, r)
    requires r.stop == Running && r.binding < |plan.bindings| && BindingReady(m, plan, r) && RolesDone(m.entities, ord, r.entity)
    requires StepBinding(m, plan, r, script).stop != Unresolved && plan.bindings[r.binding].action != Unchanged
    ensures var es, d, ref := m.entities, r.world.dir, BindingRefs(m.entities)[r.binding]; var pb := plan.bindings[r.binding];
      && RolesSeen(es, d) && PartiesKnown(es, d, ref) && pb == BindingNow(es, d, ref) && pb.ref == ref
      && var b := WriteBinding(r.world, SubjectId(es, d, ref).value, RoleId(es, d, ref).value, ResourceId(es, d, ref),
                               !es[ref.subject].roles[ref.binding].inheritFalse, pb, script);
         && StepBinding(m, plan, r, script).world == b.world
         && (StepBinding(m, plan, r, script).stop == Running <==> b.ok)
  {
    var es, d, ref := m.entities, r.world.dir, BindingRefs(m.entities)[r.binding];
    DoneRolesAreSeen(es, ord, plan.changes, r.changes, d, r.entity);
    PartiesAreTrue(es, ord, plan.changes, r.changes, d, r.entity, ref);
  }

  /** A step that carries on has put the declared binding in place. */
  lemma StepBinds(m: Manifest, ord: seq<nat>, plan: Plan, r: Run, script: Script)
    requires UsableManifest(m.entities) && DerivedOrder(m.entities, ord) && OnTrack(m.entities, ord, plan, r)
    requires r.stop == Running && r.binding < |plan.bindings| && BindingReady(m, plan, r) && RolesDone(m.entities, ord, r.entity)
    requires StepBinding(m, plan, r, script).stop == Running
    ensures var es, d, ref := m.entities, r.world.dir, BindingRefs(m.entities)[r.binding]; var pb := plan.bindings[r.binding];
      var d' := StepBinding(m, plan, r, script).world.dir;
      && WellFormed(d') && d'.rows == d.rows && OthersUnmoved(es, d, d', ref)
      && BindingNow(es, d', ref).action == Unchanged
  {
    var es, d, ref := m.entities, r.world.dir, BindingRefs(m.entities)[r.binding];
    var pb := plan.bindings[r.binding];
    assert BindingNow(es, d, ref) == pb;
    if pb.action != Unchanged {
      StepKnowsParties(m, ord, plan, r, script);
      WrittenIsBound(es, r.world, ref, script);
      BoundSettles(es, d, ref, pb.oldScope);
    }
  }

  lemma AdvanceRun(es: seq<Entity>, ord: seq<nat>, plan: Plan, r: Run, r': Run)
    requires Permutation(ord, |es|) && OnTrack(es, ord, plan, r) && r.binding < |plan.bindings|
    requires r'.changes == r.changes && r'.entity == r.entity && r'.binding == r.binding + 1
    requires WellFormed(r'.world.dir) && r'.world.dir.rows == r.world.dir.rows
    requires OthersUnmoved(es, r.world.dir, r'.world.dir, BindingRefs(es)[r.binding])
    requires BindingNow(es, r'.world.dir, BindingRefs(es)[r.binding]).action == Unchanged
    ensures OnTrack(es, ord, plan, r')
  {
    AdvanceBindings(es, plan.bindings, r.world.dir, r'.world.dir, r.binding);
    EntitiesUnmoved(es, ord, plan.changes, r.changes, r.world.dir, r'.world.dir, r.entity);
  }

  lemma StepBindingKeepsTrack(m: Manifest, ord: seq<nat>, plan: Plan, r: Run, script: Script)
    requires UsableManifest(m.entities) && DerivedOrder(m.entities, ord) && OnTrack(m.entities, ord, plan, r)
    requires r.stop == Running && r.binding < |plan.bindings| && BindingReady(m, plan, r) && RolesDone(m.entities, ord, r.entity)
    ensures StepBinding(m, plan, r, script).stop == Running ==> OnTrack(m.entities, ord, plan, StepBinding(m, plan, r, script))
  {
    var r' := StepBinding(m, plan, r, script);
    if r'.stop == Running {
      StepBinds(m, ord, plan, r, script);
      BindingFields(m, plan, r, script);
      AdvanceRun(m.entities, ord, plan, r, r');
    }
  }
}
