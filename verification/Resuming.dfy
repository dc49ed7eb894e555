/**
 * Where a run can stop, and why running again is the recovery: at whatever call it stopped, every
 * other entity and binding is either settled or would be planned exactly as before.
 */
module Resuming {
  import opened Basics
  import opened Manifest
  import opened Directory
  import opened Planning
  import opened Settling
  import opened Order
  import opened Sorting
  import opened OrderLaws
  import opened Rebinding
  import opened Wire
  import opened Applying
  import opened RebindOutcomes
  import opened Tracking
  import opened TrackingBindings
  import opened Runs
  import opened Growth

  ghost predicate EntitiesResume(es: seq<Entity>, ord: seq<nat>, planned: seq<Change>, cs: seq<Change>, d: Directory, n: nat)
    requires Permutation(ord, |es|)
  {
    && |cs| == |planned| == |ord| && n <= |ord|
    && (forall p :: 0 <= p < n ==> cs[p].entity == ord[p] && EntityDone(es[ord[p]], d, cs[p]))
    && (forall p :: n < p < |ord| ==> EntityToDo(es[ord[p]], d, planned[p]))
    && (n < |ord| ==> EntityToDo(es[ord[n]], d, planned[n])
                      || DecideOn(es[ord[n]], d) == Decided(SettledAction(es[ord[n]]), IdOf(es[ord[n]], d)))
  }

  ghost predicate BindingsResume(es: seq<Entity>, planned: seq<PlannedBinding>, d: Directory, n: nat)
    requires RefsValid(es)
  {
    var refs := BindingRefs(es);
    && |planned| == |refs| && n <= |refs|
    && (forall b :: 0 <= b < n ==> BindingNow(es, d, refs[b]).action == Unchanged)
    && (forall b :: n < b < |refs| ==> BindingNow(es, d, refs[b]) == planned[b])
    && (n < |refs| ==> BindingNow(es, d, refs[n]) == planned[n] || BindingNow(es, d, refs[n]).action != Update)
  }

  ghost predicate Resumable(es: seq<Entity>, ord: seq<nat>, plan: Plan, r: Run)
    requires Permutation(ord, |es|)
  {
    && RefsValid(es) && WellFormed(r.world.dir)
    && EntitiesResume(es, ord, plan.changes, r.changes, r.world.dir, r.entity)
    && BindingsResume(es, plan.bindings, r.world.dir, r.binding)
  }

  lemma OnTrackResumes(es: seq<Entity>, ord: seq<nat>, plan: Plan, r: Run)
    requires Permutation(ord, |es|) && OnTrack(es, ord, plan, r)
    ensures Resumable(es, ord, plan, r)
  {
  }

  // ----- Stopping at an entity -----

  lemma SettledEntityResumes(es: seq<Entity>, ord: seq<nat>, plan: Plan, r: Run, r': Run, id: Id)
    requires Permutation(ord, |es|) && OnTrack(es, ord, plan, r) && r.entity < |ord|
    requires Settles(es, ord, r.world.dir, r'.world.dir, r.entity, id)
    requires r'.changes == r.changes && r'.entity == r.entity && r'.binding == r.binding
    ensures Resumable(es, ord, plan, r')
  {
    AdvanceEntities(es, ord, plan.changes, r.changes, r.world.dir, r'.world.dir, r.entity,
                    Change(ord[r.entity], Unchanged, None), id);
    BindingsUnmoved(es, plan.bindings, r.world.dir, r'.world.dir, r.binding);
    var cs := r.changes[r.entity := Change(ord[r.entity], Unchanged, None)];
    assert forall p :: 0 <= p < r.entity ==> cs[p] == r.changes[p];
    assert EntityDone(es[ord[r.entity]], r'.world.dir, cs[r.entity]);
  }

  lemma StepEntityResumes(m: Manifest, ord: seq<nat>, plan: Plan, r: Run, script: Script)
    requires UsableManifest(m.entities) && DerivedOrder(m.entities, ord) && OnTrack(m.entities, ord, plan, r)
    requires r.stop == Running && r.entity < |ord| && EntityReady(m, r) && RoomForOne(m.entities, r.changes[r.entity], r.world.dir)
    ensures StepEntity(m, r, script).stop != Running ==> Resumable(m.entities, ord, plan, StepEntity(m, r, script))
  {
    var es, k, d, r' := m.entities, r.entity, r.world.dir, StepEntity(m, r, script);
    if r'.stop != Running {
      var e, c := es[ord[k]], r.changes[k];
      assert EntityToDo(e, d, c);
      DecisionShape(e, d);
      var call := EntityCall(es, r.changes, k);
      if script(|r.world.trace|) == Refuse || !Allowed(r.world, call) {
        OnTrackResumes(es, ord, plan, r);
      } else if c.action == Create {
        CreateWriteSettles(es, ord, d, k, ResolvedOption(es, r.changes, e.dependsOn));
        SettledEntityResumes(es, ord, plan, r, r', d.nextId);
      } else {
        UpdateWriteSettles(es, ord, d, k, c.id.value);
        SettledEntityResumes(es, ord, plan, r, r', c.id.value);
      }
    }
  }

  // ----- Stopping at a binding -----

  /** The directory after a binding write that did not succeed. */
  lemma FailedBindingLeaves(es: seq<Entity>, w: World, ref: BindingRef, script: Script)
    requires UsableManifest(es) && WellFormed(w.dir) && RolesSeen(es, w.dir) && ValidRef(es, ref) && PartiesKnown(es, w.dir, ref)
    requires BindingNow(es, w.dir, ref).action != Unchanged
    ensures var pb := BindingNow(es, w.dir, ref);
      var s, r := SubjectId(es, w.dir, ref).value, RoleId(es, w.dir, ref).value;
      var d' := WriteBinding(w, s, r, ResourceId(es, w.dir, ref), !es[ref.subject].roles[ref.binding].inheritFalse, pb, script).world.dir;
      d' == w.dir || d' == Bound(es, w.dir, ref, pb.oldScope) || d' == WithoutHeld(w.dir, s, r)
  {
    var pb := BindingNow(es, w.dir, ref);
    var s, r := SubjectId(es, w.dir, ref).value, RoleId(es, w.dir, ref).value;
    var inherit := !es[ref.subject].roles[ref.binding].inheritFalse;
    PlannedIsRecorded(es, w, ref);
    if pb.action == Update {
      RebindLeavesOneOfThree(w, s, r, ResourceId(es, w.dir, ref), inherit, pb, script);
    } else {
      AssignStores(w, s, r, ResourceId(es, w.dir, ref), inherit, pb.oldScope, script(|w.trace|));
    }
  }

  lemma UnboundWouldCreate(es: seq<Entity>, d: Directory, ref: BindingRef)
    requires UsableManifest(es) && WellFormed(d) && RolesSeen(es, d) && ValidRef(es, ref) && PartiesKnown(es, d, ref)
    ensures var d' := WithoutHeld(d, SubjectId(es, d, ref).value, RoleId(es, d, ref).value);
      && WellFormed(d') && d'.rows == d.rows && OthersUnmoved(es, d, d', ref)
      && BindingNow(es, d', ref).action == Create
  {
    var s, r := SubjectId(es, d, ref).value, RoleId(es, d, ref).value;
    var d' := WithoutHeld(d, s, r);
    PartiesAreIssued(es, d, ref);
    HoldingKeepsWellFormed(d, s, r, Assignment(None, true, []));
    HeldWriteLeavesOthers(es, d, d', ref);
    assert forall k :: RowsOf(d', k) == RowsOf(d, k);
    IdsUnmoved(es, d, d', ref);
    ExistingIsHeld(es, d', ref);
  }

  lemma BindingsResumeAfter(es: seq<Entity>, planned: seq<PlannedBinding>, d: Directory, d': Directory, n: nat)
    requires RefsValid(es) && BindingsOnTrack(es, planned, d, n) && n < |planned|
    requires OthersUnmoved(es, d, d', BindingRefs(es)[n]) && BindingNow(es, d', BindingRefs(es)[n]).action != Update
    ensures BindingsResume(es, planned, d', n)
  {
    var refs := BindingRefs(es);
    forall b | 0 <= b < |refs| && b != n ensures BindingNow(es, d', refs[b]) == BindingNow(es, d, refs[b]) {
      assert ValidRef(es, refs[b]) && refs[b] != refs[n];
    }
  }

  lemma EntitiesResumeAfter(es: seq<Entity>, ord: seq<nat>, planned: seq<Change>, cs: seq<Change>, d: Directory, n: nat)
    requires Permutation(ord, |es|) && EntitiesOnTrack(es, ord, planned, cs, d, n)
    ensures EntitiesResume(es, ord, planned, cs, d, n)
  {
  }

  lemma MovedBindingResumes(es: seq<Entity>, ord: seq<nat>, plan: Plan, r: Run, r': Run)
    requires Permutation(ord, |es|) && OnTrack(es, ord, plan, r) && r.binding < |plan.bindings|
    requires r'.changes == r.changes && r'.entity == r.entity && r'.binding == r.binding
    requires WellFormed(r'.world.dir) && r'.world.dir.rows == r.world.dir.rows
    requires OthersUnmoved(es, r.world.dir, r'.world.dir, BindingRefs(es)[r.binding])
    requires BindingNow(es, r'.world.dir, BindingRefs(es)[r.binding]).action != Update
    ensures Resumable(es, ord, plan, r')
  {
    EntitiesUnmoved(es, ord, plan.changes, r.changes, r.world.dir, r'.world.dir, r.entity);
    EntitiesResumeAfter(es, ord, plan.changes, r.changes, r'.world.dir, r.entity);
    BindingsResumeAfter(es, plan.bindings, r.world.dir, r'.world.dir, r.binding);
  }

  /** What a failed binding write moved, if anything. */
  lemma FailedStepMoves(m: Manifest, ord: seq<nat>, plan: Plan, r: Run, script: Script)
    requires UsableManifest(m.entities) && DerivedOrder(m.entities, ord) && OnTrack(m.entities, ord, plan, r)
    requires r.stop == Running && r.binding < |plan.bindings| && BindingReady(m, plan, r) && RolesDone(m.entities, ord, r.entity)
    requires StepBinding(m, plan, r, script).stop == CallFailed
    ensures var es, d, d', ref := m.entities, r.world.dir, StepBinding(m, plan, r, script).world.dir, BindingRefs(m.entities)[r.binding];
      d' == d || (WellFormed(d') && d'.rows == d.rows && OthersUnmoved(es, d, d', ref) && BindingNow(es, d', ref).action != Update)
  {
    var es, d, ref := m.entities, r.world.dir, BindingRefs(m.entities)[r.binding];
    StepKnowsParties(m, ord, plan, r, script);
    FailedBindingLeaves(es, r.world, ref, script);
    BoundSettles(es, d, ref, plan.bindings[r.binding].oldScope);
    UnboundWouldCreate(es, d, ref);
  }

  lemma UnmovedResumes(es: seq<Entity>, ord: seq<nat>, plan: Plan, r: Run, r': Run)
    requires Permutation(ord, |es|) && OnTrack(es, ord, plan, r)
    requires r'.changes == r.changes && r'.entity == r.entity && r'.binding == r.binding && r'.world.dir == r.world.dir
    ensures Resumable(es, ord, plan, r')
  {
    OnTrackResumes(es, ord, plan, r);
  }

  lemma UnresolvedMovesNothing(m: Manifest, plan: Plan, r: Run, script: Script)
    requires BindingReady(m, plan, r) && r.stop == Running
    ensures StepBinding(m, plan, r, script).stop == Unresolved ==> StepBinding(m, plan, r, script).world == r.world
  {
  }

  lemma StepBindingResumes(m: Manifest, ord: seq<nat>, plan: Plan, r: Run, script: Script)
    requires UsableManifest(m.entities) && DerivedOrder(m.entities, ord) && OnTrack(m.entities, ord, plan, r)
    requires r.stop == Running && r.binding < |plan.bindings| && BindingReady(m, plan, r) && RolesDone(m.entities, ord, r.entity)
    ensures StepBinding(m, plan, r, script).stop != Running ==> Resumable(m.entities, ord, plan, StepBinding(m, plan, r, script))
  {
    var r' := StepBinding(m, plan, r, script);
    BindingFields(m, plan, r, script);
    if r'.stop == Unresolved {
      UnresolvedMovesNothing(m, plan, r, script);
      UnmovedResumes(m.entities, ord, plan, r, r');
    } else if r'.stop == CallFailed {
      FailedStepMoves(m, ord, plan, r, script);
      if r'.world.dir == r.world.dir { UnmovedResumes(m.entities, ord, plan, r, r'); }
      else { MovedBindingResumes(m.entities, ord, plan, r, r'); }
    }
  }

  // ----- Whole phases -----

  /** Where a run stands: it can be resumed, and while it is running it is on track. */
  ghost predicate Sound(es: seq<Entity>, ord: seq<nat>, plan: Plan, r: Run)
    requires Permutation(ord, |es|)
  {
    Resumable(es, ord, plan, r) && (r.stop == Running ==> OnTrack(es, ord, plan, r))
  }

  lemma StepEntityIsSound(m: Manifest, ord: seq<nat>, plan: Plan, r: Run, script: Script)
    requires UsableManifest(m.entities) && DerivedOrder(m.entities, ord) && Sound(m.entities, ord, plan, r)
    requires r.stop == Running && r.entity < |ord| && EntityReady(m, r) && RoomForOne(m.entities, r.changes[r.entity], r.world.dir)
    ensures Sound(m.entities, ord, plan, StepEntity(m, r, script))
  {
    StepEntityKeepsTrack(m, ord, plan, r, script);
    StepEntityResumes(m, ord, plan, r, script);
    if StepEntity(m, r, script).stop == Running { OnTrackResumes(m.entities, ord, plan, StepEntity(m, r, script)); }
  }

  lemma StepBindingIsSound(m: Manifest, ord: seq<nat>, plan: Plan, r: Run, script: Script)
    requires UsableManifest(m.entities) && DerivedOrder(m.entities, ord) && Sound(m.entities, ord, plan, r)
    requires r.stop == Running && r.binding < |plan.bindings| && BindingReady(m, plan, r) && RolesDone(m.entities, ord, r.entity)
    ensures Sound(m.entities, ord, plan, StepBinding(m, plan, r, script))
  {
    StepBindingKeepsTrack(m, ord, plan, r, script);
    StepBindingResumes(m, ord, plan, r, script);
    if StepBinding(m, plan, r, script).stop == Running { OnTrackResumes(m.entities, ord, plan, StepBinding(m, plan, r, script)); }
  }

  /** The plan made on a directory: every entity decided, every binding planned on the same read. */
  ghost predicate PlannedOn(es: seq<Entity>, ord: seq<nat>, d: Directory, plan: Plan)
    requires DerivedOrder(es, ord) && RefsValid(es)
  {
    && EverythingDecidable(es, d)
    && plan.changes == ChangesOn(es, ord, d)
    && plan.bindings == BindingsOn(es, plan.changes, d, BindingRefs(es))
  }

  lemma EntitiesStartOnTrack(es: seq<Entity>, ord: seq<nat>, d: Directory, planned: seq<Change>)
    requires DerivedOrder(es, ord) && EverythingDecidable(es, d) && planned == ChangesOn(es, ord, d)
    ensures EntitiesOnTrack(es, ord, planned, planned, d, 0)
  {
    forall p | 0 <= p < |ord| ensures planned[p].entity == ord[p] && EntityToDo(es[ord[p]], d, planned[p]) {
      assert DecideOn(es[ord[p]], d).Decided?;
    }
  }

  lemma BindingsStartOnTrack(es: seq<Entity>, ord: seq<nat>, d: Directory, planned: seq<PlannedBinding>)
    requires UsableManifest(es) && DerivedOrder(es, ord) && RefsValid(es)
    requires planned == BindingsOn(es, ChangesOn(es, ord, d), d, BindingRefs(es))
    ensures BindingsOnTrack(es, planned, d, 0)
  {
    var refs := BindingRefs(es);
    forall b | 0 <= b < |refs| ensures BindingNow(es, d, refs[b]) == planned[b] && planned[b].ref == refs[b] {
      PlanBindingIsNow(es, ord, d, refs[b]);
    }
  }

  lemma StartsOnTrack(es: seq<Entity>, ord: seq<nat>, w: World, plan: Plan)
    requires UsableManifest(es) && DerivedOrder(es, ord) && WellFormed(w.dir)
    requires RefsValid(es) && PlannedOn(es, ord, w.dir, plan)
    ensures Sound(es, ord, plan, Start(plan, w))
  {
    EntitiesStartOnTrack(es, ord, w.dir, plan.changes);
    BindingsStartOnTrack(es, ord, w.dir, plan.bindings);
    OnTrackResumes(es, ord, plan, Start(plan, w));
  }

  lemma PlansFit(m: Manifest, ord: seq<nat>, d: Directory, plan: Plan)
    requires DerivedOrder(m.entities, ord) && RefsValid(m.entities) && PlannedOn(m.entities, ord, d, plan)
    requires forall k :: 0 <= k < |plan.network| ==> ItemFits(m, plan.network[k])
    ensures Fits(m, plan)
  {
    ChangesFit(m.entities, ord, d, plan.changes);
    BindingsFit(m.entities, plan.changes, d, plan.bindings);
  }

  lemma ChangesFit(es: seq<Entity>, ord: seq<nat>, d: Directory, changes: seq<Change>)
    requires DerivedOrder(es, ord) && EverythingDecidable(es, d) && changes == ChangesOn(es, ord, d)
    ensures Refers(es, changes) && forall k :: 0 <= k < |changes| && changes[k].action == Update ==> changes[k].id.Some?
  {
    forall k | 0 <= k < |changes| && changes[k].action == Update ensures changes[k].id.Some? {
      DecisionShape(es[ord[k]], d);
    }
  }

  lemma BindingsFit(es: seq<Entity>, changes: seq<Change>, d: Directory, bindings: seq<PlannedBinding>)
    requires Refers(es, changes) && RefsValid(es) && bindings == BindingsOn(es, changes, d, BindingRefs(es))
    ensures forall k :: 0 <= k < |bindings| ==> ValidRef(es, bindings[k].ref)
  {
  }

  /** The manifest, the server and the plan an apply starts from. */
  ghost predicate Prepared(m: Manifest, ord: seq<nat>, w: World, plan: Plan) {
    && UsableManifest(m.entities) && DerivedOrder(m.entities, ord) && RefsValid(m.entities)
    && WellFormed(w.dir) && PlannedOn(m.entities, ord, w.dir, plan)
    && Fits(m, plan)
  }

  lemma StepNetworkIsSound(m: Manifest, ord: seq<nat>, plan: Plan, r: Run, script: Script)
    requires Permutation(ord, |m.entities|) && Sound(m.entities, ord, plan, r) && r.stop == Running && ItemReady(m, r)
    ensures Sound(m.entities, ord, plan, StepNetwork(m, r, script))
  {
    ItemFields(m, r, script);
  }

  /** How many changes a run has tried to carry out, the one it failed at included. */
  function Tried(r: Run): nat {
    if r.failedIn == Some(Entities) then r.entity + 1 else r.entity
  }

  /** As far as what it tried to create fits the page, a run is sound. */
  ghost predicate SoundSoFar(es: seq<Entity>, ord: seq<nat>, plan: Plan, d0: Directory, r: Run)
    requires Permutation(ord, |es|)
  {
    && Growing(es, ord, plan, d0, r) && (r.stop == Running ==> r.failedIn.None?) && Tried(r) <= |ord|
    && (Room(es, ord, plan.changes, d0, Tried(r)) ==> Sound(es, ord, plan, r))
  }

  lemma EntityFailure(m: Manifest, r: Run, script: Script)
    requires EntityReady(m, r) && r.stop == Running && r.failedIn.None?
    ensures var r' := StepEntity(m, r, script); r'.failedIn == (if r'.stop == Running then None else Some(Entities))
  {
  }

  lemma BindingFailure(m: Manifest, plan: Plan, r: Run, script: Script)
    requires BindingReady(m, plan, r) && r.stop == Running && r.failedIn.None?
    ensures var r' := StepBinding(m, plan, r, script); r'.failedIn == (if r'.stop == Running then None else Some(Bindings))
  {
  }

  lemma ItemFailure(m: Manifest, r: Run, script: Script)
    requires ItemReady(m, r) && r.stop == Running && r.failedIn.None?
    ensures var r' := StepNetwork(m, r, script); r'.failedIn == (if r'.stop == Running then None else Some(NetworkObjects))
  {
  }

  /** There is room for the next create when it fits the page with what was created before. */
  lemma RoomHere(es: seq<Entity>, ord: seq<nat>, d0: Directory, plan: Plan, r: Run)
    requires Permutation(ord, |es|) && plan.changes == ChangesOn(es, ord, d0) && Growing(es, ord, plan, d0, r)
    requires r.stop == Running && r.entity < |ord| && Room(es, ord, plan.changes, d0, r.entity + 1)
    ensures r.changes[r.entity].entity < |es| && RoomForOne(es, r.changes[r.entity], r.world.dir)
    ensures Room(es, ord, plan.changes, d0, r.entity)
  {
    RoomShrinks(es, ord, plan.changes, d0, r.entity);
    RoomForNext(es, ord, plan.changes, d0, r.world.dir, r.entity);
  }

  lemma StepEntityTries(m: Manifest, r: Run, script: Script)
    requires EntityReady(m, r) && r.stop == Running && r.failedIn.None?
    ensures Tried(StepEntity(m, r, script)) == r.entity + 1
  {
    EntityFields(m, r, script);
    EntityFailure(m, r, script);
  }

  lemma StepEntitySoFar(m: Manifest, ord: seq<nat>, d0: Directory, plan: Plan, r: Run, script: Script)
    requires UsableManifest(m.entities) && DerivedOrder(m.entities, ord) && EverythingDecidable(m.entities, d0)
    requires plan.changes == ChangesOn(m.entities, ord, d0) && SoundSoFar(m.entities, ord, plan, d0, r)
    requires r.stop == Running && r.entity < |ord| && EntityReady(m, r)
    ensures SoundSoFar(m.entities, ord, plan, d0, StepEntity(m, r, script))
  {
    StepEntityGrows(m, ord, d0, plan, r, script);
    EntityFailure(m, r, script);
    StepEntityTries(m, r, script);
    if Room(m.entities, ord, plan.changes, d0, r.entity + 1) {
      RoomHere(m.entities, ord, d0, plan, r);
      StepEntityIsSound(m, ord, plan, r, script);
    }
  }

  lemma StepBindingSoFar(m: Manifest, ord: seq<nat>, d0: Directory, plan: Plan, r: Run, script: Script)
    requires UsableManifest(m.entities) && DerivedOrder(m.entities, ord) && SoundSoFar(m.entities, ord, plan, d0, r)
    requires r.stop == Running && r.binding < |plan.bindings| && BindingReady(m, plan, r) && RolesDone(m.entities, ord, r.entity)
    ensures SoundSoFar(m.entities, ord, plan, d0, StepBinding(m, plan, r, script))
  {
    StepBindingGrows(m, ord, d0, plan, r, script);
    BindingFields(m, plan, r, script);
    BindingFailure(m, plan, r, script);
    if Room(m.entities, ord, plan.changes, d0, r.entity) { StepBindingIsSound(m, ord, plan, r, script); }
  }

  lemma StepNetworkSoFar(m: Manifest, ord: seq<nat>, d0: Directory, plan: Plan, r: Run, script: Script)
    requires Permutation(ord, |m.entities|) && SoundSoFar(m.entities, ord, plan, d0, r) && r.stop == Running && ItemReady(m, r)
    ensures SoundSoFar(m.entities, ord, plan, d0, StepNetwork(m, r, script))
  {
    StepNetworkGrows(m, ord, d0, plan, r, script);
    ItemFields(m, r, script);
    ItemFailure(m, r, script);
    if Room(m.entities, ord, plan.changes, d0, r.entity) { StepNetworkIsSound(m, ord, plan, r, script); }
  }

  lemma EntityPhaseIsSound(m: Manifest, ord: seq<nat>, d0: Directory, plan: Plan, r: Run, bound: nat, script: Script)
    requires UsableManifest(m.entities) && DerivedOrder(m.entities, ord) && EverythingDecidable(m.entities, d0)
    requires plan.changes == ChangesOn(m.entities, ord, d0) && SoundSoFar(m.entities, ord, plan, d0, r)
    requires Runnable(m, plan, r) && bound <= |plan.changes|
    ensures var r' := RunEntities(m, plan, r, bound, script);
      SoundSoFar(m.entities, ord, plan, d0, r') && (r'.stop == Running ==> r'.entity >= bound)
  {
    var inv := (x: Run) => SoundSoFar(m.entities, ord, plan, d0, x);
    forall x: Run | Runnable(m, plan, x) && inv(x) && x.stop == Running && x.entity < bound
      ensures inv(StepEntity(m, x, script))
    {
      StepEntitySoFar(m, ord, d0, plan, x, script);
    }
    RunEntitiesKeeps(m, plan, r, bound, script, inv);
  }

  lemma BindingPhaseIsSound(m: Manifest, ord: seq<nat>, d0: Directory, plan: Plan, r: Run, bound: nat, script: Script)
    requires UsableManifest(m.entities) && DerivedOrder(m.entities, ord) && SoundSoFar(m.entities, ord, plan, d0, r)
    requires Runnable(m, plan, r) && bound <= |plan.bindings| && (r.stop == Running ==> RolesDone(m.entities, ord, r.entity))
    ensures var r' := RunBindings(m, plan, r, bound, script);
      SoundSoFar(m.entities, ord, plan, d0, r') && r'.entity == r.entity && (r'.stop == Running ==> r.stop == Running && r'.binding >= bound)
  {
    if r.stop == Running {
      var inv := (x: Run) => SoundSoFar(m.entities, ord, plan, d0, x) && x.entity == r.entity;
      forall x: Run | Runnable(m, plan, x) && inv(x) && x.stop == Running && x.binding < bound
        ensures inv(StepBinding(m, plan, x, script))
      {
        StepBindingSoFar(m, ord, d0, plan, x, script);
        BindingFields(m, plan, x, script);
      }
      RunBindingsKeeps(m, plan, r, bound, script, inv);
    }
  }

  lemma NetworkPhaseIsSound(m: Manifest, ord: seq<nat>, d0: Directory, plan: Plan, r: Run, script: Script)
    requires Permutation(ord, |m.entities|) && SoundSoFar(m.entities, ord, plan, d0, r) && Runnable(m, plan, r)
    ensures SoundSoFar(m.entities, ord, plan, d0, RunNetwork(m, plan, r, script))
  {
    var inv := (x: Run) => SoundSoFar(m.entities, ord, plan, d0, x);
    forall x: Run | Runnable(m, plan, x) && inv(x) && x.stop == Running && x.item < |plan.network|
      ensures inv(StepNetwork(m, x, script))
    {
      StepNetworkSoFar(m, ord, d0, plan, x, script);
    }
    RunNetworkKeeps(m, plan, r, script, inv);
  }

  /** In the derived order every role comes before the first service account. */
  lemma RolesComeFirst(es: seq<Entity>, ord: seq<nat>, cs: seq<Change>)
    requires DerivedOrder(es, ord) && Refers(es, cs) && |cs| == |ord| && forall p :: 0 <= p < |ord| ==> cs[p].entity == ord[p]
    ensures RolesDone(es, ord, FirstAccount(es, cs, 0))
  {
    var k := FirstAccount(es, cs, 0);
    forall p | 0 <= p < |ord| && es[ord[p]].kind == Role ensures p < k {
    }
  }

  lemma StartsSound(m: Manifest, ord: seq<nat>, w: World, plan: Plan)
    requires Prepared(m, ord, w, plan)
    ensures SoundSoFar(m.entities, ord, plan, w.dir, Start(plan, w))
  {
    StartsOnTrack(m.entities, ord, w, plan);
    assert RowIdsIssued(w.dir);
    StartsGrown(m.entities, ord, plan.changes, w.dir);
  }

  ghost function RunGroups(m: Manifest, plan: Plan, w: World, script: Script): (r: Run)
    requires Fits(m, plan)
    ensures Runnable(m, plan, r)
  {
    RunBindings(m, plan, RunEntities(m, plan, Start(plan, w), FirstAccount(m.entities, plan.changes, 0), script),
                FirstAccountBinding(m.entities, plan.bindings, 0), script)
  }

  lemma FirstEntitiesAreSound(m: Manifest, ord: seq<nat>, w: World, plan: Plan, script: Script)
    requires Prepared(m, ord, w, plan)
    ensures var r := RunEntities(m, plan, Start(plan, w), FirstAccount(m.entities, plan.changes, 0), script);
      SoundSoFar(m.entities, ord, plan, w.dir, r) && (r.stop == Running ==> RolesDone(m.entities, ord, r.entity))
  {
    StartsSound(m, ord, w, plan);
    RolesComeFirst(m.entities, ord, plan.changes);
    EntityPhaseIsSound(m, ord, w.dir, plan, Start(plan, w), FirstAccount(m.entities, plan.changes, 0), script);
  }

  lemma GroupsAreSound(m: Manifest, ord: seq<nat>, w: World, plan: Plan, script: Script)
    requires Prepared(m, ord, w, plan)
    ensures SoundSoFar(m.entities, ord, plan, w.dir, RunGroups(m, plan, w, script))
  {
    FirstEntitiesAreSound(m, ord, w, plan, script);
    BindingPhaseIsSound(m, ord, w.dir, plan, RunEntities(m, plan, Start(plan, w), FirstAccount(m.entities, plan.changes, 0), script),
                        FirstAccountBinding(m.entities, plan.bindings, 0), script);
  }

  lemma IdentityIsSound(m: Manifest, ord: seq<nat>, w: World, plan: Plan, script: Script)
    requires Prepared(m, ord, w, plan)
    ensures SoundSoFar(m.entities, ord, plan, w.dir, RunIdentity(m, plan, w, script))
  {
    GroupsAreSound(m, ord, w, plan, script);
    var r2 := RunGroups(m, plan, w, script);
    EntityPhaseIsSound(m, ord, w.dir, plan, r2, |plan.changes|, script);
    BindingPhaseIsSound(m, ord, w.dir, plan, RunEntities(m, plan, r2, |plan.changes|, script), |plan.bindings|, script);
  }

  /**
   * Every run of an apply, whatever the server answers: where it ends, as long as what it tried to
   * create fits the page, each entity and binding is settled or would be planned as before, so running
   * again is the recovery.
   */
  lemma EveryRunResumes(m: Manifest, ord: seq<nat>, w: World, plan: Plan, script: Script)
    requires Prepared(m, ord, w, plan)
    ensures var r := ApplyRun(m, plan, w, script);
      && Tried(r) <= |ord| && (Room(m.entities, ord, plan.changes, w.dir, Tried(r)) ==> Sound(m.entities, ord, plan, r))
      && (r.stop == Running ==> Tried(r) == |ord| && r.entity >= |plan.changes| && r.binding >= |plan.bindings| && r.item >= |plan.network|)
  {
    IdentityIsSound(m, ord, w, plan, script);
    NetworkPhaseIsSound(m, ord, w.dir, plan, RunIdentity(m, plan, w, script), script);
    RunsToTheEnd(m, plan, w, script);
  }

  // ----- Convergence -----

  lemma AllDoneIsSettled(es: seq<Entity>, ord: seq<nat>, planned: seq<Change>, cs: seq<Change>, d: Directory)
    requires DerivedOrder(es, ord) && EntitiesOnTrack(es, ord, planned, cs, d, |ord|)
    ensures EverythingDecidable(es, d)
    ensures forall p :: 0 <= p < |ord| ==> ChangesOn(es, ord, d)[p].action == SettledAction(es[ord[p]])
  {
    forall i | 0 <= i < |es| ensures DecideOn(es[i], d).Decided? {
      var p := PermutationHits(ord, |es|, i);
      assert EntityDone(es[ord[p]], d, cs[p]);
    }
    forall p | 0 <= p < |ord| ensures ChangesOn(es, ord, d)[p].action == SettledAction(es[ord[p]]) {
      assert EntityDone(es[ord[p]], d, cs[p]);
    }
  }

  lemma AllBoundIsSettled(es: seq<Entity>, ord: seq<nat>, planned: seq<PlannedBinding>, d: Directory)
    requires UsableManifest(es) && DerivedOrder(es, ord) && RefsValid(es) && BindingsOnTrack(es, planned, d, |planned|)
    ensures forall b :: 0 <= b < |BindingRefs(es)| ==>
      BindingsOn(es, ChangesOn(es, ord, d), d, BindingRefs(es))[b].action == Unchanged
  {
    forall b | 0 <= b < |BindingRefs(es)|
      ensures BindingsOn(es, ChangesOn(es, ord, d), d, BindingRefs(es))[b].action == Unchanged
    {
      PlanBindingIsNow(es, ord, d, BindingRefs(es)[b]);
    }
  }

  /** What a new plan decides about entities and bindings. */
  ghost predicate Settled(es: seq<Entity>, ord: seq<nat>, d: Directory)
    requires Permutation(ord, |es|) && RefsValid(es)
  {
    var cs := ChangesOn(es, ord, d);
    && EverythingDecidable(es, d)
    && (forall p :: 0 <= p < |ord| ==> cs[p].action == SettledAction(es[ord[p]]))
    && (forall b :: 0 <= b < |BindingRefs(es)| ==> BindingsOn(es, cs, d, BindingRefs(es))[b].action == Unchanged)
  }

  /**
   * Convergence: once an apply has returned OK, a new plan has no pending binding, and no pending
   * entity but those whose drift no update can remove.
   */
  lemma ApplyConverges(m: Manifest, ord: seq<nat>, w: World, plan: Plan, script: Script)
    requires Prepared(m, ord, w, plan) && ApplyRun(m, plan, w, script).stop == Running
    requires Room(m.entities, ord, plan.changes, w.dir, |ord|)
    ensures Settled(m.entities, ord, ApplyRun(m, plan, w, script).world.dir)
  {
    var r := ApplyRun(m, plan, w, script);
    EveryRunResumes(m, ord, w, plan, script);
    AllDoneIsSettled(m.entities, ord, plan.changes, r.changes, r.world.dir);
    AllBoundIsSettled(m.entities, ord, plan.bindings, r.world.dir);
  }

  /** Every entity of the new plan is unchanged exactly when none is stuck. */
  lemma SettledAllUnchangedIff(es: seq<Entity>, ord: seq<nat>, d: Directory)
    requires DerivedOrder(es, ord) && RefsValid(es) && Settled(es, ord, d)
    ensures (forall k :: 0 <= k < |ord| ==> ChangesOn(es, ord, d)[k].action == Unchanged)
       <==> (forall i :: 0 <= i < |es| ==> !Stuck(es[i]))
  {
    var cs := ChangesOn(es, ord, d);
    if i :| 0 <= i < |es| && Stuck(es[i]) {
      var p := PermutationHits(ord, |es|, i);
      assert cs[p].action == SettledAction(es[ord[p]]);
    }
  }

  // ----- Past the page -----

  lemma OverfullIsCreatedAgain(m: Manifest, ord: seq<nat>, w: World, plan: Plan, script: Script) returns (p: nat)
    requires Prepared(m, ord, w, plan) && ApplyRun(m, plan, w, script).stop == Running
    requires !Room(m.entities, ord, plan.changes, w.dir, |ord|)
    ensures p < |ord| && DecideOn(m.entities[ord[p]], ApplyRun(m, plan, w, script).world.dir) == Decided(Create, None)
  {
    var es, d' := m.entities, ApplyRun(m, plan, w, script).world.dir;
    assert RowIdsIssued(w.dir);
    var n := EveryRunGrows(m, ord, w, plan, script);
    p := OutgrownIsCreatedAgain(es, ord, plan.changes, w.dir, d', n);
  }

  /**
   * Convergence, exactly: once an apply has returned OK, a new plan has no pending binding and no
   * pending entity but those no update can settle, if and only if each kind something was created of
   * fits the one page a listing shows.
   */
  lemma ApplyConvergesIff(m: Manifest, ord: seq<nat>, w: World, plan: Plan, script: Script)
    requires Prepared(m, ord, w, plan) && ApplyRun(m, plan, w, script).stop == Running
    ensures Settled(m.entities, ord, ApplyRun(m, plan, w, script).world.dir) <==> Room(m.entities, ord, plan.changes, w.dir, |ord|)
  {
    if Room(m.entities, ord, plan.changes, w.dir, |ord|) {
      ApplyConverges(m, ord, w, plan, script);
    } else {
      var p := OverfullIsCreatedAgain(m, ord, w, plan, script);
      CreateIsNotSettled(m.entities, ord, ApplyRun(m, plan, w, script).world.dir, p);
    }
  }

  lemma CreateIsNotSettled(es: seq<Entity>, ord: seq<nat>, d: Directory, p: nat)
    requires Permutation(ord, |es|) && RefsValid(es) && p < |ord| && DecideOn(es[ord[p]], d) == Decided(Create, None)
    ensures !Settled(es, ord, d) && ChangesOn(es, ord, d)[p].action == Create
  {
  }
}
