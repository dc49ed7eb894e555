/** Induction over a run: what each step keeps, each phase keeps. */
module Runs {
  import opened Manifest
  import opened Wire
  import opened Applying

  lemma EntityFields(m: Manifest, r: Run, script: Script)
    requires EntityReady(m, r) && r.stop == Running
    ensures var r' := StepEntity(m, r, script);
      && r'.network == r.network && r'.binding == r.binding && r'.item == r.item
      && (r'.stop == Running ==> r'.entity == r.entity + 1)
      && (r'.stop != Running ==> r'.entity == r.entity)
  {
  }

  lemma BindingFields(m: Manifest, plan: Plan, r: Run, script: Script)
    requires BindingReady(m, plan, r) && r.stop == Running
    ensures var r' := StepBinding(m, plan, r, script);
      && r'.changes == r.changes && r'.network == r.network && r'.entity == r.entity && r'.item == r.item
      && (r'.stop == Running ==> r'.binding == r.binding + 1)
      && (r'.stop != Running ==> r'.binding == r.binding)
  {
  }

  lemma ItemFields(m: Manifest, r: Run, script: Script)
    requires ItemReady(m, r) && r.stop == Running
    ensures var r' := StepNetwork(m, r, script);
      && r'.world.dir == r.world.dir && r'.changes == r.changes && r'.entity == r.entity && r'.binding == r.binding
      && (r'.stop == Running ==> r'.item == r.item + 1)
      && (r'.stop != Running ==> r'.item == r.item)
  {
  }

  lemma StepEntityRunnable(m: Manifest, plan: Plan, r: Run, script: Script)
    requires Runnable(m, plan, r) && r.stop == Running && r.entity < |plan.changes|
    ensures Runnable(m, plan, StepEntity(m, r, script))
  {
  }

  lemma StepBindingRunnable(m: Manifest, plan: Plan, r: Run, script: Script)
    requires Runnable(m, plan, r) && r.stop == Running && r.binding < |plan.bindings|
    ensures Runnable(m, plan, StepBinding(m, plan, r, script))
  {
    BindingFields(m, plan, r, script);
  }

  lemma StepNetworkRunnable(m: Manifest, plan: Plan, r: Run, script: Script)
    requires Runnable(m, plan, r) && r.stop == Running && r.item < |plan.network|
    ensures Runnable(m, plan, StepNetwork(m, r, script))
  {
  }

  ghost predicate EntityStepsKeep(m: Manifest, plan: Plan, bound: nat, script: Script, inv: Run -> bool)
    requires bound <= |plan.changes|
  {
    forall x: Run ::
      (Runnable(m, plan, x) && inv(x) && x.stop == Running && x.entity < bound) ==> inv(StepEntity(m, x, script))
  }

  ghost predicate BindingStepsKeep(m: Manifest, plan: Plan, bound: nat, script: Script, inv: Run -> bool)
    requires bound <= |plan.bindings|
  {
    forall x: Run ::
      (Runnable(m, plan, x) && inv(x) && x.stop == Running && x.binding < bound) ==> inv(StepBinding(m, plan, x, script))
  }

  ghost predicate NetworkStepsKeep(m: Manifest, plan: Plan, script: Script, inv: Run -> bool) {
    forall x: Run ::
      (Runnable(m, plan, x) && inv(x) && x.stop == Running && x.item < |plan.network|) ==> inv(StepNetwork(m, x, script))
  }

  lemma {:induction false} RunEntitiesKeeps(m: Manifest, plan: Plan, r: Run, bound: nat, script: Script, inv: Run -> bool)
    requires Runnable(m, plan, r) && bound <= |plan.changes| && inv(r)
    requires EntityStepsKeep(m, plan, bound, script, inv)
    ensures var r' := RunEntities(m, plan, r, bound, script);
      inv(r') && r'.binding == r.binding && (r'.stop == Running ==> r.stop == Running && r'.entity >= bound)
    decreases bound - r.entity, if r.stop == Running then 1 else 0
  {
    if r.stop == Running && r.entity < bound {
      StepEntityRunnable(m, plan, r, script);
      EntityFields(m, r, script);
      RunEntitiesKeeps(m, plan, StepEntity(m, r, script), bound, script, inv);
    }
  }

  lemma {:induction false} RunBindingsKeeps(m: Manifest, plan: Plan, r: Run, bound: nat, script: Script, inv: Run -> bool)
    requires Runnable(m, plan, r) && bound <= |plan.bindings| && inv(r)
    requires BindingStepsKeep(m, plan, bound, script, inv)
    ensures var r' := RunBindings(m, plan, r, bound, script);
      inv(r') && r'.entity == r.entity && (r'.stop == Running ==> r.stop == Running && r'.binding >= bound)
    decreases bound - r.binding, if r.stop == Running then 1 else 0
  {
    if r.stop == Running && r.binding < bound {
      StepBindingRunnable(m, plan, r, script);
      BindingFields(m, plan, r, script);
      RunBindingsKeeps(m, plan, StepBinding(m, plan, r, script), bound, script, inv);
    }
  }

  lemma {:induction false} RunNetworkKeeps(m: Manifest, plan: Plan, r: Run, script: Script, inv: Run -> bool)
    requires Runnable(m, plan, r) && inv(r)
    requires NetworkStepsKeep(m, plan, script, inv)
    ensures var r' := RunNetwork(m, plan, r, script);
      inv(r') && r'.entity == r.entity && r'.binding == r.binding
      && (r'.stop == Running ==> r.stop == Running && r'.item >= |plan.network|)
    decreases |plan.network| - r.item, if r.stop == Running then 1 else 0
  {
    if r.stop == Running && r.item < |plan.network| {
      StepNetworkRunnable(m, plan, r, script);
      ItemFields(m, r, script);
      RunNetworkKeeps(m, plan, StepNetwork(m, r, script), script, inv);
    }
  }

  /** What every step of every phase keeps, the whole apply keeps. */
  lemma ApplyKeeps(m: Manifest, plan: Plan, w: World, script: Script, inv: Run -> bool)
    requires Fits(m, plan) && inv(Start(plan, w))
    requires EntityStepsKeep(m, plan, |plan.changes|, script, inv)
    requires BindingStepsKeep(m, plan, |plan.bindings|, script, inv)
    requires NetworkStepsKeep(m, plan, script, inv)
    ensures var r := ApplyRun(m, plan, w, script);
      inv(r) && (r.stop == Running ==>
        r.entity >= |plan.changes| && r.binding >= |plan.bindings| && r.item >= |plan.network|)
  {
    var accounts := FirstAccount(m.entities, plan.changes, 0);
    var accountBindings := FirstAccountBinding(m.entities, plan.bindings, 0);
    var r1 := RunEntities(m, plan, Start(plan, w), accounts, script);
    RunEntitiesKeeps(m, plan, Start(plan, w), accounts, script, inv);
    var r2 := RunBindings(m, plan, r1, accountBindings, script);
    RunBindingsKeeps(m, plan, r1, accountBindings, script, inv);
    var r3 := RunEntities(m, plan, r2, |plan.changes|, script);
    RunEntitiesKeeps(m, plan, r2, |plan.changes|, script, inv);
    var r4 := RunBindings(m, plan, r3, |plan.bindings|, script);
    RunBindingsKeeps(m, plan, r3, |plan.bindings|, script, inv);
    RunNetworkKeeps(m, plan, r4, script, inv);
  }

  /** A run that did not stop has looked at everything. */
  lemma RunsToTheEnd(m: Manifest, plan: Plan, w: World, script: Script)
    requires Fits(m, plan)
    ensures var r := ApplyRun(m, plan, w, script);
      r.stop == Running ==> r.entity >= |plan.changes| && r.binding >= |plan.bindings| && r.item >= |plan.network|
  {
    ApplyKeeps(m, plan, w, script, (x: Run) => true);
  }
}
