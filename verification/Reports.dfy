/** What an apply attempts, in which order, and what its report says about it. */
module Reports {
  import opened Basics
  import opened Manifest
  import opened Planning
  import opened Wire
  import opened Applying
  import opened Runs

  // ----- The writes a plan calls for -----

  function EntityTargets(cs: seq<Change>, lo: nat, hi: nat): seq<Target>
    requires lo <= hi <= |cs|
  {
    if lo == hi then []
    else EntityTargets(cs, lo, hi - 1) + (if cs[hi - 1].action == Unchanged then [] else [EntityTarget(hi - 1)])
  }

  function BindingTargets(bs: seq<PlannedBinding>, lo: nat, hi: nat): seq<Target>
    requires lo <= hi <= |bs|
  {
    if lo == hi then []
    else BindingTargets(bs, lo, hi - 1) + (if bs[hi - 1].action == Unchanged then [] else [BindingTarget(hi - 1)])
  }

  function NetworkTargets(ns: seq<NetItem>, lo: nat, hi: nat): seq<Target>
    requires lo <= hi <= |ns|
  {
    if lo == hi then []
    else NetworkTargets(ns, lo, hi - 1) + (if ns[hi - 1].action == Unchanged then [] else [NetworkTarget(hi - 1)])
  }

  /** The counters of the plan: `pending`, `binding_pending`, `network_pending`. */
  function PendingEntities(plan: Plan): nat { |EntityTargets(plan.changes, 0, |plan.changes|)| }
  function PendingBindings(plan: Plan): nat { |BindingTargets(plan.bindings, 0, |plan.bindings|)| }
  function PendingNetwork(plan: Plan): nat { |NetworkTargets(plan.network, 0, |plan.network|)| }

  /** Every write of the plan, in phase order. */
  ghost function Schedule(m: Manifest, plan: Plan): seq<Target>
    requires Fits(m, plan)
  {
    var accounts := FirstAccount(m.entities, plan.changes, 0);
    var accountBindings := FirstAccountBinding(m.entities, plan.bindings, 0);
    EntityTargets(plan.changes, 0, accounts)
    + BindingTargets(plan.bindings, 0, accountBindings)
    + EntityTargets(plan.changes, accounts, |plan.changes|)
    + BindingTargets(plan.bindings, accountBindings, |plan.bindings|)
    + NetworkTargets(plan.network, 0, |plan.network|)
  }

  // ----- Attempts follow the schedule -----

  /** A phase's progress: what was attempted before it, what it has attempted, and the one it stopped at. */
  predicate Attempted(before: seq<Target>, done: seq<Target>, current: Target, r: Run) {
    r.attempted == before + done + (if r.stop == Running then [] else [current])
  }

  predicate SameActions(plan: Plan, r: Run) {
    && |r.changes| == |plan.changes| && |r.network| == |plan.network|
    && (forall k :: 0 <= k < |plan.changes| ==> r.changes[k].action == plan.changes[k].action)
    && (forall k :: 0 <= k < |plan.network| ==> r.network[k].action == plan.network[k].action)
  }

  predicate EntityProgress(plan: Plan, before: seq<Target>, lo: nat, hi: nat, r: Run)
    requires lo <= hi <= |plan.changes|
  {
    && SameActions(plan, r) && lo <= r.entity <= hi
    && Attempted(before, EntityTargets(plan.changes, lo, r.entity), EntityTarget(r.entity), r)
    && (r.stop != Running ==> r.entity < hi && plan.changes[r.entity].action != Unchanged)
  }

  predicate BindingProgress(plan: Plan, before: seq<Target>, lo: nat, hi: nat, r: Run)
    requires lo <= hi <= |plan.bindings|
  {
    && SameActions(plan, r) && lo <= r.binding <= hi
    && Attempted(before, BindingTargets(plan.bindings, lo, r.binding), BindingTarget(r.binding), r)
    && (r.stop != Running ==> r.binding < hi && plan.bindings[r.binding].action != Unchanged)
  }

  predicate NetworkProgress(plan: Plan, before: seq<Target>, r: Run) {
    && SameActions(plan, r) && r.item <= |plan.network|
    && Attempted(before, NetworkTargets(plan.network, 0, r.item), NetworkTarget(r.item), r)
    && (r.stop != Running ==> r.item < |plan.network| && plan.network[r.item].action != Unchanged)
  }

  lemma StepEntityProgress(m: Manifest, plan: Plan, before: seq<Target>, lo: nat, hi: nat, r: Run, script: Script)
    requires lo <= hi <= |plan.changes| && EntityProgress(plan, before, lo, hi, r) && EntityReady(m, r)
    requires r.stop == Running && r.entity < hi
    ensures EntityProgress(plan, before, lo, hi, StepEntity(m, r, script))
  {
    EntityFields(m, r, script);
    StepEntityAttempts(m, r, script);
  }

  /** What one step adds to the attempts, and that no action ever changes. */
  lemma StepEntityAttempts(m: Manifest, r: Run, script: Script)
    requires EntityReady(m, r) && r.stop == Running
    ensures var r' := StepEntity(m, r, script);
      && r'.attempted == r.attempted + (if r.changes[r.entity].action == Unchanged then [] else [EntityTarget(r.entity)])
      && |r'.changes| == |r.changes| && (forall k :: 0 <= k < |r.changes| ==> r'.changes[k].action == r.changes[k].action)
      && (r'.stop != Running ==> r.changes[r.entity].action != Unchanged)
  {
  }

  lemma StepBindingProgress(m: Manifest, plan: Plan, before: seq<Target>, lo: nat, hi: nat, r: Run, script: Script)
    requires lo <= hi <= |plan.bindings| && BindingProgress(plan, before, lo, hi, r) && BindingReady(m, plan, r)
    requires r.stop == Running && r.binding < hi
    ensures BindingProgress(plan, before, lo, hi, StepBinding(m, plan, r, script))
  {
    BindingFields(m, plan, r, script);
    StepBindingAttempts(m, plan, r, script);
  }

  lemma StepNetworkProgress(m: Manifest, plan: Plan, before: seq<Target>, r: Run, script: Script)
    requires NetworkProgress(plan, before, r) && ItemReady(m, r) && r.stop == Running && r.item < |plan.network|
    ensures NetworkProgress(plan, before, StepNetwork(m, r, script))
  {
    ItemFields(m, r, script);
    StepNetworkAttempts(m, r, script);
  }

  lemma StepNetworkAttempts(m: Manifest, r: Run, script: Script)
    requires ItemReady(m, r) && r.stop == Running
    ensures var r' := StepNetwork(m, r, script);
      && r'.attempted == r.attempted + (if r.network[r.item].action == Unchanged then [] else [NetworkTarget(r.item)])
      && |r'.network| == |r.network| && (forall k :: 0 <= k < |r.network| ==> r'.network[k].action == r.network[k].action)
      && (r'.stop != Running ==> r.network[r.item].action != Unchanged)
  {
  }

  lemma StepBindingAttempts(m: Manifest, plan: Plan, r: Run, script: Script)
    requires BindingReady(m, plan, r) && r.stop == Running
    ensures var r' := StepBinding(m, plan, r, script);
      && r'.attempted == r.attempted + (if plan.bindings[r.binding].action == Unchanged then [] else [BindingTarget(r.binding)])
      && (r'.stop != Running ==> plan.bindings[r.binding].action != Unchanged)
  {
  }

  lemma EntityPhase(m: Manifest, plan: Plan, lo: nat, hi: nat, r: Run, script: Script)
    requires Runnable(m, plan, r) && SameActions(plan, r) && r.stop == Running && r.entity == lo <= hi <= |plan.changes|
    ensures EntityProgress(plan, r.attempted, lo, hi, RunEntities(m, plan, r, hi, script))
  {
    var before := r.attempted;
    var inv := (x: Run) => EntityProgress(plan, before, lo, hi, x);
    forall x: Run | Runnable(m, plan, x) && inv(x) && x.stop == Running && x.entity < hi
      ensures inv(StepEntity(m, x, script))
    {
      StepEntityProgress(m, plan, before, lo, hi, x, script);
    }
    RunEntitiesKeeps(m, plan, r, hi, script, inv);
  }

  lemma BindingPhase(m: Manifest, plan: Plan, lo: nat, hi: nat, r: Run, script: Script)
    requires Runnable(m, plan, r) && SameActions(plan, r) && r.stop == Running && r.binding == lo <= hi <= |plan.bindings|
    ensures BindingProgress(plan, r.attempted, lo, hi, RunBindings(m, plan, r, hi, script))
  {
    var before := r.attempted;
    var inv := (x: Run) => BindingProgress(plan, before, lo, hi, x);
    forall x: Run | Runnable(m, plan, x) && inv(x) && x.stop == Running && x.binding < hi
      ensures inv(StepBinding(m, plan, x, script))
    {
      StepBindingProgress(m, plan, before, lo, hi, x, script);
    }
    RunBindingsKeeps(m, plan, r, hi, script, inv);
  }

  lemma NetworkPhase(m: Manifest, plan: Plan, r: Run, script: Script)
    requires Runnable(m, plan, r) && SameActions(plan, r) && r.stop == Running && r.item == 0
    ensures NetworkProgress(plan, r.attempted, RunNetwork(m, plan, r, script))
  {
    var before := r.attempted;
    var inv := (x: Run) => NetworkProgress(plan, before, x);
    forall x: Run | Runnable(m, plan, x) && inv(x) && x.stop == Running && x.item < |plan.network|
      ensures inv(StepNetwork(m, x, script))
    {
      StepNetworkProgress(m, plan, before, x, script);
    }
    RunNetworkKeeps(m, plan, r, script, inv);
  }

  lemma {:induction false} EntityTargetsSplit(cs: seq<Change>, lo: nat, k: nat, hi: nat)
    requires lo <= k <= hi <= |cs|
    ensures EntityTargets(cs, lo, hi) == EntityTargets(cs, lo, k) + EntityTargets(cs, k, hi)
    decreases hi
  {
    if k < hi { EntityTargetsSplit(cs, lo, k, hi - 1); }
  }

  lemma {:induction false} BindingTargetsSplit(bs: seq<PlannedBinding>, lo: nat, k: nat, hi: nat)
    requires lo <= k <= hi <= |bs|
    ensures BindingTargets(bs, lo, hi) == BindingTargets(bs, lo, k) + BindingTargets(bs, k, hi)
    decreases hi
  {
    if k < hi { BindingTargetsSplit(bs, lo, k, hi - 1); }
  }

  lemma {:induction false} NetworkTargetsSplit(ns: seq<NetItem>, lo: nat, k: nat, hi: nat)
    requires lo <= k <= hi <= |ns|
    ensures NetworkTargets(ns, lo, hi) == NetworkTargets(ns, lo, k) + NetworkTargets(ns, k, hi)
    decreases hi
  {
    if k < hi { NetworkTargetsSplit(ns, lo, k, hi - 1); }
  }

  /** A phase's attempts are the start of what the phase calls for, and all of it unless it stopped. */
  predicate PhaseFollows(before: seq<Target>, wanted: seq<Target>, r: Run) {
    && r.attempted <= before + wanted && (r.stop == Running ==> r.attempted == before + wanted)
  }

  lemma EntityPhaseFollows(plan: Plan, before: seq<Target>, lo: nat, hi: nat, r: Run)
    requires lo <= hi <= |plan.changes| && EntityProgress(plan, before, lo, hi, r) && (r.stop == Running ==> r.entity == hi)
    ensures PhaseFollows(before, EntityTargets(plan.changes, lo, hi), r)
  {
    if r.stop != Running {
      EntityTargetsSplit(plan.changes, lo, r.entity + 1, hi);
      assert before + EntityTargets(plan.changes, lo, hi) == r.attempted + EntityTargets(plan.changes, r.entity + 1, hi);
    }
  }

  lemma BindingPhaseFollows(plan: Plan, before: seq<Target>, lo: nat, hi: nat, r: Run)
    requires lo <= hi <= |plan.bindings| && BindingProgress(plan, before, lo, hi, r) && (r.stop == Running ==> r.binding == hi)
    ensures PhaseFollows(before, BindingTargets(plan.bindings, lo, hi), r)
  {
    if r.stop != Running {
      BindingTargetsSplit(plan.bindings, lo, r.binding + 1, hi);
      assert before + BindingTargets(plan.bindings, lo, hi) == r.attempted + BindingTargets(plan.bindings, r.binding + 1, hi);
    }
  }

  lemma NetworkPhaseFollows(plan: Plan, before: seq<Target>, r: Run)
    requires NetworkProgress(plan, before, r) && (r.stop == Running ==> r.item == |plan.network|)
    ensures PhaseFollows(before, NetworkTargets(plan.network, 0, |plan.network|), r)
  {
    var hi := |plan.network|;
    if r.stop != Running {
      NetworkTargetsSplit(plan.network, 0, r.item + 1, hi);
      assert before + NetworkTargets(plan.network, 0, hi) == r.attempted + NetworkTargets(plan.network, r.item + 1, hi);
    }
  }

  /** One phase: it extends what was attempted by its own targets, or leaves a stopped run alone. */
  ghost predicate Extends(before: Run, after: Run, wanted: seq<Target>) {
    if before.stop != Running then after == before else PhaseFollows(before.attempted, wanted, after)
  }

  lemma EntityPhaseExtends(m: Manifest, plan: Plan, lo: nat, hi: nat, r: Run, script: Script)
    requires Runnable(m, plan, r) && SameActions(plan, r) && lo <= hi <= |plan.changes| && (r.stop == Running ==> r.entity == lo)
    ensures var r' := RunEntities(m, plan, r, hi, script);
      && Extends(r, r', EntityTargets(plan.changes, lo, hi)) && SameActions(plan, r') && r'.binding == r.binding && r'.item == r.item
      && (r'.stop == Running ==> r'.entity == hi)
  {
    if r.stop == Running {
      EntityPhase(m, plan, lo, hi, r, script);
      var inv := (x: Run) => x.item == r.item;
      forall x: Run | Runnable(m, plan, x) && inv(x) && x.stop == Running && x.entity < hi ensures inv(StepEntity(m, x, script)) {
        EntityFields(m, x, script);
      }
      RunEntitiesKeeps(m, plan, r, hi, script, inv);
      EntityPhaseFollows(plan, r.attempted, lo, hi, RunEntities(m, plan, r, hi, script));
    }
  }

  lemma BindingPhaseExtends(m: Manifest, plan: Plan, lo: nat, hi: nat, r: Run, script: Script)
    requires Runnable(m, plan, r) && SameActions(plan, r) && lo <= hi <= |plan.bindings| && (r.stop == Running ==> r.binding == lo)
    ensures var r' := RunBindings(m, plan, r, hi, script);
      && Extends(r, r', BindingTargets(plan.bindings, lo, hi)) && SameActions(plan, r') && r'.entity == r.entity && r'.item == r.item
      && (r'.stop == Running ==> r'.binding == hi)
  {
    if r.stop == Running {
      BindingPhase(m, plan, lo, hi, r, script);
      var inv := (x: Run) => x.item == r.item;
      forall x: Run | Runnable(m, plan, x) && inv(x) && x.stop == Running && x.binding < hi ensures inv(StepBinding(m, plan, x, script)) {
        BindingFields(m, plan, x, script);
      }
      RunBindingsKeeps(m, plan, r, hi, script, inv);
      BindingPhaseFollows(plan, r.attempted, lo, hi, RunBindings(m, plan, r, hi, script));
    }
  }

  lemma NetworkPhaseExtends(m: Manifest, plan: Plan, r: Run, script: Script)
    requires Runnable(m, plan, r) && SameActions(plan, r) && (r.stop == Running ==> r.item == 0)
    ensures Extends(r, RunNetwork(m, plan, r, script), NetworkTargets(plan.network, 0, |plan.network|))
  {
    if r.stop == Running {
      NetworkPhase(m, plan, r, script);
      RunNetworkKeeps(m, plan, r, script, (x: Run) => true);
      NetworkPhaseFollows(plan, r.attempted, RunNetwork(m, plan, r, script));
    }
  }

  /**
   * Every run attempts the scheduled writes in order and stops at the first that fails: what it
   * attempted is the start of the schedule, and the whole of it when it returns OK.
   */
  lemma AttemptsFollowSchedule(m: Manifest, plan: Plan, w: World, script: Script)
    requires Fits(m, plan)
    ensures var r := ApplyRun(m, plan, w, script);
      r.attempted <= Schedule(m, plan) && (r.stop == Running ==> r.attempted == Schedule(m, plan))
  {
    var accounts := FirstAccount(m.entities, plan.changes, 0);
    var accountBindings := FirstAccountBinding(m.entities, plan.bindings, 0);
    var e1, b1 := EntityTargets(plan.changes, 0, accounts), BindingTargets(plan.bindings, 0, accountBindings);
    var e2 := EntityTargets(plan.changes, accounts, |plan.changes|);
    var b2 := BindingTargets(plan.bindings, accountBindings, |plan.bindings|);
    var n := NetworkTargets(plan.network, 0, |plan.network|);
    var r0 := Start(plan, w);
    var r1 := RunEntities(m, plan, r0, accounts, script);
    EntityPhaseExtends(m, plan, 0, accounts, r0, script);
    var r2 := RunBindings(m, plan, r1, accountBindings, script);
    BindingPhaseExtends(m, plan, 0, accountBindings, r1, script);
    var r3 := RunEntities(m, plan, r2, |plan.changes|, script);
    EntityPhaseExtends(m, plan, accounts, |plan.changes|, r2, script);
    var r4 := RunBindings(m, plan, r3, |plan.bindings|, script);
    BindingPhaseExtends(m, plan, accountBindings, |plan.bindings|, r3, script);
    var r5 := RunNetwork(m, plan, r4, script);
    NetworkPhaseExtends(m, plan, r4, script);
    PrefixesChain(r0.attempted, e1, b1, e2, b2, n, r1, r2, r3, r4, r5);
  }

  lemma PrefixesChain(start: seq<Target>, a: seq<Target>, b: seq<Target>, c: seq<Target>, d: seq<Target>, e: seq<Target>,
                      r1: Run, r2: Run, r3: Run, r4: Run, r5: Run)
    requires start == [] && PhaseFollows(start, a, r1)
    requires Extends(r1, r2, b) && Extends(r2, r3, c) && Extends(r3, r4, d) && Extends(r4, r5, e)
    ensures r5.attempted <= a + b + c + d + e && (r5.stop == Running ==> r5.attempted == a + b + c + d + e)
  {
  }

  // ----- The report -----

  datatype Report = Report(
    applied: nat, failed: int, remaining: nat,
    bindingsApplied: nat, failedBinding: int, bindingsRemaining: nat,
    networkApplied: nat, failedNetwork: int, networkRemaining: nat,
    restoreAttempted: bool, restoreSucceeded: bool, secrets: seq<string>)

  function ReportOf(plan: Plan, r: Run): Report
    requires r.entity <= |plan.changes| && r.binding <= |plan.bindings| && r.item <= |plan.network|
  {
    Report(
      r.doneEntities,
      if r.failedIn == Some(Entities) then r.entity else -1,
      if r.failedIn == Some(Entities) && r.entity < |plan.changes|
      then |EntityTargets(plan.changes, r.entity + 1, |plan.changes|)| else 0,
      r.doneBindings,
      if r.failedIn == Some(Bindings) then r.binding else -1,
      if r.failedIn == Some(Bindings) && r.binding < |plan.bindings|
      then |BindingTargets(plan.bindings, r.binding + 1, |plan.bindings|)| else 0,
      r.doneNetwork,
      if r.failedIn == Some(NetworkObjects) then r.item else -1,
      if r.failedIn == Some(NetworkObjects) && r.item < |plan.network|
      then |NetworkTargets(plan.network, r.item + 1, |plan.network|)| else 0,
      r.restoreAttempted, r.restoreSucceeded, r.secrets)
  }

  function BindingWrites(bs: seq<PlannedBinding>, n: nat): nat
    requires n <= |bs|
  {
    if n == 0 then 0
    else BindingWrites(bs, n - 1) + (match bs[n - 1].action case Unchanged => 0 case Create => 1 case Update => 2)
  }

  /** The counters at every point of a run, and where a stopped run failed. */
  predicate Counted(plan: Plan, w: World, r: Run) {
    && SameActions(plan, r)
    && r.entity <= |plan.changes| && r.binding <= |plan.bindings| && r.item <= |plan.network|
    && r.doneEntities == |EntityTargets(plan.changes, 0, r.entity)|
    && r.doneBindings == |BindingTargets(plan.bindings, 0, r.binding)|
    && r.doneNetwork == |NetworkTargets(plan.network, 0, r.item)|
    && (r.stop == Running ==> r.failedIn.None?)
    && (r.stop == Running ==>
          |r.world.trace| == |w.trace| + r.doneEntities + r.doneNetwork + BindingWrites(plan.bindings, r.binding))
    && (r.stop != Running ==> match r.failedIn
        case None => false
        case Some(Entities) => r.entity < |plan.changes| && plan.changes[r.entity].action != Unchanged
        case Some(Bindings) => r.binding < |plan.bindings| && plan.bindings[r.binding].action != Unchanged
        case Some(NetworkObjects) => r.item < |plan.network| && plan.network[r.item].action != Unchanged)
  }

  lemma StepEntityCounts(m: Manifest, plan: Plan, w: World, r: Run, script: Script)
    requires Counted(plan, w, r) && EntityReady(m, r) && r.stop == Running && r.entity < |plan.changes|
    ensures Counted(plan, w, StepEntity(m, r, script))
  {
    EntityFields(m, r, script);
    StepEntityAttempts(m, r, script);
    EntityCounters(m, r, script);
  }

  lemma EntityCounters(m: Manifest, r: Run, script: Script)
    requires EntityReady(m, r) && r.stop == Running
    ensures var r' := StepEntity(m, r, script);
      && r'.doneBindings == r.doneBindings && r'.doneNetwork == r.doneNetwork
      && (r'.stop != Running ==> r'.failedIn == Some(Entities) && r'.doneEntities == r.doneEntities)
      && (r'.stop == Running ==> r'.failedIn == r.failedIn)
      && (r'.stop == Running ==> r'.doneEntities == r.doneEntities + (if r.changes[r.entity].action == Unchanged then 0 else 1))
      && (r'.stop == Running ==> |r'.world.trace| == |r.world.trace| + r'.doneEntities - r.doneEntities)
  {
  }

  lemma NetworkCounters(m: Manifest, r: Run, script: Script)
    requires ItemReady(m, r) && r.stop == Running
    ensures var r' := StepNetwork(m, r, script);
      && r'.doneBindings == r.doneBindings && r'.doneEntities == r.doneEntities
      && (r'.stop != Running ==> r'.failedIn == Some(NetworkObjects) && r'.doneNetwork == r.doneNetwork)
      && (r'.stop == Running ==> r'.failedIn == r.failedIn)
      && (r'.stop == Running ==> r'.doneNetwork == r.doneNetwork + (if r.network[r.item].action == Unchanged then 0 else 1))
      && (r'.stop == Running ==> |r'.world.trace| == |r.world.trace| + r'.doneNetwork - r.doneNetwork)
  {
  }

  lemma WriteBindingCounts(w: World, subject: Id, role: Id, resource: Option<Id>, inherit: bool, pb: PlannedBinding, script: Script)
    requires pb.action != Unchanged
    ensures var b := WriteBinding(w, subject, role, resource, inherit, pb, script);
      b.ok ==> |b.world.trace| == |w.trace| + (if pb.action == Update then 2 else 1)
  {
  }

  lemma BindingCounters(m: Manifest, plan: Plan, r: Run, script: Script)
    requires BindingReady(m, plan, r) && r.stop == Running
    ensures var r' := StepBinding(m, plan, r, script);
      && r'.doneNetwork == r.doneNetwork && r'.doneEntities == r.doneEntities
      && (r'.stop != Running ==> r'.failedIn == Some(Bindings) && r'.doneBindings == r.doneBindings)
      && (r'.stop == Running ==> r'.failedIn == r.failedIn)
      && (r'.stop == Running ==> r'.doneBindings == r.doneBindings + (if plan.bindings[r.binding].action == Unchanged then 0 else 1))
  {
  }

  lemma BindingTrace(m: Manifest, plan: Plan, r: Run, script: Script)
    requires BindingReady(m, plan, r) && StepBinding(m, plan, r, script).stop == Running
    ensures |StepBinding(m, plan, r, script).world.trace| == |r.world.trace|
      + (match plan.bindings[r.binding].action case Unchanged => 0 case Create => 1 case Update => 2)
  {
    var es, pb := m.entities, plan.bindings[r.binding];
    if pb.action != Unchanged {
      var rb := es[pb.ref.subject].roles[pb.ref.binding];
      WriteBindingCounts(r.world, Resolved(es, r.changes, es[pb.ref.subject].key).value, Resolved(es, r.changes, rb.roleKey).value,
                         ResolvedOption(es, r.changes, rb.resourceKey), !rb.inheritFalse, pb, script);
    }
  }

  lemma StepBindingCounts(m: Manifest, plan: Plan, w: World, r: Run, script: Script)
    requires Counted(plan, w, r) && BindingReady(m, plan, r) && r.stop == Running && r.binding < |plan.bindings|
    ensures Counted(plan, w, StepBinding(m, plan, r, script))
  {
    BindingFields(m, plan, r, script);
    StepBindingAttempts(m, plan, r, script);
    BindingCounters(m, plan, r, script);
    if StepBinding(m, plan, r, script).stop == Running { BindingTrace(m, plan, r, script); }
  }

  lemma StepNetworkCounts(m: Manifest, plan: Plan, w: World, r: Run, script: Script)
    requires Counted(plan, w, r) && ItemReady(m, r) && r.stop == Running && r.item < |plan.network|
    ensures Counted(plan, w, StepNetwork(m, r, script))
  {
    ItemFields(m, r, script);
    StepNetworkAttempts(m, r, script);
    NetworkCounters(m, r, script);
  }

  lemma EveryRunIsCounted(m: Manifest, plan: Plan, w: World, script: Script)
    requires Fits(m, plan)
    ensures Counted(plan, w, ApplyRun(m, plan, w, script))
  {
    var inv := (x: Run) => Counted(plan, w, x);
    forall x: Run | Runnable(m, plan, x) && inv(x) && x.stop == Running && x.entity < |plan.changes|
      ensures inv(StepEntity(m, x, script))
    {
      StepEntityCounts(m, plan, w, x, script);
    }
    forall x: Run | Runnable(m, plan, x) && inv(x) && x.stop == Running && x.binding < |plan.bindings|
      ensures inv(StepBinding(m, plan, x, script))
    {
      StepBindingCounts(m, plan, w, x, script);
    }
    forall x: Run | Runnable(m, plan, x) && inv(x) && x.stop == Running && x.item < |plan.network|
      ensures inv(StepNetwork(m, x, script))
    {
      StepNetworkCounts(m, plan, w, x, script);
    }
    ApplyKeeps(m, plan, w, script, inv);
  }

  lemma EntitiesAddUp(cs: seq<Change>, k: nat)
    requires k < |cs| && cs[k].action != Unchanged
    ensures |EntityTargets(cs, 0, k)| + 1 + |EntityTargets(cs, k + 1, |cs|)| == |EntityTargets(cs, 0, |cs|)|
  {
    EntityTargetsSplit(cs, 0, k, |cs|);
    EntityTargetsSplit(cs, k, k + 1, |cs|);
  }

  lemma BindingsAddUp(bs: seq<PlannedBinding>, k: nat)
    requires k < |bs| && bs[k].action != Unchanged
    ensures |BindingTargets(bs, 0, k)| + 1 + |BindingTargets(bs, k + 1, |bs|)| == |BindingTargets(bs, 0, |bs|)|
  {
    BindingTargetsSplit(bs, 0, k, |bs|);
    BindingTargetsSplit(bs, k, k + 1, |bs|);
  }

  lemma ItemsAddUp(ns: seq<NetItem>, k: nat)
    requires k < |ns| && ns[k].action != Unchanged
    ensures |NetworkTargets(ns, 0, k)| + 1 + |NetworkTargets(ns, k + 1, |ns|)| == |NetworkTargets(ns, 0, |ns|)|
  {
    NetworkTargetsSplit(ns, 0, k, |ns|);
    NetworkTargetsSplit(ns, k, k + 1, |ns|);
  }

  /** A report whose failing section, if any, accounts for every pending item of it. */
  predicate AddsUp(plan: Plan, report: Report, stopped: bool) {
    && (!stopped <==> report.failed == -1 && report.failedBinding == -1 && report.failedNetwork == -1)
    && (report.failed != -1 ==> report.applied + 1 + report.remaining == PendingEntities(plan))
    && (report.failedBinding != -1 ==> report.bindingsApplied + 1 + report.bindingsRemaining == PendingBindings(plan))
    && (report.failedNetwork != -1 ==> report.networkApplied + 1 + report.networkRemaining == PendingNetwork(plan))
  }

  lemma CountedAddsUp(plan: Plan, w: World, r: Run)
    requires Counted(plan, w, r)
    ensures AddsUp(plan, ReportOf(plan, r), r.stop != Running)
  {
    match r.failedIn
    case None =>
    case Some(Entities) => EntitiesAddUp(plan.changes, r.entity);
    case Some(Bindings) => BindingsAddUp(plan.bindings, r.binding);
    case Some(NetworkObjects) => ItemsAddUp(plan.network, r.item);
  }

  /** In the section that failed, what was applied, the failure and what remains make up the pending count. */
  lemma ReportAddsUp(m: Manifest, plan: Plan, w: World, script: Script)
    requires Fits(m, plan)
    ensures Counted(plan, w, ApplyRun(m, plan, w, script))
    ensures AddsUp(plan, ReportOf(plan, ApplyRun(m, plan, w, script)), ApplyRun(m, plan, w, script).stop != Running)
  {
    EveryRunIsCounted(m, plan, w, script);
    CountedAddsUp(plan, w, ApplyRun(m, plan, w, script));
  }

  /** A successful apply sends one call per pending object, and one or two per pending binding. */
  lemma SuccessfulApplySends(m: Manifest, plan: Plan, w: World, script: Script)
    requires Fits(m, plan) && ApplyRun(m, plan, w, script).stop == Running
    ensures |ApplyRun(m, plan, w, script).world.trace|
         == |w.trace| + PendingEntities(plan) + PendingNetwork(plan) + BindingWrites(plan.bindings, |plan.bindings|)
  {
    EveryRunIsCounted(m, plan, w, script);
    RunsToTheEnd(m, plan, w, script);
  }
}
