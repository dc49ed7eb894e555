/** The whole engine: a plan, its apply, and the plan made after it. */
module PlanApplyPlan {
  import opened Basics
  import opened Manifest
  import opened Directory
  import opened Planning
  import opened Settling
  import opened Wire
  import opened Applying
  import opened Order
  import OrderLaws
  import NetPlanner
  import opened Sorting
  import opened Tracking
  import opened Growth
  import opened Rebinding
  import opened Reports
  import opened Resuming
  import opened NetPlanning
  import opened NetTracking
  import opened NetConverging
  import opened Convergence
  import opened MakePlan

  // ----- There is one order -----

  /** Key order is one sequence, so a plan cannot depend on how it was found. */
  lemma SegmentOrderIsUnique(ss: seq<SegmentSpec>, a: seq<nat>, b: seq<nat>)
    requires SegmentOrder(ss, a) && SegmentOrder(ss, b)
    ensures a == b
  {
    var less := NetPlanner.KeyOrder(ss);
    forall x: nat, y: nat | x < |ss| && y < |ss| && less(x, y) ensures !less(y, x) {
      if less(y, x) {
        BeforeTransitive(ss[x].key, ss[y].key, ss[x].key);
        BeforeIrreflexive(ss[x].key);
      }
    }
    OrderLaws.SortedIsUnique(less, a, b);
  }

  // ----- Counters -----

  lemma {:induction false} NoEntityPending(cs: seq<Change>, n: nat)
    requires n <= |cs|
    ensures EntityTargets(cs, 0, n) == [] <==> forall k :: 0 <= k < n ==> cs[k].action == Unchanged
    decreases n
  {
    if n > 0 { NoEntityPending(cs, n - 1); }
  }

  lemma {:induction false} NoBindingPending(bs: seq<PlannedBinding>, n: nat)
    requires n <= |bs|
    ensures BindingTargets(bs, 0, n) == [] <==> forall k :: 0 <= k < n ==> bs[k].action == Unchanged
    decreases n
  {
    if n > 0 { NoBindingPending(bs, n - 1); }
  }

  lemma {:induction false} NoItemPending(ns: seq<NetItem>, n: nat)
    requires n <= |ns|
    ensures NetworkTargets(ns, 0, n) == [] <==> forall k :: 0 <= k < n ==> ns[k].action == Unchanged
    decreases n
  {
    if n > 0 { NoItemPending(ns, n - 1); }
  }

  predicate NonePending(plan: Plan) {
    PendingEntities(plan) == 0 && PendingBindings(plan) == 0 && PendingNetwork(plan) == 0
  }

  lemma NonePendingIff(plan: Plan)
    ensures NonePending(plan)
      <==> (forall k :: 0 <= k < |plan.changes| ==> plan.changes[k].action == Unchanged)
           && (forall k :: 0 <= k < |plan.bindings| ==> plan.bindings[k].action == Unchanged)
           && (forall k :: 0 <= k < |plan.network| ==> plan.network[k].action == Unchanged)
  {
    NoEntityPending(plan.changes, |plan.changes|);
    NoBindingPending(plan.bindings, |plan.bindings|);
    NoItemPending(plan.network, |plan.network|);
  }

  // ----- Plan, apply, plan -----

  /** What an apply asks of the manifest and of the server beyond a plan. */
  ghost predicate Workable(m: Manifest, w: World) {
    UsableManifest(m.entities) && NetworkAccepted(m) && WellFormed(w.dir) && NetWellFormed(w.net)
  }

  lemma MadePlanIsReady(m: Manifest, w: World, ord: seq<nat>, plan: Plan) returns (segs: seq<nat>)
    requires PlanOf(m, w, ord, plan) && Workable(m, w)
    ensures Prepared(m, ord, w, plan) && NetReady(m, segs, w, plan)
  {
    segs :| SegmentOrder(m.segments, segs) && plan.network == NetworkItems(m, segs, w.net);
    NetworkItemsAreListed(m, segs, w.net);
    PlansFit(m, ord, w.dir, plan);
  }

  /** The apply of this plan returned OK, and left this world. */
  ghost predicate Succeeded(m: Manifest, plan: Plan, w: World, script: Script, w': World) {
    Fits(m, plan) && ApplyRun(m, plan, w, script).stop == Running && ApplyRun(m, plan, w, script).world == w'
  }

  lemma SuccessSettles(m: Manifest, ord: seq<nat>, segs: seq<nat>, w: World, plan: Plan, script: Script, w': World)
    requires Prepared(m, ord, w, plan) && NetReady(m, segs, w, plan) && Succeeded(m, plan, w, script, w')
    ensures NetWellFormed(w'.net)
    ensures NothingToDo(m, ord, segs, w')
       <==> Room(m.entities, ord, plan.changes, w.dir, |ord|) && NoneStuck(m)
            && AllConverge(m, plan.network, w.net, m.policy.GetOr(w.net.cap))
  {
    WholeRunNetwork(m, segs, plan, w, script);
    ApplyThenPlan(m, ord, segs, w, plan, script);
  }

  ghost predicate NoneStuck(m: Manifest) {
    forall i :: 0 <= i < |m.entities| ==> !Stuck(m.entities[i])
  }

  lemma NonePendingIsNothingToDo(m: Manifest, ord: seq<nat>, segs: seq<nat>, w: World, plan: Plan)
    requires DerivedOrder(m.entities, ord) && RefsValid(m.entities) && Permutation(segs, |m.segments|)
    requires plan.changes == ChangesOn(m.entities, ord, w.dir)
    requires plan.bindings == BindingsOn(m.entities, plan.changes, w.dir, BindingRefs(m.entities))
    requires plan.network == NetworkItems(m, segs, w.net)
    ensures NonePending(plan) <==> NothingToDo(m, ord, segs, w)
  {
    NonePendingIff(plan);
  }

  /**
   * Plan, apply, plan again: once the apply has returned OK, all three counters of the new plan are
   * zero exactly when each kind something was created of fits the page a listing shows, no entity's
   * drift is beyond an update, and every profile is written, or read with its stated timeout under the
   * declared cap.
   */
  lemma SecondPlanIsEmptyIff(m: Manifest, w: World, ord: seq<nat>, plan: Plan, script: Script, w': World, ord': seq<nat>, plan': Plan)
    requires PlanOf(m, w, ord, plan) && Workable(m, w) && Succeeded(m, plan, w, script, w') && PlanOf(m, w', ord', plan')
    ensures NonePending(plan')
       <==> Room(m.entities, ord, plan.changes, w.dir, |ord|) && NoneStuck(m)
            && AllConverge(m, plan.network, w.net, m.policy.GetOr(w.net.cap))
  {
    var segs := MadePlanIsReady(m, w, ord, plan);
    SuccessSettles(m, ord, segs, w, plan, script, w');
    NewPlanIs(m, w', ord, segs, ord', plan');
    NonePendingIsNothingToDo(m, ord, segs, w', plan');
  }

  lemma NewPlanIs(m: Manifest, w: World, ord: seq<nat>, segs: seq<nat>, ord': seq<nat>, plan': Plan)
    requires DerivedOrder(m.entities, ord) && SegmentOrder(m.segments, segs)
    requires NetWellFormed(w.net) && PlanOf(m, w, ord', plan')
    ensures ord' == ord && plan'.changes == ChangesOn(m.entities, ord, w.dir)
      && plan'.bindings == BindingsOn(m.entities, plan'.changes, w.dir, BindingRefs(m.entities))
      && plan'.network == NetworkItems(m, segs, w.net)
  {
    OrderLaws.DerivedOrderIsUnique(m.entities, ord, ord');
    var segs' :| SegmentOrder(m.segments, segs') && plan'.network == NetworkItems(m, segs', w.net);
    SegmentOrderIsUnique(m.segments, segs, segs');
  }
}
