/** Whole applies: idempotence of the full plan, and no failure of the client's own making. */
module Convergence {
  import opened Manifest
  import opened Directory
  import opened Planning
  import opened Settling
  import opened Validate
  import opened Network
  import opened Wire
  import opened Applying
  import opened Runs
  import opened Order
  import opened Sorting
  import opened Tracking
  import opened Resuming
  import opened Growth
  import opened Resolving
  import opened NetPlanning
  import opened NetTracking
  import opened NetConverging

  // ----- The network part of a whole run -----

  /** Entity and binding writes leave the network namespace alone. */
  lemma IdentityLeavesNetwork(m: Manifest, plan: Plan, w: World, script: Script)
    requires Fits(m, plan)
    ensures var r := RunIdentity(m, plan, w, script);
      r.world.net == w.net && r.network == plan.network && r.item == 0
  {
    var inv := (x: Run) => x.world.net == w.net && x.network == plan.network && x.item == 0;
    forall x: Run | Runnable(m, plan, x) && inv(x) && x.stop == Running && x.entity < |plan.changes|
      ensures inv(StepEntity(m, x, script))
    {
      EntityFields(m, x, script);
    }
    forall x: Run | Runnable(m, plan, x) && inv(x) && x.stop == Running && x.binding < |plan.bindings|
      ensures inv(StepBinding(m, plan, x, script))
    {
      BindingFields(m, plan, x, script);
      BindingLeavesNetwork(m, plan, x, script);
    }
    var accounts, accountBindings := FirstAccount(m.entities, plan.changes, 0), FirstAccountBinding(m.entities, plan.bindings, 0);
    var r1 := RunEntities(m, plan, Start(plan, w), accounts, script);
    RunEntitiesKeeps(m, plan, Start(plan, w), accounts, script, inv);
    var r2 := RunBindings(m, plan, r1, accountBindings, script);
    RunBindingsKeeps(m, plan, r1, accountBindings, script, inv);
    var r3 := RunEntities(m, plan, r2, |plan.changes|, script);
    RunEntitiesKeeps(m, plan, r2, |plan.changes|, script, inv);
    RunBindingsKeeps(m, plan, r3, |plan.bindings|, script, inv);
  }

  lemma BindingLeavesNetwork(m: Manifest, plan: Plan, r: Run, script: Script)
    requires BindingReady(m, plan, r)
    ensures StepBinding(m, plan, r, script).world.net == r.world.net
  {
  }

  /** The network part of what an apply starts from. */
  ghost predicate NetReady(m: Manifest, ord: seq<nat>, w: World, plan: Plan) {
    && NetworkAccepted(m) && SegmentOrder(m.segments, ord) && NetWellFormed(w.net)
    && plan.network == NetworkItems(m, ord, w.net)
  }

  /** How much of the network plan is on the server: what was looked at, and possibly the write that seemed to fail. */
  ghost predicate NetDone(m: Manifest, t0: NetState, plan: Plan, r: Run, n: nat) {
    && (n == r.item || (r.stop != Running && n == r.item + 1))
    && NetOnTrack(m, t0, plan.network, r.network, r.world.net, n)
  }

  ghost predicate NetSound(m: Manifest, t0: NetState, plan: Plan, r: Run) {
    NetDone(m, t0, plan, r, r.item) || NetDone(m, t0, plan, r, r.item + 1)
  }

  lemma NetStartsOnTrack(m: Manifest, ord: seq<nat>, t: NetState)
    requires Permutation(ord, |m.segments|) && NetWellFormed(t)
    ensures var items := NetworkItems(m, ord, t); NetOnTrack(m, t, items, items, t, 0)
  {
    var items := NetworkItems(m, ord, t);
    NetworkItemsAreListed(m, ord, t);
    forall k | 0 <= k < |items| ensures PlannedFrom(m, items[k], t) && ItemOnTrack(m, t, t, items[k], items[k], false) {
      ItemOfEach(m, ord, t, k);
    }
  }

  lemma NetworkEndsOnTrack(m: Manifest, ord: seq<nat>, plan: Plan, r: Run, script: Script)
    requires NetReady(m, ord, r.world, plan) && Runnable(m, plan, r) && r.network == plan.network && r.item == 0
    ensures NetSound(m, r.world.net, plan, RunNetwork(m, plan, r, script))
  {
    var t0 := r.world.net;
    NetStartsOnTrack(m, ord, t0);
    var inv := (x: Run) => NetSound(m, t0, plan, x);
    forall x: Run | Runnable(m, plan, x) && inv(x) && x.stop == Running && x.item < |plan.network|
      ensures inv(StepNetwork(m, x, script))
    {
      StepNetworkIsNetSound(m, t0, plan, x, script);
    }
    RunNetworkKeeps(m, plan, r, script, inv);
  }

  lemma StepNetworkIsNetSound(m: Manifest, t0: NetState, plan: Plan, r: Run, script: Script)
    requires NetworkAccepted(m) && NetSound(m, t0, plan, r) && r.stop == Running && ItemReady(m, r)
    ensures NetSound(m, t0, plan, StepNetwork(m, r, script))
  {
    StepNetworkKeepsTrack(m, t0, plan.network, r, script);
    StoppedStepLeavesTrack(m, t0, plan.network, r, script);
    ItemFields(m, r, script);
  }

  /** Every run, stopped or not, leaves each network object as written or as planned. */
  lemma EveryRunIsNetSound(m: Manifest, ord: seq<nat>, plan: Plan, w: World, script: Script)
    requires Fits(m, plan) && NetReady(m, ord, w, plan)
    ensures NetSound(m, w.net, plan, ApplyRun(m, plan, w, script))
  {
    IdentityLeavesNetwork(m, plan, w, script);
    NetworkEndsOnTrack(m, ord, plan, RunIdentity(m, plan, w, script), script);
  }

  lemma WholeRunNetwork(m: Manifest, ord: seq<nat>, plan: Plan, w: World, script: Script)
    requires Fits(m, plan) && NetReady(m, ord, w, plan) && ApplyRun(m, plan, w, script).stop == Running
    ensures var r := ApplyRun(m, plan, w, script);
      NetOnTrack(m, w.net, plan.network, r.network, r.world.net, |plan.network|)
  {
    EveryRunIsNetSound(m, ord, plan, w, script);
    RunsToTheEnd(m, plan, w, script);
  }

  // ----- The new plan's network part -----

  /** Two plans of one manifest list the same objects, whatever they decide. */
  predicate SamePlace(a: NetItem, b: NetItem) {
    match a
    case PolicyItem(_, cap, _) => b.PolicyItem? && b.cap == cap
    case SegmentItem(_, spec, _, _) => b.SegmentItem? && b.spec == spec
    case ProfileItem(_, spec, profile, _, _) => b.ProfileItem? && b.spec == spec && b.profile == profile
  }

  lemma {:induction false} SameProfiles(m: Manifest, ord: seq<nat>, t: NetState, t': NetState, n: nat)
    requires n <= |ord| && forall k :: 0 <= k < |ord| ==> ord[k] < |m.segments|
    ensures var a, b := ProfileItems(m, ord, t, n), ProfileItems(m, ord, t', n);
      |a| == |b| && forall k :: 0 <= k < |a| ==> SamePlace(a[k], b[k])
    decreases n
  {
    if n > 0 { SameProfiles(m, ord, t, t', n - 1); }
  }

  lemma SamePlaces(m: Manifest, ord: seq<nat>, t: NetState, t': NetState)
    requires Permutation(ord, |m.segments|)
    ensures var a, b := NetworkItems(m, ord, t), NetworkItems(m, ord, t');
      |a| == |b| && forall k :: 0 <= k < |a| ==> SamePlace(a[k], b[k])
  {
    SameProfiles(m, ord, t, t', |ord|);
    var a, b := NetworkItems(m, ord, t), NetworkItems(m, ord, t');
    var i, j := |PolicyItems(m, t)|, |PolicyItems(m, t)| + |ord|;
    forall k | 0 <= k < |a| ensures SamePlace(a[k], b[k]) {
      ItemOfEach(m, ord, t, k);
      ItemOfEach(m, ord, t', k);
      if k >= j { assert SamePlace(ProfileItems(m, ord, t, |ord|)[k - j], ProfileItems(m, ord, t', |ord|)[k - j]); }
    }
  }

  /** When an object planned on t0 needs nothing after the apply. */
  predicate ItemConverges(m: Manifest, item: NetItem, t0: NetState, cap: int)
    requires ItemFits(m, item)
  {
    item.ProfileItem? && item.action == Unchanged ==> ReadAsStated(m, item, t0, cap)
  }

  /** After n items: a new plan has nothing to do for those that converge, and the others as planned. */
  lemma NetworkReplans(m: Manifest, ord: seq<nat>, t0: NetState, now: seq<NetItem>, t: NetState, n: nat, k: nat)
    requires Permutation(ord, |m.segments|)
    requires NetOnTrack(m, t0, NetworkItems(m, ord, t0), now, t, n) && k < |NetworkItems(m, ord, t0)|
    ensures |NetworkItems(m, ord, t)| == |NetworkItems(m, ord, t0)| && ItemFits(m, NetworkItems(m, ord, t0)[k])
    ensures k < n ==> (NetworkItems(m, ord, t)[k].action == Unchanged <==> ItemConverges(m, NetworkItems(m, ord, t0)[k], t0, t.cap))
    ensures k >= n ==> StillPlanned(m, NetworkItems(m, ord, t0)[k], t0, NetworkItems(m, ord, t)[k], t)
  {
    var items := NetworkItems(m, ord, t0);
    SamePlaces(m, ord, t0, t);
    ItemOfEach(m, ord, t, k);
    ItemOfEach(m, ord, t0, k);
    if k >= n {
      ReplannedAsBefore(m, t0, items, now, t, n, k, NetworkItems(m, ord, t)[k]);
    } else {
      match items[k]
      case PolicyItem(_, _, _) => ReplannedPolicy(m, t0, items, now, t, n, k);
      case SegmentItem(_, _, _, _) => ReplannedSegment(m, t0, items, now, t, n, k);
      case ProfileItem(_, _, _, _, _) => ReplannedProfile(m, t0, items, now, t, n, k);
    }
  }

  /** What a new plan says about the network after n items of the old one. */
  ghost predicate NetworkResumes(m: Manifest, ord: seq<nat>, t0: NetState, t: NetState, n: nat)
    requires Permutation(ord, |m.segments|)
  {
    var items, again := NetworkItems(m, ord, t0), NetworkItems(m, ord, t);
    && |again| == |items| && n <= |items|
    && forall k :: 0 <= k < |items| ==>
         && ItemFits(m, items[k])
         && (k < n ==> (again[k].action == Unchanged <==> ItemConverges(m, items[k], t0, t.cap)))
         && (k >= n ==> StillPlanned(m, items[k], t0, again[k], t))
  }

  /**
   * Wherever a run stops, a new plan lists the same network objects: those before the stop with
   * nothing to do but for profiles a new cap uncovers, those after it as planned, and the one it
   * stopped at either way.
   */
  lemma EveryRunResumesNetwork(m: Manifest, ord: seq<nat>, w: World, plan: Plan, script: Script) returns (n: nat)
    requires Fits(m, plan) && NetReady(m, ord, w, plan)
    ensures var r := ApplyRun(m, plan, w, script);
      && (n == r.item || (r.stop != Running && n == r.item + 1)) && NetworkResumes(m, ord, w.net, r.world.net, n)
  {
    var r := ApplyRun(m, plan, w, script);
    EveryRunIsNetSound(m, ord, plan, w, script);
    n := if NetDone(m, w.net, plan, r, r.item) then r.item else r.item + 1;
    SamePlaces(m, ord, w.net, r.world.net);
    forall k | 0 <= k < |plan.network|
      ensures ItemFits(m, plan.network[k])
      ensures k < n ==> (NetworkItems(m, ord, r.world.net)[k].action == Unchanged <==> ItemConverges(m, plan.network[k], w.net, r.world.net.cap))
      ensures k >= n ==> StillPlanned(m, plan.network[k], w.net, NetworkItems(m, ord, r.world.net)[k], r.world.net)
    {
      NetworkReplans(m, ord, w.net, r.network, r.world.net, n, k);
    }
  }

  /** Once its item is done, the cap is the declared one; without one, nothing moves it. */
  lemma CapIsDeclared(m: Manifest, ord: seq<nat>, t0: NetState, now: seq<NetItem>, t: NetState)
    requires Permutation(ord, |m.segments|)
    requires NetOnTrack(m, t0, NetworkItems(m, ord, t0), now, t, |NetworkItems(m, ord, t0)|)
    ensures t.cap == m.policy.GetOr(t0.cap)
  {
    var items := NetworkItems(m, ord, t0);
    if m.policy.Some? {
      ItemOfEach(m, ord, t0, 0);
      assert ItemOnTrack(m, t0, t, items[0], now[0], true);
    } else {
      forall k | 0 <= k < |items| ensures !items[k].PolicyItem? {
        ItemOfEach(m, ord, t0, k);
      }
    }
  }

  // ----- The whole plan -----

  /** A plan that would send nothing. */
  ghost predicate NothingToDo(m: Manifest, ord: seq<nat>, segs: seq<nat>, w: World)
    requires DerivedOrder(m.entities, ord) && RefsValid(m.entities) && Permutation(segs, |m.segments|)
  {
    var cs := ChangesOn(m.entities, ord, w.dir);
    var bs := BindingsOn(m.entities, cs, w.dir, BindingRefs(m.entities));
    var ns := NetworkItems(m, segs, w.net);
    && (forall k :: 0 <= k < |cs| ==> cs[k].action == Unchanged)
    && (forall k :: 0 <= k < |bs| ==> bs[k].action == Unchanged)
    && (forall k :: 0 <= k < |ns| ==> ns[k].action == Unchanged)
  }

  lemma NetworkItemsAllConverge(m: Manifest, segs: seq<nat>, t0: NetState, now: seq<NetItem>, t: NetState)
    requires Permutation(segs, |m.segments|)
    requires NetOnTrack(m, t0, NetworkItems(m, segs, t0), now, t, |NetworkItems(m, segs, t0)|)
    ensures AllUnchanged(NetworkItems(m, segs, t)) <==> AllConverge(m, NetworkItems(m, segs, t0), t0, t.cap)
  {
    SamePlaces(m, segs, t0, t);
    forall k | 0 <= k < |NetworkItems(m, segs, t0)|
      ensures NetworkItems(m, segs, t)[k].action == Unchanged <==> ItemConverges(m, NetworkItems(m, segs, t0)[k], t0, t.cap)
    {
      NetworkReplans(m, segs, t0, now, t, |NetworkItems(m, segs, t0)|, k);
    }
  }

  ghost predicate AllUnchanged(items: seq<NetItem>) {
    forall k :: 0 <= k < |items| ==> items[k].action == Unchanged
  }

  lemma NothingToDoIff(m: Manifest, ord: seq<nat>, segs: seq<nat>, w: World)
    requires DerivedOrder(m.entities, ord) && RefsValid(m.entities) && Permutation(segs, |m.segments|)
    requires Settled(m.entities, ord, w.dir)
    ensures NothingToDo(m, ord, segs, w)
       <==> (forall i :: 0 <= i < |m.entities| ==> !Stuck(m.entities[i])) && AllUnchanged(NetworkItems(m, segs, w.net))
  {
    SettledAllUnchangedIff(m.entities, ord, w.dir);
  }

  ghost predicate AllConverge(m: Manifest, items: seq<NetItem>, t0: NetState, cap: int)
    requires forall k :: 0 <= k < |items| ==> ItemFits(m, items[k])
  {
    forall k :: 0 <= k < |items| ==> ItemConverges(m, items[k], t0, cap)
  }

  /**
   * The acceptance test of the manifest: apply, then plan, and nothing is left to do.  It holds
   * exactly when each kind something is created of fits a page, no entity's drift is beyond an update,
   * and every profile that was left alone is read with its stated timeout under the declared cap.
   */
  lemma ApplyThenPlan(m: Manifest, ord: seq<nat>, segs: seq<nat>, w: World, plan: Plan, script: Script)
    requires Prepared(m, ord, w, plan) && NetReady(m, segs, w, plan) && ApplyRun(m, plan, w, script).stop == Running
    ensures NothingToDo(m, ord, segs, ApplyRun(m, plan, w, script).world)
       <==> Room(m.entities, ord, plan.changes, w.dir, |ord|)
            && (forall i :: 0 <= i < |m.entities| ==> !Stuck(m.entities[i]))
            && AllConverge(m, plan.network, w.net, m.policy.GetOr(w.net.cap))
  {
    var r := ApplyRun(m, plan, w, script);
    ApplyConvergesIff(m, ord, w, plan, script);
    WholeRunNetwork(m, segs, plan, w, script);
    CapIsDeclared(m, segs, w.net, r.network, r.world.net);
    NetworkItemsAllConverge(m, segs, w.net, r.network, r.world.net);
    if Room(m.entities, ord, plan.changes, w.dir, |ord|) {
      NothingToDoIff(m, ord, segs, r.world);
    } else {
      var p := OverfullIsCreatedAgain(m, ord, w, plan, script);
      assert ChangesOn(m.entities, ord, r.world.dir)[p].action == Create;
    }
  }

  // ----- No failure of the client's own making -----

  ghost predicate NetKnown(m: Manifest, t0: NetState, plan: Plan, r: Run) {
    && r.stop != Unresolved
    && (r.stop == Running ==> NetOnTrack(m, t0, plan.network, r.network, r.world.net, r.item) && AppliedKnown(r.network, r.item))
  }

  lemma StepKnowsApplied(m: Manifest, r: Run, script: Script)
    requires r.stop == Running && ItemReady(m, r) && AppliedKnown(r.network, r.item) && script(|r.world.trace|) != AcceptBare
    ensures var r' := StepNetwork(m, r, script);
      && (r'.stop == Running ==> AppliedKnown(r'.network, r'.item))
      && (r'.stop == Unresolved <==> r.network[r.item].action != Unchanged && NetworkCall(m, r.network, r.item).None?)
  {
  }

  lemma StepNetworkKeepsKnown(m: Manifest, t0: NetState, plan: Plan, r: Run, script: Script)
    requires NetworkAccepted(m) && BodiesAlways(script) && NetKnown(m, t0, plan, r) && r.stop == Running && ItemReady(m, r)
    ensures NetKnown(m, t0, plan, StepNetwork(m, r, script))
  {
    StepNetworkKeepsTrack(m, t0, plan.network, r, script);
    assert script(|r.world.trace|) != AcceptBare;
    StepKnowsApplied(m, r, script);
    if r.network[r.item].action != Unchanged {
      WritesAreNeverStale(m, t0, plan.network, r.network, r.world.net, r.item);
    }
  }

  /**
   * For an accepted manifest and answers that carry their bodies, an apply never stops for want of an
   * id: not for a binding, whatever keys collide, and not for a profile's segment.
   */
  lemma NeverUnresolved(m: Manifest, ord: seq<nat>, segs: seq<nat>, w: World, plan: Plan, script: Script)
    requires EntitiesAccepted(m.entities) && DerivedOrder(m.entities, ord) && RefsValid(m.entities)
    requires PlannedOn(m.entities, ord, w.dir, plan) && Fits(m, plan) && NetReady(m, segs, w, plan) && BodiesAlways(script)
    ensures ApplyRun(m, plan, w, script).stop != Unresolved
  {
    PlannedIdsAreKnown(m.entities, ord, w.dir, plan);
    BindingsNeverUnresolved(m, ord, plan, w, script);
    IdentityLeavesNetwork(m, plan, w, script);
    NetworkNeverUnresolved(m, segs, plan, RunIdentity(m, plan, w, script), script);
  }

  lemma PlannedIdsAreKnown(es: seq<Entity>, ord: seq<nat>, d: Directory, plan: Plan)
    requires DerivedOrder(es, ord) && RefsValid(es) && PlannedOn(es, ord, d, plan)
    ensures PlannedIdsKnown(plan) && InOrder(es, ord, plan.changes)
  {
    forall p | 0 <= p < |plan.changes| && plan.changes[p].action != Create ensures plan.changes[p].id.Some? {
      DecisionShape(es[ord[p]], d);
      assert DecideOn(es[ord[p]], d).Decided?;
    }
  }

  lemma NetworkNeverUnresolved(m: Manifest, segs: seq<nat>, plan: Plan, r: Run, script: Script)
    requires NetReady(m, segs, r.world, plan) && Runnable(m, plan, r) && r.network == plan.network && r.item == 0
    requires BodiesAlways(script) && r.stop != Unresolved
    ensures RunNetwork(m, plan, r, script).stop != Unresolved
  {
    var t0 := r.world.net;
    NetStartsOnTrack(m, segs, t0);
    var inv := (x: Run) => NetKnown(m, t0, plan, x);
    forall x: Run | Runnable(m, plan, x) && inv(x) && x.stop == Running && x.item < |plan.network|
      ensures inv(StepNetwork(m, x, script))
    {
      StepNetworkKeepsKnown(m, t0, plan, x, script);
    }
    RunNetworkKeeps(m, plan, r, script, inv);
  }
}
