/** Where a second plan is not empty: an apply that raises the cap uncovers a timeout it left alone. */
module LooseCap {
  import opened Basics
  import opened Manifest
  import opened Directory
  import opened Planning
  import opened Network
  import opened Wire
  import opened Applying
  import opened NetPlanning
  import opened NetPlanner
  import opened Convergence
  import opened MakePlan
  import opened PlanApplyPlan

  const LAN := SegmentSpec("lan", "hq", "access", "floor", 10, Unstated, None, Unstated)
  const LAN_READ := Segment(0, "hq", Access, "floor", 10, None, [], true, 1)

  /** One segment, its timeout stated as the cap there is, and a higher cap. */
  function Raising(cap: int, raised: int): Manifest {
    Manifest([], [LAN], [ProfileSpec("lan", cap, None, Unstated, Unstated, Unstated)], Some(raised))
  }

  /** The server holds more than the cap shows. */
  function Covering(cap: int, stored: int): World {
    World(Directory(map[], map[], 0),
          NetState(cap, 1, [LAN_READ], [ProfileRow(0, Profile(stored, DEFAULT_DICTIONARY, RadiusRequest, None, None, None, 1))], 1),
          [])
  }

  function RaisingPlan(cap: int, raised: int, stored: int): Plan {
    Plan([], [], NetworkItems(Raising(cap, raised), [0], Covering(cap, stored).net))
  }

  lemma RaisingItems(cap: int, raised: int, stored: int)
    requires cap < raised && cap < stored
    ensures var items := RaisingPlan(cap, raised, stored).network;
      && |items| == 3 && items[0] == PolicyItem(Update, raised, 1)
      && items[1] == SegmentItem(Unchanged, 0, Some(LAN_READ), None)
      && items[2].ProfileItem? && items[2].action == Unchanged && items[2].spec == 0 && items[2].profile == 0
  {
    var m, t := Raising(cap, raised), Covering(cap, stored).net;
    assert FindSegment(t.segments, LAN, 0) == Some(0);
    assert ProfileAt(t.profiles, 0, 0) == Some(0);
    assert ProfileSpecFor(m.profiles, "lan", 0) == Some(0);
    assert ProfileItems(m, [0], t, 1) == [ProfileItemFor(m, 0, 0, t)];
  }

  /** A manifest of one segment and nothing else is planned as its network part. */
  lemma NetworkAlone(m: Manifest, w: World, plan: Plan)
    requires m.entities == [] && |m.segments| == 1 && NoneRefused(m, [0], w.net, 1)
    requires plan == Plan([], [], NetworkItems(m, [0], w.net))
    ensures PlanOf(m, w, [], plan) && Fits(m, plan)
  {
    assert SegmentOrder(m.segments, [0]);
    NetworkItemsAreListed(m, [0], w.net);
  }

  lemma RaisingIsNotRefused(cap: int, raised: int, stored: int)
    requires cap < raised && cap < stored
    ensures NoneRefused(Raising(cap, raised), [0], Covering(cap, stored).net, 1)
  {
    var m, t := Raising(cap, raised), Covering(cap, stored).net;
    RaisingItems(cap, raised, stored);
    assert ProfileSpecFor(m.profiles, "lan", 0) == Some(0);
    assert ProfileItems(m, [0], t, 1) == [ProfileItemFor(m, 0, 0, t)];
  }

  lemma RaisingIsWorkable(cap: int, raised: int, stored: int)
    ensures Workable(Raising(cap, raised), Covering(cap, stored))
  {
    var m := Raising(cap, raised);
    assert m.segments[0].key == "lan";
  }

  lemma RaisingIsPlanned(cap: int, raised: int, stored: int)
    requires cap < raised && cap < stored
    ensures PlanOf(Raising(cap, raised), Covering(cap, stored), [], RaisingPlan(cap, raised, stored))
    ensures Fits(Raising(cap, raised), RaisingPlan(cap, raised, stored))
  {
    RaisingIsNotRefused(cap, raised, stored);
    NetworkAlone(Raising(cap, raised), Covering(cap, stored), RaisingPlan(cap, raised, stored));
  }

  lemma RaisingRuns(cap: int, raised: int, stored: int, script: Script)
    requires cap < raised && cap < stored && script(0) == Accept && Fits(Raising(cap, raised), RaisingPlan(cap, raised, stored))
    ensures ApplyRun(Raising(cap, raised), RaisingPlan(cap, raised, stored), Covering(cap, stored), script).stop == Running
  {
    var m, w, plan := Raising(cap, raised), Covering(cap, stored), RaisingPlan(cap, raised, stored);
    RaisingItems(cap, raised, stored);
    var r0 := Start(plan, w);
    assert RunIdentity(m, plan, w, script) == r0;
    var r1 := StepNetwork(m, r0, script);
    assert r1.stop == Running && r1.item == 1 && r1.network == plan.network;
    assert RunNetwork(m, plan, r0, script) == RunNetwork(m, plan, r1, script);
    var r2 := StepNetwork(m, r1, script);
    assert r2.stop == Running && r2.item == 2 && r2.network == plan.network;
    assert RunNetwork(m, plan, r1, script) == RunNetwork(m, plan, r2, script);
    var r3 := StepNetwork(m, r2, script);
    assert r3.stop == Running && r3.item == 3;
    assert RunNetwork(m, plan, r2, script) == r3;
  }

  /** A plan, an apply that returns OK, and every plan after it has something to do. */
  ghost predicate ComesLoose(m: Manifest, w: World, plan: Plan, script: Script) {
    && PlanOf(m, w, [], plan) && Workable(m, w) && Fits(m, plan) && ApplyRun(m, plan, w, script).stop == Running
    && forall ord, again :: PlanOf(m, ApplyRun(m, plan, w, script).world, ord, again) ==> !NonePending(again)
  }

  lemma UncoveredComesLoose(m: Manifest, w: World, plan: Plan, script: Script, k: nat)
    requires PlanOf(m, w, [], plan) && Workable(m, w) && Fits(m, plan) && ApplyRun(m, plan, w, script).stop == Running
    requires k < |plan.network| && !ItemConverges(m, plan.network[k], w.net, m.policy.GetOr(w.net.cap))
    ensures ComesLoose(m, w, plan, script)
  {
    var w' := ApplyRun(m, plan, w, script).world;
    forall ord, again | PlanOf(m, w', ord, again) ensures !NonePending(again) {
      SecondPlanIsEmptyIff(m, w, [], plan, script, w', ord, again);
    }
  }

  lemma RaisingUncovers(cap: int, raised: int, stored: int)
    requires cap < raised && cap < stored && Fits(Raising(cap, raised), RaisingPlan(cap, raised, stored))
    ensures var m, w, items := Raising(cap, raised), Covering(cap, stored), RaisingPlan(cap, raised, stored).network;
      |items| == 3 && !ItemConverges(m, items[2], w.net, m.policy.GetOr(w.net.cap))
  {
    RaisingItems(cap, raised, stored);
  }

  /** A timeout stored above the cap and stated as the cap, and a manifest that raises the cap. */
  lemma RaisedCapComesLoose(cap: int, raised: int, stored: int, script: Script)
    requires cap < raised && cap < stored && script(0) == Accept
    ensures ComesLoose(Raising(cap, raised), Covering(cap, stored), RaisingPlan(cap, raised, stored), script)
  {
    RaisingIsPlanned(cap, raised, stored);
    RaisingIsWorkable(cap, raised, stored);
    RaisingRuns(cap, raised, stored, script);
    RaisingUncovers(cap, raised, stored);
    UncoveredComesLoose(Raising(cap, raised), Covering(cap, stored), RaisingPlan(cap, raised, stored), script, 2);
  }
}
