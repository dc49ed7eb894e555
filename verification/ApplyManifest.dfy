/** axiam_mgmt_apply() from end to end: make a plan, carry it out. */
module ApplyManifest {
  import opened Manifest
  import opened Wire
  import opened Applying
  import opened Reports
  import opened Resuming
  import opened NetPlanning
  import opened NetTracking
  import opened Engine
  import opened MakePlan

  lemma MadePlanFits(m: Manifest, w: World, ord: seq<nat>, plan: Plan)
    requires PlanOf(m, w, ord, plan) && NetWellFormed(w.net)
    ensures Fits(m, plan)
  {
    var segs :| SegmentOrder(m.segments, segs) && plan.network == NetworkItems(m, segs, w.net);
    NetworkItemsAreListed(m, segs, w.net);
    PlansFit(m, ord, w.dir, plan);
  }

  /** The server is where the run of the plan leaves it, and the report, if any, says how it went. */
  ghost predicate CarriedThrough(m: Manifest, plan: Plan, before: World, script: Script, after: World, ok: bool, report: ApplyReport?)
    reads report
  {
    && Fits(m, plan)
    && var r := ApplyRun(m, plan, before, script);
       after == r.world && ok == (r.stop == Running) && Counted(plan, before, r) && (report != null ==> report.Value() == ReportOf(plan, r))
  }

  /** A plan, put on the heap and carried out. */
  method CarryOut(client: Client, m: Manifest, plan: Plan, report: ApplyReport?) returns (ok: bool)
    requires Fits(m, plan)
    modifies client, report
    ensures CarriedThrough(m, plan, old(client.world), client.script, client.world, ok, report)
  {
    var active := new ActivePlan(plan);
    ok := Apply(client, m, active, report);
  }

  /** No report has anything in it yet. */
  ghost predicate Blank(report: ApplyReport?)
    reads report
  {
    report != null ==> report.Value() == Report(0, -1, 0, 0, -1, 0, 0, -1, 0, false, false, [])
  }

  /**
   * Whatever stops the planning, nothing has been sent and the report is blank; once there is a plan,
   * what is sent is that plan's run and nothing else.
   */
  method ApplyManifest(client: Client, m: Manifest, report: ApplyReport?, memory: nat -> bool) returns (a: Answered, ok: bool)
    requires NetWellFormed(client.world.net)
    modifies client, report
    ensures !a.Planned? ==> !ok && client.world == old(client.world) && Blank(report)
    ensures a.Planned? ==> PlanOf(m, old(client.world), a.ord, a.plan)
    ensures a.Planned? ==> CarriedThrough(m, a.plan, old(client.world), client.script, client.world, ok, report)
  {
    if report != null { report.Reset(); }
    a := Make(client, m, memory);
    ok := false;
    if a.Planned? { ok := CarryOutMade(client, m, a.ord, a.plan, report); }
  }

  method CarryOutMade(client: Client, m: Manifest, ord: seq<nat>, plan: Plan, report: ApplyReport?) returns (ok: bool)
    requires PlanOf(m, client.world, ord, plan) && NetWellFormed(client.world.net)
    modifies client, report
    ensures CarriedThrough(m, plan, old(client.world), client.script, client.world, ok, report)
  {
    MadePlanFits(m, client.world, ord, plan);
    ok := CarryOut(client, m, plan, report);
  }
}
