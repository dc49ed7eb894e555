/** axiam_mgmt_apply() as it is written: five loops over a plan's arrays, a report filled on the way out. */
module Engine {
  import opened Basics
  import opened Manifest
  import opened Directory
  import opened Planning
  import opened Wire
  import opened Applying
  import opened Runs
  import opened Reports

  /** A plan on the heap: an apply fills in ids and versions as its writes land. */
  class ActivePlan {
    const changes: array<Change>
    const bindings: seq<PlannedBinding>
    const network: array<NetItem>

    constructor (plan: Plan)
      ensures Value() == plan && fresh(changes) && fresh(network)
    {
      changes := new Change[|plan.changes|](i requires 0 <= i < |plan.changes| => plan.changes[i]);
      bindings := plan.bindings;
      network := new NetItem[|plan.network|](i requires 0 <= i < |plan.network| => plan.network[i]);
      new;
      assert changes[..] == plan.changes;
      assert network[..] == plan.network;
    }

    function Value(): Plan
      reads changes, network
    {
      Plan(changes[..], bindings, network[..])
    }
  }

  /** The report a caller may pass in. */
  class ApplyReport {
    var applied: nat
    var failed: int
    var remaining: nat
    var bindingsApplied: nat
    var failedBinding: int
    var bindingsRemaining: nat
    var networkApplied: nat
    var failedNetwork: int
    var networkRemaining: nat
    var restoreAttempted: bool
    var restoreSucceeded: bool
    var secrets: seq<string>

    constructor ()
      ensures Value() == Report(0, 0, 0, 0, 0, 0, 0, 0, 0, false, false, [])
    {
      applied, failed, remaining := 0, 0, 0;
      bindingsApplied, failedBinding, bindingsRemaining := 0, 0, 0;
      networkApplied, failedNetwork, networkRemaining := 0, 0, 0;
      restoreAttempted, restoreSucceeded, secrets := false, false, [];
    }

    function Value(): Report
      reads this
    {
      Report(applied, failed, remaining, bindingsApplied, failedBinding, bindingsRemaining,
             networkApplied, failedNetwork, networkRemaining, restoreAttempted, restoreSucceeded, secrets)
    }

    method Reset()
      modifies this
      ensures Value() == Report(0, -1, 0, 0, -1, 0, 0, -1, 0, false, false, [])
    {
      applied, failed, remaining := 0, -1, 0;
      bindingsApplied, failedBinding, bindingsRemaining := 0, -1, 0;
      networkApplied, failedNetwork, networkRemaining := 0, -1, 0;
      restoreAttempted, restoreSucceeded, secrets := false, false, [];
    }
  }

  /** How many changes after `from` would still have been sent. */
  method CountChanges(plan: ActivePlan, from: nat) returns (left: nat)
    requires from <= plan.changes.Length
    ensures left == |EntityTargets(plan.changes[..], from, plan.changes.Length)|
  {
    left := 0;
    for j := from to plan.changes.Length
      invariant left == |EntityTargets(plan.changes[..], from, j)|
    {
      if plan.changes[j].action != Unchanged { left := left + 1; }
    }
  }

  method CountBindings(plan: ActivePlan, from: nat) returns (left: nat)
    requires from <= |plan.bindings|
    ensures left == |BindingTargets(plan.bindings, from, |plan.bindings|)|
  {
    left := 0;
    for j := from to |plan.bindings|
      invariant left == |BindingTargets(plan.bindings, from, j)|
    {
      if plan.bindings[j].action != Unchanged { left := left + 1; }
    }
  }

  method CountItems(plan: ActivePlan, from: nat) returns (left: nat)
    requires from <= plan.network.Length
    ensures left == |NetworkTargets(plan.network[..], from, plan.network.Length)|
  {
    left := 0;
    for j := from to plan.network.Length
      invariant left == |NetworkTargets(plan.network[..], from, j)|
    {
      if plan.network[j].action != Unchanged { left := left + 1; }
    }
  }

  /** The targets depend on the actions alone, and a run changes none. */
  lemma {:induction false} SameEntityTargets(a: seq<Change>, b: seq<Change>, lo: nat, hi: nat)
    requires lo <= hi <= |a| && |a| == |b| && forall k :: 0 <= k < |a| ==> a[k].action == b[k].action
    ensures EntityTargets(a, lo, hi) == EntityTargets(b, lo, hi)
    decreases hi
  {
    if lo < hi { SameEntityTargets(a, b, lo, hi - 1); }
  }

  lemma {:induction false} SameNetworkTargets(a: seq<NetItem>, b: seq<NetItem>, lo: nat, hi: nat)
    requires lo <= hi <= |a| && |a| == |b| && forall k :: 0 <= k < |a| ==> a[k].action == b[k].action
    ensures NetworkTargets(a, lo, hi) == NetworkTargets(b, lo, hi)
    decreases hi
  {
    if lo < hi { SameNetworkTargets(a, b, lo, hi - 1); }
  }

  /** The loop variables, the plan and the server as one run. */
  ghost predicate Mirrors(plan: ActivePlan, client: Client, r: Run)
    reads plan.changes, plan.network, client
  {
    client.world == r.world && plan.changes[..] == r.changes && plan.network[..] == r.network
  }

  /** perform(): one entity write, its id written back. */
  method Perform(client: Client, m: Manifest, plan: ActivePlan, k: nat, ghost r: Run) returns (ok: bool, secret: bool)
    requires Mirrors(plan, client, r) && r.entity == k && r.stop == Running && EntityReady(m, r)
    requires plan.changes[k].action != Unchanged
    modifies client, plan.changes
    ensures Mirrors(plan, client, StepEntity(m, r, client.script))
    ensures ok == (StepEntity(m, r, client.script).stop == Running)
    ensures StepEntity(m, r, client.script).secrets
         == if secret then r.secrets + [m.entities[r.changes[k].entity].key] else r.secrets
  {
    var c := plan.changes[k];
    var e := m.entities[c.entity];
    var reply := client.Send(EntityCall(m.entities, plan.changes[..], k));
    ok := reply.Answer?;
    secret := ok && e.kind == ServiceAccount && c.action == Create && reply.body.Some?;
    if ok && c.action == Create && reply.body.Some? {
      plan.changes[k] := c.(id := Some(reply.body.value.0));
    }
  }

  /** What a report shows while the run goes on: the restore flags and the one-time secrets, nothing else yet. */
  ghost predicate InReport(report: ApplyReport?, r: Run)
    reads report
  {
    report != null ==>
      report.Value() == Report(0, -1, 0, 0, -1, 0, 0, -1, 0, r.restoreAttempted, r.restoreSucceeded, r.secrets)
  }

  /** The calls of perform_binding(): one assign, or unassign and assign with a restore when the assign fails. */
  method SendBinding(client: Client, subject: Id, role: Id, resource: Option<Id>, inherit: bool, pb: PlannedBinding,
                     report: ApplyReport?)
    returns (ok: bool)
    modifies client, report
    ensures var b := WriteBinding(old(client.world), subject, role, resource, inherit, pb, client.script);
      && client.world == b.world && ok == b.ok
      && (report != null ==> report.Value() == old(report.Value()).(
            restoreAttempted := old(report.restoreAttempted) || b.attempted,
            restoreSucceeded := if b.attempted then b.succeeded else old(report.restoreSucceeded)))
  {
    if pb.action == Update {
      var unassigned := client.Send(OnDirectory(Unassign(role, subject, pb.oldResource)));
      if unassigned.Failure? { return false; }
    }
    var took := client.Send(OnDirectory(AssignCall(role, subject, resource, inherit, pb.oldScope)));
    if took.Failure? && pb.action == Update {
      if report != null { report.restoreAttempted := true; }
      var restored := client.Send(OnDirectory(AssignCall(role, subject, pb.oldResource, pb.oldInherit, pb.oldScope)));
      if report != null { report.restoreSucceeded := restored.Answer?; }
    }
    return took.Answer?;
  }

  predicate Unresolvable(rb: RoleBinding, subject: Option<Id>, role: Option<Id>, resource: Option<Id>) {
    subject.None? || role.None? || (rb.resourceKey.Some? && resource.None?)
  }

  /** What a binding's step is, once its ids are looked up. */
  lemma StepBindingIs(m: Manifest, p: Plan, r: Run, script: Script, subject: Option<Id>, role: Option<Id>, resource: Option<Id>)
    requires BindingReady(m, p, r) && r.stop == Running && p.bindings[r.binding].action != Unchanged
    requires Refers(m.entities, r.changes)
    requires subject == Resolved(m.entities, r.changes, m.entities[p.bindings[r.binding].ref.subject].key)
    requires role == Resolved(m.entities, r.changes, BindingSpec(m, p, r).roleKey)
    requires resource == ResolvedOption(m.entities, r.changes, BindingSpec(m, p, r).resourceKey)
    ensures var r' := StepBinding(m, p, r, script);
      && r'.changes == r.changes && r'.network == r.network && r'.secrets == r.secrets
      && if Unresolvable(BindingSpec(m, p, r), subject, role, resource)
         then r'.world == r.world && r'.stop == Unresolved
              && r'.restoreAttempted == r.restoreAttempted && r'.restoreSucceeded == r.restoreSucceeded
         else
           var b := WriteBinding(r.world, subject.value, role.value, resource, !BindingSpec(m, p, r).inheritFalse, p.bindings[r.binding], script);
           && r'.world == b.world && (r'.stop == Running <==> b.ok)
           && r'.restoreAttempted == (r.restoreAttempted || b.attempted)
           && r'.restoreSucceeded == (if b.attempted then b.succeeded else r.restoreSucceeded)
  {
  }

  function BindingSpec(m: Manifest, p: Plan, r: Run): RoleBinding
    requires BindingReady(m, p, r)
  {
    m.entities[p.bindings[r.binding].ref.subject].roles[p.bindings[r.binding].ref.binding]
  }

  /** perform_binding(): the three ids resolved through the plan, then the calls. */
  method PerformBinding(client: Client, m: Manifest, plan: ActivePlan, report: ApplyReport?, b: nat, ghost p: Plan, ghost r: Run)
    returns (ok: bool)
    requires Mirrors(plan, client, r) && p.bindings == plan.bindings && r.binding == b && r.stop == Running
    requires BindingReady(m, p, r) && Refers(m.entities, plan.changes[..]) && plan.bindings[b].action != Unchanged
    requires InReport(report, r)
    modifies client, report
    ensures Mirrors(plan, client, StepBinding(m, p, r, client.script)) && InReport(report, StepBinding(m, p, r, client.script))
    ensures ok == (StepBinding(m, p, r, client.script).stop == Running)
  {
    var es, pb := m.entities, plan.bindings[b];
    var rb := es[pb.ref.subject].roles[pb.ref.binding];
    var subject := Resolved(es, plan.changes[..], es[pb.ref.subject].key);
    var role := Resolved(es, plan.changes[..], rb.roleKey);
    var resource := ResolvedOption(es, plan.changes[..], rb.resourceKey);
    StepBindingIs(m, p, r, client.script, subject, role, resource);
    if subject.None? || role.None? || (rb.resourceKey.Some? && resource.None?) { return false; }
    ok := SendBinding(client, subject.value, role.value, resource, !rb.inheritFalse, pb, report);
  }

  /** perform_network(): one network write, its response remembered for the profile that follows. */
  method PerformNetwork(client: Client, m: Manifest, plan: ActivePlan, n: nat, ghost r: Run) returns (ok: bool)
    requires Mirrors(plan, client, r) && r.item == n && r.stop == Running && ItemReady(m, r)
    requires plan.network[n].action != Unchanged
    modifies client, plan.network
    ensures Mirrors(plan, client, StepNetwork(m, r, client.script))
    ensures ok == (StepNetwork(m, r, client.script).stop == Running)
  {
    var call := NetworkCall(m, plan.network[..], n);
    if call.None? { return false; }
    var reply := client.Send(call.value);
    ok := reply.Answer?;
    if ok && plan.network[n].SegmentItem? && reply.body.Some? {
      plan.network[n] := plan.network[n].(applied := reply.body);
    }
  }

  /** One entity write, and its one-time secret on the report. */
  method PerformAndReport(client: Client, m: Manifest, plan: ActivePlan, report: ApplyReport?, k: nat, ghost r: Run) returns (ok: bool)
    requires Mirrors(plan, client, r) && r.entity == k && r.stop == Running && EntityReady(m, r) && InReport(report, r)
    requires plan.changes[k].action != Unchanged
    modifies client, plan.changes, report
    ensures Mirrors(plan, client, StepEntity(m, r, client.script)) && InReport(report, StepEntity(m, r, client.script))
    ensures ok == (StepEntity(m, r, client.script).stop == Running)
  {
    EntityLeavesRestore(m, r, client.script);
    var secret;
    ok, secret := Perform(client, m, plan, k, r);
    if secret && report != null {
      report.secrets := report.secrets + [m.entities[plan.changes[k].entity].key];
    }
  }

  lemma EntityLeavesRestore(m: Manifest, r: Run, script: Script)
    requires EntityReady(m, r)
    ensures var r' := StepEntity(m, r, script);
      && r'.restoreAttempted == r.restoreAttempted && r'.restoreSucceeded == r.restoreSucceeded
      && |r'.changes| == |r.changes| && r'.changes[r.entity].entity == r.changes[r.entity].entity
  {
  }

  // ----- The loops -----

  method ApplyEntities(client: Client, m: Manifest, plan: ActivePlan, report: ApplyReport?, lo: nat, hi: nat, already: nat,
                       ghost p: Plan, ghost r0: Run)
    returns (ok: bool, done: nat, at: nat, ghost r: Run)
    requires lo <= hi <= |p.changes| && r0.entity == lo && already == r0.doneEntities
    requires Runnable(m, p, r0) && r0.stop == Running && Mirrors(plan, client, r0) && InReport(report, r0)
    modifies client, plan.changes, report
    ensures r == RunEntities(m, p, r0, hi, client.script) && Mirrors(plan, client, r) && InReport(report, r)
    ensures ok == (r.stop == Running) && done == r.doneEntities && at == r.entity
    ensures if ok then at == hi else r.failedIn == Some(Entities)
    ensures r.binding == r0.binding && r.doneBindings == r0.doneBindings && r.item == r0.item && r.doneNetwork == r0.doneNetwork
  {
    r := r0;
    done, at := already, lo;
    while at < hi
      invariant lo <= at <= hi && r.entity == at && done == r.doneEntities && r.stop == Running
      invariant Runnable(m, p, r) && Mirrors(plan, client, r) && InReport(report, r)
      invariant RunEntities(m, p, r0, hi, client.script) == RunEntities(m, p, r, hi, client.script)
      invariant r.binding == r0.binding && r.doneBindings == r0.doneBindings && r.item == r0.item && r.doneNetwork == r0.doneNetwork
    {
      ghost var next := StepEntity(m, r, client.script);
      StepEntityRunnable(m, p, r, client.script);
      EntityFields(m, r, client.script);
      if plan.changes[at].action != Unchanged {
        var landed := PerformAndReport(client, m, plan, report, at, r);
        r := next;
        if !landed { return false, done, at, r; }
        done := done + 1;
      }
      r := next;
      at := at + 1;
    }
    ok := true;
  }

  method ApplyBindings(client: Client, m: Manifest, plan: ActivePlan, report: ApplyReport?, lo: nat, hi: nat, already: nat,
                       ghost p: Plan, ghost r0: Run)
    returns (ok: bool, done: nat, at: nat, ghost r: Run)
    requires lo <= hi <= |p.bindings| && r0.binding == lo && already == r0.doneBindings && p.bindings == plan.bindings
    requires Runnable(m, p, r0) && r0.stop == Running && Mirrors(plan, client, r0) && InReport(report, r0)
    modifies client, report
    ensures r == RunBindings(m, p, r0, hi, client.script) && Mirrors(plan, client, r) && InReport(report, r)
    ensures ok == (r.stop == Running) && done == r.doneBindings && at == r.binding
    ensures if ok then at == hi else r.failedIn == Some(Bindings)
    ensures r.entity == r0.entity && r.doneEntities == r0.doneEntities && r.item == r0.item && r.doneNetwork == r0.doneNetwork
  {
    r := r0;
    done, at := already, lo;
    while at < hi
      invariant lo <= at <= hi && r.binding == at && done == r.doneBindings && r.stop == Running
      invariant Runnable(m, p, r) && Mirrors(plan, client, r) && InReport(report, r)
      invariant RunBindings(m, p, r0, hi, client.script) == RunBindings(m, p, r, hi, client.script)
      invariant r.entity == r0.entity && r.doneEntities == r0.doneEntities && r.item == r0.item && r.doneNetwork == r0.doneNetwork
    {
      ghost var next := StepBinding(m, p, r, client.script);
      StepBindingRunnable(m, p, r, client.script);
      BindingFields(m, p, r, client.script);
      BindingCount(m, p, r, client.script);
      if plan.bindings[at].action != Unchanged {
        var landed := PerformBinding(client, m, plan, report, at, p, r);
        r := next;
        if !landed { return false, done, at, r; }
        done := done + 1;
      }
      r := next;
      at := at + 1;
    }
    ok := true;
  }

  lemma BindingCount(m: Manifest, p: Plan, r: Run, script: Script)
    requires BindingReady(m, p, r) && r.stop == Running
    ensures var r' := StepBinding(m, p, r, script);
      && r'.doneBindings == (if p.bindings[r.binding].action != Unchanged && r'.stop == Running then r.doneBindings + 1 else r.doneBindings)
      && r'.doneEntities == r.doneEntities && r'.doneNetwork == r.doneNetwork
      && (r'.stop != Running ==> r'.failedIn == Some(Bindings))
      && (p.bindings[r.binding].action == Unchanged ==> r' == r.(binding := r.binding + 1))
  {
  }

  method ApplyNetwork(client: Client, m: Manifest, plan: ActivePlan, ghost p: Plan, ghost r0: Run)
    returns (ok: bool, done: nat, at: nat, ghost r: Run)
    requires r0.item == 0 && r0.doneNetwork == 0
    requires Runnable(m, p, r0) && r0.stop == Running && Mirrors(plan, client, r0)
    modifies client, plan.network
    ensures r == RunNetwork(m, p, r0, client.script) && Mirrors(plan, client, r)
    ensures ok == (r.stop == Running) && done == r.doneNetwork && at == r.item
    ensures !ok ==> r.failedIn == Some(NetworkObjects)
    ensures r.doneEntities == r0.doneEntities && r.doneBindings == r0.doneBindings
    ensures r.restoreAttempted == r0.restoreAttempted && r.restoreSucceeded == r0.restoreSucceeded && r.secrets == r0.secrets
  {
    r := r0;
    done, at := 0, 0;
    while at < plan.network.Length
      invariant at <= |p.network| && r.item == at && done == r.doneNetwork && r.stop == Running
      invariant Runnable(m, p, r) && Mirrors(plan, client, r)
      invariant RunNetwork(m, p, r0, client.script) == RunNetwork(m, p, r, client.script)
      invariant r.restoreAttempted == r0.restoreAttempted && r.restoreSucceeded == r0.restoreSucceeded && r.secrets == r0.secrets
      invariant r.doneEntities == r0.doneEntities && r.doneBindings == r0.doneBindings
    {
      ghost var next := StepNetwork(m, r, client.script);
      StepNetworkRunnable(m, p, r, client.script);
      ItemFields(m, r, client.script);
      if plan.network[at].action != Unchanged {
        var landed := PerformNetwork(client, m, plan, at, r);
        r := next;
        if !landed { return false, done, at, r; }
        done := done + 1;
      }
      r := next;
      at := at + 1;
    }
    ok := true;
  }

  // ----- The whole -----

  /** The failure of one section, on the report: what landed, where it stopped, what was never attempted. */
  method ReportEntityFailure(report: ApplyReport?, plan: ActivePlan, done: nat, at: nat)
    requires at < plan.changes.Length
    modifies report
    ensures report != null ==> report.Value() == old(report.Value()).(
      applied := done, failed := at, remaining := |EntityTargets(plan.changes[..], at + 1, plan.changes.Length)|)
  {
    if report == null { return; }
    report.applied, report.failed := done, at;
    var left := CountChanges(plan, at + 1);
    report.remaining := left;
  }

  method ReportBindingFailure(report: ApplyReport?, plan: ActivePlan, done: nat, at: nat)
    requires at < |plan.bindings|
    modifies report
    ensures report != null ==> report.Value() == old(report.Value()).(
      bindingsApplied := done, failedBinding := at, bindingsRemaining := |BindingTargets(plan.bindings, at + 1, |plan.bindings|)|)
  {
    if report == null { return; }
    report.bindingsApplied, report.failedBinding := done, at;
    var left := CountBindings(plan, at + 1);
    report.bindingsRemaining := left;
  }

  method ReportNetworkFailure(report: ApplyReport?, plan: ActivePlan, done: nat, at: nat)
    requires at < plan.network.Length
    modifies report
    ensures report != null ==> report.Value() == old(report.Value()).(
      networkApplied := done, failedNetwork := at, networkRemaining := |NetworkTargets(plan.network[..], at + 1, plan.network.Length)|)
  {
    if report == null { return; }
    report.networkApplied, report.failedNetwork := done, at;
    var left := CountItems(plan, at + 1);
    report.networkRemaining := left;
  }

  /** A stopped run stays where it is through the phases that follow. */
  lemma StoppedStays(m: Manifest, p: Plan, r: Run, hi: nat, hb: nat, script: Script)
    requires Runnable(m, p, r) && r.stop != Running && hi <= |p.changes| && hb <= |p.bindings|
    ensures RunEntities(m, p, r, hi, script) == r && RunBindings(m, p, r, hb, script) == r && RunNetwork(m, p, r, script) == r
  {
  }

  /** Phases 1 to 4, stopping at the first failure. */
  method IdentityPhases(client: Client, m: Manifest, plan: ActivePlan, report: ApplyReport?, ghost p: Plan)
    returns (ok: bool, failedIn: Section, at: nat, doneEntities: nat, doneBindings: nat, ghost r: Run)
    requires Fits(m, p) && plan.Value() == p && InReport(report, Start(p, client.world))
    modifies client, plan.changes, report
    ensures r == RunIdentity(m, p, old(client.world), client.script) && Mirrors(plan, client, r) && InReport(report, r)
    ensures ok == (r.stop == Running) && doneEntities == r.doneEntities && doneBindings == r.doneBindings
    ensures r.item == 0 && r.doneNetwork == 0
    ensures !ok ==> r.failedIn == Some(failedIn) && failedIn != NetworkObjects
    ensures !ok ==> at == if failedIn == Entities then r.entity else r.binding
  {
    var accounts := FirstAccount(m.entities, plan.changes[..], 0);
    var accountBindings := FirstAccountBinding(m.entities, plan.bindings, 0);
    ghost var script := client.script;
    failedIn, doneBindings := Entities, 0;
    ok, doneEntities, at, r := ApplyEntities(client, m, plan, report, 0, accounts, 0, p, Start(p, client.world));
    if !ok {
      StoppedStays(m, p, r, |p.changes|, accountBindings, script);
      StoppedStays(m, p, r, |p.changes|, |p.bindings|, script);
      return;
    }
    failedIn := Bindings;
    ok, doneBindings, at, r := ApplyBindings(client, m, plan, report, 0, accountBindings, 0, p, r);
    if !ok {
      StoppedStays(m, p, r, |p.changes|, |p.bindings|, script);
      return;
    }
    failedIn := Entities;
    ok, doneEntities, at, r := ApplyEntities(client, m, plan, report, accounts, plan.changes.Length, doneEntities, p, r);
    if !ok {
      StoppedStays(m, p, r, |p.changes|, |p.bindings|, script);
      return;
    }
    failedIn := Bindings;
    ok, doneBindings, at, r := ApplyBindings(client, m, plan, report, accountBindings, |plan.bindings|, doneBindings, p, r);
  }

  /** The report of a finished run: the counters of every section, and the failure of one. */
  method WriteUp(report: ApplyReport, plan: ActivePlan, failedIn: Option<Section>, at: nat,
                 doneEntities: nat, doneBindings: nat, doneNetwork: nat, ghost p: Plan, ghost r: Run)
    requires InReport(report, r) && SameActions(p, r)
    requires plan.changes[..] == r.changes && plan.network[..] == r.network && plan.bindings == p.bindings
    requires r.entity <= |p.changes| && r.binding <= |p.bindings| && r.item <= |p.network|
    requires failedIn == r.failedIn && doneEntities == r.doneEntities && doneBindings == r.doneBindings && doneNetwork == r.doneNetwork
    requires match failedIn
      case None => true
      case Some(Entities) => at == r.entity < |p.changes|
      case Some(Bindings) => at == r.binding < |p.bindings|
      case Some(NetworkObjects) => at == r.item < |p.network|
    modifies report
    ensures report.Value() == ReportOf(p, r)
  {
    match failedIn {
    case None =>
    case Some(Entities) =>
      SameEntityTargets(p.changes, plan.changes[..], at + 1, plan.changes.Length);
      ReportEntityFailure(report, plan, doneEntities, at);
    case Some(Bindings) => ReportBindingFailure(report, plan, doneBindings, at);
    case Some(NetworkObjects) =>
      SameNetworkTargets(p.network, plan.network[..], at + 1, plan.network.Length);
      ReportNetworkFailure(report, plan, doneNetwork, at);
    }
    report.applied, report.bindingsApplied, report.networkApplied := doneEntities, doneBindings, doneNetwork;
  }

  /** axiam_mgmt_apply(), from the plan on: the server, the plan and the report end as the run says. */
  method Apply(client: Client, m: Manifest, plan: ActivePlan, report: ApplyReport?) returns (ok: bool)
    requires Fits(m, plan.Value())
    modifies client, plan.changes, plan.network, report
    ensures var r := ApplyRun(m, old(plan.Value()), old(client.world), client.script);
      && Mirrors(plan, client, r) && ok == (r.stop == Running)
      && Counted(old(plan.Value()), old(client.world), r)
      && (report != null ==> report.Value() == ReportOf(old(plan.Value()), r))
  {
    ghost var p, w := plan.Value(), client.world;
    EveryRunIsCounted(m, p, w, client.script);
    if report != null { report.Reset(); }
    var section, at, doneEntities, doneBindings;
    ghost var r;
    ok, section, at, doneEntities, doneBindings, r := IdentityPhases(client, m, plan, report, p);
    var doneNetwork := 0;
    if ok {
      section := NetworkObjects;
      ok, doneNetwork, at, r := ApplyNetwork(client, m, plan, p, r);
    } else {
      StoppedStays(m, p, r, |p.changes|, |p.bindings|, client.script);
    }
    if report != null {
      WriteUp(report, plan, if ok then None else Some(section), at, doneEntities, doneBindings, doneNetwork, p, r);
    }
  }
}
