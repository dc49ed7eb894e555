/** One apply, as a function of the plan, the server and the script: what it sends, in which order, and where it stops. */
module Applying {
  import opened Basics
  import opened Manifest
  import opened Directory
  import opened Planning
  import opened Network
  import opened Wire

  // ----- The network part of a plan -----

  datatype NetItem =
    | PolicyItem(action: Action, cap: int, version: nat)
    | SegmentItem(action: Action, spec: nat, read: Option<Segment>, applied: Option<(Id, nat)>)
    | ProfileItem(action: Action, spec: nat, profile: nat, read: Option<Segment>, held: Option<Profile>)

  datatype Plan = Plan(changes: seq<Change>, bindings: seq<PlannedBinding>, network: seq<NetItem>)

  ghost predicate Fits(m: Manifest, plan: Plan) {
    && Refers(m.entities, plan.changes)
    && (forall k :: 0 <= k < |plan.changes| && plan.changes[k].action == Update ==> plan.changes[k].id.Some?)
    && (forall k :: 0 <= k < |plan.bindings| ==> ValidRef(m.entities, plan.bindings[k].ref))
    && (forall k :: 0 <= k < |plan.network| ==> ItemFits(m, plan.network[k]))
  }

  predicate ItemFits(m: Manifest, n: NetItem) {
    match n
    case PolicyItem(_, _, _) => true
    case SegmentItem(action, spec, read, _) => spec < |m.segments| && (action == Update ==> read.Some?)
    case ProfileItem(action, spec, profile, read, held) =>
      spec < |m.segments| && profile < |m.profiles| && (action == Update ==> read.Some? && held.Some?)
  }

  /** Why a run stopped: not at all, a call failed, or an id could not be resolved before any call. */
  datatype Stop = Running | CallFailed | Unresolved

  datatype Section = Entities | Bindings | NetworkObjects

  /** What an attempted change is for: an index into the plan's changes, bindings or network. */
  datatype Target = EntityTarget(k: nat) | BindingTarget(b: nat) | NetworkTarget(n: nat)

  /** A run in progress.  `entity`, `binding` and `item` are the next ones to look at. */
  datatype Run = Run(
    world: World,
    changes: seq<Change>,
    network: seq<NetItem>,
    entity: nat, binding: nat, item: nat,
    doneEntities: nat, doneBindings: nat, doneNetwork: nat,
    secrets: seq<string>,
    restoreAttempted: bool, restoreSucceeded: bool,
    attempted: seq<Target>,
    stop: Stop, failedIn: Option<Section>)

  // ----- One entity -----

  function EntityCall(es: seq<Entity>, cs: seq<Change>, k: nat): Call
    requires Refers(es, cs) && k < |cs| && (cs[k].action == Update ==> cs[k].id.Some?)
  {
    var e := es[cs[k].entity];
    OnDirectory(if cs[k].action == Update then UpdateCall(e, cs[k].id.value)
                else CreateCall(e, ResolvedOption(es, cs, e.dependsOn)))
  }

  predicate EntityReady(m: Manifest, r: Run) {
    && (forall k :: 0 <= k < |r.changes| ==> r.changes[k].entity < |m.entities|)
    && r.entity < |r.changes|
    && (r.changes[r.entity].action == Update ==> r.changes[r.entity].id.Some?)
  }

  /** The id a successful write leaves in the plan: only a create fills it in. */
  function Landed(c: Change, body: Option<(Id, nat)>): Change {
    if c.action == Create && body.Some? then c.(id := Some(body.value.0)) else c
  }

  function StepEntity(m: Manifest, r: Run, script: Script): Run
    requires EntityReady(m, r)
  {
    var k := r.entity;
    var c := r.changes[k];
    if c.action == Unchanged then r.(entity := k + 1)
    else
      var (w, reply) := Issue(r.world, EntityCall(m.entities, r.changes, k), script(|r.world.trace|));
      var attempted := r.attempted + [EntityTarget(k)];
      match reply
      case Failure => r.(world := w, attempted := attempted, stop := CallFailed, failedIn := Some(Entities))
      case Answer(body) =>
        var e := m.entities[c.entity];
        r.(world := w,
           attempted := attempted,
           changes := r.changes[k := Landed(c, body)],
           secrets := if e.kind == ServiceAccount && c.action == Create && body.Some?
                      then r.secrets + [e.key] else r.secrets,
           doneEntities := r.doneEntities + 1,
           entity := k + 1)
  }

  // ----- One binding -----

  datatype Rebound = Rebound(world: World, ok: bool, attempted: bool, succeeded: bool)

  /** The writes of one binding: assign; or unassign, assign and, if that fails, assign what was there before. */
  function WriteBinding(w: World, subject: Id, role: Id, resource: Option<Id>, inherit: bool, pb: PlannedBinding,
                        script: Script): Rebound
  {
    var newCall := OnDirectory(AssignCall(role, subject, resource, inherit, pb.oldScope));
    if pb.action != Update then
      var (w1, r1) := Issue(w, newCall, script(|w.trace|));
      Rebound(w1, r1.Answer?, false, false)
    else
      var (w1, r1) := Issue(w, OnDirectory(Unassign(role, subject, pb.oldResource)), script(|w.trace|));
      if r1.Failure? then Rebound(w1, false, false, false)
      else
        var (w2, r2) := Issue(w1, newCall, script(|w1.trace|));
        if r2.Answer? then Rebound(w2, true, false, false)
        else
          var oldCall := OnDirectory(AssignCall(role, subject, pb.oldResource, pb.oldInherit, pb.oldScope));
          var (w3, r3) := Issue(w2, oldCall, script(|w2.trace|));
          Rebound(w3, false, true, r3.Answer?)
  }

  predicate BindingReady(m: Manifest, plan: Plan, r: Run) {
    && (forall k :: 0 <= k < |r.changes| ==> r.changes[k].entity < |m.entities|)
    && r.binding < |plan.bindings| && ValidRef(m.entities, plan.bindings[r.binding].ref)
  }

  function StepBinding(m: Manifest, plan: Plan, r: Run, script: Script): Run
    requires BindingReady(m, plan, r)
  {
    var es, pb := m.entities, plan.bindings[r.binding];
    if pb.action == Unchanged then r.(binding := r.binding + 1)
    else
      var rb := es[pb.ref.subject].roles[pb.ref.binding];
      var subject := Resolved(es, r.changes, es[pb.ref.subject].key);
      var role := Resolved(es, r.changes, rb.roleKey);
      var resource := ResolvedOption(es, r.changes, rb.resourceKey);
      var tried := r.(attempted := r.attempted + [BindingTarget(r.binding)]);
      if subject.None? || role.None? || (rb.resourceKey.Some? && resource.None?)
      then tried.(stop := Unresolved, failedIn := Some(Bindings))
      else
        var b := WriteBinding(r.world, subject.value, role.value, resource, !rb.inheritFalse, pb, script);
        var r' := tried.(world := b.world,
                     restoreAttempted := r.restoreAttempted || b.attempted,
                     restoreSucceeded := if b.attempted then b.succeeded else r.restoreSucceeded);
        if b.ok then r'.(doneBindings := r.doneBindings + 1, binding := r.binding + 1)
        else r'.(stop := CallFailed, failedIn := Some(Bindings))
  }

  // ----- One network object -----

  /** The item of the segment a profile item follows. */
  function SegmentItemOf(items: seq<NetItem>, spec: nat, from: nat): (r: Option<nat>)
    requires from <= |items|
    ensures r.Some? ==> from <= r.value < |items| && items[r.value].SegmentItem? && items[r.value].spec == spec
                        && forall j :: from <= j < r.value ==> !(items[j].SegmentItem? && items[j].spec == spec)
    ensures r.None? ==> forall j :: from <= j < |items| ==> !(items[j].SegmentItem? && items[j].spec == spec)
    decreases |items| - from
  {
    if from == |items| then None
    else if items[from].SegmentItem? && items[from].spec == spec then Some(from)
    else SegmentItemOf(items, spec, from + 1)
  }

  /** The segment's id and current version: of this apply's own write, or else as read. */
  function SegmentOf(items: seq<NetItem>, spec: nat): Option<(Id, nat)> {
    match SegmentItemOf(items, spec, 0)
    case None => None
    case Some(k) =>
      if items[k].applied.Some? then items[k].applied
      else if items[k].read.Some? then Some((items[k].read.value.id, items[k].read.value.version))
      else None
  }

  function NetworkCall(m: Manifest, items: seq<NetItem>, k: nat): Option<Call>
    requires k < |items| && ItemFits(m, items[k])
  {
    match items[k]
    case PolicyItem(_, cap, version) => Some(OnNetwork(ReplacePolicy(cap, version)))
    case SegmentItem(action, spec, read, _) =>
      Some(OnNetwork(if action == Update then ReplaceSegmentCall(m.segments[spec], read.value)
                     else CreateSegmentCall(m.segments[spec])))
    case ProfileItem(action, spec, profile, _, held) =>
      match SegmentOf(items, spec)
      case None => None
      case Some((id, version)) =>
        Some(OnNetwork(if action == Update
                       then ReplaceProfile(id, held.value.version, version, FillProfile(m.profiles[profile], held))
                       else CreateProfile(id, version, FillProfile(m.profiles[profile], None))))
  }

  predicate ItemReady(m: Manifest, r: Run) {
    r.item < |r.network| && ItemFits(m, r.network[r.item])
  }

  function StepNetwork(m: Manifest, r: Run, script: Script): Run
    requires ItemReady(m, r)
  {
    var k := r.item;
    if r.network[k].action == Unchanged then r.(item := k + 1)
    else
      var tried := r.(attempted := r.attempted + [NetworkTarget(k)]);
      match NetworkCall(m, r.network, k)
      case None => tried.(stop := Unresolved, failedIn := Some(NetworkObjects))
      case Some(call) =>
        var (w, reply) := Issue(r.world, call, script(|r.world.trace|));
        match reply
        case Failure => tried.(world := w, stop := CallFailed, failedIn := Some(NetworkObjects))
        case Answer(body) =>
          tried.(world := w,
             network := if r.network[k].SegmentItem? && body.Some?
                        then r.network[k := r.network[k].(applied := body)] else r.network,
             doneNetwork := r.doneNetwork + 1,
             item := k + 1)
  }

  // ----- Phases -----

  ghost predicate Runnable(m: Manifest, plan: Plan, r: Run) {
    && |r.changes| == |plan.changes| && |r.network| == |plan.network|
    && Fits(m, Plan(r.changes, plan.bindings, r.network))
  }

  ghost function RunEntities(m: Manifest, plan: Plan, r: Run, bound: nat, script: Script): (r': Run)
    requires Runnable(m, plan, r) && bound <= |plan.changes|
    ensures Runnable(m, plan, r')
    decreases bound - r.entity, if r.stop == Running then 1 else 0
  {
    if r.stop != Running || r.entity >= bound then r
    else RunEntities(m, plan, StepEntity(m, r, script), bound, script)
  }

  ghost function RunBindings(m: Manifest, plan: Plan, r: Run, bound: nat, script: Script): (r': Run)
    requires Runnable(m, plan, r) && bound <= |plan.bindings|
    ensures Runnable(m, plan, r')
    decreases bound - r.binding, if r.stop == Running then 1 else 0
  {
    if r.stop != Running || r.binding >= bound then r
    else RunBindings(m, plan, StepBinding(m, plan, r, script), bound, script)
  }

  ghost function RunNetwork(m: Manifest, plan: Plan, r: Run, script: Script): (r': Run)
    requires Runnable(m, plan, r)
    ensures Runnable(m, plan, r')
    decreases |plan.network| - r.item, if r.stop == Running then 1 else 0
  {
    if r.stop != Running || r.item >= |plan.network| then r
    else RunNetwork(m, plan, StepNetwork(m, r, script), script)
  }

  function Start(plan: Plan, w: World): Run {
    Run(w, plan.changes, plan.network, 0, 0, 0, 0, 0, 0, [], false, false, [], Running, None)
  }

  /** Where the service accounts begin among the planned changes. */
  function FirstAccount(es: seq<Entity>, cs: seq<Change>, from: nat): (k: nat)
    requires Refers(es, cs) && from <= |cs|
    ensures from <= k <= |cs| && (forall j :: from <= j < k ==> es[cs[j].entity].kind != ServiceAccount)
    ensures k < |cs| ==> es[cs[k].entity].kind == ServiceAccount
    decreases |cs| - from
  {
    if from == |cs| || es[cs[from].entity].kind == ServiceAccount then from else FirstAccount(es, cs, from + 1)
  }

  /** Where the service-account bindings begin. */
  function FirstAccountBinding(es: seq<Entity>, bs: seq<PlannedBinding>, from: nat): (k: nat)
    requires from <= |bs| && forall j :: 0 <= j < |bs| ==> bs[j].ref.subject < |es|
    ensures from <= k <= |bs| && (forall j :: from <= j < k ==> es[bs[j].ref.subject].kind != ServiceAccount)
    ensures k < |bs| ==> es[bs[k].ref.subject].kind == ServiceAccount
    decreases |bs| - from
  {
    if from == |bs| || es[bs[from].ref.subject].kind == ServiceAccount then from
    else FirstAccountBinding(es, bs, from + 1)
  }

  /** The first four phases: groups and before, group bindings, accounts, account bindings. */
  ghost function RunIdentity(m: Manifest, plan: Plan, w: World, script: Script): (r: Run)
    requires Fits(m, plan)
    ensures Runnable(m, plan, r)
  {
    var accounts := FirstAccount(m.entities, plan.changes, 0);
    var accountBindings := FirstAccountBinding(m.entities, plan.bindings, 0);
    var r1 := RunEntities(m, plan, Start(plan, w), accounts, script);
    var r2 := RunBindings(m, plan, r1, accountBindings, script);
    var r3 := RunEntities(m, plan, r2, |plan.changes|, script);
    RunBindings(m, plan, r3, |plan.bindings|, script)
  }

  /** The whole apply: the network namespace comes last. */
  ghost function ApplyRun(m: Manifest, plan: Plan, w: World, script: Script): (r: Run)
    requires Fits(m, plan)
    ensures Runnable(m, plan, r)
  {
    RunNetwork(m, plan, RunIdentity(m, plan, w, script), script)
  }
}
