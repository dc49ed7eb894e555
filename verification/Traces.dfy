/** The calls a run sends are those of the changes it attempted, one after the other. */
module Traces {
  import opened Basics
  import opened Manifest
  import opened Directory
  import opened Planning
  import opened Wire
  import opened Applying
  import opened Runs

  /** The plan as it stands in the course of a run: ids of creates and versions of segments filled in, nothing else moved. */
  ghost predicate FilledIn(m: Manifest, plan: Plan, cs: seq<Change>, ns: seq<NetItem>) {
    && Fits(m, Plan(cs, plan.bindings, ns)) && |cs| == |plan.changes| && |ns| == |plan.network|
    && (forall k :: 0 <= k < |cs| ==> SameChange(plan.changes[k], cs[k]))
    && (forall k :: 0 <= k < |ns| ==> SameItem(plan.network[k], ns[k]))
  }

  predicate SameChange(planned: Change, now: Change) {
    now == planned || (planned.action == Create && now.(id := planned.id) == planned)
  }

  predicate SameItem(planned: NetItem, now: NetItem) {
    now == planned || (planned.SegmentItem? && now.SegmentItem? && now.(applied := planned.applied) == planned)
  }

  // ----- The calls of one change -----

  /** How the calls of a change can end. */
  datatype End = Done | Failed

  /** One binding: an assign; or an unassign, an assign, and only when that fails the old assignment again. */
  ghost predicate BindingCalls(m: Manifest, plan: Plan, cs: seq<Change>, b: nat, end: End, calls: seq<Call>)
    requires Refers(m.entities, cs)
  {
    && b < |plan.bindings| && ValidRef(m.entities, plan.bindings[b].ref)
    && var es, pb := m.entities, plan.bindings[b];
       var rb := es[pb.ref.subject].roles[pb.ref.binding];
       var subject, role := Resolved(es, cs, es[pb.ref.subject].key), Resolved(es, cs, rb.roleKey);
       subject.Some? && role.Some?
       && var remove := OnDirectory(Unassign(role.value, subject.value, pb.oldResource));
          var assign := OnDirectory(AssignCall(role.value, subject.value, ResolvedOption(es, cs, rb.resourceKey),
                                               !rb.inheritFalse, pb.oldScope));
          var restore := OnDirectory(AssignCall(role.value, subject.value, pb.oldResource, pb.oldInherit, pb.oldScope));
          if pb.action != Update then calls == [assign]
          else if end == Done then calls == [remove, assign]
          else calls == [remove] || calls == [remove, assign, restore]
  }

  /** What the run knew after the first n: those as they are now, the rest as planned. */
  function Upto<T>(planned: seq<T>, now: seq<T>, n: nat): seq<T> {
    if n <= |now| && n <= |planned| then now[..n] + planned[n..] else now
  }

  /** How many changes had been looked at when a binding was: those before the accounts, or all. */
  ghost function LookedAt(m: Manifest, plan: Plan, b: nat): (e: nat)
    requires Fits(m, plan)
    ensures e <= |plan.changes|
  {
    if b < FirstAccountBinding(m.entities, plan.bindings, 0) then FirstAccount(m.entities, plan.changes, 0) else |plan.changes|
  }

  /**
   * The calls a change of the plan sends, with the ids the run had been given by then: `cs` and `ns`
   * are the run's own changes and network items.
   */
  ghost predicate CallsOf(m: Manifest, plan: Plan, cs: seq<Change>, ns: seq<NetItem>, target: Target, end: End, calls: seq<Call>)
    requires Fits(m, plan)
  {
    match target
    case EntityTarget(k) =>
      var known := Upto(plan.changes, cs, k);
      FilledIn(m, plan, known, plan.network) && k < |known| && calls == [EntityCall(m.entities, known, k)]
    case BindingTarget(b) =>
      var known := Upto(plan.changes, cs, LookedAt(m, plan, b));
      FilledIn(m, plan, known, plan.network) && BindingCalls(m, plan, known, b, end, calls)
    case NetworkTarget(n) =>
      var known := Upto(plan.network, ns, n);
      FilledIn(m, plan, plan.changes, known) && n < |known| && NetworkCall(m, known, n).Some? && calls == [NetworkCall(m, known, n).value]
  }

  /** A target a run has come to after e changes and i items. */
  ghost predicate Reached(m: Manifest, plan: Plan, target: Target, e: nat, i: nat)
    requires Fits(m, plan)
  {
    match target case EntityTarget(k) => k <= e case BindingTarget(b) => LookedAt(m, plan, b) <= e case NetworkTarget(n) => n <= i
  }

  // ----- The calls of a run -----

  /** The calls are those of the targets, each carried out, in order. */
  ghost predicate AllDone(m: Manifest, plan: Plan, cs: seq<Change>, ns: seq<NetItem>, targets: seq<Target>, calls: seq<Call>)
    requires Fits(m, plan)
    decreases |targets|
  {
    if targets == [] then calls == []
    else exists n: nat :: n <= |calls| && DoneUpTo(m, plan, cs, ns, targets, calls, n)
  }

  ghost predicate DoneUpTo(m: Manifest, plan: Plan, cs: seq<Change>, ns: seq<NetItem>, targets: seq<Target>, calls: seq<Call>, n: nat)
    requires Fits(m, plan) && targets != [] && n <= |calls|
    decreases |targets|, 0
  {
    && AllDone(m, plan, cs, ns, targets[..|targets| - 1], calls[..n])
    && CallsOf(m, plan, cs, ns, targets[|targets| - 1], Done, calls[n..])
  }

  ghost predicate FailedAfter(m: Manifest, plan: Plan, cs: seq<Change>, ns: seq<NetItem>, targets: seq<Target>, calls: seq<Call>, n: nat)
    requires Fits(m, plan) && targets != [] && n <= |calls|
  {
    && AllDone(m, plan, cs, ns, targets[..|targets| - 1], calls[..n])
    && CallsOf(m, plan, cs, ns, targets[|targets| - 1], Failed, calls[n..])
  }

  /** All attempts but the last were carried out; the last one was too, or failed on a call, or had no id to send. */
  ghost predicate Traced(m: Manifest, plan: Plan, r: Run, calls: seq<Call>)
    requires Fits(m, plan)
  {
    var cs, ns, done := r.changes, r.network, r.attempted;
    match r.stop
    case Running => AllDone(m, plan, cs, ns, done, calls)
    case CallFailed => done != [] && exists n: nat :: n <= |calls| && FailedAfter(m, plan, cs, ns, done, calls, n)
    case Unresolved => done != [] && AllDone(m, plan, cs, ns, done[..|done| - 1], calls)
  }

  ghost predicate AllReached(m: Manifest, plan: Plan, targets: seq<Target>, e: nat, i: nat)
    requires Fits(m, plan)
  {
    forall k :: 0 <= k < |targets| ==> Reached(m, plan, targets[k], e, i)
  }

  /** The run's own plan: filled in up to where the run is, as planned from there on. */
  ghost predicate FilledSoFar(m: Manifest, plan: Plan, r: Run) {
    && Fits(m, plan) && FilledIn(m, plan, r.changes, r.network)
    && r.entity <= |plan.changes| && r.item <= |plan.network|
    && (forall k :: r.entity <= k < |plan.changes| ==> r.changes[k] == plan.changes[k])
    && (forall k :: r.item <= k < |plan.network| ==> r.network[k] == plan.network[k])
  }

  ghost predicate TracedFrom(m: Manifest, plan: Plan, w: World, r: Run) {
    && FilledSoFar(m, plan, r) && AllReached(m, plan, r.attempted, r.entity, r.item)
    && |w.trace| <= |r.world.trace| && r.world.trace[..|w.trace|] == w.trace
    && Traced(m, plan, r, r.world.trace[|w.trace|..])
  }

  // ----- What a later step leaves of it -----

  lemma UptoStays<T>(planned: seq<T>, now: seq<T>, later: seq<T>, n: nat, e: nat)
    requires n <= e <= |planned| == |now| == |later| && later[..e] == now[..e]
    ensures Upto(planned, later, n) == Upto(planned, now, n)
  {
    assert later[..n] == later[..e][..n] == now[..e][..n] == now[..n];
  }

  /** The same up to e changes and i items. */
  ghost predicate Agree(plan: Plan, cs: seq<Change>, ns: seq<NetItem>, cs': seq<Change>, ns': seq<NetItem>, e: nat, i: nat) {
    && e <= |plan.changes| == |cs| == |cs'| && i <= |plan.network| == |ns| == |ns'|
    && cs'[..e] == cs[..e] && ns'[..i] == ns[..i]
  }

  lemma CallsStay(m: Manifest, plan: Plan, cs: seq<Change>, ns: seq<NetItem>, cs': seq<Change>, ns': seq<NetItem>, e: nat, i: nat,
                  target: Target, end: End, calls: seq<Call>)
    requires Fits(m, plan) && Agree(plan, cs, ns, cs', ns', e, i) && Reached(m, plan, target, e, i)
    requires CallsOf(m, plan, cs, ns, target, end, calls)
    ensures CallsOf(m, plan, cs', ns', target, end, calls)
  {
    match target
    case EntityTarget(k) => UptoStays(plan.changes, cs, cs', k, e);
    case BindingTarget(b) => UptoStays(plan.changes, cs, cs', LookedAt(m, plan, b), e);
    case NetworkTarget(n) => UptoStays(plan.network, ns, ns', n, i);
  }

  lemma {:induction false} AllDoneStays(m: Manifest, plan: Plan, cs: seq<Change>, ns: seq<NetItem>, cs': seq<Change>, ns': seq<NetItem>,
                                        e: nat, i: nat, targets: seq<Target>, calls: seq<Call>)
    requires Fits(m, plan) && Agree(plan, cs, ns, cs', ns', e, i) && AllReached(m, plan, targets, e, i)
    requires AllDone(m, plan, cs, ns, targets, calls)
    ensures AllDone(m, plan, cs', ns', targets, calls)
    decreases |targets|
  {
    if targets != [] {
      var last := |targets| - 1;
      var n: nat :| n <= |calls| && DoneUpTo(m, plan, cs, ns, targets, calls, n);
      AllDoneStays(m, plan, cs, ns, cs', ns', e, i, targets[..last], calls[..n]);
      CallsStay(m, plan, cs, ns, cs', ns', e, i, targets[last], Done, calls[n..]);
      assert DoneUpTo(m, plan, cs', ns', targets, calls, n);
    }
  }

  // ----- Every step -----

  /** A step that looked at a change with nothing to do. */
  ghost predicate Skipped(r: Run, r': Run) {
    r'.stop == Running && r'.attempted == r.attempted && r'.world.trace == r.world.trace
  }

  /** A step that attempted a change and sent its calls. */
  ghost predicate Sent(m: Manifest, plan: Plan, r: Run, r': Run, target: Target, calls: seq<Call>)
    requires Fits(m, plan)
  {
    && r'.attempted == r.attempted + [target] && r'.world.trace == r.world.trace + calls
    && match r'.stop
       case Running => CallsOf(m, plan, r.changes, r.network, target, Done, calls)
       case CallFailed => CallsOf(m, plan, r.changes, r.network, target, Failed, calls)
       case Unresolved => calls == []
  }

  /** A step moves on, and fills in at most what it has just looked at. */
  ghost predicate Advances(m: Manifest, plan: Plan, r: Run, r': Run) {
    && FilledSoFar(m, plan, r) && FilledSoFar(m, plan, r') && r.entity <= r'.entity && r.item <= r'.item
    && Agree(plan, r.changes, r.network, r'.changes, r'.network, r.entity, r.item)
  }

  lemma Appended<T>(a: seq<T>, b: seq<T>, n: nat)
    requires n <= |a|
    ensures (a + b)[..n] == a[..n] && (a + b)[n..] == a[n..] + b
    ensures (a + b)[..|a|] == a && (a + b)[|a|..] == b
  {
  }

  lemma AfterSkip(m: Manifest, plan: Plan, w: World, r: Run, r': Run)
    requires TracedFrom(m, plan, w, r) && r.stop == Running && Skipped(r, r') && Advances(m, plan, r, r')
    ensures TracedFrom(m, plan, w, r')
  {
    AllDoneStays(m, plan, r.changes, r.network, r'.changes, r'.network, r.entity, r.item, r.attempted, r.world.trace[|w.trace|..]);
  }

  lemma TracedWithLast(m: Manifest, plan: Plan, r: Run, done: seq<Target>, target: Target, before: seq<Call>, calls: seq<Call>)
    requires Fits(m, plan) && r.attempted == done + [target] && AllDone(m, plan, r.changes, r.network, done, before)
    requires match r.stop
      case Running => CallsOf(m, plan, r.changes, r.network, target, Done, calls)
      case CallFailed => CallsOf(m, plan, r.changes, r.network, target, Failed, calls)
      case Unresolved => calls == []
    ensures Traced(m, plan, r, before + calls)
  {
    var n: nat := |before|;
    Appended(before, calls, n);
    Appended(done, [target], |done|);
    match r.stop
    case Running => assert DoneUpTo(m, plan, r.changes, r.network, r.attempted, before + calls, n);
    case CallFailed => assert FailedAfter(m, plan, r.changes, r.network, r.attempted, before + calls, n);
    case Unresolved => assert before + calls == before;
  }

  lemma ReachedStays(m: Manifest, plan: Plan, targets: seq<Target>, e: nat, i: nat, target: Target, e': nat, i': nat)
    requires Fits(m, plan) && AllReached(m, plan, targets, e, i) && Reached(m, plan, target, e, i) && e <= e' && i <= i'
    ensures AllReached(m, plan, targets + [target], e', i')
  {
    forall k | 0 <= k < |targets| ensures Reached(m, plan, targets[k], e', i') {
      assert Reached(m, plan, targets[k], e, i);
    }
  }

  lemma AfterSend(m: Manifest, plan: Plan, w: World, r: Run, r': Run, target: Target, calls: seq<Call>)
    requires TracedFrom(m, plan, w, r) && r.stop == Running && Sent(m, plan, r, r', target, calls)
    requires Advances(m, plan, r, r') && Reached(m, plan, target, r.entity, r.item)
    ensures TracedFrom(m, plan, w, r')
  {
    var before := r.world.trace[|w.trace|..];
    Appended(r.world.trace, calls, |w.trace|);
    AllDoneStays(m, plan, r.changes, r.network, r'.changes, r'.network, r.entity, r.item, r.attempted, before);
    if r'.stop != Unresolved {
      CallsStay(m, plan, r.changes, r.network, r'.changes, r'.network, r.entity, r.item, target,
                if r'.stop == Running then Done else Failed, calls);
    }
    TracedWithLast(m, plan, r', r.attempted, target, before, calls);
    ReachedStays(m, plan, r.attempted, r.entity, r.item, target, r'.entity, r'.item);
  }

  /** What the run knows now is what it had come to know by now. */
  lemma KnownNow<T>(planned: seq<T>, now: seq<T>, n: nat)
    requires n <= |planned| == |now| && forall k :: n <= k < |planned| ==> now[k] == planned[k]
    ensures Upto(planned, now, n) == now
  {
  }

  lemma EntityStepSends(m: Manifest, plan: Plan, r: Run, script: Script)
    requires FilledSoFar(m, plan, r) && EntityReady(m, r) && r.stop == Running
    ensures var r' := StepEntity(m, r, script);
      if r.changes[r.entity].action == Unchanged then Skipped(r, r')
      else Sent(m, plan, r, r', EntityTarget(r.entity), [EntityCall(m.entities, r.changes, r.entity)])
  {
    KnownNow(plan.changes, r.changes, r.entity);
  }

  lemma EntityStepAdvances(m: Manifest, plan: Plan, r: Run, script: Script)
    requires FilledSoFar(m, plan, r) && EntityReady(m, r) && r.stop == Running
    ensures Advances(m, plan, r, StepEntity(m, r, script))
  {
    EntityFields(m, r, script);
    var cs := StepEntity(m, r, script).changes;
    assert SameChange(plan.changes[r.entity], r.changes[r.entity]);
    forall k | 0 <= k < |cs| ensures SameChange(plan.changes[k], cs[k]) && cs[k].entity < |m.entities| {
      if k != r.entity { assert cs[k] == r.changes[k] && SameChange(plan.changes[k], r.changes[k]); }
    }
  }

  lemma NetworkStepSends(m: Manifest, plan: Plan, r: Run, script: Script)
    requires FilledSoFar(m, plan, r) && ItemReady(m, r) && r.stop == Running
    ensures var r' := StepNetwork(m, r, script);
      if r.network[r.item].action == Unchanged then Skipped(r, r')
      else exists calls :: Sent(m, plan, r, r', NetworkTarget(r.item), calls)
  {
    var r' := StepNetwork(m, r, script);
    KnownNow(plan.network, r.network, r.item);
    if r.network[r.item].action != Unchanged {
      var c := NetworkCall(m, r.network, r.item);
      var calls := if c.Some? then [c.value] else [];
      assert Sent(m, plan, r, r', NetworkTarget(r.item), calls);
    }
  }

  lemma NetworkStepAdvances(m: Manifest, plan: Plan, r: Run, script: Script)
    requires FilledSoFar(m, plan, r) && ItemReady(m, r) && r.stop == Running
    ensures Advances(m, plan, r, StepNetwork(m, r, script))
  {
    ItemFields(m, r, script);
    var ns := StepNetwork(m, r, script).network;
    assert SameItem(plan.network[r.item], r.network[r.item]);
    forall k | 0 <= k < |ns| ensures SameItem(plan.network[k], ns[k]) && ItemFits(m, ns[k]) {
      if k != r.item { assert ns[k] == r.network[k] && SameItem(plan.network[k], r.network[k]); }
    }
  }

  /** What a binding's writes add to the trace. */
  lemma WriteBindingSends(w: World, subject: Id, role: Id, resource: Option<Id>, inherit: bool, pb: PlannedBinding, script: Script)
    ensures var b := WriteBinding(w, subject, role, resource, inherit, pb, script);
      var remove := OnDirectory(Unassign(role, subject, pb.oldResource));
      var assign := OnDirectory(AssignCall(role, subject, resource, inherit, pb.oldScope));
      var restore := OnDirectory(AssignCall(role, subject, pb.oldResource, pb.oldInherit, pb.oldScope));
      if pb.action != Update then b.world.trace == w.trace + [assign]
      else if b.ok then b.world.trace == w.trace + [remove, assign]
      else b.world.trace == w.trace + [remove] || b.world.trace == w.trace + [remove, assign, restore]
  {
    var remove := OnDirectory(Unassign(role, subject, pb.oldResource));
    var assign := OnDirectory(AssignCall(role, subject, resource, inherit, pb.oldScope));
    var restore := OnDirectory(AssignCall(role, subject, pb.oldResource, pb.oldInherit, pb.oldScope));
    assert w.trace + [remove] + [assign] == w.trace + [remove, assign];
    assert w.trace + [remove, assign] + [restore] == w.trace + [remove, assign, restore];
  }

  /** A step of a binding that is not settled: no id for it, or its writes. */
  lemma BindingStepIs(m: Manifest, plan: Plan, r: Run, script: Script)
    requires BindingReady(m, plan, r) && r.stop == Running && plan.bindings[r.binding].action != Unchanged
    ensures var es, pb, r' := m.entities, plan.bindings[r.binding], StepBinding(m, plan, r, script);
      var rb := es[pb.ref.subject].roles[pb.ref.binding];
      var subject, role := Resolved(es, r.changes, es[pb.ref.subject].key), Resolved(es, r.changes, rb.roleKey);
      && r'.attempted == r.attempted + [BindingTarget(r.binding)]
      && (r'.stop == Unresolved ==> r'.world == r.world)
      && (r'.stop != Unresolved ==>
            subject.Some? && role.Some?
            && var b := WriteBinding(r.world, subject.value, role.value, ResolvedOption(es, r.changes, rb.resourceKey),
                                     !rb.inheritFalse, pb, script);
               r'.world == b.world && r'.stop == (if b.ok then Running else CallFailed))
  {
  }

  lemma BindingSends(m: Manifest, plan: Plan, cs: seq<Change>, b: nat, w: World, script: Script, calls: seq<Call>)
    requires Refers(m.entities, cs) && b < |plan.bindings| && ValidRef(m.entities, plan.bindings[b].ref)
    requires var es, pb := m.entities, plan.bindings[b]; var rb := es[pb.ref.subject].roles[pb.ref.binding];
      Resolved(es, cs, es[pb.ref.subject].key).Some? && Resolved(es, cs, rb.roleKey).Some?
    requires var es, pb := m.entities, plan.bindings[b]; var rb := es[pb.ref.subject].roles[pb.ref.binding];
      w.trace + calls == WriteBinding(w, Resolved(es, cs, es[pb.ref.subject].key).value, Resolved(es, cs, rb.roleKey).value,
                                      ResolvedOption(es, cs, rb.resourceKey), !rb.inheritFalse, pb, script).world.trace
    ensures var es, pb := m.entities, plan.bindings[b]; var rb := es[pb.ref.subject].roles[pb.ref.binding];
      var ok := WriteBinding(w, Resolved(es, cs, es[pb.ref.subject].key).value, Resolved(es, cs, rb.roleKey).value,
                             ResolvedOption(es, cs, rb.resourceKey), !rb.inheritFalse, pb, script).ok;
      BindingCalls(m, plan, cs, b, if ok then Done else Failed, calls)
  {
    var es, pb := m.entities, plan.bindings[b];
    var rb := es[pb.ref.subject].roles[pb.ref.binding];
    WriteBindingSends(w, Resolved(es, cs, es[pb.ref.subject].key).value, Resolved(es, cs, rb.roleKey).value,
                      ResolvedOption(es, cs, rb.resourceKey), !rb.inheritFalse, pb, script);
    assert calls == (w.trace + calls)[|w.trace|..];
  }

  lemma BindingStepExtends(m: Manifest, plan: Plan, r: Run, script: Script) returns (calls: seq<Call>)
    requires BindingReady(m, plan, r) && r.stop == Running && plan.bindings[r.binding].action != Unchanged
    ensures StepBinding(m, plan, r, script).world.trace == r.world.trace + calls
    ensures StepBinding(m, plan, r, script).stop == Unresolved ==> calls == []
  {
    var es, pb := m.entities, plan.bindings[r.binding];
    var rb := es[pb.ref.subject].roles[pb.ref.binding];
    BindingStepIs(m, plan, r, script);
    var t' := StepBinding(m, plan, r, script).world.trace;
    if StepBinding(m, plan, r, script).stop == Unresolved {
      calls := [];
    } else {
      WriteBindingSends(r.world, Resolved(es, r.changes, es[pb.ref.subject].key).value, Resolved(es, r.changes, rb.roleKey).value,
                        ResolvedOption(es, r.changes, rb.resourceKey), !rb.inheritFalse, pb, script);
      assert r.world.trace <= t';
      calls := t'[|r.world.trace|..];
    }
  }

  lemma BindingStepSends(m: Manifest, plan: Plan, r: Run, script: Script) returns (calls: seq<Call>)
    requires FilledSoFar(m, plan, r) && BindingReady(m, plan, r) && r.stop == Running
    requires plan.bindings[r.binding].action != Unchanged && r.entity == LookedAt(m, plan, r.binding)
    ensures Sent(m, plan, r, StepBinding(m, plan, r, script), BindingTarget(r.binding), calls)
  {
    calls := BindingStepExtends(m, plan, r, script);
    BindingStepIs(m, plan, r, script);
    KnownNow(plan.changes, r.changes, r.entity);
    if StepBinding(m, plan, r, script).stop != Unresolved {
      BindingSends(m, plan, r.changes, r.binding, r.world, script, calls);
    }
  }

  lemma EntityStepIsTraced(m: Manifest, plan: Plan, w: World, r: Run, script: Script)
    requires TracedFrom(m, plan, w, r) && EntityReady(m, r) && r.stop == Running
    ensures TracedFrom(m, plan, w, StepEntity(m, r, script))
  {
    EntityStepSends(m, plan, r, script);
    EntityStepAdvances(m, plan, r, script);
    if r.changes[r.entity].action == Unchanged {
      AfterSkip(m, plan, w, r, StepEntity(m, r, script));
    } else {
      AfterSend(m, plan, w, r, StepEntity(m, r, script), EntityTarget(r.entity), [EntityCall(m.entities, r.changes, r.entity)]);
    }
  }

  lemma BindingStepIsTraced(m: Manifest, plan: Plan, w: World, r: Run, script: Script)
    requires TracedFrom(m, plan, w, r) && BindingReady(m, plan, r) && r.stop == Running && r.entity == LookedAt(m, plan, r.binding)
    ensures TracedFrom(m, plan, w, StepBinding(m, plan, r, script))
  {
    BindingFields(m, plan, r, script);
    if plan.bindings[r.binding].action == Unchanged {
      AfterSkip(m, plan, w, r, StepBinding(m, plan, r, script));
    } else {
      var calls := BindingStepSends(m, plan, r, script);
      AfterSend(m, plan, w, r, StepBinding(m, plan, r, script), BindingTarget(r.binding), calls);
    }
  }

  lemma NetworkStepIsTraced(m: Manifest, plan: Plan, w: World, r: Run, script: Script)
    requires TracedFrom(m, plan, w, r) && ItemReady(m, r) && r.stop == Running
    ensures TracedFrom(m, plan, w, StepNetwork(m, r, script))
  {
    NetworkStepSends(m, plan, r, script);
    NetworkStepAdvances(m, plan, r, script);
    if r.network[r.item].action == Unchanged {
      AfterSkip(m, plan, w, r, StepNetwork(m, r, script));
    } else {
      var calls :| Sent(m, plan, r, StepNetwork(m, r, script), NetworkTarget(r.item), calls);
      AfterSend(m, plan, w, r, StepNetwork(m, r, script), NetworkTarget(r.item), calls);
    }
  }

  // ----- Every phase -----

  lemma EntityPhaseIsTraced(m: Manifest, plan: Plan, w: World, r: Run, bound: nat, script: Script)
    requires Runnable(m, plan, r) && TracedFrom(m, plan, w, r) && r.entity <= bound <= |plan.changes|
    ensures var r' := RunEntities(m, plan, r, bound, script);
      TracedFrom(m, plan, w, r') && r'.binding == r.binding && (r'.stop == Running ==> r'.entity == bound)
  {
    var inv := (x: Run) => TracedFrom(m, plan, w, x) && x.entity <= bound;
    forall x: Run | Runnable(m, plan, x) && inv(x) && x.stop == Running && x.entity < bound
      ensures inv(StepEntity(m, x, script))
    {
      EntityStepIsTraced(m, plan, w, x, script);
      EntityFields(m, x, script);
    }
    RunEntitiesKeeps(m, plan, r, bound, script, inv);
  }

  lemma BindingPhaseIsTraced(m: Manifest, plan: Plan, w: World, r: Run, bound: nat, script: Script)
    requires Runnable(m, plan, r) && TracedFrom(m, plan, w, r) && bound <= |plan.bindings|
    requires r.stop == Running ==> forall b :: r.binding <= b < bound ==> LookedAt(m, plan, b) == r.entity
    ensures var r' := RunBindings(m, plan, r, bound, script);
      TracedFrom(m, plan, w, r') && r'.entity == r.entity && (r'.stop == Running ==> r'.binding >= bound)
  {
    if r.stop == Running {
      var inv := (x: Run) => TracedFrom(m, plan, w, x) && x.entity == r.entity && x.binding >= r.binding;
      forall x: Run | Runnable(m, plan, x) && inv(x) && x.stop == Running && x.binding < bound
        ensures inv(StepBinding(m, plan, x, script))
      {
        BindingStepIsTraced(m, plan, w, x, script);
        BindingFields(m, plan, x, script);
      }
      RunBindingsKeeps(m, plan, r, bound, script, inv);
    }
  }

  lemma NetworkPhaseIsTraced(m: Manifest, plan: Plan, w: World, r: Run, script: Script)
    requires Runnable(m, plan, r) && TracedFrom(m, plan, w, r)
    ensures TracedFrom(m, plan, w, RunNetwork(m, plan, r, script))
  {
    var inv := (x: Run) => TracedFrom(m, plan, w, x);
    forall x: Run | Runnable(m, plan, x) && inv(x) && x.stop == Running && x.item < |plan.network|
      ensures inv(StepNetwork(m, x, script))
    {
      NetworkStepIsTraced(m, plan, w, x, script);
    }
    RunNetworkKeeps(m, plan, r, script, inv);
  }

  lemma StartIsTraced(m: Manifest, plan: Plan, w: World)
    requires Fits(m, plan)
    ensures TracedFrom(m, plan, w, Start(plan, w))
  {
    assert w.trace[|w.trace|..] == [];
  }

  /**
   * Whatever the server answers, what a run has sent is, in order, the calls of what it attempted, with
   * the ids it had been given by then: nothing between them, nothing twice, and of a change that failed
   * no more than its own calls.
   */
  lemma EveryRunIsTraced(m: Manifest, plan: Plan, w: World, script: Script)
    requires Fits(m, plan)
    ensures TracedFrom(m, plan, w, ApplyRun(m, plan, w, script))
  {
    var accounts, accountBindings := FirstAccount(m.entities, plan.changes, 0), FirstAccountBinding(m.entities, plan.bindings, 0);
    StartIsTraced(m, plan, w);
    var r1 := RunEntities(m, plan, Start(plan, w), accounts, script);
    EntityPhaseIsTraced(m, plan, w, Start(plan, w), accounts, script);
    var r2 := RunBindings(m, plan, r1, accountBindings, script);
    BindingPhaseIsTraced(m, plan, w, r1, accountBindings, script);
    var r3 := RunEntities(m, plan, r2, |plan.changes|, script);
    EntityPhaseIsTraced(m, plan, w, r2, |plan.changes|, script);
    var r4 := RunBindings(m, plan, r3, |plan.bindings|, script);
    BindingPhaseIsTraced(m, plan, w, r3, |plan.bindings|, script);
    NetworkPhaseIsTraced(m, plan, w, r4, script);
  }
}
