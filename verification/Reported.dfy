/** What the report of a run names: the change it failed at, the restore of a failed rebind, and the one-time secrets. */
module Reported {
  import opened Basics
  import opened Manifest
  import opened Planning
  import opened Wire
  import opened Applying
  import opened Runs
  import opened Reports

  // ----- The failure -----

  /** The last attempt of a stopped run, in the section it failed in. */
  predicate LastAttempt(r: Run) {
    r.stop != Running ==>
      && r.attempted != []
      && r.attempted[|r.attempted| - 1] == match r.failedIn
           case Some(Bindings) => BindingTarget(r.binding)
           case Some(NetworkObjects) => NetworkTarget(r.item)
           case _ => EntityTarget(r.entity)
  }

  lemma StepEntityAttemptsLast(m: Manifest, r: Run, script: Script)
    requires EntityReady(m, r) && r.stop == Running
    ensures LastAttempt(StepEntity(m, r, script))
  {
  }

  lemma StepBindingAttemptsLast(m: Manifest, plan: Plan, r: Run, script: Script)
    requires BindingReady(m, plan, r) && r.stop == Running
    ensures LastAttempt(StepBinding(m, plan, r, script))
  {
    BindingFields(m, plan, r, script);
    StepBindingAttempts(m, plan, r, script);
    BindingCounters(m, plan, r, script);
  }

  lemma StepNetworkAttemptsLast(m: Manifest, r: Run, script: Script)
    requires ItemReady(m, r) && r.stop == Running
    ensures LastAttempt(StepNetwork(m, r, script))
  {
  }

  lemma EveryRunAttemptsLast(m: Manifest, plan: Plan, w: World, script: Script)
    requires Fits(m, plan)
    ensures LastAttempt(ApplyRun(m, plan, w, script))
  {
    var inv := (x: Run) => LastAttempt(x);
    forall x: Run | Runnable(m, plan, x) && inv(x) && x.stop == Running && x.entity < |plan.changes| ensures inv(StepEntity(m, x, script)) {
      StepEntityAttemptsLast(m, x, script);
    }
    forall x: Run | Runnable(m, plan, x) && inv(x) && x.stop == Running && x.binding < |plan.bindings| ensures inv(StepBinding(m, plan, x, script)) {
      StepBindingAttemptsLast(m, plan, x, script);
    }
    forall x: Run | Runnable(m, plan, x) && inv(x) && x.stop == Running && x.item < |plan.network| ensures inv(StepNetwork(m, x, script)) {
      StepNetworkAttemptsLast(m, x, script);
    }
    ApplyKeeps(m, plan, w, script, inv);
  }

  /** The report names the change that was attempted last, in its own section and no other, and nothing when nothing failed. */
  predicate Names(report: Report, r: Run) {
    if r.stop == Running then report.failed == -1 && report.failedBinding == -1 && report.failedNetwork == -1
    else r.attempted != [] && match r.attempted[|r.attempted| - 1]
      case EntityTarget(k) => report.failed == k && report.failedBinding == -1 && report.failedNetwork == -1
      case BindingTarget(b) => report.failed == -1 && report.failedBinding == b && report.failedNetwork == -1
      case NetworkTarget(n) => report.failed == -1 && report.failedBinding == -1 && report.failedNetwork == n
  }

  lemma ReportNamesTheFailure(m: Manifest, plan: Plan, w: World, script: Script)
    requires Fits(m, plan)
    ensures Counted(plan, w, ApplyRun(m, plan, w, script))
    ensures Names(ReportOf(plan, ApplyRun(m, plan, w, script)), ApplyRun(m, plan, w, script))
  {
    EveryRunIsCounted(m, plan, w, script);
    EveryRunAttemptsLast(m, plan, w, script);
    CountedNames(plan, w, ApplyRun(m, plan, w, script));
  }

  lemma CountedNames(plan: Plan, w: World, r: Run)
    requires Counted(plan, w, r) && LastAttempt(r)
    ensures Names(ReportOf(plan, r), r)
  {
  }

  // ----- The restore flags -----

  /** The write of one binding, from some world on, that ended the run. */
  ghost predicate EndedBy(m: Manifest, plan: Plan, r: Run, script: Script, x: World, subject: Id, role: Id, resource: Option<Id>)
    requires r.binding < |plan.bindings| && ValidRef(m.entities, plan.bindings[r.binding].ref)
  {
    var pb := plan.bindings[r.binding];
    var b := WriteBinding(x, subject, role, resource, !m.entities[pb.ref.subject].roles[pb.ref.binding].inheritFalse, pb, script);
    !b.ok && r.world == b.world && r.restoreAttempted == b.attempted && r.restoreSucceeded == b.succeeded
  }

  /** The flags are those of the binding whose write failed, and are down when no write of a binding failed. */
  ghost predicate FlagsTold(m: Manifest, plan: Plan, r: Run, script: Script) {
    if r.stop != CallFailed || r.failedIn != Some(Bindings) then !r.restoreAttempted && !r.restoreSucceeded
    else r.binding < |plan.bindings| && ValidRef(m.entities, plan.bindings[r.binding].ref)
         && exists x, subject, role, resource :: EndedBy(m, plan, r, script, x, subject, role, resource)
  }

  lemma StepEntityTells(m: Manifest, plan: Plan, r: Run, script: Script)
    requires EntityReady(m, r) && r.stop == Running && FlagsTold(m, plan, r, script)
    ensures FlagsTold(m, plan, StepEntity(m, r, script), script)
  {
  }

  lemma StepBindingTells(m: Manifest, plan: Plan, r: Run, script: Script)
    requires BindingReady(m, plan, r) && r.stop == Running && FlagsTold(m, plan, r, script)
    ensures FlagsTold(m, plan, StepBinding(m, plan, r, script), script)
  {
    var es, pb, r' := m.entities, plan.bindings[r.binding], StepBinding(m, plan, r, script);
    if r'.stop == CallFailed {
      var rb := es[pb.ref.subject].roles[pb.ref.binding];
      assert EndedBy(m, plan, r', script, r.world, Resolved(es, r.changes, es[pb.ref.subject].key).value,
                     Resolved(es, r.changes, rb.roleKey).value, ResolvedOption(es, r.changes, rb.resourceKey));
    }
  }

  lemma StepNetworkTells(m: Manifest, plan: Plan, r: Run, script: Script)
    requires ItemReady(m, r) && r.stop == Running && FlagsTold(m, plan, r, script)
    ensures FlagsTold(m, plan, StepNetwork(m, r, script), script)
  {
  }

  /**
   * Over a whole run the restore flags speak of the binding it stopped at: they are up only as its own
   * write put them, and down in every other case.
   */
  lemma FlagsAreOfTheFailure(m: Manifest, plan: Plan, w: World, script: Script)
    requires Fits(m, plan)
    ensures FlagsTold(m, plan, ApplyRun(m, plan, w, script), script)
  {
    var inv := (x: Run) => FlagsTold(m, plan, x, script);
    forall x: Run | Runnable(m, plan, x) && inv(x) && x.stop == Running && x.entity < |plan.changes| ensures inv(StepEntity(m, x, script)) {
      StepEntityTells(m, plan, x, script);
    }
    forall x: Run | Runnable(m, plan, x) && inv(x) && x.stop == Running && x.binding < |plan.bindings| ensures inv(StepBinding(m, plan, x, script)) {
      StepBindingTells(m, plan, x, script);
    }
    forall x: Run | Runnable(m, plan, x) && inv(x) && x.stop == Running && x.item < |plan.network| ensures inv(StepNetwork(m, x, script)) {
      StepNetworkTells(m, plan, x, script);
    }
    ApplyKeeps(m, plan, w, script, inv);
  }

  // ----- The secrets -----

  /** A service account created, with an id from the answer's body. */
  predicate GivenSecret(es: seq<Entity>, plan: Plan, cs: seq<Change>, p: nat) {
    && p < |plan.changes| == |cs| && plan.changes[p].entity < |es|
    && es[plan.changes[p].entity].kind == ServiceAccount && plan.changes[p].action == Create && cs[p].id.Some?
  }

  /** Their places among the first n changes. */
  function SecretPlaces(es: seq<Entity>, plan: Plan, cs: seq<Change>, n: nat): (at: seq<nat>)
    ensures forall j :: 0 <= j < |at| ==> at[j] < n && GivenSecret(es, plan, cs, at[j])
    ensures forall i, j :: 0 <= i < j < |at| ==> at[i] < at[j]
    ensures forall p :: 0 <= p < n && GivenSecret(es, plan, cs, p) ==> p in at
  {
    if n == 0 then [] else SecretPlaces(es, plan, cs, n - 1) + (if GivenSecret(es, plan, cs, n - 1) then [n - 1] else [])
  }

  /** Exactly these are reported, by their keys and in their order. */
  ghost predicate ByKey(es: seq<Entity>, plan: Plan, secrets: seq<string>, at: seq<nat>) {
    |secrets| == |at| && forall j :: 0 <= j < |at| ==>
      at[j] < |plan.changes| && plan.changes[at[j]].entity < |es| && secrets[j] == es[plan.changes[at[j]].entity].key
  }

  ghost predicate SecretsTold(m: Manifest, plan: Plan, r: Run) {
    && |r.changes| == |plan.changes| && r.entity <= |r.changes|
    && (forall p :: 0 <= p < |r.changes| ==> r.changes[p].entity == plan.changes[p].entity && r.changes[p].action == plan.changes[p].action)
    && (forall p :: r.entity <= p < |r.changes| ==> r.changes[p] == plan.changes[p])
    && ByKey(m.entities, plan, r.secrets, SecretPlaces(m.entities, plan, r.changes, r.entity))
  }

  lemma {:induction false} SamePlaces(es: seq<Entity>, plan: Plan, a: seq<Change>, b: seq<Change>, n: nat)
    requires |a| == |b| == |plan.changes| && n <= |a| && forall p :: 0 <= p < n ==> a[p] == b[p]
    ensures SecretPlaces(es, plan, a, n) == SecretPlaces(es, plan, b, n)
    decreases n
  {
    if n > 0 { SamePlaces(es, plan, a, b, n - 1); }
  }

  /** The key of an account just created, if the plan has its id. */
  function NewSecret(es: seq<Entity>, c: Change): seq<string>
    requires c.entity < |es|
  {
    if es[c.entity].kind == ServiceAccount && c.action == Create && c.id.Some? then [es[c.entity].key] else []
  }

  lemma StepEntitySecrets(m: Manifest, r: Run, script: Script)
    requires EntityReady(m, r) && r.stop == Running
    ensures var r', c := StepEntity(m, r, script), r.changes[r.entity];
      && |r'.changes| == |r.changes| && (forall p :: 0 <= p < |r.changes| && p != r.entity ==> r'.changes[p] == r.changes[p])
      && r'.changes[r.entity].entity == c.entity && r'.changes[r.entity].action == c.action
      && (r'.stop != Running ==> r'.changes == r.changes && r'.secrets == r.secrets && r'.entity == r.entity)
      && (r'.stop == Running ==> r'.entity == r.entity + 1)
      && (r'.stop == Running && c.id.None? ==> r'.secrets == r.secrets + NewSecret(m.entities, r'.changes[r.entity]))
      && (c.action != Create ==> r'.secrets == r.secrets)
  {
  }

  lemma SecretsAdvance(m: Manifest, plan: Plan, r: Run, r': Run)
    requires SecretsTold(m, plan, r) && r.entity < |r.changes| && |r'.changes| == |r.changes| && r'.entity == r.entity + 1
    requires r'.changes[r.entity].entity < |m.entities| && (plan.changes[r.entity].action == Create ==> plan.changes[r.entity].id.None?)
    requires forall p :: 0 <= p < |r.changes| && p != r.entity ==> r'.changes[p] == r.changes[p]
    requires r'.changes[r.entity].entity == r.changes[r.entity].entity && r'.changes[r.entity].action == r.changes[r.entity].action
    requires r'.secrets == r.secrets + NewSecret(m.entities, r'.changes[r.entity])
    ensures SecretsTold(m, plan, r')
  {
    var p := r.entity;
    SamePlaces(m.entities, plan, r.changes, r'.changes, p);
    ByKeyNext(m.entities, plan, r.secrets, SecretPlaces(m.entities, plan, r'.changes, p), p);
    assert GivenSecret(m.entities, plan, r'.changes, p) <==> NewSecret(m.entities, r'.changes[p]) != [];
  }

  lemma ByKeyNext(es: seq<Entity>, plan: Plan, secrets: seq<string>, at: seq<nat>, p: nat)
    requires ByKey(es, plan, secrets, at) && p < |plan.changes| && plan.changes[p].entity < |es|
    ensures ByKey(es, plan, secrets + [es[plan.changes[p].entity].key], at + [p])
  {
  }

  lemma StepEntityTellsSecrets(m: Manifest, plan: Plan, r: Run, script: Script)
    requires EntityReady(m, r) && r.stop == Running && SecretsTold(m, plan, r)
    requires plan.changes[r.entity].action == Create ==> plan.changes[r.entity].id.None?
    ensures SecretsTold(m, plan, StepEntity(m, r, script))
  {
    StepEntitySecrets(m, r, script);
    if StepEntity(m, r, script).stop == Running { SecretsAdvance(m, plan, r, StepEntity(m, r, script)); }
  }

  lemma OtherStepsTellSecrets(m: Manifest, plan: Plan, r: Run, r': Run)
    requires SecretsTold(m, plan, r) && r'.changes == r.changes && r'.entity == r.entity && r'.secrets == r.secrets
    ensures SecretsTold(m, plan, r')
  {
  }

  lemma OtherStepsKeepSecrets(m: Manifest, plan: Plan, r: Run, script: Script)
    requires r.stop == Running
    ensures BindingReady(m, plan, r) ==> StepBinding(m, plan, r, script).secrets == r.secrets
    ensures ItemReady(m, r) ==> StepNetwork(m, r, script).secrets == r.secrets
  {
  }

  /**
   * The secrets a run reports are those of the service accounts it created and was answered about with
   * a body, by key, in plan order, and no others.
   */
  lemma SecretsAreOfCreated(m: Manifest, plan: Plan, w: World, script: Script)
    requires Fits(m, plan) && forall p :: 0 <= p < |plan.changes| && plan.changes[p].action == Create ==> plan.changes[p].id.None?
    ensures var r := ApplyRun(m, plan, w, script);
      r.entity <= |plan.changes| && ByKey(m.entities, plan, r.secrets, SecretPlaces(m.entities, plan, r.changes, r.entity))
  {
    EntityStepsTell(m, plan, script);
    OtherStepsTell(m, plan, script);
    ApplyKeeps(m, plan, w, script, Telling(m, plan));
  }

  ghost function Telling(m: Manifest, plan: Plan): Run -> bool {
    (x: Run) => SecretsTold(m, plan, x)
  }

  lemma EntityStepsTell(m: Manifest, plan: Plan, script: Script)
    requires forall p :: 0 <= p < |plan.changes| && plan.changes[p].action == Create ==> plan.changes[p].id.None?
    ensures EntityStepsKeep(m, plan, |plan.changes|, script, Telling(m, plan))
  {
    forall x: Run | Runnable(m, plan, x) && SecretsTold(m, plan, x) && x.stop == Running && x.entity < |plan.changes|
      ensures SecretsTold(m, plan, StepEntity(m, x, script))
    {
      StepEntityTellsSecrets(m, plan, x, script);
    }
  }

  lemma OtherStepsTell(m: Manifest, plan: Plan, script: Script)
    ensures BindingStepsKeep(m, plan, |plan.bindings|, script, Telling(m, plan)) && NetworkStepsKeep(m, plan, script, Telling(m, plan))
  {
    forall x: Run | Runnable(m, plan, x) && SecretsTold(m, plan, x) && x.stop == Running && x.binding < |plan.bindings|
      ensures SecretsTold(m, plan, StepBinding(m, plan, x, script))
    {
      BindingFields(m, plan, x, script);
      OtherStepsKeepSecrets(m, plan, x, script);
      OtherStepsTellSecrets(m, plan, x, StepBinding(m, plan, x, script));
    }
    forall x: Run | Runnable(m, plan, x) && SecretsTold(m, plan, x) && x.stop == Running && x.item < |plan.network|
      ensures SecretsTold(m, plan, StepNetwork(m, x, script))
    {
      ItemFields(m, x, script);
      OtherStepsKeepSecrets(m, plan, x, script);
      OtherStepsTellSecrets(m, plan, x, StepNetwork(m, x, script));
    }
  }
}
