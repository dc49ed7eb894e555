/** axiam_mgmt_plan() from end to end: refuse, order, read, diff, and never write. */
module MakePlan {
  import opened Basics
  import opened Manifest
  import opened Planning
  import opened Validate
  import opened Network
  import opened Wire
  import opened Applying
  import opened Order
  import opened NetPlanning
  import opened NetTracking
  import opened NetPlanner
  import opened Planner
  import opened Resuming
  import opened Tracking

  datatype Answered =
    | Planned(plan: Plan, ord: seq<nat>)
    | Invalid(reason: Reason)
    | Ambiguity(entity: nat)
    | UnknownValue(segment: nat)
    | Unread
    | OutOfMemory

  ghost predicate SomeReadFailed(answers: nat -> bool, lo: nat, hi: nat) {
    exists n :: lo <= n < hi && !answers(n)
  }

  /** The bindings of both subject kinds, groups first. */
  method PlanBindings(client: Client, es: seq<Entity>, cs: seq<Change>) returns (r: Option<seq<PlannedBinding>>)
    requires Refers(es, cs)
    modifies client`readCount
    ensures client.readCount >= old(client.readCount)
    ensures RefsValid(es)
    ensures r.Some? ==> r.value == BindingsOn(es, cs, client.world.dir, BindingRefs(es))
    ensures r.None? ==> SomeReadFailed(client.answers, old(client.readCount), client.readCount)
  {
    RefsAreValid(es);
    var groups := PlanBindingsOfKind(client, es, cs, Group);
    if groups.None? { return None; }
    var accounts := PlanBindingsOfKind(client, es, cs, ServiceAccount);
    if accounts.None? { return None; }
    BindingsAppend(es, cs, client.world.dir, RefsOfKind(es, Group, |es|), RefsOfKind(es, ServiceAccount, |es|));
    return Some(groups.value + accounts.value);
  }

  /** What a plan handed to the caller says of the manifest and of the server as it stands. */
  ghost predicate PlanOf(m: Manifest, w: World, ord: seq<nat>, plan: Plan) {
    && DerivedOrder(m.entities, ord) && RefsValid(m.entities) && PlannedOn(m.entities, ord, w.dir, plan)
    && (NetWellFormed(w.net) ==> exists segs :: SegmentOrder(m.segments, segs) && plan.network == NetworkItems(m, segs, w.net)
                                                && NoneRefused(m, segs, w.net, |segs|))
  }

  ghost predicate RefusedOn(m: Manifest, t: NetState, segment: nat) {
    exists segs, k :: SegmentOrder(m.segments, segs) && 0 <= k < |segs| && segs[k] == segment && RefusedFor(m, segs, t, k)
  }

  /** The network part, in segment order. */
  method PlanOrderedNetwork(client: Client, m: Manifest, memory: nat -> bool) returns (r: NetPlan, f: Freed, segs: seq<nat>)
    requires SegmentsAccepted(m.segments) && ProfilesAccepted(m.segments, m.profiles)
    modifies client`readCount
    ensures SegmentOrder(m.segments, segs) && client.readCount >= old(client.readCount)
    ensures r.PlannedNetwork? && NetWellFormed(client.world.net)
      ==> ItemsOf(f.items) == NetworkItems(m, segs, client.world.net) && NoneRefused(m, segs, client.world.net, |segs|)
    ensures r.UnknownMember? ==> r.k < |segs| && (NetWellFormed(client.world.net) ==> RefusedFor(m, segs, client.world.net, r.k))
    ensures r.NoMemory? ==> !memory(0) || !memory(1)
    ensures Released(m, client.world.net, f, SegmentsRead(m, client.answers, old(client.readCount), client.readCount),
                     ProfilesRead(m, client.answers, old(client.readCount), client.readCount))
    ensures r.NetReadFailed? ==> SomeReadFailed(client.answers, old(client.readCount), client.readCount)
  {
    var out := new nat[|m.segments|];
    OrderSegments(m.segments, out);
    segs := out[..];
    r, f := PlanNetwork(client, m, segs, memory);
  }

  /**
   * The plan of a manifest.  It sends nothing: only the count of reads moves.  A manifest that breaks
   * a rule is refused before any read; everything else that can stop it is named by what it returns.
   */
  method Make(client: Client, m: Manifest, memory: nat -> bool) returns (a: Answered)
    modifies client`readCount
    ensures client.world == old(client.world)
    ensures a.Invalid? <==> !Accepted(m)
    ensures a.Invalid? ==> Violates(m, a.reason) && client.readCount == old(client.readCount)
    ensures a.Planned? ==> PlanOf(m, client.world, a.ord, a.plan)
    ensures a.Ambiguity? ==> a.entity < |m.entities| && DecideOn(m.entities[a.entity], client.world.dir).Undecidable?
    ensures a.UnknownValue? && NetWellFormed(client.world.net) ==> RefusedOn(m, client.world.net, a.segment)
    ensures a.OutOfMemory? ==> !memory(0) || !memory(1)
    ensures a.Unread? ==> SomeReadFailed(client.answers, old(client.readCount), client.readCount)
  {
    var invalid := ValidateManifest(m);
    if invalid.Some? { return Invalid(invalid.value); }
    var out := new nat[|m.entities|];
    OrderEntities(m.entities, out);
    var ord := out[..];
    var entities := PlanEntities(client, m.entities, ord);
    if entities.ReadFailed? { return Unread; }
    if entities.AmbiguousAccount? { return Ambiguity(entities.i); }
    var changes := entities.changes;
    assert Refers(m.entities, changes);
    var bindings := PlanBindings(client, m.entities, changes);
    if bindings.None? { return Unread; }
    var net, f, segs := PlanOrderedNetwork(client, m, memory);
    if net.NetReadFailed? { return Unread; }
    if net.NoMemory? { return OutOfMemory; }
    if net.UnknownMember? { return UnknownValue(segs[net.k]); }
    return Planned(Plan(changes, bindings.value, ItemsOf(f.items)), ord);
  }
}
