/** The checks made on a manifest before any request, and what an accepted manifest is. */
module Validate {
  import opened Basics
  import opened Manifest
  import opened Cycles
  import opened Planning

  // ----- What is accepted -----

  ghost predicate KeysPresent(es: seq<Entity>) {
    forall i :: 0 <= i < |es| ==> es[i].key != ""
  }

  ghost predicate ResourcesTyped(es: seq<Entity>) {
    forall i :: 0 <= i < |es| && es[i].kind == Resource ==> es[i].resourceType != ""
  }

  predicate NamesKind(es: seq<Entity>, key: string, kind: Kind) {
    var r := FindKey(es, key);
    r.Some? && es[r.value].kind == kind
  }

  ghost predicate BoundOnce(es: seq<Entity>, ref: BindingRef)
    requires ValidRef(es, ref)
  {
    var roles := es[ref.subject].roles;
    forall b :: ref.binding < b < |roles| ==> roles[b].roleKey != roles[ref.binding].roleKey
  }

  ghost predicate BindingAccepted(es: seq<Entity>, ref: BindingRef)
    requires ValidRef(es, ref)
  {
    var rb := es[ref.subject].roles[ref.binding];
    && NamesKind(es, rb.roleKey, Role)
    && (rb.resourceKey.Some? ==> NamesKind(es, rb.resourceKey.value, Resource))
    && BoundOnce(es, ref)
    && (rb.inheritFalse ==> rb.resourceKey.Some? && !es[FindKey(es, rb.roleKey).value].isGlobal)
  }

  ghost predicate EntitiesAccepted(es: seq<Entity>) {
    && KeysPresent(es)
    && UniqueKeysWithinKind(es)
    && ResourcesTyped(es)
    && NoDanglingDependency(es)
    && Acyclic(es)
    && forall ref :: ValidRef(es, ref) ==> BindingAccepted(es, ref)
  }

  predicate SegmentComplete(s: SegmentSpec) {
    s.key != "" && s.site != "" && s.kind != "" && s.name != ""
  }

  predicate WireKind(kind: string) { kind == "access" || kind == "quarantine" }

  predicate SameSegment(a: SegmentSpec, b: SegmentSpec) {
    a.site == b.site && a.kind == b.kind && a.name == b.name
  }

  ghost predicate NoRepeat(fs: seq<string>) {
    forall i, j :: 0 <= i < j < |fs| ==> fs[i] != fs[j]
  }

  ghost predicate SegmentsAccepted(ss: seq<SegmentSpec>) {
    && (forall i :: 0 <= i < |ss| ==> SegmentComplete(ss[i]) && WireKind(ss[i].kind))
    && (forall i :: 0 <= i < |ss| && ss[i].filterIds.Some? ==> NoRepeat(ss[i].filterIds.value))
    && (forall i, j :: 0 <= i < j < |ss| ==> ss[i].key != ss[j].key && !SameSegment(ss[i], ss[j]))
  }

  predicate KnownTermination(text: string) { text == "default" || text == "radius_request" }

  predicate KnownServiceType(text: string) { text == "framed_user" }

  predicate SegmentDeclared(ss: seq<SegmentSpec>, key: string) {
    exists i :: 0 <= i < |ss| && ss[i].key == key
  }

  predicate ProfileSendable(p: ProfileSpec) {
    && (p.termination.Some? ==> KnownTermination(p.termination.value))
    && (p.serviceType.Set? ==> KnownServiceType(p.serviceType.value))
  }

  ghost predicate ProfilesAccepted(ss: seq<SegmentSpec>, ps: seq<ProfileSpec>) {
    && (forall i :: 0 <= i < |ps| ==> ps[i].segment != "" && SegmentDeclared(ss, ps[i].segment) && ProfileSendable(ps[i]))
    && (forall i, j :: 0 <= i < j < |ps| ==> ps[i].segment != ps[j].segment)
  }

  ghost predicate Accepted(m: Manifest) {
    EntitiesAccepted(m.entities) && SegmentsAccepted(m.segments) && ProfilesAccepted(m.segments, m.profiles)
  }

  /** Keys, sites, kinds and names are there, the kinds are the two there are, and keys and natural keys unique. */
  lemma SegmentRulesAre(ss: seq<SegmentSpec>)
    ensures SegmentsAccepted(ss)
       <==> (forall i :: 0 <= i < |ss| ==>
              ss[i].key != "" && ss[i].site != "" && ss[i].name != "" && (ss[i].kind == "access" || ss[i].kind == "quarantine"))
            && (forall i :: 0 <= i < |ss| && ss[i].filterIds.Some? ==> forall j, k :: 0 <= j < k < |ss[i].filterIds.value| ==>
                  ss[i].filterIds.value[j] != ss[i].filterIds.value[k])
            && forall i, j :: 0 <= i < j < |ss| ==>
                 ss[i].key != ss[j].key && (ss[i].site != ss[j].site || ss[i].kind != ss[j].kind || ss[i].name != ss[j].name)
  {
  }

  /** Each profile for a declared segment, one for each, with a termination and a service type that have names on the wire. */
  lemma ProfileRulesAre(ss: seq<SegmentSpec>, ps: seq<ProfileSpec>)
    ensures ProfilesAccepted(ss, ps)
       <==> (forall i :: 0 <= i < |ps| ==> ps[i].segment != "" && exists k :: 0 <= k < |ss| && ss[k].key == ps[i].segment)
            && (forall i :: 0 <= i < |ps| && ps[i].termination.Some? ==> ps[i].termination.value == "default" || ps[i].termination.value == "radius_request")
            && (forall i :: 0 <= i < |ps| && ps[i].serviceType.Set? ==> ps[i].serviceType.value == "framed_user")
            && forall i, j :: 0 <= i < j < |ps| ==> ps[i].segment != ps[j].segment
  {
    forall i | 0 <= i < |ps| ensures SegmentDeclared(ss, ps[i].segment) <==> exists k :: 0 <= k < |ss| && ss[k].key == ps[i].segment {
    }
    assert forall i :: 0 <= i < |ps| ==>
      (ProfileSendable(ps[i]) <==> (ps[i].termination.Some? ==> ps[i].termination.value == "default" || ps[i].termination.value == "radius_request")
                                   && (ps[i].serviceType.Set? ==> ps[i].serviceType.value == "framed_user"));
  }

  // ----- Why one is refused -----

  datatype Reason =
    | MissingKey(i: nat)
    | DuplicateKey(i: nat, j: nat)
    | MissingResourceType(i: nat)
    | DanglingDependency(i: nat)
    | DependencyCycle(i: nat)
    | NotARole(ref: BindingRef)
    | NotAResource(ref: BindingRef)
    | RoleBoundTwice(ref: BindingRef)
    | NothingToStopAt(ref: BindingRef)
    | GlobalRoleStopped(ref: BindingRef)
    | SegmentIncomplete(i: nat)
    | SegmentKindUnknown(i: nat)
    | FilterIdRepeated(i: nat)
    | SegmentRepeated(i: nat, j: nat)
    | ProfileWithoutSegment(i: nat)
    | ProfileRepeated(i: nat, j: nat)
    | ProfileUnsendable(i: nat)

  ghost predicate Violates(m: Manifest, r: Reason) {
    var es, ss, ps := m.entities, m.segments, m.profiles;
    match r
    case MissingKey(i) => i < |es| && es[i].key == ""
    case DuplicateKey(i, j) => i < j < |es| && es[i].kind == es[j].kind && es[i].key == es[j].key
    case MissingResourceType(i) => i < |es| && es[i].kind == Resource && es[i].resourceType == ""
    case DanglingDependency(i) => i < |es| && es[i].dependsOn.Some? && Next(es, i).None?
    case DependencyCycle(i) => exists j, n: nat :: 0 <= j < |es| && OnCycle(es, j, n)
    case NotARole(ref) => ValidRef(es, ref) && !NamesKind(es, es[ref.subject].roles[ref.binding].roleKey, Role)
    case NotAResource(ref) =>
      ValidRef(es, ref) && var rb := es[ref.subject].roles[ref.binding];
      rb.resourceKey.Some? && !NamesKind(es, rb.resourceKey.value, Resource)
    case RoleBoundTwice(ref) => ValidRef(es, ref) && !BoundOnce(es, ref)
    case NothingToStopAt(ref) =>
      ValidRef(es, ref) && var rb := es[ref.subject].roles[ref.binding]; rb.inheritFalse && rb.resourceKey.None?
    case GlobalRoleStopped(ref) =>
      ValidRef(es, ref) && var rb := es[ref.subject].roles[ref.binding];
      rb.inheritFalse && NamesKind(es, rb.roleKey, Role) && es[FindKey(es, rb.roleKey).value].isGlobal
    case SegmentIncomplete(i) => i < |ss| && !SegmentComplete(ss[i])
    case SegmentKindUnknown(i) => i < |ss| && !WireKind(ss[i].kind)
    case FilterIdRepeated(i) => i < |ss| && ss[i].filterIds.Some? && !NoRepeat(ss[i].filterIds.value)
    case SegmentRepeated(i, j) => i < j < |ss| && (ss[i].key == ss[j].key || SameSegment(ss[i], ss[j]))
    case ProfileWithoutSegment(i) => i < |ps| && (ps[i].segment == "" || !SegmentDeclared(ss, ps[i].segment))
    case ProfileRepeated(i, j) => i < j < |ps| && ps[i].segment == ps[j].segment
    case ProfileUnsendable(i) => i < |ps| && !ProfileSendable(ps[i])
  }

  /** Every refusal is a real one. */
  lemma ViolationIsNotAccepted(m: Manifest, r: Reason)
    requires Violates(m, r)
    ensures !Accepted(m)
  {
    var es := m.entities;
    match r
    case NotARole(ref) => assert ValidRef(es, ref) && !BindingAccepted(es, ref);
    case NotAResource(ref) => assert ValidRef(es, ref) && !BindingAccepted(es, ref);
    case RoleBoundTwice(ref) => assert ValidRef(es, ref) && !BindingAccepted(es, ref);
    case NothingToStopAt(ref) => assert ValidRef(es, ref) && !BindingAccepted(es, ref);
    case GlobalRoleStopped(ref) => assert ValidRef(es, ref) && !BindingAccepted(es, ref);
    case _ =>
  }

  // ----- The checks -----

  method CheckKeys(es: seq<Entity>) returns (r: Option<Reason>)
    ensures r.None? ==> KeysPresent(es) && UniqueKeysWithinKind(es) && ResourcesTyped(es)
    ensures r.Some? ==> forall m: Manifest :: m.entities == es ==> Violates(m, r.value)
  {
    for i := 0 to |es|
      invariant forall k :: 0 <= k < i ==> es[k].key != ""
      invariant forall k :: 0 <= k < i && es[k].kind == Resource ==> es[k].resourceType != ""
      invariant forall k, l :: 0 <= k < i && k < l < |es| && es[k].kind == es[l].kind ==> es[k].key != es[l].key
    {
      if es[i].key == "" { return Some(MissingKey(i)); }
      for j := i + 1 to |es|
        invariant forall l :: i < l < j && es[i].kind == es[l].kind ==> es[i].key != es[l].key
      {
        if es[i].kind == es[j].kind && es[i].key == es[j].key { return Some(DuplicateKey(i, j)); }
      }
      if es[i].kind == Resource && es[i].resourceType == "" { return Some(MissingResourceType(i)); }
    }
    return None;
  }

  method CheckDependencies(es: seq<Entity>) returns (r: Option<Reason>)
    ensures r.None? ==> NoDanglingDependency(es) && Acyclic(es)
    ensures r.Some? ==> forall m: Manifest :: m.entities == es ==> Violates(m, r.value)
  {
    for i := 0 to |es|
      invariant forall k :: 0 <= k < i && es[k].dependsOn.Some? ==> Next(es, k).Some?
    {
      if es[i].dependsOn.Some? && FindKey(es, es[i].dependsOn.value).None? { return Some(DanglingDependency(i)); }
    }
    for i := 0 to |es|
      invariant forall k :: 0 <= k < i ==> !TooLong(es, k)
    {
      var tooLong := Walk(es, i);
      if tooLong {
        ghost var j, n := LongChainRepeats(es, i);
        return Some(DependencyCycle(i));
      }
    }
    WalkDecidesAcyclicity(es);
    return None;
  }

  method CheckBinding(es: seq<Entity>, ref: BindingRef) returns (r: Option<Reason>)
    requires ValidRef(es, ref)
    ensures r.None? ==> BindingAccepted(es, ref)
    ensures r.Some? ==> forall m: Manifest :: m.entities == es ==> Violates(m, r.value)
  {
    var roles := es[ref.subject].roles;
    var rb := roles[ref.binding];
    var role := FindKey(es, rb.roleKey);
    if role.None? || es[role.value].kind != Role { return Some(NotARole(ref)); }
    if rb.resourceKey.Some? {
      var res := FindKey(es, rb.resourceKey.value);
      if res.None? || es[res.value].kind != Resource { return Some(NotAResource(ref)); }
    }
    for b := ref.binding + 1 to |roles|
      invariant forall c :: ref.binding < c < b ==> roles[c].roleKey != rb.roleKey
    {
      if roles[b].roleKey == rb.roleKey { return Some(RoleBoundTwice(ref)); }
    }
    if rb.inheritFalse && rb.resourceKey.None? { return Some(NothingToStopAt(ref)); }
    if rb.inheritFalse && es[role.value].isGlobal { return Some(GlobalRoleStopped(ref)); }
    return None;
  }

  method CheckBindings(es: seq<Entity>) returns (r: Option<Reason>)
    ensures r.None? ==> forall ref :: ValidRef(es, ref) ==> BindingAccepted(es, ref)
    ensures r.Some? ==> forall m: Manifest :: m.entities == es ==> Violates(m, r.value)
  {
    for i := 0 to |es|
      invariant forall ref :: ValidRef(es, ref) && ref.subject < i ==> BindingAccepted(es, ref)
    {
      if !IsSubject(es[i].kind) { continue; }
      for b := 0 to |es[i].roles|
        invariant forall ref :: ValidRef(es, ref) && ref.subject == i && ref.binding < b ==> BindingAccepted(es, ref)
      {
        r := CheckBinding(es, BindingRef(i, b));
        if r.Some? { return; }
      }
    }
    return None;
  }

  method RepeatsFilterId(fs: seq<string>) returns (twice: bool)
    ensures twice <==> !NoRepeat(fs)
  {
    for f := 0 to |fs|
      invariant forall i, j :: 0 <= i < f && i < j < |fs| ==> fs[i] != fs[j]
    {
      for g := f + 1 to |fs|
        invariant forall j :: f < j < g ==> fs[f] != fs[j]
      {
        if fs[f] == fs[g] { return true; }
      }
    }
    return false;
  }

  method CheckSegments(ss: seq<SegmentSpec>) returns (r: Option<Reason>)
    ensures r.None? ==> SegmentsAccepted(ss)
    ensures r.Some? ==> forall m: Manifest :: m.segments == ss ==> Violates(m, r.value)
  {
    for i := 0 to |ss|
      invariant forall k :: 0 <= k < i ==> SegmentComplete(ss[k]) && WireKind(ss[k].kind)
      invariant forall k :: 0 <= k < i && ss[k].filterIds.Some? ==> NoRepeat(ss[k].filterIds.value)
      invariant forall k, l :: 0 <= k < i && k < l < |ss| ==> ss[k].key != ss[l].key && !SameSegment(ss[k], ss[l])
    {
      if !SegmentComplete(ss[i]) { return Some(SegmentIncomplete(i)); }
      if !WireKind(ss[i].kind) { return Some(SegmentKindUnknown(i)); }
      if ss[i].filterIds.Some? {
        var twice := RepeatsFilterId(ss[i].filterIds.value);
        if twice { return Some(FilterIdRepeated(i)); }
      }
      for j := i + 1 to |ss|
        invariant forall l :: i < l < j ==> ss[i].key != ss[l].key && !SameSegment(ss[i], ss[l])
      {
        if ss[i].key == ss[j].key || SameSegment(ss[i], ss[j]) { return Some(SegmentRepeated(i, j)); }
      }
    }
    return None;
  }

  method CheckProfiles(ss: seq<SegmentSpec>, ps: seq<ProfileSpec>) returns (r: Option<Reason>)
    ensures r.None? ==> ProfilesAccepted(ss, ps)
    ensures r.Some? ==> forall m: Manifest :: m.segments == ss && m.profiles == ps ==> Violates(m, r.value)
  {
    for i := 0 to |ps|
      invariant forall k :: 0 <= k < i ==>
        ps[k].segment != "" && SegmentDeclared(ss, ps[k].segment) && ProfileSendable(ps[k])
      invariant forall k, l :: 0 <= k < i && k < l < |ps| ==> ps[k].segment != ps[l].segment
    {
      if ps[i].segment == "" || !SegmentDeclared(ss, ps[i].segment) { return Some(ProfileWithoutSegment(i)); }
      for j := i + 1 to |ps|
        invariant forall l :: i < l < j ==> ps[i].segment != ps[l].segment
      {
        if ps[i].segment == ps[j].segment { return Some(ProfileRepeated(i, j)); }
      }
      if !ProfileSendable(ps[i]) { return Some(ProfileUnsendable(i)); }
    }
    return None;
  }

  /** axiam_mgmt_manifest_validate(): accepts exactly the manifests that satisfy every rule. */
  method ValidateManifest(m: Manifest) returns (r: Option<Reason>)
    ensures r.None? <==> Accepted(m)
    ensures r.Some? ==> Violates(m, r.value)
  {
    r := CheckKeys(m.entities);
    if r.None? { r := CheckDependencies(m.entities); }
    if r.None? { r := CheckBindings(m.entities); }
    if r.None? { r := CheckSegments(m.segments); }
    if r.None? { r := CheckProfiles(m.segments, m.profiles); }
    if r.Some? { ViolationIsNotAccepted(m, r.value); }
  }
}
