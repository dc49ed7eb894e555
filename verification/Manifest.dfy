/** The declarative manifest, as a caller writes it (include/axiam/management_manifest.h). */
module Manifest {
  import opened Basics

  /** A server id.  The client only stores, sends and compares one. */
  type Id = nat

  datatype Kind = Resource | Permission | Role | Group | ServiceAccount

  /** The order of the C constants, which is the order of an apply. */
  function Rank(k: Kind): nat {
    match k
    case Resource => 0
    case Permission => 1
    case Role => 2
    case Group => 3
    case ServiceAccount => 4
  }

  predicate IsSubject(k: Kind) { k == Group || k == ServiceAccount }

  /** A NULL and an empty `role_key` are refused alike, and are both "". */
  datatype RoleBinding = RoleBinding(roleKey: string, resourceKey: Option<string>, inheritFalse: bool)

  /** A NULL and an empty `key` or `resource_type` are refused alike, and are both "". */
  datatype Entity = Entity(
    kind: Kind,
    key: string,
    name: Option<string>,
    description: Option<string>,
    resourceType: string,
    action: Option<string>,
    isGlobal: bool,
    metadata: Option<JsonText>,
    roles: seq<RoleBinding>,
    dependsOn: Option<string>)

  /** Whether a spec states an optional member, states "none", or is silent. */
  datatype Stated<+T> = Unstated | Set(value: T) | Nothing

  datatype SegmentSpec = SegmentSpec(
    key: string,
    site: string,
    kind: string,
    name: string,
    vlan: int,
    rank: Stated<int>,
    filterIds: Option<seq<string>>,
    enabled: Stated<bool>)

  datatype ProfileSpec = ProfileSpec(
    segment: string,
    timeout: int,
    termination: Option<string>,
    idle: Stated<int>,
    filterId: Stated<string>,
    serviceType: Stated<string>)

  datatype Manifest = Manifest(
    entities: seq<Entity>,
    segments: seq<SegmentSpec>,
    profiles: seq<ProfileSpec>,
    policy: Option<int>)

  /** A permission is known to the server by its action, everything else by its name. */
  function MatchName(e: Entity): Option<string> {
    if e.kind == Permission then e.action else e.name
  }

  /** The first declaration with this key, whatever its kind. */
  function FindKey(es: seq<Entity>, key: string): (r: Option<nat>)
    ensures r.Some? ==> r.value < |es| && es[r.value].key == key
                        && forall j :: 0 <= j < r.value ==> es[j].key != key
    ensures r.None? ==> forall j :: 0 <= j < |es| ==> es[j].key != key
  {
    FindKeyFrom(es, key, 0)
  }

  function FindKeyFrom(es: seq<Entity>, key: string, from: nat): (r: Option<nat>)
    requires from <= |es|
    ensures r.Some? ==> from <= r.value < |es| && es[r.value].key == key
                        && forall j :: from <= j < r.value ==> es[j].key != key
    ensures r.None? ==> forall j :: from <= j < |es| ==> es[j].key != key
    decreases |es| - from
  {
    if from == |es| then None
    else if es[from].key == key then Some(from)
    else FindKeyFrom(es, key, from + 1)
  }

  ghost predicate UniqueKeysWithinKind(es: seq<Entity>) {
    forall i, j :: 0 <= i < j < |es| ==> es[i].kind == es[j].kind ==> es[i].key != es[j].key
  }
}
