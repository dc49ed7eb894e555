/** What a plan decides about entities and role bindings, given the server's state as read. */
module Planning {
  import opened Basics
  import opened Manifest
  import opened Directory

  datatype Action = Unchanged | Create | Update

  /** `entity` is an index into the declarations; `id` is None until the server has given one. */
  datatype Change = Change(entity: nat, action: Action, id: Option<Id>)

  // ----- Entities -----

  function FindRow(rows: seq<Row>, name: string): (r: Option<nat>)
    ensures r.Some? ==> r.value < |rows| && rows[r.value].name == name
                        && forall j :: 0 <= j < r.value ==> rows[j].name != name
    ensures r.None? ==> forall j :: 0 <= j < |rows| ==> rows[j].name != name
  {
    FindRowFrom(rows, name, 0)
  }

  function FindRowFrom(rows: seq<Row>, name: string, from: nat): (r: Option<nat>)
    requires from <= |rows|
    ensures r.Some? ==> from <= r.value < |rows| && rows[r.value].name == name
                        && forall j :: from <= j < r.value ==> rows[j].name != name
    ensures r.None? ==> forall j :: from <= j < |rows| ==> rows[j].name != name
    decreases |rows| - from
  {
    if from == |rows| then None
    else if rows[from].name == name then Some(from)
    else FindRowFrom(rows, name, from + 1)
  }

  /** More than one row of the listing carries the name. */
  ghost predicate Ambiguous(rows: seq<Row>, name: string) {
    exists i, j :: 0 <= i < j < |rows| && rows[i].name == name && rows[j].name == name
  }

  /** Silence is never drift; a text that does not parse always is. */
  function MetadataDiffers(declared: Option<JsonText>, server: Option<Json>): bool {
    match declared
    case None => false
    case Some(Malformed) => true
    case Some(Parsed(v)) => server != Some(v)
  }

  predicate Drifted(e: Entity, read: Row) {
    || (e.description.Some? && read.description != e.description)
    || (e.kind == Resource && MetadataDiffers(e.metadata, read.metadata))
  }

  datatype Decision = Undecidable | Decided(action: Action, id: Option<Id>)

  /** Only a service account's name can be ambiguous; every other kind takes the first match. */
  ghost function Decide(e: Entity, listing: seq<Row>): Decision {
    match MatchName(e)
    case None => Decided(Create, None)
    case Some(name) =>
      if e.kind == ServiceAccount && Ambiguous(listing, name) then Undecidable
      else match FindRow(listing, name)
        case None => Decided(Create, None)
        case Some(i) => Decided(if Drifted(e, listing[i]) then Update else Unchanged, Some(listing[i].id))
  }

  ghost function DecideOn(e: Entity, d: Directory): Decision {
    Decide(e, ReadExisting(d, e.kind))
  }

  ghost function ChangeFor(es: seq<Entity>, i: nat, d: Directory): Change
    requires i < |es|
  {
    match DecideOn(es[i], d)
    case Undecidable => Change(i, Unchanged, None)
    case Decided(action, id) => Change(i, action, id)
  }

  ghost predicate EverythingDecidable(es: seq<Entity>, d: Directory) {
    forall i :: 0 <= i < |es| ==> DecideOn(es[i], d).Decided?
  }

  /** The planned changes, in the derived order. */
  ghost function ChangesOn(es: seq<Entity>, ord: seq<nat>, d: Directory): (cs: seq<Change>)
    requires forall k :: 0 <= k < |ord| ==> ord[k] < |es|
    ensures |cs| == |ord| && forall k :: 0 <= k < |ord| ==> cs[k] == ChangeFor(es, ord[k], d)
  {
    seq(|ord|, k requires 0 <= k < |ord| => ChangeFor(es, ord[k], d))
  }

  // ----- Keys to ids -----

  ghost predicate Refers(es: seq<Entity>, cs: seq<Change>) {
    forall k :: 0 <= k < |cs| ==> cs[k].entity < |es|
  }

  /** The first planned change under this key, whatever its kind. */
  function FindChange(es: seq<Entity>, cs: seq<Change>, key: string, from: nat): (r: Option<nat>)
    requires Refers(es, cs) && from <= |cs|
    ensures r.Some? ==> from <= r.value < |cs| && es[cs[r.value].entity].key == key
                        && forall j :: from <= j < r.value ==> es[cs[j].entity].key != key
    ensures r.None? ==> forall j :: from <= j < |cs| ==> es[cs[j].entity].key != key
    decreases |cs| - from
  {
    if from == |cs| then None
    else if es[cs[from].entity].key == key then Some(from)
    else FindChange(es, cs, key, from + 1)
  }

  /** resolved_id_for_key(). */
  function Resolved(es: seq<Entity>, cs: seq<Change>, key: string): Option<Id>
    requires Refers(es, cs)
  {
    match FindChange(es, cs, key, 0)
    case None => None
    case Some(k) => cs[k].id
  }

  function ResolvedOption(es: seq<Entity>, cs: seq<Change>, key: Option<string>): Option<Id>
    requires Refers(es, cs)
  {
    match key case None => None case Some(k) => Resolved(es, cs, k)
  }

  // ----- Role bindings -----

  /** A declared binding: the subject's index and the index into its `roles`. */
  datatype BindingRef = BindingRef(subject: nat, binding: nat)

  predicate ValidRef(es: seq<Entity>, r: BindingRef) {
    r.subject < |es| && r.binding < |es[r.subject].roles| && IsSubject(es[r.subject].kind)
  }

  function RefsOfSubject(i: nat, n: nat): (rs: seq<BindingRef>)
    ensures |rs| == n && forall k :: 0 <= k < n ==> rs[k] == BindingRef(i, k)
  {
    seq(n, k requires 0 <= k < n => BindingRef(i, k))
  }

  /** The bindings of the first n declarations of one kind, in the order they are declared. */
  function RefsOfKind(es: seq<Entity>, kind: Kind, n: nat): seq<BindingRef>
    requires n <= |es|
  {
    if n == 0 then []
    else RefsOfKind(es, kind, n - 1)
         + (if es[n - 1].kind == kind then RefsOfSubject(n - 1, |es[n - 1].roles|) else [])
  }

  /** Group bindings first, then service-account bindings. */
  function BindingRefs(es: seq<Entity>): seq<BindingRef> {
    RefsOfKind(es, Group, |es|) + RefsOfKind(es, ServiceAccount, |es|)
  }

  datatype PlannedBinding = PlannedBinding(
    ref: BindingRef, action: Action, oldResource: Option<Id>, oldInherit: bool, oldScope: seq<string>)

  function FindHeld(held: seq<HeldRole>, roleName: string): Option<Assignment> {
    if held == [] then None
    else if held[0].roleName == roleName then Some(held[0].assignment)
    else FindHeld(held[1..], roleName)
  }

  /** The server's assignment of the declared role to the subject, matched by the role's name. */
  function ExistingBinding(es: seq<Entity>, d: Directory, subject: Option<Id>, rb: RoleBinding): Option<Assignment> {
    match FindKey(es, rb.roleKey)
    case None => None
    case Some(r) =>
      if subject.None? || es[r].name.None? then None
      else FindHeld(ReadBindings(d, subject.value), es[r].name.value)
  }

  /** A NULL resource on both sides matches; two resources match when the declared one resolves to the other. */
  predicate ResourceMatches(existing: Assignment, rb: RoleBinding, resource: Option<Id>) {
    if rb.resourceKey.None? then existing.resource.None?
    else existing.resource.Some? && resource == existing.resource
  }

  function DecideBinding(ref: BindingRef, rb: RoleBinding, existing: Option<Assignment>, resource: Option<Id>)
    : PlannedBinding
  {
    match existing
    case None => PlannedBinding(ref, Create, None, false, [])
    case Some(a) =>
      if ResourceMatches(a, rb, resource) && a.inherit == !rb.inheritFalse
      then PlannedBinding(ref, Unchanged, None, false, [])
      else PlannedBinding(ref, Update, a.resource, a.inherit, a.scope)
  }

  function PlanBinding(es: seq<Entity>, cs: seq<Change>, d: Directory, ref: BindingRef): PlannedBinding
    requires Refers(es, cs) && ValidRef(es, ref)
  {
    var rb := es[ref.subject].roles[ref.binding];
    DecideBinding(ref, rb,
                  ExistingBinding(es, d, Resolved(es, cs, es[ref.subject].key), rb),
                  ResolvedOption(es, cs, rb.resourceKey))
  }

  /** The binding plan for a list of references. */
  function BindingsOn(es: seq<Entity>, cs: seq<Change>, d: Directory, refs: seq<BindingRef>): (bs: seq<PlannedBinding>)
    requires Refers(es, cs) && forall k :: 0 <= k < |refs| ==> ValidRef(es, refs[k])
    ensures |bs| == |refs| && forall k :: 0 <= k < |refs| ==> bs[k] == PlanBinding(es, cs, d, refs[k])
  {
    seq(|refs|, k requires 0 <= k < |refs| => PlanBinding(es, cs, d, refs[k]))
  }

  // ----- The calls that carry a change out -----

  function SentMetadata(e: Entity): Option<Json> {
    match e.metadata case Some(Parsed(v)) => Some(v) case _ => None
  }

  function CreateCall(e: Entity, parent: Option<Id>): DirectoryCall {
    if e.kind == Resource
    then CreateEntity(Resource, e.name, None, SentMetadata(e), e.resourceType, false, parent)
    else CreateEntity(e.kind, MatchName(e), Some(e.description.GetOr("")), None, "",
                      e.kind == Role && e.isGlobal, None)
  }

  /** A resource update never carries the description; every other update carries only that. */
  function UpdateCall(e: Entity, id: Id): DirectoryCall {
    if e.kind == Resource
    then UpdateEntity(Resource, id, e.name, None, SentMetadata(e))
    else UpdateEntity(e.kind, id, None, e.description, None)
  }

  /** `inherit` is sent only to say false. */
  function AssignCall(role: Id, subject: Id, resource: Option<Id>, inherit: bool, scope: seq<string>): DirectoryCall {
    Assign(role, subject, resource, if inherit then None else Some(false), scope)
  }
}
