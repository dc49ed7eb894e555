/**
 * The server's side of identity: objects by kind and role assignments.  This is the model's
 * environment, not part of the client: it stores what it is sent, hands out fresh ids, keeps at most
 * one assignment per (subject, role), and may refuse any call for reasons of its own.
 */
module Directory {
  import opened Basics
  import opened Manifest

  datatype Row = Row(
    id: Id,
    name: string,
    description: Option<string>,
    metadata: Option<Json>,
    resourceType: string,
    isGlobal: bool,
    parent: Option<Id>)

  datatype Assignment = Assignment(resource: Option<Id>, inherit: bool, scope: seq<string>)

  /** `held` maps (subject, role) to the one assignment there can be. */
  datatype Directory = Directory(rows: map<Kind, seq<Row>>, held: map<(Id, Id), Assignment>, nextId: Id)

  function RowsOf(d: Directory, k: Kind): seq<Row> {
    if k in d.rows then d.rows[k] else []
  }

  ghost predicate IdsAreUnique(d: Directory) {
    forall k, l, i, j ::
      (0 <= i < |RowsOf(d, k)| && 0 <= j < |RowsOf(d, l)| && RowsOf(d, k)[i].id == RowsOf(d, l)[j].id)
      ==> k == l && i == j
  }

  ghost predicate IdsAreIssued(d: Directory) {
    && (forall k, i :: 0 <= i < |RowsOf(d, k)| ==> RowsOf(d, k)[i].id < d.nextId)
    && (forall h :: h in d.held ==> h.0 < d.nextId && h.1 < d.nextId)
    && (forall h :: h in d.held && d.held[h].resource.Some? ==> d.held[h].resource.value < d.nextId)
  }

  ghost predicate RoleNamesAreUnique(d: Directory) {
    forall i, j :: 0 <= i < j < |RowsOf(d, Role)| ==> RowsOf(d, Role)[i].name != RowsOf(d, Role)[j].name
  }

  ghost predicate WellFormed(d: Directory) {
    IdsAreUnique(d) && IdsAreIssued(d) && RoleNamesAreUnique(d)
  }

  // ----- Writes -----

  /** A request body.  None is a member left out of it. */
  datatype DirectoryCall =
    | CreateEntity(kind: Kind, name: Option<string>, description: Option<string>, metadata: Option<Json>,
                   resourceType: string, isGlobal: bool, parent: Option<Id>)
    | UpdateEntity(kind: Kind, id: Id, name: Option<string>, description: Option<string>, metadata: Option<Json>)
    | Unassign(role: Id, subject: Id, resource: Option<Id>)
    | Assign(role: Id, subject: Id, resource: Option<Id>, inherit: Option<bool>, scope: seq<string>)

  function RowAt(rows: seq<Row>, id: Id): (r: Option<nat>)
    ensures r.Some? ==> r.value < |rows| && rows[r.value].id == id
    ensures r.None? ==> forall i :: 0 <= i < |rows| ==> rows[i].id != id
  {
    if rows == [] then None
    else if rows[|rows| - 1].id == id then Some(|rows| - 1)
    else RowAt(rows[..|rows| - 1], id)
  }

  /** What the server can carry out at all; anything else it refuses. */
  predicate Permits(d: Directory, c: DirectoryCall) {
    match c
    case CreateEntity(kind, name, _, _, _, _, _) => name.Some?
    case UpdateEntity(kind, id, _, _, _) => RowAt(RowsOf(d, kind), id).Some?
    case Unassign(role, subject, resource) =>
      (subject, role) in d.held && d.held[(subject, role)].resource == resource
    case Assign(role, subject, _, _, _) => (subject, role) !in d.held
  }

  function Overwrite<T>(said: Option<T>, kept: Option<T>): Option<T> {
    if said.Some? then said else kept
  }

  function Effect(d: Directory, c: DirectoryCall): Directory
    requires Permits(d, c)
  {
    match c
    case CreateEntity(kind, name, description, metadata, resourceType, isGlobal, parent) =>
      var stored := if kind == Resource then Some(metadata.GetOr(JObj(map[]))) else None;
      var row := Row(d.nextId, name.value, description, stored, resourceType, isGlobal, parent);
      d.(rows := d.rows[kind := RowsOf(d, kind) + [row]], nextId := d.nextId + 1)
    case UpdateEntity(kind, id, name, description, metadata) =>
      var at := RowAt(RowsOf(d, kind), id).value;
      var row := RowsOf(d, kind)[at];
      var row' := row.(name := name.GetOr(row.name),
                       description := Overwrite(description, row.description),
                       metadata := Overwrite(metadata, row.metadata));
      d.(rows := d.rows[kind := RowsOf(d, kind)[at := row']])
    case Unassign(role, subject, _) => d.(held := d.held - {(subject, role)})
    case Assign(role, subject, resource, inherit, scope) =>
      d.(held := d.held[(subject, role) := Assignment(resource, inherit.GetOr(true), scope)])
  }

  // ----- Reads -----

  /** What one page of a listing shows of a row: a resource without its description, others without metadata. */
  function AsRead(k: Kind, row: Row): Row {
    if k == Resource then row.(description := None) else row.(metadata := None)
  }

  const SCAN_LIMIT: nat := 200

  /** read_existing() asks for one page and never for a second. */
  function ReadExisting(d: Directory, k: Kind): (s: seq<Row>)
    ensures |s| == (if |RowsOf(d, k)| <= SCAN_LIMIT then |RowsOf(d, k)| else SCAN_LIMIT)
    ensures forall i :: 0 <= i < |s| ==> s[i] == AsRead(k, RowsOf(d, k)[i])
  {
    var rows := RowsOf(d, k);
    seq(if |rows| <= SCAN_LIMIT then |rows| else SCAN_LIMIT, i requires 0 <= i < |rows| => AsRead(k, rows[i]))
  }

  /** One entry of a subject's role list. */
  datatype HeldRole = HeldRole(roleName: string, assignment: Assignment)

  function HeldAmong(d: Directory, subject: Id, roles: seq<Row>): seq<HeldRole> {
    if roles == [] then []
    else
      var rest := HeldAmong(d, subject, roles[1..]);
      if (subject, roles[0].id) in d.held
      then [HeldRole(roles[0].name, d.held[(subject, roles[0].id)])] + rest
      else rest
  }

  function ReadBindings(d: Directory, subject: Id): seq<HeldRole> {
    HeldAmong(d, subject, RowsOf(d, Role))
  }
}
