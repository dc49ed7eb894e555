/**
 * What one carried-out write does to the next plan: the written entity or binding is settled, and
 * every other decision is the one it was.
 */
module Settling {
  import opened Basics
  import opened Manifest
  import opened Directory
  import opened Planning

  /** Drift that no update can remove: a listing shows no resource description, and a text that is no JSON is never sent. */
  predicate Stuck(e: Entity) {
    e.kind == Resource && (e.description.Some? || e.metadata == Some(Malformed))
  }

  function SettledAction(e: Entity): Action {
    if Stuck(e) then Update else Unchanged
  }

  /** The rows a listing shows: the first page of them. */
  function Page(rows: seq<Row>): (page: seq<Row>)
    ensures page <= rows && |page| <= SCAN_LIMIT
  {
    if |rows| <= SCAN_LIMIT then rows else rows[..SCAN_LIMIT]
  }

  /** A declaration that no listing shows is not on the server either. */
  ghost predicate Seen(e: Entity, d: Directory) {
    DecideOn(e, d) == Decided(Create, None) ==> |RowsOf(d, e.kind)| <= SCAN_LIMIT
  }

  ghost predicate DistinctMatchNames(es: seq<Entity>) {
    forall i, j :: 0 <= i < j < |es| && es[i].kind == es[j].kind ==> MatchName(es[i]) != MatchName(es[j])
  }

  // ----- Decisions on rows -----

  /** The decision read off the server's own rows. */
  ghost function DecideRows(e: Entity, rows: seq<Row>): Decision {
    match MatchName(e)
    case None => Decided(Create, None)
    case Some(name) =>
      if e.kind == ServiceAccount && Ambiguous(rows, name) then Undecidable
      else match FindRow(rows, name)
        case None => Decided(Create, None)
        case Some(i) => Decided(if Drifted(e, AsRead(e.kind, rows[i])) then Update else Unchanged, Some(rows[i].id))
  }

  ghost predicate SameNames(a: seq<Row>, b: seq<Row>) {
    |a| == |b| && forall i :: 0 <= i < |a| ==> a[i].name == b[i].name && a[i].id == b[i].id
  }

  lemma SameNamesFindAlike(a: seq<Row>, b: seq<Row>, name: string)
    requires SameNames(a, b)
    ensures FindRow(a, name) == FindRow(b, name)
    ensures Ambiguous(a, name) <==> Ambiguous(b, name)
  {
    if i, j :| 0 <= i < j < |a| && a[i].name == name && a[j].name == name { assert b[i].name == b[j].name == name; }
    if i, j :| 0 <= i < j < |b| && b[i].name == name && b[j].name == name { assert a[i].name == a[j].name == name; }
  }

  /** A decision is made on the page: a listing shows no other row. */
  lemma DecideByPage(e: Entity, d: Directory)
    ensures DecideOn(e, d) == DecideRows(e, Page(RowsOf(d, e.kind)))
  {
    if MatchName(e).Some? { SameNamesFindAlike(ReadExisting(d, e.kind), Page(RowsOf(d, e.kind)), MatchName(e).value); }
  }

  lemma FoundOnPage(rows: seq<Row>, name: string)
    ensures FindRow(Page(rows), name).Some? ==> FindRow(rows, name) == FindRow(Page(rows), name)
    ensures FindRow(rows, name).Some? && FindRow(rows, name).value < SCAN_LIMIT ==> FindRow(Page(rows), name).Some?
  {
    var r := FindRow(Page(rows), name);
    if r.Some? { FindRowIs(rows, name, r.value); }
  }

  /**
   * An object that exists is planned to be created again exactly when it is the first of its name
   * beyond the page.
   */
  lemma CreatedAgainIff(e: Entity, d: Directory)
    requires MatchName(e).Some? && FindRow(RowsOf(d, e.kind), MatchName(e).value).Some?
    ensures DecideOn(e, d) == Decided(Create, None) <==> FindRow(RowsOf(d, e.kind), MatchName(e).value).value >= SCAN_LIMIT
  {
    DecideByPage(e, d);
    FoundOnPage(RowsOf(d, e.kind), MatchName(e).value);
    var page, name := Page(RowsOf(d, e.kind)), MatchName(e).value;
    if i, j :| 0 <= i < j < |page| && page[i].name == name && page[j].name == name { assert FindRow(page, name).Some?; }
  }

  lemma FindRowIs(rows: seq<Row>, name: string, i: nat)
    requires i < |rows| && rows[i].name == name && forall j :: 0 <= j < i ==> rows[j].name != name
    ensures FindRow(rows, name) == Some(i)
  {
    var r := FindRow(rows, name);
    assert r.Some?;
    assert !(r.value < i);
  }

  lemma AppendLeavesOthers(e: Entity, rows: seq<Row>, row: Row)
    requires MatchName(e) != Some(row.name)
    ensures DecideRows(e, rows + [row]) == DecideRows(e, rows)
  {
    if MatchName(e).Some? {
      var name := MatchName(e).value;
      var r := FindRow(rows, name);
      if r.Some? { FindRowIs(rows + [row], name, r.value); }
      if i, j :| 0 <= i < j < |rows| && rows[i].name == name && rows[j].name == name {
        assert (rows + [row])[i].name == name && (rows + [row])[j].name == name;
      }
    }
  }

  lemma AppendSettles(e: Entity, rows: seq<Row>, row: Row)
    requires MatchName(e) == Some(row.name) && DecideRows(e, rows) == Decided(Create, None)
    ensures DecideRows(e, rows + [row])
         == Decided(if Drifted(e, AsRead(e.kind, row)) then Update else Unchanged, Some(row.id))
  {
    assert FindRow(rows, row.name).None?;
    FindRowIs(rows + [row], row.name, |rows|);
  }

  lemma ReplaceKeepsNames(rows: seq<Row>, at: nat, row: Row)
    requires at < |rows| && row.name == rows[at].name && row.id == rows[at].id
    ensures SameNames(rows, rows[at := row])
  {
  }

  lemma ReplaceLeavesOthers(e: Entity, rows: seq<Row>, at: nat, row: Row)
    requires at < |rows| && row.name == rows[at].name && row.id == rows[at].id && MatchName(e) != Some(row.name)
    ensures DecideRows(e, rows[at := row]) == DecideRows(e, rows)
  {
    if MatchName(e).Some? {
      ReplaceKeepsNames(rows, at, row);
      SameNamesFindAlike(rows, rows[at := row], MatchName(e).value);
    }
  }

  lemma ReplaceSettles(e: Entity, rows: seq<Row>, at: nat, row: Row)
    requires at < |rows| && row.name == rows[at].name && row.id == rows[at].id && MatchName(e) == Some(row.name)
    requires DecideRows(e, rows).Decided? && FindRow(rows, row.name) == Some(at)
    ensures DecideRows(e, rows[at := row])
         == Decided(if Drifted(e, AsRead(e.kind, row)) then Update else Unchanged, Some(row.id))
  {
    ReplaceKeepsNames(rows, at, row);
    SameNamesFindAlike(rows, rows[at := row], row.name);
  }

  /** Nothing a listing shows of one object can be drift from one declaration and none from the other. */
  predicate Compatible(a: Entity, b: Entity) {
    if a.kind == Resource
    then !Stuck(a) && !Stuck(b) && (a.metadata.Some? && b.metadata.Some? ==> a.metadata == b.metadata)
    else a.description.Some? && b.description.Some? ==> a.description == b.description
  }

  ghost predicate BothUnchanged(a: Entity, b: Entity, d: Directory) {
    exists i, j: Option<Id> :: DecideOn(a, d) == Decided(Unchanged, i) && DecideOn(b, d) == Decided(Unchanged, j)
  }

  /** An object as both declare it. */
  function Common(a: Entity, b: Entity): Row
    requires MatchName(a).Some?
  {
    Row(0, MatchName(a).value, if a.description.Some? then a.description else b.description,
        SentMetadata(if a.metadata.Some? then a else b), "", false, None)
  }

  /**
   * Two declarations of one kind under one name stand for one object.  Some server settles both
   * exactly when what they state is compatible; otherwise every plan has something to do.
   */
  lemma TwinsSettleIff(a: Entity, b: Entity)
    requires a.kind == b.kind && MatchName(a) == MatchName(b) && MatchName(a).Some?
    ensures (exists d :: BothUnchanged(a, b, d)) <==> Compatible(a, b)
  {
    if Compatible(a, b) {
      var d := Directory(map[a.kind := [Common(a, b)]], map[], 1);
      assert RowsOf(d, a.kind) == [Common(a, b)];
      DecideByPage(a, d);
      DecideByPage(b, d);
      FindRowIs([Common(a, b)], MatchName(a).value, 0);
      assert DecideOn(a, d) == Decided(Unchanged, Some(0)) && DecideOn(b, d) == Decided(Unchanged, Some(0));
      assert BothUnchanged(a, b, d);
    }
    forall d | BothUnchanged(a, b, d) ensures Compatible(a, b) {
      DecideByPage(a, d);
      DecideByPage(b, d);
    }
  }

  // ----- Directories that differ in one kind -----

  ghost predicate DiffersInRows(d: Directory, d': Directory, kind: Kind, rows: seq<Row>) {
    RowsOf(d', kind) == rows && (forall k :: k != kind ==> RowsOf(d', k) == RowsOf(d, k)) && d'.held == d.held
  }

  lemma OtherKindsUnmoved(d: Directory, d': Directory, kind: Kind, rows: seq<Row>, e: Entity)
    requires DiffersInRows(d, d', kind, rows) && e.kind != kind
    ensures DecideOn(e, d') == DecideOn(e, d)
  {
    assert ReadExisting(d', e.kind) == ReadExisting(d, e.kind);
  }

  function CreatedRow(d: Directory, e: Entity, parent: Option<Id>): Row
    requires MatchName(e).Some?
  {
    if e.kind == Resource
    then Row(d.nextId, e.name.value, None, Some(SentMetadata(e).GetOr(JObj(map[]))), e.resourceType, false, parent)
    else Row(d.nextId, MatchName(e).value, Some(e.description.GetOr("")), None, "", e.kind == Role && e.isGlobal, None)
  }

  /** The row a create leaves on the server: every declared member, a fresh id, and the resolved parent. */
  lemma CreateStores(d: Directory, e: Entity, parent: Option<Id>)
    ensures Permits(d, CreateCall(e, parent)) <==> MatchName(e).Some?
    ensures MatchName(e).Some? ==>
      var d' := Effect(d, CreateCall(e, parent));
      && DiffersInRows(d, d', e.kind, RowsOf(d, e.kind) + [CreatedRow(d, e, parent)])
      && d'.nextId == d.nextId + 1
  {
  }

  function UpdatedRow(e: Entity, row: Row): Row {
    if e.kind == Resource
    then row.(name := e.name.GetOr(row.name), metadata := Overwrite(SentMetadata(e), row.metadata))
    else row.(description := Overwrite(e.description, row.description))
  }

  lemma UpdateStores(d: Directory, e: Entity, at: nat)
    requires IdsAreUnique(d) && at < |RowsOf(d, e.kind)|
    ensures var row := RowsOf(d, e.kind)[at];
      && Permits(d, UpdateCall(e, row.id))
      && var d' := Effect(d, UpdateCall(e, row.id));
         && DiffersInRows(d, d', e.kind, RowsOf(d, e.kind)[at := UpdatedRow(e, row)])
         && d'.nextId == d.nextId
  {
    assert RowAt(RowsOf(d, e.kind), RowsOf(d, e.kind)[at].id) == Some(at);
  }

  /** A row before and after an update: only what is declared, and can be sent, is written over it. */
  ghost predicate WrittenOver(e: Entity, row: Row, row': Row) {
    && row'.id == row.id && row'.resourceType == row.resourceType && row'.isGlobal == row.isGlobal && row'.parent == row.parent
    && if e.kind == Resource
       then row'.name == e.name.GetOr(row.name) && row'.description == row.description
            && row'.metadata == (match e.metadata case Some(Parsed(v)) => Some(v) case _ => row.metadata)
       else row'.name == row.name && row'.metadata == row.metadata
            && row'.description == (match e.description case Some(text) => Some(text) case None => row.description)
  }

  /** What an update writes; and an object under the declared name counts as drifted exactly when an update would change it, or when its drift is beyond one. */
  lemma DriftIsWhatUpdateChanges(d: Directory, e: Entity, at: nat)
    requires IdsAreUnique(d) && at < |RowsOf(d, e.kind)|
    ensures Permits(d, UpdateCall(e, RowsOf(d, e.kind)[at].id))
    ensures var row := RowsOf(d, e.kind)[at]; var rows' := RowsOf(Effect(d, UpdateCall(e, row.id)), e.kind);
      && |rows'| == |RowsOf(d, e.kind)| && WrittenOver(e, row, rows'[at])
      && (MatchName(e) == Some(row.name) ==> (Drifted(e, AsRead(e.kind, row)) <==> Stuck(e) || rows'[at] != row))
  {
    UpdateStores(d, e, at);
  }

  /** Place i of the listing has the declared name: of a permission its action. */
  ghost predicate NamedAt(e: Entity, rows: seq<Row>, i: int) {
    0 <= i < |rows| && i < 200 && (if e.kind == Permission then e.action else e.name) == Some(rows[i].name)
  }

  /** The first 200 rows have it at place i, and no earlier. */
  ghost predicate FirstNamedAt(e: Entity, rows: seq<Row>, i: nat) {
    NamedAt(e, rows, i) && forall j :: 0 <= j < i ==> !NamedAt(e, rows, j)
  }

  /**
   * What a decision says: a service account with its name on two rows of the page is undecidable; with
   * the name on none, an object is created; otherwise the first row with it is the object, left alone
   * exactly when an update would not change it and nothing declared is beyond an update.
   */
  lemma DecisionIs(e: Entity, d: Directory)
    requires IdsAreUnique(d)
    ensures DecideOn(e, d).Undecidable?
       <==> e.kind == ServiceAccount && exists i, j :: i < j && NamedAt(e, RowsOf(d, e.kind), i) && NamedAt(e, RowsOf(d, e.kind), j)
    ensures DecideOn(e, d) == Decided(Create, None) <==> forall i :: !NamedAt(e, RowsOf(d, e.kind), i)
    ensures forall i: nat :: DecideOn(e, d).Decided? && FirstNamedAt(e, RowsOf(d, e.kind), i) ==>
      && DecideOn(e, d).id == Some(RowsOf(d, e.kind)[i].id) && DecideOn(e, d).action != Create
      && (DecideOn(e, d).action == Unchanged <==> !Stuck(e) && UpdatedRow(e, RowsOf(d, e.kind)[i]) == RowsOf(d, e.kind)[i])
  {
    DecideByPage(e, d);
    var rows := RowsOf(d, e.kind);
    var page := Page(rows);
    assert forall i :: NamedAt(e, rows, i) <==> 0 <= i < |page| && MatchName(e) == Some(page[i].name);
    forall i: nat | DecideOn(e, d).Decided? && FirstNamedAt(e, rows, i)
      ensures DecideOn(e, d) == Decided(if Drifted(e, AsRead(e.kind, rows[i])) then Update else Unchanged, Some(rows[i].id))
      ensures Drifted(e, AsRead(e.kind, rows[i])) <==> Stuck(e) || UpdatedRow(e, rows[i]) != rows[i]
    {
      FindRowIs(page, MatchName(e).value, i);
    }
  }

  // ----- A created entity -----

  lemma CreateSettles(e: Entity, d: Directory, parent: Option<Id>)
    requires DecideOn(e, d) == Decided(Create, None) && MatchName(e).Some? && |RowsOf(d, e.kind)| < SCAN_LIMIT
    ensures DecideOn(e, Effect(d, CreateCall(e, parent))) == Decided(SettledAction(e), Some(d.nextId))
  {
    CreateStores(d, e, parent);
    DecideByPage(e, d);
    DecideByPage(e, Effect(d, CreateCall(e, parent)));
    AppendSettles(e, RowsOf(d, e.kind), CreatedRow(d, e, parent));
  }

  lemma PageAfterAppend(rows: seq<Row>, row: Row)
    ensures Page(rows + [row]) == if |rows| < SCAN_LIMIT then Page(rows) + [row] else Page(rows)
  {
  }

  lemma CreateLeavesOthers(e: Entity, d: Directory, parent: Option<Id>, other: Entity)
    requires MatchName(e).Some? && (other.kind == e.kind ==> MatchName(other) != MatchName(e))
    ensures DecideOn(other, Effect(d, CreateCall(e, parent))) == DecideOn(other, d)
  {
    CreateStores(d, e, parent);
    var d' := Effect(d, CreateCall(e, parent));
    if other.kind == e.kind {
      DecideByPage(other, d);
      DecideByPage(other, d');
      PageAfterAppend(RowsOf(d, e.kind), CreatedRow(d, e, parent));
      AppendLeavesOthers(other, Page(RowsOf(d, e.kind)), CreatedRow(d, e, parent));
    } else {
      OtherKindsUnmoved(d, d', e.kind, RowsOf(d', e.kind), other);
    }
  }

  /** Every row of the new directory is an old one or the created one. */
  lemma CreatedIsNew(e: Entity, d: Directory, parent: Option<Id>, k: Kind, i: nat)
    requires MatchName(e).Some? && i < |RowsOf(Effect(d, CreateCall(e, parent)), k)|
    ensures var row := RowsOf(Effect(d, CreateCall(e, parent)), k)[i];
      if i < |RowsOf(d, k)| then row == RowsOf(d, k)[i]
      else k == e.kind && i == |RowsOf(d, k)| && row == CreatedRow(d, e, parent)
  {
    CreateStores(d, e, parent);
  }

  lemma CreateKeepsIds(e: Entity, d: Directory, parent: Option<Id>)
    requires WellFormed(d) && MatchName(e).Some?
    ensures IdsAreUnique(Effect(d, CreateCall(e, parent))) && IdsAreIssued(Effect(d, CreateCall(e, parent)))
  {
    var d' := Effect(d, CreateCall(e, parent));
    CreateStores(d, e, parent);
    forall k, i | 0 <= i < |RowsOf(d', k)| ensures RowsOf(d', k)[i].id < d'.nextId {
      CreatedIsNew(e, d, parent, k, i);
    }
    forall k, l, i, j | 0 <= i < |RowsOf(d', k)| && 0 <= j < |RowsOf(d', l)| && RowsOf(d', k)[i].id == RowsOf(d', l)[j].id
      ensures k == l && i == j
    {
      CreatedIsNew(e, d, parent, k, i);
      CreatedIsNew(e, d, parent, l, j);
    }
  }

  lemma CreateKeepsWellFormed(e: Entity, d: Directory, parent: Option<Id>)
    requires WellFormed(d) && Seen(e, d) && DecideOn(e, d) == Decided(Create, None) && MatchName(e).Some?
    ensures WellFormed(Effect(d, CreateCall(e, parent)))
  {
    var d' := Effect(d, CreateCall(e, parent));
    CreateKeepsIds(e, d, parent);
    DecideByPage(e, d);
    forall i, j | 0 <= i < j < |RowsOf(d', Role)| ensures RowsOf(d', Role)[i].name != RowsOf(d', Role)[j].name {
      CreatedIsNew(e, d, parent, Role, i);
      CreatedIsNew(e, d, parent, Role, j);
    }
  }

  // ----- An updated entity -----

  lemma UpdateTarget(e: Entity, d: Directory, id: Id) returns (at: nat)
    requires WellFormed(d) && DecideOn(e, d).Decided? && DecideOn(e, d).id == Some(id)
    ensures MatchName(e).Some? && at < |Page(RowsOf(d, e.kind))| && RowsOf(d, e.kind)[at].id == id
    ensures FindRow(Page(RowsOf(d, e.kind)), MatchName(e).value) == Some(at)
    ensures RowsOf(d, e.kind)[at].name == MatchName(e).value
    ensures Permits(d, UpdateCall(e, id))
    ensures DiffersInRows(d, Effect(d, UpdateCall(e, id)), e.kind,
                          RowsOf(d, e.kind)[at := UpdatedRow(e, RowsOf(d, e.kind)[at])])
    ensures Effect(d, UpdateCall(e, id)).nextId == d.nextId
  {
    DecideByPage(e, d);
    at := FindRow(Page(RowsOf(d, e.kind)), MatchName(e).value).value;
    UpdateStores(d, e, at);
  }

  lemma PageAfterUpdate(rows: seq<Row>, at: nat, row: Row)
    requires at < |Page(rows)|
    ensures Page(rows[at := row]) == Page(rows)[at := row]
  {
  }

  lemma UpdateSettles(e: Entity, d: Directory, id: Id)
    requires WellFormed(d) && DecideOn(e, d) == Decided(Update, Some(id))
    ensures Permits(d, UpdateCall(e, id))
    ensures forall k :: |RowsOf(Effect(d, UpdateCall(e, id)), k)| == |RowsOf(d, k)|
    ensures DecideOn(e, Effect(d, UpdateCall(e, id))) == Decided(SettledAction(e), Some(id))
  {
    var at := UpdateTarget(e, d, id);
    DecideByPage(e, d);
    var d' := Effect(d, UpdateCall(e, id));
    assert forall k :: k != e.kind ==> RowsOf(d', k) == RowsOf(d, k);
    DecideByPage(e, d');
    PageAfterUpdate(RowsOf(d, e.kind), at, UpdatedRow(e, RowsOf(d, e.kind)[at]));
    ReplaceSettles(e, Page(RowsOf(d, e.kind)), at, UpdatedRow(e, RowsOf(d, e.kind)[at]));
  }

  lemma UpdateLeavesOthers(e: Entity, d: Directory, id: Id, other: Entity)
    requires WellFormed(d) && DecideOn(e, d) == Decided(Update, Some(id))
    requires other.kind == e.kind ==> MatchName(other) != MatchName(e)
    ensures Permits(d, UpdateCall(e, id))
    ensures DecideOn(other, Effect(d, UpdateCall(e, id))) == DecideOn(other, d)
  {
    var at := UpdateTarget(e, d, id);
    var d' := Effect(d, UpdateCall(e, id));
    if other.kind == e.kind {
      DecideByPage(other, d);
      DecideByPage(other, d');
      PageAfterUpdate(RowsOf(d, e.kind), at, UpdatedRow(e, RowsOf(d, e.kind)[at]));
      ReplaceLeavesOthers(other, Page(RowsOf(d, e.kind)), at, UpdatedRow(e, RowsOf(d, e.kind)[at]));
    } else {
      OtherKindsUnmoved(d, d', e.kind, RowsOf(d', e.kind), other);
    }
  }

  lemma UpdateKeepsWellFormed(e: Entity, d: Directory, id: Id)
    requires WellFormed(d) && DecideOn(e, d) == Decided(Update, Some(id))
    ensures Permits(d, UpdateCall(e, id)) && WellFormed(Effect(d, UpdateCall(e, id)))
    ensures forall k :: SameNames(RowsOf(d, k), RowsOf(Effect(d, UpdateCall(e, id)), k))
  {
    var at := UpdateTarget(e, d, id);
    var d' := Effect(d, UpdateCall(e, id));
    ReplaceKeepsNames(RowsOf(d, e.kind), at, UpdatedRow(e, RowsOf(d, e.kind)[at]));
    assert forall k :: SameNames(RowsOf(d, k), RowsOf(d', k));
  }
}
