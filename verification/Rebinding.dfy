/** Role bindings across writes: which decision a later plan would make. */
module Rebinding {
  import opened Basics
  import opened Manifest
  import opened Directory
  import opened Planning
  import opened Settling
  import opened Order
  import opened OrderLaws
  import opened Validate

  // ----- A subject's assignment of a role, found by the role's name -----

  function HeldByName(d: Directory, subject: Id, name: string): Option<Assignment> {
    match FindRow(RowsOf(d, Role), name)
    case None => None
    case Some(i) =>
      if (subject, RowsOf(d, Role)[i].id) in d.held then Some(d.held[(subject, RowsOf(d, Role)[i].id)]) else None
  }

  ghost predicate DistinctNames(rows: seq<Row>) {
    forall i, j :: 0 <= i < j < |rows| ==> rows[i].name != rows[j].name
  }

  lemma {:induction false} FindHeldAmong(d: Directory, subject: Id, rows: seq<Row>, name: string)
    requires DistinctNames(rows)
    ensures FindHeld(HeldAmong(d, subject, rows), name)
         == match FindRow(rows, name)
            case None => None
            case Some(i) =>
              if (subject, rows[i].id) in d.held then Some(d.held[(subject, rows[i].id)]) else None
    decreases |rows|
  {
    if rows != [] {
      FindHeldAmong(d, subject, rows[1..], name);
      var r := FindRow(rows[1..], name);
      if rows[0].name == name {
        FindRowIs(rows, name, 0);
      } else if r.Some? {
        FindRowIs(rows, name, r.value + 1);
      }
    }
  }

  // ----- The decision, with ids read off the directory -----

  ghost function IdOf(e: Entity, d: Directory): Option<Id> {
    match DecideOn(e, d) case Undecidable => None case Decided(_, id) => id
  }

  ghost function IdOfKey(es: seq<Entity>, key: string, d: Directory): Option<Id> {
    match FindKey(es, key) case None => None case Some(i) => IdOf(es[i], d)
  }

  ghost function BindingNow(es: seq<Entity>, d: Directory, ref: BindingRef): PlannedBinding
    requires ValidRef(es, ref)
  {
    var rb := es[ref.subject].roles[ref.binding];
    DecideBinding(ref, rb, ExistingBinding(es, d, IdOf(es[ref.subject], d), rb),
                  match rb.resourceKey case None => None case Some(key) => IdOfKey(es, key, d))
  }

  /** No declaration of an earlier kind shares this one's key, so that the plan's lookup finds this one. */
  predicate FoundInPlan(es: seq<Entity>, i: nat)
    requires i < |es|
  {
    forall j :: 0 <= j < |es| && es[j].key == es[i].key ==> Rank(es[i].kind) <= Rank(es[j].kind)
  }

  /** The first planned change under the key of such a declaration is its own. */
  lemma FindsOwnChange(es: seq<Entity>, ord: seq<nat>, cs: seq<Change>, i: nat)
    requires UniqueKeysWithinKind(es) && DerivedOrder(es, ord) && i < |es| && FoundInPlan(es, i)
    requires |cs| == |ord| && forall p :: 0 <= p < |ord| ==> cs[p].entity == ord[p]
    ensures Refers(es, cs) && FindChange(es, cs, es[i].key, 0).Some?
    ensures ord[FindChange(es, cs, es[i].key, 0).value] == i
  {
    var p := PermutationHits(ord, |es|, i);
    assert es[cs[p].entity].key == es[i].key;
    var k := FindChange(es, cs, es[i].key, 0).value;
    assert es[ord[k]].key == es[i].key;
  }

  lemma ResolvesToOwnId(es: seq<Entity>, ord: seq<nat>, d: Directory, i: nat)
    requires UniqueKeysWithinKind(es) && DerivedOrder(es, ord) && i < |es| && FoundInPlan(es, i)
    ensures Resolved(es, ChangesOn(es, ord, d), es[i].key) == IdOf(es[i], d)
  {
    FindsOwnChange(es, ord, ChangesOn(es, ord, d), i);
  }

  /** The keys a binding goes by, its subject's own included, are looked up in the plan as they are in the manifest. */
  ghost predicate KeysMeant(es: seq<Entity>, ref: BindingRef)
    requires ValidRef(es, ref)
  {
    var rb := es[ref.subject].roles[ref.binding];
    && FoundInPlan(es, ref.subject)
    && (FindKey(es, rb.roleKey).Some? ==> FoundInPlan(es, FindKey(es, rb.roleKey).value))
    && (rb.resourceKey.Some? && FindKey(es, rb.resourceKey.value).Some? ==> FoundInPlan(es, FindKey(es, rb.resourceKey.value).value))
  }

  ghost predicate UsableManifest(es: seq<Entity>) {
    EntitiesAccepted(es) && DistinctMatchNames(es) && forall ref :: ValidRef(es, ref) ==> KeysMeant(es, ref)
  }

  lemma PlanBindingIsNow(es: seq<Entity>, ord: seq<nat>, d: Directory, ref: BindingRef)
    requires UsableManifest(es) && DerivedOrder(es, ord) && ValidRef(es, ref)
    ensures PlanBinding(es, ChangesOn(es, ord, d), d, ref) == BindingNow(es, d, ref)
  {
    assert BindingAccepted(es, ref) && KeysMeant(es, ref);
    var rb := es[ref.subject].roles[ref.binding];
    ResolvesToOwnId(es, ord, d, ref.subject);
    if rb.resourceKey.Some? {
      var q := FindKey(es, rb.resourceKey.value).value;
      ResolvesToOwnId(es, ord, d, q);
    }
  }

  lemma ExistingByName(es: seq<Entity>, d: Directory, subject: Option<Id>, rb: RoleBinding)
    requires RoleNamesAreUnique(d)
    ensures ExistingBinding(es, d, subject, rb)
         == match FindKey(es, rb.roleKey)
            case None => None
            case Some(r) => if subject.None? || es[r].name.None? then None
                            else HeldByName(d, subject.value, es[r].name.value)
  {
    var r := FindKey(es, rb.roleKey);
    if r.Some? && subject.Some? && es[r.value].name.Some? {
      FindHeldAmong(d, subject.value, RowsOf(d, Role), es[r.value].name.value);
    }
  }

  // ----- Entity writes leave binding decisions alone -----

  /** Nothing is held by, under or at an id not yet issued. */
  lemma NothingUnissued(d: Directory, subject: Id, name: string)
    requires IdsAreIssued(d)
    ensures subject >= d.nextId ==> HeldByName(d, subject, name).None?
    ensures HeldByName(d, subject, name).Some? && HeldByName(d, subject, name).value.resource.Some?
      ==> HeldByName(d, subject, name).value.resource.value < d.nextId
  {
  }

  lemma CreateLeavesHeld(e: Entity, d: Directory, parent: Option<Id>, subject: Id, name: string)
    requires WellFormed(d) && Seen(e, d) && MatchName(e).Some? && DecideOn(e, d) == Decided(Create, None)
    ensures HeldByName(Effect(d, CreateCall(e, parent)), subject, name) == HeldByName(d, subject, name)
  {
    var d' := Effect(d, CreateCall(e, parent));
    CreateStores(d, e, parent);
    if e.kind == Role {
      DecideByPage(e, d);
      var rows, row := RowsOf(d, Role), CreatedRow(d, e, parent);
      if row.name == name {
        FindRowIs(rows + [row], name, |rows|);
      } else {
        var r := FindRow(rows, name);
        if r.Some? { FindRowIs(rows + [row], name, r.value); }
      }
    }
  }

  lemma IdsAfterCreate(es: seq<Entity>, d: Directory, i: nat, parent: Option<Id>, j: nat)
    requires DistinctMatchNames(es) && WellFormed(d) && i < |es| && j < |es|
    requires MatchName(es[i]).Some? && DecideOn(es[i], d) == Decided(Create, None)
    requires |RowsOf(d, es[i].kind)| < SCAN_LIMIT
    ensures IdOf(es[j], Effect(d, CreateCall(es[i], parent))) == if j == i then Some(d.nextId) else IdOf(es[j], d)
  {
    if j == i { CreateSettles(es[i], d, parent); } else { CreateLeavesOthers(es[i], d, parent, es[j]); }
  }

  lemma CreateLeavesExisting(es: seq<Entity>, d: Directory, i: nat, parent: Option<Id>, subject: nat, rb: RoleBinding)
    requires DistinctMatchNames(es) && WellFormed(d) && i < |es| && subject < |es|
    requires MatchName(es[i]).Some? && DecideOn(es[i], d) == Decided(Create, None)
    requires |RowsOf(d, es[i].kind)| < SCAN_LIMIT
    ensures var d' := Effect(d, CreateCall(es[i], parent));
      ExistingBinding(es, d', IdOf(es[subject], d'), rb) == ExistingBinding(es, d, IdOf(es[subject], d), rb)
  {
    var d' := Effect(d, CreateCall(es[i], parent));
    CreateKeepsWellFormed(es[i], d, parent);
    IdsAfterCreate(es, d, i, parent, subject);
    ExistingByName(es, d, IdOf(es[subject], d), rb);
    ExistingByName(es, d', IdOf(es[subject], d'), rb);
    var r := FindKey(es, rb.roleKey);
    if r.Some? && es[r.value].name.Some? && IdOf(es[subject], d').Some? {
      CreateLeavesHeld(es[i], d, parent, IdOf(es[subject], d').value, es[r.value].name.value);
      NothingUnissued(d, IdOf(es[subject], d').value, es[r.value].name.value);
    }
  }

  /** A resource that has just been created is not the one any assignment names. */
  lemma FreshResourceMatchesNothing(es: seq<Entity>, d: Directory, subject: Option<Id>, rb: RoleBinding)
    requires WellFormed(d)
    ensures var a := ExistingBinding(es, d, subject, rb);
      a.Some? && rb.resourceKey.Some? ==> ResourceMatches(a.value, rb, None) == ResourceMatches(a.value, rb, Some(d.nextId))
  {
    ExistingByName(es, d, subject, rb);
    var r := FindKey(es, rb.roleKey);
    if r.Some? && subject.Some? && es[r.value].name.Some? {
      NothingUnissued(d, subject.value, es[r.value].name.value);
    }
  }

  lemma CreateLeavesBinding(es: seq<Entity>, d: Directory, i: nat, parent: Option<Id>, ref: BindingRef)
    requires DistinctMatchNames(es) && WellFormed(d) && i < |es| && ValidRef(es, ref)
    requires MatchName(es[i]).Some? && DecideOn(es[i], d) == Decided(Create, None)
    requires |RowsOf(d, es[i].kind)| < SCAN_LIMIT
    ensures BindingNow(es, Effect(d, CreateCall(es[i], parent)), ref) == BindingNow(es, d, ref)
  {
    var rb := es[ref.subject].roles[ref.binding];
    CreateLeavesExisting(es, d, i, parent, ref.subject, rb);
    FreshResourceMatchesNothing(es, d, IdOf(es[ref.subject], d), rb);
    if rb.resourceKey.Some? && FindKey(es, rb.resourceKey.value).Some? {
      IdsAfterCreate(es, d, i, parent, FindKey(es, rb.resourceKey.value).value);
    }
  }

  lemma IdsAfterUpdate(es: seq<Entity>, d: Directory, i: nat, id: Id, j: nat)
    requires DistinctMatchNames(es) && WellFormed(d) && i < |es| && j < |es|
    requires DecideOn(es[i], d) == Decided(Update, Some(id))
    ensures Permits(d, UpdateCall(es[i], id))
    ensures IdOf(es[j], Effect(d, UpdateCall(es[i], id))) == IdOf(es[j], d)
  {
    UpdateSettles(es[i], d, id);
    if j != i { UpdateLeavesOthers(es[i], d, id, es[j]); }
  }

  lemma UpdateLeavesExisting(es: seq<Entity>, d: Directory, e: Entity, id: Id, subject: Option<Id>, rb: RoleBinding)
    requires WellFormed(d) && DecideOn(e, d) == Decided(Update, Some(id))
    ensures Permits(d, UpdateCall(e, id))
    ensures ExistingBinding(es, Effect(d, UpdateCall(e, id)), subject, rb) == ExistingBinding(es, d, subject, rb)
  {
    UpdateKeepsWellFormed(e, d, id);
    var d' := Effect(d, UpdateCall(e, id));
    var at := UpdateTarget(e, d, id);
    ExistingByName(es, d, subject, rb);
    ExistingByName(es, d', subject, rb);
    var r := FindKey(es, rb.roleKey);
    if r.Some? && es[r.value].name.Some? {
      SameNamesFindAlike(RowsOf(d, Role), RowsOf(d', Role), es[r.value].name.value);
    }
  }

  lemma UpdateLeavesBinding(es: seq<Entity>, d: Directory, i: nat, id: Id, ref: BindingRef)
    requires DistinctMatchNames(es) && WellFormed(d) && i < |es| && ValidRef(es, ref)
    requires DecideOn(es[i], d) == Decided(Update, Some(id))
    ensures Permits(d, UpdateCall(es[i], id))
    ensures BindingNow(es, Effect(d, UpdateCall(es[i], id)), ref) == BindingNow(es, d, ref)
  {
    var rb := es[ref.subject].roles[ref.binding];
    IdsAfterUpdate(es, d, i, id, ref.subject);
    UpdateLeavesExisting(es, d, es[i], id, IdOf(es[ref.subject], d), rb);
    if rb.resourceKey.Some? && FindKey(es, rb.resourceKey.value).Some? {
      IdsAfterUpdate(es, d, i, id, FindKey(es, rb.resourceKey.value).value);
    }
  }

  // ----- Binding writes -----

  lemma IdIsARow(e: Entity, d: Directory) returns (at: nat)
    requires IdOf(e, d).Some?
    ensures MatchName(e).Some? && at < |RowsOf(d, e.kind)|
    ensures RowsOf(d, e.kind)[at].id == IdOf(e, d).value && RowsOf(d, e.kind)[at].name == MatchName(e).value
    ensures FindRow(RowsOf(d, e.kind), MatchName(e).value) == Some(at)
  {
    DecideByPage(e, d);
    FoundOnPage(RowsOf(d, e.kind), MatchName(e).value);
    at := FindRow(RowsOf(d, e.kind), MatchName(e).value).value;
  }

  lemma IdsAreDistinct(es: seq<Entity>, d: Directory, i: nat, j: nat)
    requires DistinctMatchNames(es) && IdsAreUnique(d) && i < |es| && j < |es|
    requires IdOf(es[i], d).Some? && IdOf(es[i], d) == IdOf(es[j], d)
    ensures i == j
  {
    var a := IdIsARow(es[i], d);
    var b := IdIsARow(es[j], d);
    assert es[i].kind == es[j].kind && a == b;
  }

  /** The declared role of a binding. */
  function RoleOf(es: seq<Entity>, ref: BindingRef): (r: nat)
    requires ValidRef(es, ref) && NamesKind(es, es[ref.subject].roles[ref.binding].roleKey, Role)
    ensures r < |es| && es[r].kind == Role
  {
    FindKey(es, es[ref.subject].roles[ref.binding].roleKey).value
  }

  ghost function SubjectId(es: seq<Entity>, d: Directory, ref: BindingRef): Option<Id>
    requires ValidRef(es, ref)
  {
    IdOf(es[ref.subject], d)
  }

  ghost function RoleId(es: seq<Entity>, d: Directory, ref: BindingRef): Option<Id>
    requires ValidRef(es, ref)
  {
    IdOfKey(es, es[ref.subject].roles[ref.binding].roleKey, d)
  }

  ghost function ResourceId(es: seq<Entity>, d: Directory, ref: BindingRef): Option<Id>
    requires ValidRef(es, ref)
  {
    match es[ref.subject].roles[ref.binding].resourceKey case None => None case Some(key) => IdOfKey(es, key, d)
  }

  function HeldAt(d: Directory, s: Option<Id>, r: Option<Id>): Option<Assignment> {
    if s.Some? && r.Some? && (s.value, r.value) in d.held then Some(d.held[(s.value, r.value)]) else None
  }

  ghost predicate RolesSeen(es: seq<Entity>, d: Directory) {
    forall i :: 0 <= i < |es| && es[i].kind == Role ==> Seen(es[i], d)
  }

  /** What the plan calls the existing binding is the server's assignment under the two ids. */
  lemma ExistingIsHeld(es: seq<Entity>, d: Directory, ref: BindingRef)
    requires UsableManifest(es) && WellFormed(d) && ValidRef(es, ref)
    requires RoleId(es, d, ref).Some? || RolesSeen(es, d)
    ensures var s, r := SubjectId(es, d, ref), RoleId(es, d, ref);
      ExistingBinding(es, d, s, es[ref.subject].roles[ref.binding]) == HeldAt(d, s, r)
  {
    assert BindingAccepted(es, ref);
    var rb := es[ref.subject].roles[ref.binding];
    var role := es[RoleOf(es, ref)];
    ExistingByName(es, d, SubjectId(es, d, ref), rb);
    DecideByPage(role, d);
    if role.name.Some? { FoundOnPage(RowsOf(d, Role), role.name.value); }
    assert RoleId(es, d, ref).None? ==> Seen(role, d);
  }

  lemma PartiesAreDistinct(es: seq<Entity>, d: Directory, a: BindingRef, b: BindingRef)
    requires UsableManifest(es) && WellFormed(d) && ValidRef(es, a) && ValidRef(es, b) && a != b
    requires SubjectId(es, d, a).Some? && RoleId(es, d, a).Some?
    ensures SubjectId(es, d, a) != SubjectId(es, d, b) || RoleId(es, d, a) != RoleId(es, d, b)
  {
    assert BindingAccepted(es, a) && BindingAccepted(es, b);
    if SubjectId(es, d, a) == SubjectId(es, d, b) && RoleId(es, d, a) == RoleId(es, d, b) {
      IdsAreDistinct(es, d, a.subject, b.subject);
      IdsAreDistinct(es, d, RoleOf(es, a), RoleOf(es, b));
    }
  }

  /** The directories agree but for the assignment of one role to one subject. */
  ghost predicate DiffersAtHeld(d: Directory, d': Directory, subject: Id, role: Id) {
    && d'.rows == d.rows && d'.nextId == d.nextId
    && (forall h :: h != (subject, role) ==> (h in d'.held <==> h in d.held))
    && (forall h :: h != (subject, role) && h in d.held ==> d'.held[h] == d.held[h])
  }

  lemma HeldWriteLeavesEntities(e: Entity, d: Directory, d': Directory)
    requires d'.rows == d.rows
    ensures DecideOn(e, d') == DecideOn(e, d) && IdOf(e, d') == IdOf(e, d)
  {
    assert RowsOf(d', e.kind) == RowsOf(d, e.kind);
    assert ReadExisting(d', e.kind) == ReadExisting(d, e.kind);
  }

  lemma HeldWriteSees(es: seq<Entity>, d: Directory, d': Directory)
    requires d'.rows == d.rows && RolesSeen(es, d)
    ensures RolesSeen(es, d')
  {
    forall i | 0 <= i < |es| && es[i].kind == Role ensures Seen(es[i], d') {
      assert Seen(es[i], d) && RowsOf(d', es[i].kind) == RowsOf(d, es[i].kind);
      HeldWriteLeavesEntities(es[i], d, d');
    }
  }

  lemma HeldWriteLeavesIds(es: seq<Entity>, d: Directory, d': Directory)
    requires d'.rows == d.rows
    ensures forall k :: RowsOf(d', k) == RowsOf(d, k)
    ensures forall i :: 0 <= i < |es| ==> IdOf(es[i], d') == IdOf(es[i], d)
  {
    forall i | 0 <= i < |es| ensures IdOf(es[i], d') == IdOf(es[i], d) { HeldWriteLeavesEntities(es[i], d, d'); }
  }

  /** A binding reads its subject's, its role's and its resource's id, and the assignment of the one to the other. */
  lemma BindingReads(es: seq<Entity>, d: Directory, d': Directory, ref: BindingRef)
    requires ValidRef(es, ref) && SubjectId(es, d', ref) == SubjectId(es, d, ref) && ResourceId(es, d', ref) == ResourceId(es, d, ref)
    requires ExistingBinding(es, d', SubjectId(es, d', ref), es[ref.subject].roles[ref.binding])
          == ExistingBinding(es, d, SubjectId(es, d, ref), es[ref.subject].roles[ref.binding])
    ensures BindingNow(es, d', ref) == BindingNow(es, d, ref)
  {
  }

  lemma IdsKept(es: seq<Entity>, d: Directory, d': Directory, ref: BindingRef)
    requires ValidRef(es, ref) && d'.rows == d.rows
    ensures SubjectId(es, d', ref) == SubjectId(es, d, ref) && RoleId(es, d', ref) == RoleId(es, d, ref)
    ensures ResourceId(es, d', ref) == ResourceId(es, d, ref)
  {
    HeldWriteLeavesIds(es, d, d');
  }

  lemma HeldElsewhereStays(d: Directory, d': Directory, subject: Id, role: Id, s: Option<Id>, r: Option<Id>)
    requires DiffersAtHeld(d, d', subject, role) && (s.Some? && r.Some? ==> (s.value, r.value) != (subject, role))
    ensures HeldAt(d', s, r) == HeldAt(d, s, r)
  {
  }

  lemma HeldWriteLeavesBindings(es: seq<Entity>, d: Directory, d': Directory, ref: BindingRef, other: BindingRef)
    requires UsableManifest(es) && WellFormed(d) && WellFormed(d') && RolesSeen(es, d)
    requires ValidRef(es, ref) && ValidRef(es, other) && ref != other
    requires SubjectId(es, d, ref).Some? && RoleId(es, d, ref).Some?
    requires DiffersAtHeld(d, d', SubjectId(es, d, ref).value, RoleId(es, d, ref).value)
    ensures BindingNow(es, d', other) == BindingNow(es, d, other)
  {
    IdsKept(es, d, d', other);
    PartiesAreDistinct(es, d, ref, other);
    HeldWriteSees(es, d, d');
    ExistingIsHeld(es, d, other);
    ExistingIsHeld(es, d', other);
    HeldElsewhereStays(d, d', SubjectId(es, d, ref).value, RoleId(es, d, ref).value, SubjectId(es, d, other), RoleId(es, d, other));
    BindingReads(es, d, d', other);
  }

  /** A binding is settled exactly when the server holds what is declared, at the resolved resource. */
  lemma SettledIffHeld(es: seq<Entity>, d: Directory, ref: BindingRef)
    requires UsableManifest(es) && WellFormed(d) && ValidRef(es, ref)
    requires SubjectId(es, d, ref).Some? && RoleId(es, d, ref).Some?
    requires es[ref.subject].roles[ref.binding].resourceKey.Some? ==> ResourceId(es, d, ref).Some?
    ensures BindingNow(es, d, ref).action == Unchanged
       <==> (SubjectId(es, d, ref).value, RoleId(es, d, ref).value) in d.held
            && var a := d.held[(SubjectId(es, d, ref).value, RoleId(es, d, ref).value)];
               a.resource == ResourceId(es, d, ref) && a.inherit == !es[ref.subject].roles[ref.binding].inheritFalse
  {
    ExistingIsHeld(es, d, ref);
  }
}
