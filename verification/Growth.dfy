/**
 * What an apply adds to the server: one row for each planned create, in order, whatever a listing
 * shows of them; and so when a new plan would create one of them again.
 */
module Growth {
  import opened Basics
  import opened Manifest
  import opened Directory
  import opened Planning
  import opened Settling
  import opened Sorting
  import opened Wire
  import opened Applying
  import opened Runs
  import opened Tracking

  // ----- The creates of a plan -----

  /** Where the first n changes create an object of a kind. */
  ghost function CreatedAt(es: seq<Entity>, ord: seq<nat>, planned: seq<Change>, n: nat, k: Kind): (at: seq<nat>)
    requires n <= |ord| == |planned| && forall p :: 0 <= p < |ord| ==> ord[p] < |es|
    ensures forall j :: 0 <= j < |at| ==> at[j] < n && planned[at[j]].action == Create && es[ord[at[j]]].kind == k
    ensures forall i, j :: 0 <= i < j < |at| ==> at[i] < at[j]
  {
    if n == 0 then []
    else CreatedAt(es, ord, planned, n - 1, k)
         + (if planned[n - 1].action == Create && es[ord[n - 1]].kind == k then [n - 1] else [])
  }

  /** Of each kind the first n changes create something of, all there was and all that is created fits the one page a listing shows. */
  ghost predicate Room(es: seq<Entity>, ord: seq<nat>, planned: seq<Change>, d: Directory, n: nat)
    requires n <= |ord| == |planned| && forall p :: 0 <= p < |ord| ==> ord[p] < |es|
  {
    forall k :: CreatedAt(es, ord, planned, n, k) != [] ==> |RowsOf(d, k)| + |CreatedAt(es, ord, planned, n, k)| <= SCAN_LIMIT
  }

  lemma RoomShrinks(es: seq<Entity>, ord: seq<nat>, planned: seq<Change>, d: Directory, n: nat)
    requires n < |ord| == |planned| && (forall p :: 0 <= p < |ord| ==> ord[p] < |es|) && Room(es, ord, planned, d, n + 1)
    ensures Room(es, ord, planned, d, n)
  {
    forall k | CreatedAt(es, ord, planned, n, k) != []
      ensures |RowsOf(d, k)| + |CreatedAt(es, ord, planned, n, k)| <= SCAN_LIMIT
    {
      assert CreatedAt(es, ord, planned, n + 1, k) != [];
    }
  }

  // ----- What the server holds after n changes -----

  /** The rows there were, under their names and ids, and after them those created. */
  ghost predicate GrownRows(es: seq<Entity>, ord: seq<nat>, was: seq<Row>, rows: seq<Row>, created: seq<nat>)
    requires (forall p :: 0 <= p < |ord| ==> ord[p] < |es|) && forall j :: 0 <= j < |created| ==> created[j] < |ord|
  {
    && |rows| == |was| + |created|
    && (forall i :: 0 <= i < |was| ==> rows[i].name == was[i].name && rows[i].id == was[i].id)
    && (forall j :: 0 <= j < |created| ==> MatchName(es[ord[created[j]]]) == Some(rows[|was| + j].name))
  }

  ghost predicate RowIdsIssued(d: Directory) {
    forall k, i :: 0 <= i < |RowsOf(d, k)| ==> RowsOf(d, k)[i].id < d.nextId
  }

  ghost predicate GrownIn(es: seq<Entity>, ord: seq<nat>, planned: seq<Change>, d0: Directory, d: Directory, n: nat, k: Kind)
    requires n <= |ord| == |planned| && forall p :: 0 <= p < |ord| ==> ord[p] < |es|
  {
    GrownRows(es, ord, RowsOf(d0, k), RowsOf(d, k), CreatedAt(es, ord, planned, n, k))
  }

  ghost predicate Grown(es: seq<Entity>, ord: seq<nat>, planned: seq<Change>, d0: Directory, d: Directory, n: nat)
    requires n <= |ord| == |planned| && forall p :: 0 <= p < |ord| ==> ord[p] < |es|
  {
    && IdsAreUnique(d) && RowIdsIssued(d)
    && forall k :: GrownIn(es, ord, planned, d0, d, n, k)
  }

  lemma CreateKeepsRowIds(e: Entity, d: Directory, parent: Option<Id>)
    requires IdsAreUnique(d) && RowIdsIssued(d) && MatchName(e).Some?
    ensures IdsAreUnique(Effect(d, CreateCall(e, parent))) && RowIdsIssued(Effect(d, CreateCall(e, parent)))
  {
    var d' := Effect(d, CreateCall(e, parent));
    CreateStores(d, e, parent);
    forall k, i | 0 <= i < |RowsOf(d', k)| ensures RowsOf(d', k)[i].id < d'.nextId {
      CreatedIsNew(e, d, parent, k, i);
    }
    forall k, l, i, j | 0 <= i < |RowsOf(d', k)| && 0 <= j < |RowsOf(d', l)| && RowsOf(d', k)[i].id == RowsOf(d', l)[j].id
      ensures k == l && i == j
    {
      CreatedIsNew(e, d, parent, k, i);
      CreatedIsNew(e, d, parent, l, j);
    }
  }

  lemma RowsAppended(es: seq<Entity>, ord: seq<nat>, was: seq<Row>, rows: seq<Row>, created: seq<nat>, p: nat, row: Row)
    requires (forall q :: 0 <= q < |ord| ==> ord[q] < |es|) && (forall j :: 0 <= j < |created| ==> created[j] < |ord|)
    requires GrownRows(es, ord, was, rows, created) && p < |ord| && MatchName(es[ord[p]]) == Some(row.name)
    ensures GrownRows(es, ord, was, rows + [row], created + [p])
  {
  }

  lemma CreateGrowsIn(es: seq<Entity>, ord: seq<nat>, planned: seq<Change>, d0: Directory, d: Directory, n: nat, parent: Option<Id>, k: Kind)
    requires n < |ord| == |planned| && (forall p :: 0 <= p < |ord| ==> ord[p] < |es|) && GrownIn(es, ord, planned, d0, d, n, k)
    requires planned[n].action == Create && MatchName(es[ord[n]]).Some?
    ensures GrownIn(es, ord, planned, d0, Effect(d, CreateCall(es[ord[n]], parent)), n + 1, k)
  {
    var e := es[ord[n]];
    CreateStores(d, e, parent);
    if k == e.kind {
      RowsAppended(es, ord, RowsOf(d0, k), RowsOf(d, k), CreatedAt(es, ord, planned, n, k), n, CreatedRow(d, e, parent));
    }
  }

  lemma CreateGrows(es: seq<Entity>, ord: seq<nat>, planned: seq<Change>, d0: Directory, d: Directory, n: nat, parent: Option<Id>)
    requires n < |ord| == |planned| && (forall p :: 0 <= p < |ord| ==> ord[p] < |es|) && Grown(es, ord, planned, d0, d, n)
    requires planned[n].action == Create && Permits(d, CreateCall(es[ord[n]], parent))
    ensures Grown(es, ord, planned, d0, Effect(d, CreateCall(es[ord[n]], parent)), n + 1)
  {
    var e := es[ord[n]];
    CreateStores(d, e, parent);
    CreateKeepsRowIds(e, d, parent);
    var d', next := Effect(d, CreateCall(e, parent)), n + 1;
    forall k ensures GrownIn(es, ord, planned, d0, d', next, k) {
      CreateGrowsIn(es, ord, planned, d0, d, n, parent, k);
    }
  }

  /** The row an update is for was there when the plan was made, and still is where it was. */
  lemma UpdatedRowIs(es: seq<Entity>, ord: seq<nat>, planned: seq<Change>, d0: Directory, d: Directory, n: nat, id: Id) returns (at: nat)
    requires n < |ord| == |planned| && (forall p :: 0 <= p < |ord| ==> ord[p] < |es|) && Grown(es, ord, planned, d0, d, n)
    requires DecideOn(es[ord[n]], d0) == Decided(Update, Some(id))
    ensures var e := es[ord[n]];
      && MatchName(e).Some? && at < |RowsOf(d, e.kind)| && RowsOf(d, e.kind)[at].id == id
      && RowsOf(d, e.kind)[at].name == MatchName(e).value
  {
    var e := es[ord[n]];
    DecideByPage(e, d0);
    at := FindRow(Page(RowsOf(d0, e.kind)), MatchName(e).value).value;
    assert GrownIn(es, ord, planned, d0, d, n, e.kind);
  }

  /** Rows that keep their names and ids, and a change that creates nothing. */
  lemma SameNamesGrow(es: seq<Entity>, ord: seq<nat>, planned: seq<Change>, d0: Directory, d: Directory, d': Directory, n: nat, k: Kind)
    requires n < |ord| == |planned| && (forall p :: 0 <= p < |ord| ==> ord[p] < |es|) && GrownIn(es, ord, planned, d0, d, n, k)
    requires planned[n].action != Create && SameNames(RowsOf(d, k), RowsOf(d', k))
    ensures GrownIn(es, ord, planned, d0, d', n + 1, k)
  {
  }

  lemma UpdateKeepsRowIds(d: Directory, d': Directory)
    requires IdsAreUnique(d) && RowIdsIssued(d) && d'.nextId == d.nextId
    requires forall k :: SameNames(RowsOf(d, k), RowsOf(d', k))
    ensures IdsAreUnique(d') && RowIdsIssued(d')
  {
    forall k, i | 0 <= i < |RowsOf(d', k)| ensures RowsOf(d', k)[i].id < d'.nextId {
      assert SameNames(RowsOf(d, k), RowsOf(d', k));
    }
    forall k, l, i, j | 0 <= i < |RowsOf(d', k)| && 0 <= j < |RowsOf(d', l)| && RowsOf(d', k)[i].id == RowsOf(d', l)[j].id
      ensures k == l && i == j
    {
      assert SameNames(RowsOf(d, k), RowsOf(d', k)) && SameNames(RowsOf(d, l), RowsOf(d', l));
    }
  }

  lemma UpdateKeepsNames(e: Entity, d: Directory, at: nat)
    requires IdsAreUnique(d) && at < |RowsOf(d, e.kind)| && MatchName(e) == Some(RowsOf(d, e.kind)[at].name)
    ensures var id := RowsOf(d, e.kind)[at].id;
      Permits(d, UpdateCall(e, id)) && Effect(d, UpdateCall(e, id)).nextId == d.nextId
      && forall k :: SameNames(RowsOf(d, k), RowsOf(Effect(d, UpdateCall(e, id)), k))
  {
    UpdateStores(d, e, at);
    ReplaceKeepsNames(RowsOf(d, e.kind), at, UpdatedRow(e, RowsOf(d, e.kind)[at]));
  }

  lemma UpdateGrows(es: seq<Entity>, ord: seq<nat>, planned: seq<Change>, d0: Directory, d: Directory, n: nat, id: Id)
    requires n < |ord| == |planned| && (forall p :: 0 <= p < |ord| ==> ord[p] < |es|) && Grown(es, ord, planned, d0, d, n)
    requires planned[n].action == Update && DecideOn(es[ord[n]], d0) == Decided(Update, Some(id))
    ensures Permits(d, UpdateCall(es[ord[n]], id)) && Grown(es, ord, planned, d0, Effect(d, UpdateCall(es[ord[n]], id)), n + 1)
  {
    var e := es[ord[n]];
    var at := UpdatedRowIs(es, ord, planned, d0, d, n, id);
    UpdateKeepsNames(e, d, at);
    var d' := Effect(d, UpdateCall(e, id));
    UpdateKeepsRowIds(d, d');
    var next := n + 1;
    forall k ensures GrownIn(es, ord, planned, d0, d', next, k) {
      SameNamesGrow(es, ord, planned, d0, d, d', n, k);
    }
  }

  lemma RoomForNext(es: seq<Entity>, ord: seq<nat>, planned: seq<Change>, d0: Directory, d: Directory, n: nat)
    requires n < |ord| == |planned| && (forall p :: 0 <= p < |ord| ==> ord[p] < |es|) && Grown(es, ord, planned, d0, d, n)
    requires Room(es, ord, planned, d0, n + 1) && planned[n].entity == ord[n]
    ensures RoomForOne(es, planned[n], d)
  {
    if planned[n].action == Create {
      var k := es[ord[n]].kind;
      assert GrownIn(es, ord, planned, d0, d, n, k);
      assert CreatedAt(es, ord, planned, n + 1, k) == CreatedAt(es, ord, planned, n, k) + [n];
    }
  }

  // ----- Every run -----

  /** The server stands after n of the changes: those looked at, and possibly the create or update that seemed to fail. */
  ghost predicate GrownAt(es: seq<Entity>, ord: seq<nat>, plan: Plan, d0: Directory, r: Run, n: nat)
    requires forall p :: 0 <= p < |ord| ==> ord[p] < |es|
  {
    && n <= |ord| == |plan.changes| && (n == r.entity || (r.stop != Running && n == r.entity + 1))
    && Grown(es, ord, plan.changes, d0, r.world.dir, n)
  }

  ghost predicate Growing(es: seq<Entity>, ord: seq<nat>, plan: Plan, d0: Directory, r: Run)
    requires forall p :: 0 <= p < |ord| ==> ord[p] < |es|
  {
    && |r.changes| == |plan.changes| == |ord| && r.entity <= |ord|
    && (forall p :: r.entity <= p < |ord| ==> r.changes[p] == plan.changes[p])
    && (GrownAt(es, ord, plan, d0, r, r.entity) || GrownAt(es, ord, plan, d0, r, r.entity + 1))
  }

  lemma ChangeGrows(es: seq<Entity>, ord: seq<nat>, planned: seq<Change>, cs: seq<Change>, d0: Directory, d: Directory, d': Directory, n: nat)
    requires n < |ord| == |planned| == |cs| && (forall p :: 0 <= p < |ord| ==> ord[p] < |es|) && Grown(es, ord, planned, d0, d, n)
    requires Refers(es, cs) && cs[n] == planned[n] && cs[n] == ChangeFor(es, ord[n], d0) && DecideOn(es[ord[n]], d0).Decided?
    requires (cs[n].action == Update ==> cs[n].id.Some?) && CarriesOut(es, cs, n, d, d')
    ensures Grown(es, ord, planned, d0, d', n + 1)
  {
    match cs[n].action
    case Unchanged =>
      var next := n + 1;
      forall k ensures GrownIn(es, ord, planned, d0, d', next, k) {
        SameNamesGrow(es, ord, planned, d0, d, d', n, k);
      }
    case Create => CreateGrows(es, ord, planned, d0, d, n, ResolvedOption(es, cs, es[ord[n]].dependsOn));
    case Update => UpdateGrows(es, ord, planned, d0, d, n, cs[n].id.value);
  }

  /** A call that failed did nothing, or what it was meant to. */
  lemma FailedEntityStep(m: Manifest, r: Run, script: Script)
    requires EntityReady(m, r) && r.stop == Running && Refers(m.entities, r.changes) && StepEntity(m, r, script).stop != Running
    ensures var r' := StepEntity(m, r, script);
      && r'.changes == r.changes && r'.entity == r.entity && r'.failedIn == Some(Entities)
      && (r'.world.dir == r.world.dir || CarriesOut(m.entities, r.changes, r.entity, r.world.dir, r'.world.dir))
  {
  }

  lemma CarriedOutGrows(es: seq<Entity>, ord: seq<nat>, d0: Directory, planned: seq<Change>, cs: seq<Change>, n: nat, d: Directory, d': Directory)
    requires Permutation(ord, |es|) && EverythingDecidable(es, d0) && planned == ChangesOn(es, ord, d0)
    requires n < |ord| == |cs| && Grown(es, ord, planned, d0, d, n) && Refers(es, cs) && cs[n] == planned[n]
    requires (cs[n].action == Update ==> cs[n].id.Some?) && CarriesOut(es, cs, n, d, d')
    ensures Grown(es, ord, planned, d0, d', n + 1)
  {
    assert DecideOn(es[ord[n]], d0).Decided?;
    ChangeGrows(es, ord, planned, cs, d0, d, d', n);
  }

  /** What an entity step does to the run's own plan. */
  predicate StepsOver(r: Run, r': Run) {
    && |r'.changes| == |r.changes| && (forall p :: r.entity < p < |r.changes| ==> r'.changes[p] == r.changes[p])
    && (if r'.stop == Running then r'.entity == r.entity + 1 else r'.entity == r.entity && r'.changes == r.changes)
  }

  lemma StepEntityFacts(m: Manifest, r: Run, script: Script)
    requires EntityReady(m, r) && r.stop == Running && Refers(m.entities, r.changes)
    ensures var r' := StepEntity(m, r, script);
      && StepsOver(r, r')
      && (CarriesOut(m.entities, r.changes, r.entity, r.world.dir, r'.world.dir)
          || (r'.stop != Running && r'.world.dir == r.world.dir))
  {
    if StepEntity(m, r, script).stop == Running { StepCarriesOut(m, r, script); } else { FailedEntityStep(m, r, script); }
  }

  /** Where one entity step leaves the server, carried out or not. */
  lemma EntityGrowsTo(es: seq<Entity>, ord: seq<nat>, d0: Directory, planned: seq<Change>, cs: seq<Change>, k: nat, d: Directory, d': Directory)
    returns (n: nat)
    requires Permutation(ord, |es|) && EverythingDecidable(es, d0) && planned == ChangesOn(es, ord, d0)
    requires k < |ord| == |cs| && Grown(es, ord, planned, d0, d, k) && Refers(es, cs) && cs[k] == planned[k]
    requires (cs[k].action == Update ==> cs[k].id.Some?) && (CarriesOut(es, cs, k, d, d') || d' == d)
    ensures k <= n <= k + 1 && Grown(es, ord, planned, d0, d', n) && (n == k ==> d' == d && !CarriesOut(es, cs, k, d, d'))
  {
    if CarriesOut(es, cs, k, d, d') {
      CarriedOutGrows(es, ord, d0, planned, cs, k, d, d');
      n := k + 1;
    } else {
      n := k;
    }
  }

  lemma EntityGrows(es: seq<Entity>, ord: seq<nat>, d0: Directory, plan: Plan, r: Run, r': Run, n: nat)
    requires Permutation(ord, |es|) && Growing(es, ord, plan, d0, r) && r.stop == Running && r.entity < |ord|
    requires StepsOver(r, r') && GrownAt(es, ord, plan, d0, r', n)
    ensures Growing(es, ord, plan, d0, r')
  {
  }

  lemma RunningIsGrown(es: seq<Entity>, ord: seq<nat>, d0: Directory, plan: Plan, r: Run)
    requires Permutation(ord, |es|) && Growing(es, ord, plan, d0, r) && r.stop == Running && r.entity < |ord|
    ensures Grown(es, ord, plan.changes, d0, r.world.dir, r.entity) && r.changes[r.entity] == plan.changes[r.entity]
  {
  }

  lemma StepEntityGrows(m: Manifest, ord: seq<nat>, d0: Directory, plan: Plan, r: Run, script: Script)
    requires Permutation(ord, |m.entities|) && EverythingDecidable(m.entities, d0) && plan.changes == ChangesOn(m.entities, ord, d0)
    requires Growing(m.entities, ord, plan, d0, r) && r.stop == Running && r.entity < |ord| && EntityReady(m, r)
    ensures Growing(m.entities, ord, plan, d0, StepEntity(m, r, script))
  {
    StepEntityFacts(m, r, script);
    RunningIsGrown(m.entities, ord, d0, plan, r);
    var n := EntityGrowsTo(m.entities, ord, d0, plan.changes, r.changes, r.entity, r.world.dir, StepEntity(m, r, script).world.dir);
    EntityGrows(m.entities, ord, d0, plan, r, StepEntity(m, r, script), n);
  }

  lemma SameRowsGrow(es: seq<Entity>, ord: seq<nat>, planned: seq<Change>, d0: Directory, d: Directory, d': Directory, n: nat)
    requires n <= |ord| == |planned| && (forall p :: 0 <= p < |ord| ==> ord[p] < |es|) && Grown(es, ord, planned, d0, d, n)
    requires d'.rows == d.rows && d'.nextId == d.nextId
    ensures Grown(es, ord, planned, d0, d', n)
  {
    assert forall k :: RowsOf(d', k) == RowsOf(d, k);
    forall k ensures GrownIn(es, ord, planned, d0, d', n, k) {
      assert GrownIn(es, ord, planned, d0, d, n, k);
    }
  }

  lemma WriteBindingKeepsRows(w: World, subject: Id, role: Id, resource: Option<Id>, inherit: bool, pb: PlannedBinding, script: Script)
    ensures var d' := WriteBinding(w, subject, role, resource, inherit, pb, script).world.dir;
      d'.rows == w.dir.rows && d'.nextId == w.dir.nextId
  {
  }

  lemma StepBindingKeepsRows(m: Manifest, plan: Plan, r: Run, script: Script)
    requires BindingReady(m, plan, r)
    ensures var d' := StepBinding(m, plan, r, script).world.dir;
      d'.rows == r.world.dir.rows && d'.nextId == r.world.dir.nextId
  {
    var es, pb := m.entities, plan.bindings[r.binding];
    var rb := es[pb.ref.subject].roles[pb.ref.binding];
    var subject, role := Resolved(es, r.changes, es[pb.ref.subject].key), Resolved(es, r.changes, rb.roleKey);
    if subject.Some? && role.Some? {
      WriteBindingKeepsRows(r.world, subject.value, role.value, ResolvedOption(es, r.changes, rb.resourceKey), !rb.inheritFalse, pb, script);
    }
  }

  lemma StepBindingGrows(m: Manifest, ord: seq<nat>, d0: Directory, plan: Plan, r: Run, script: Script)
    requires Permutation(ord, |m.entities|) && Growing(m.entities, ord, plan, d0, r) && r.stop == Running && BindingReady(m, plan, r)
    ensures Growing(m.entities, ord, plan, d0, StepBinding(m, plan, r, script))
  {
    BindingFields(m, plan, r, script);
    StepBindingKeepsRows(m, plan, r, script);
    SameRowsGrow(m.entities, ord, plan.changes, d0, r.world.dir, StepBinding(m, plan, r, script).world.dir, r.entity);
  }

  lemma StepNetworkGrows(m: Manifest, ord: seq<nat>, d0: Directory, plan: Plan, r: Run, script: Script)
    requires Permutation(ord, |m.entities|) && Growing(m.entities, ord, plan, d0, r) && r.stop == Running && ItemReady(m, r)
    ensures Growing(m.entities, ord, plan, d0, StepNetwork(m, r, script))
  {
    ItemFields(m, r, script);
  }

  lemma StartsGrown(es: seq<Entity>, ord: seq<nat>, planned: seq<Change>, d: Directory)
    requires |planned| == |ord| && (forall p :: 0 <= p < |ord| ==> ord[p] < |es|) && IdsAreUnique(d) && RowIdsIssued(d)
    ensures Grown(es, ord, planned, d, d, 0)
  {
    forall k ensures GrownIn(es, ord, planned, d, d, 0, k) {
    }
  }

  ghost function Growth(es: seq<Entity>, ord: seq<nat>, plan: Plan, d0: Directory): Run -> bool
    requires Permutation(ord, |es|)
  {
    (x: Run) => Growing(es, ord, plan, d0, x)
  }

  lemma EntityStepsGrow(m: Manifest, ord: seq<nat>, d0: Directory, plan: Plan, script: Script)
    requires Permutation(ord, |m.entities|) && EverythingDecidable(m.entities, d0) && plan.changes == ChangesOn(m.entities, ord, d0)
    ensures EntityStepsKeep(m, plan, |plan.changes|, script, Growth(m.entities, ord, plan, d0))
  {
    forall x: Run | Runnable(m, plan, x) && Growing(m.entities, ord, plan, d0, x) && x.stop == Running && x.entity < |plan.changes|
      ensures Growing(m.entities, ord, plan, d0, StepEntity(m, x, script))
    {
      StepEntityGrows(m, ord, d0, plan, x, script);
    }
  }

  lemma BindingStepsGrow(m: Manifest, ord: seq<nat>, d0: Directory, plan: Plan, script: Script)
    requires Permutation(ord, |m.entities|)
    ensures BindingStepsKeep(m, plan, |plan.bindings|, script, Growth(m.entities, ord, plan, d0))
  {
    forall x: Run | Runnable(m, plan, x) && Growing(m.entities, ord, plan, d0, x) && x.stop == Running && x.binding < |plan.bindings|
      ensures Growing(m.entities, ord, plan, d0, StepBinding(m, plan, x, script))
    {
      StepBindingGrows(m, ord, d0, plan, x, script);
    }
  }

  lemma NetworkStepsGrow(m: Manifest, ord: seq<nat>, d0: Directory, plan: Plan, script: Script)
    requires Permutation(ord, |m.entities|)
    ensures NetworkStepsKeep(m, plan, script, Growth(m.entities, ord, plan, d0))
  {
    forall x: Run | Runnable(m, plan, x) && Growing(m.entities, ord, plan, d0, x) && x.stop == Running && x.item < |plan.network|
      ensures Growing(m.entities, ord, plan, d0, StepNetwork(m, x, script))
    {
      StepNetworkGrows(m, ord, d0, plan, x, script);
    }
  }

  lemma StartGrows(es: seq<Entity>, ord: seq<nat>, plan: Plan, w: World)
    requires Permutation(ord, |es|) && |plan.changes| == |ord| && IdsAreUnique(w.dir) && RowIdsIssued(w.dir)
    ensures Growth(es, ord, plan, w.dir)(Start(plan, w))
  {
    StartsGrown(es, ord, plan.changes, w.dir);
  }

  /**
   * Wherever a run stops, the server holds what it held, under its names and ids, and one new row for
   * each create that was carried out, in order and named as declared.
   */
  lemma EveryRunGrows(m: Manifest, ord: seq<nat>, w: World, plan: Plan, script: Script) returns (n: nat)
    requires Permutation(ord, |m.entities|) && Fits(m, plan)
    requires EverythingDecidable(m.entities, w.dir) && plan.changes == ChangesOn(m.entities, ord, w.dir)
    requires IdsAreUnique(w.dir) && RowIdsIssued(w.dir)
    ensures GrownAt(m.entities, ord, plan, w.dir, ApplyRun(m, plan, w, script), n)
    ensures ApplyRun(m, plan, w, script).stop == Running ==> n == |ord|
  {
    EntityStepsGrow(m, ord, w.dir, plan, script);
    BindingStepsGrow(m, ord, w.dir, plan, script);
    NetworkStepsGrow(m, ord, w.dir, plan, script);
    StartGrows(m.entities, ord, plan, w);
    ApplyKeeps(m, plan, w, script, Growth(m.entities, ord, plan, w.dir));
    n := GrownTo(m.entities, ord, plan, w.dir, ApplyRun(m, plan, w, script));
  }

  lemma GrownTo(es: seq<Entity>, ord: seq<nat>, plan: Plan, d0: Directory, r: Run) returns (n: nat)
    requires Permutation(ord, |es|) && Growth(es, ord, plan, d0)(r)
    ensures GrownAt(es, ord, plan, d0, r, n) && n >= r.entity
  {
    n := if GrownAt(es, ord, plan, d0, r, r.entity) then r.entity else r.entity + 1;
  }

  // ----- What the page shows of it -----

  /** What the page showed at the time of the plan has another name, and so has everything else that was created. */
  lemma NamedOtherwise(es: seq<Entity>, ord: seq<nat>, planned: seq<Change>, d0: Directory, d: Directory, n: nat, j: nat, k: Kind, i: nat)
    requires Permutation(ord, |es|) && DistinctMatchNames(es) && n <= |ord| == |planned| && GrownIn(es, ord, planned, d0, d, n, k)
    requires j < |CreatedAt(es, ord, planned, n, k)| && i < |Page(RowsOf(d, k))| && i != |RowsOf(d0, k)| + j
    requires DecideOn(es[ord[CreatedAt(es, ord, planned, n, k)[j]]], d0) == Decided(Create, None)
    ensures MatchName(es[ord[CreatedAt(es, ord, planned, n, k)[j]]]) != Some(Page(RowsOf(d, k))[i].name)
  {
    var at, was, rows := CreatedAt(es, ord, planned, n, k), RowsOf(d0, k), RowsOf(d, k);
    if i < |was| {
      DecideByPage(es[ord[at[j]]], d0);
      assert Page(was)[i] == was[i];
    } else {
      var other := i - |was|;
      assert at[other] != at[j] && ord[at[other]] != ord[at[j]];
    }
  }

  /** What a declaration is decided to be when at most one row of the page has its name. */
  lemma FoundAtIff(e: Entity, d: Directory, place: nat)
    requires MatchName(e).Some? && place < |RowsOf(d, e.kind)| && RowsOf(d, e.kind)[place].name == MatchName(e).value
    requires forall i :: 0 <= i < |Page(RowsOf(d, e.kind))| && i != place ==> Page(RowsOf(d, e.kind))[i].name != MatchName(e).value
    ensures if place < SCAN_LIMIT then DecideOn(e, d).Decided? && DecideOn(e, d).id == Some(RowsOf(d, e.kind)[place].id)
            else DecideOn(e, d) == Decided(Create, None)
  {
    var page := Page(RowsOf(d, e.kind));
    DecideByPage(e, d);
    if place < SCAN_LIMIT { FindRowIs(page, MatchName(e).value, place); }
  }

  /** The n-th object created of a kind is found again exactly when its row is on the page. */
  lemma CreatedIsFoundIff(es: seq<Entity>, ord: seq<nat>, planned: seq<Change>, d0: Directory, d: Directory, n: nat, j: nat, k: Kind)
    requires Permutation(ord, |es|) && DistinctMatchNames(es) && n <= |ord| == |planned| && GrownIn(es, ord, planned, d0, d, n, k)
    requires EverythingDecidable(es, d0) && planned == ChangesOn(es, ord, d0) && j < |CreatedAt(es, ord, planned, n, k)|
    ensures var e := es[ord[CreatedAt(es, ord, planned, n, k)[j]]]; var place := |RowsOf(d0, k)| + j;
      if place < SCAN_LIMIT
      then place < |RowsOf(d, k)| && DecideOn(e, d).Decided? && DecideOn(e, d).id == Some(RowsOf(d, k)[place].id)
      else DecideOn(e, d) == Decided(Create, None)
  {
    var p := CreatedAt(es, ord, planned, n, k)[j];
    PlannedCreatesAreDecided(es, ord, d0, planned, p);
    forall i | 0 <= i < |Page(RowsOf(d, k))| && i != |RowsOf(d0, k)| + j
      ensures MatchName(es[ord[p]]) != Some(Page(RowsOf(d, k))[i].name)
    {
      NamedOtherwise(es, ord, planned, d0, d, n, j, k, i);
    }
    FoundAtIff(es[ord[p]], d, |RowsOf(d0, k)| + j);
  }

  lemma PlannedCreatesAreDecided(es: seq<Entity>, ord: seq<nat>, d: Directory, planned: seq<Change>, q: nat)
    requires Permutation(ord, |es|) && EverythingDecidable(es, d) && planned == ChangesOn(es, ord, d) && q < |ord|
    ensures planned[q].action == Create ==> DecideOn(es[ord[q]], d) == Decided(Create, None)
  {
    assert DecideOn(es[ord[q]], d).Decided?;
    DecisionShape(es[ord[q]], d);
  }

  /** Without room, something that was created is off the page, and would be created again. */
  lemma OutgrownIsCreatedAgain(es: seq<Entity>, ord: seq<nat>, planned: seq<Change>, d0: Directory, d: Directory, n: nat) returns (p: nat)
    requires Permutation(ord, |es|) && DistinctMatchNames(es) && EverythingDecidable(es, d0) && planned == ChangesOn(es, ord, d0)
    requires n <= |ord| && Grown(es, ord, planned, d0, d, n) && !Room(es, ord, planned, d0, n)
    ensures p < n && DecideOn(es[ord[p]], d) == Decided(Create, None)
  {
    var k :| CreatedAt(es, ord, planned, n, k) != [] && |RowsOf(d0, k)| + |CreatedAt(es, ord, planned, n, k)| > SCAN_LIMIT;
    var j := |CreatedAt(es, ord, planned, n, k)| - 1;
    assert GrownIn(es, ord, planned, d0, d, n, k);
    CreatedIsFoundIff(es, ord, planned, d0, d, n, j, k);
    p := CreatedAt(es, ord, planned, n, k)[j];
  }
}
