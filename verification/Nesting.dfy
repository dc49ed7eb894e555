/**
 * What a run creates is what was declared, member by member; and a resource that depends on another
 * declaration is created under the id that declaration has on the server.
 */
module Nesting {
  import opened Basics
  import opened Manifest
  import opened Directory
  import opened Planning
  import opened Settling
  import opened Cycles
  import opened Order
  import opened OrderLaws
  import opened Validate
  import opened Sorting
  import opened Rebinding
  import opened Wire
  import opened Applying
  import opened Runs
  import opened Tracking
  import opened Growth
  import opened Resolving

  // ----- A created row -----

  /** Every member of a created row but its id and parent. */
  ghost predicate AsDeclared(e: Entity, row: Row) {
    if e.kind == Resource then
      && e.name == Some(row.name) && row.description.None? && row.resourceType == e.resourceType && !row.isGlobal
      && row.metadata == Some(match e.metadata case Some(Parsed(v)) => v case _ => JObj(map[]))
    else
      && (if e.kind == Permission then e.action else e.name) == Some(row.name)
      && row.description == Some(match e.description case Some(text) => text case None => "")
      && row.metadata.None? && row.resourceType == "" && (row.isGlobal <==> e.kind == Role && e.isGlobal)
  }

  /** What place q of the plan knows of its object's id when place p is created. */
  function KnownAt(planned: seq<Change>, cs: seq<Change>, p: nat, q: nat): Option<Id>
    requires q < |planned| == |cs|
  {
    if q < p || planned[q].action != Create then cs[q].id else None
  }

  /** The parent of the row created at place p: for a resource, what is known of the first change under its key. */
  ghost predicate ParentKnown(es: seq<Entity>, planned: seq<Change>, cs: seq<Change>, p: nat, e: Entity, row: Row)
    requires Refers(es, planned) && |planned| == |cs|
  {
    row.parent == if e.kind != Resource || e.dependsOn.None? then None
                  else match FindChange(es, planned, e.dependsOn.value, 0)
                    case None => None
                    case Some(q) => KnownAt(planned, cs, p, q)
  }

  /** Place p created this row, and the plan knows its id or nothing. */
  ghost predicate Made(es: seq<Entity>, planned: seq<Change>, cs: seq<Change>, n: nat, p: nat, e: Entity, row: Row)
    requires Refers(es, planned) && |planned| == |cs|
  {
    && AsDeclared(e, row) && ParentKnown(es, planned, cs, p, e, row)
    && (p < n && p < |cs| ==> cs[p].id.None? || cs[p].id == Some(row.id))
  }

  /** All that was created of one kind; the first m changes have been answered. */
  ghost predicate MadeIn(es: seq<Entity>, ord: seq<nat>, planned: seq<Change>, cs: seq<Change>, d0: Directory, d: Directory, n: nat, m: nat, k: Kind)
    requires n <= |ord| == |planned| == |cs| && (forall p :: 0 <= p < |ord| ==> ord[p] < |es|) && Refers(es, planned)
  {
    var at := CreatedAt(es, ord, planned, n, k);
    && |RowsOf(d0, k)| + |at| <= |RowsOf(d, k)|
    && forall j :: 0 <= j < |at| ==> Made(es, planned, cs, m, at[j], es[ord[at[j]]], RowsOf(d, k)[|RowsOf(d0, k)| + j])
  }

  /** The rows of each kind: those there were, and those made. */
  ghost predicate AllRows(es: seq<Entity>, ord: seq<nat>, planned: seq<Change>, cs: seq<Change>, d0: Directory, d: Directory, n: nat, m: nat)
    requires n <= |ord| == |planned| == |cs| && (forall p :: 0 <= p < |ord| ==> ord[p] < |es|) && Refers(es, planned)
  {
    forall k {:trigger MadeIn(es, ord, planned, cs, d0, d, n, m, k)} ::
      GrownIn(es, ord, planned, d0, d, n, k) && MadeIn(es, ord, planned, cs, d0, d, n, m, k)
  }

  // ----- One change carried out -----

  /** What was created before stays as it was. */
  ghost predicate KeepsCreated(d0: Directory, d: Directory, d': Directory, k: Kind) {
    && |RowsOf(d, k)| <= |RowsOf(d', k)|
    && forall i :: |RowsOf(d0, k)| <= i < |RowsOf(d, k)| ==> RowsOf(d', k)[i] == RowsOf(d, k)[i]
  }

  lemma UpdateKeepsCreated(es: seq<Entity>, ord: seq<nat>, planned: seq<Change>, d0: Directory, d: Directory, n: nat, id: Id, k: Kind)
    requires n < |ord| == |planned| && (forall p :: 0 <= p < |ord| ==> ord[p] < |es|) && Grown(es, ord, planned, d0, d, n)
    requires DecideOn(es[ord[n]], d0) == Decided(Update, Some(id))
    ensures Permits(d, UpdateCall(es[ord[n]], id)) && KeepsCreated(d0, d, Effect(d, UpdateCall(es[ord[n]], id)), k)
  {
    var e := es[ord[n]];
    DecideByPage(e, d0);
    var at := FindRow(Page(RowsOf(d0, e.kind)), MatchName(e).value).value;
    assert GrownIn(es, ord, planned, d0, d, n, e.kind);
    UpdateStores(d, e, at);
  }

  lemma CreateKeepsCreated(d0: Directory, d: Directory, e: Entity, parent: Option<Id>, k: Kind)
    requires MatchName(e).Some?
    ensures KeepsCreated(d0, d, Effect(d, CreateCall(e, parent)), k)
  {
    CreateStores(d, e, parent);
  }

  lemma CreatedRowIsDeclared(d: Directory, e: Entity, parent: Option<Id>)
    requires MatchName(e).Some?
    ensures AsDeclared(e, CreatedRow(d, e, parent)) && CreatedRow(d, e, parent).id == d.nextId
    ensures CreatedRow(d, e, parent).parent == if e.kind == Resource then parent else None
  {
  }

  lemma {:induction false} SameEntitiesFindAlike(es: seq<Entity>, a: seq<Change>, b: seq<Change>, key: string, from: nat)
    requires Refers(es, a) && |a| == |b| && (forall p :: 0 <= p < |a| ==> a[p].entity == b[p].entity) && from <= |a|
    ensures Refers(es, b) && FindChange(es, a, key, from) == FindChange(es, b, key, from)
    decreases |a| - from
  {
    if from < |a| { SameEntitiesFindAlike(es, a, b, key, from + 1); }
  }

  /** The plan so far: places not yet looked at, and those that create nothing, are as planned; and a planned create has no id yet. */
  ghost predicate PlanSoFar(planned: seq<Change>, cs: seq<Change>, n: nat) {
    && |cs| == |planned| && (forall p :: 0 <= p < |cs| ==> cs[p].entity == planned[p].entity)
    && (forall p :: 0 <= p < |cs| && (n <= p || planned[p].action != Create) ==> cs[p] == planned[p])
    && (forall p :: 0 <= p < |planned| && planned[p].action == Create ==> planned[p].id.None?)
  }

  /** The id an apply resolves for a new resource's parent is what its plan knows by then. */
  lemma ResolvesToKnown(es: seq<Entity>, planned: seq<Change>, cs: seq<Change>, n: nat, key: Option<string>)
    requires Refers(es, planned) && PlanSoFar(planned, cs, n)
    ensures Refers(es, cs)
    ensures ResolvedOption(es, cs, key)
         == if key.None? then None
            else match FindChange(es, planned, key.value, 0) case None => None case Some(q) => KnownAt(planned, cs, n, q)
  {
    if key.Some? { SameEntitiesFindAlike(es, planned, cs, key.value, 0); }
  }

  /** Nothing created: what was made stays made. */
  lemma OldStayMade(es: seq<Entity>, ord: seq<nat>, planned: seq<Change>, cs: seq<Change>, d0: Directory, d: Directory, d': Directory, n: nat, m: nat, k: Kind)
    requires n < |ord| == |planned| == |cs| && (forall p :: 0 <= p < |ord| ==> ord[p] < |es|) && Refers(es, planned)
    requires MadeIn(es, ord, planned, cs, d0, d, n, m, k) && KeepsCreated(d0, d, d', k)
    requires planned[n].action != Create || es[ord[n]].kind != k
    ensures MadeIn(es, ord, planned, cs, d0, d', n + 1, m, k)
  {
    var at, was := CreatedAt(es, ord, planned, n + 1, k), |RowsOf(d0, k)|;
    assert at == CreatedAt(es, ord, planned, n, k);
    forall j | 0 <= j < |at| ensures Made(es, planned, cs, m, at[j], es[ord[at[j]]], RowsOf(d', k)[was + j]) {
      assert Made(es, planned, cs, m, at[j], es[ord[at[j]]], RowsOf(d, k)[was + j]);
    }
  }

  /** One more of its kind. */
  lemma NewIsMade(es: seq<Entity>, ord: seq<nat>, planned: seq<Change>, cs: seq<Change>, d0: Directory, d: Directory, n: nat)
    requires n < |ord| == |planned| == |cs| && (forall p :: 0 <= p < |ord| ==> ord[p] < |es|) && Refers(es, planned)
    requires planned[n].action == Create && MatchName(es[ord[n]]).Some? && PlanSoFar(planned, cs, n)
    requires GrownIn(es, ord, planned, d0, d, n, es[ord[n]].kind) && MadeIn(es, ord, planned, cs, d0, d, n, n, es[ord[n]].kind)
    ensures Refers(es, cs)
    ensures var e := es[ord[n]];
      MadeIn(es, ord, planned, cs, d0, Effect(d, CreateCall(e, ResolvedOption(es, cs, e.dependsOn))), n + 1, n, e.kind)
  {
    var e := es[ord[n]];
    ResolvesToKnown(es, planned, cs, n, e.dependsOn);
    var parent := ResolvedOption(es, cs, e.dependsOn);
    CreateStores(d, e, parent);
    CreatedRowIsDeclared(d, e, parent);
    var row := CreatedRow(d, e, parent);
    assert Made(es, planned, cs, n, n, e, row);
    assert CreatedAt(es, ord, planned, n + 1, e.kind) == CreatedAt(es, ord, planned, n, e.kind) + [n];
  }

  lemma ChangeMakes(es: seq<Entity>, ord: seq<nat>, planned: seq<Change>, cs: seq<Change>, d0: Directory, d: Directory, d': Directory, n: nat, k: Kind)
    requires n < |ord| == |planned| == |cs| && (forall p :: 0 <= p < |ord| ==> ord[p] < |es|) && Refers(es, planned) && Refers(es, cs)
    requires Grown(es, ord, planned, d0, d, n) && MadeIn(es, ord, planned, cs, d0, d, n, n, k) && PlanSoFar(planned, cs, n)
    requires cs[n] == ChangeFor(es, ord[n], d0) && DecideOn(es[ord[n]], d0).Decided?
    requires (cs[n].action == Update ==> cs[n].id.Some?) && CarriesOut(es, cs, n, d, d')
    ensures MadeIn(es, ord, planned, cs, d0, d', n + 1, n, k)
  {
    assert GrownIn(es, ord, planned, d0, d, n, k);
    match cs[n].action
    case Unchanged => OldStayMade(es, ord, planned, cs, d0, d, d', n, n, k);
    case Create =>
      var e := es[ord[n]];
      var parent := ResolvedOption(es, cs, e.dependsOn);
      CreateStores(d, e, parent);
      if k == e.kind {
        NewIsMade(es, ord, planned, cs, d0, d, n);
      } else {
        CreateKeepsCreated(d0, d, e, parent, k);
        OldStayMade(es, ord, planned, cs, d0, d, d', n, n, k);
      }
    case Update =>
      UpdateKeepsCreated(es, ord, planned, d0, d, n, cs[n].id.value, k);
      OldStayMade(es, ord, planned, cs, d0, d, d', n, n, k);
  }

  // ----- What the answer writes back -----

  /** The id written back is that of the row just made, and no earlier parent was looked up there. */
  lemma LandsOn(es: seq<Entity>, ord: seq<nat>, planned: seq<Change>, cs: seq<Change>, cs': seq<Change>, d0: Directory, d: Directory, n: nat, k: Kind)
    requires n < |ord| == |planned| == |cs| == |cs'| && (forall p :: 0 <= p < |ord| ==> ord[p] < |es|) && Refers(es, planned)
    requires MadeIn(es, ord, planned, cs, d0, d, n + 1, n, k) && (forall p :: 0 <= p < |cs| && p != n ==> cs'[p] == cs[p])
    requires planned[n].action != Create ==> cs'[n].id == cs[n].id
    requires planned[n].action == Create && es[ord[n]].kind == k ==>
      |RowsOf(d, k)| > 0 && |RowsOf(d, k)| == |RowsOf(d0, k)| + |CreatedAt(es, ord, planned, n + 1, k)|
      && (cs'[n].id.None? || cs'[n].id == Some(RowsOf(d, k)[|RowsOf(d, k)| - 1].id))
    ensures MadeIn(es, ord, planned, cs', d0, d, n + 1, n + 1, k)
  {
    var at, was := CreatedAt(es, ord, planned, n + 1, k), |RowsOf(d0, k)|;
    forall j | 0 <= j < |at| ensures Made(es, planned, cs', n + 1, at[j], es[ord[at[j]]], RowsOf(d, k)[was + j]) {
      assert Made(es, planned, cs, n, at[j], es[ord[at[j]]], RowsOf(d, k)[was + j]);
      if at[j] == n { LastIsLast(es, ord, planned, n, k, j); }
      MadeLands(es, planned, cs, cs', n, at[j], es[ord[at[j]]], RowsOf(d, k)[was + j]);
    }
  }

  lemma MadeLands(es: seq<Entity>, planned: seq<Change>, cs: seq<Change>, cs': seq<Change>, n: nat, p: nat, e: Entity, row: Row)
    requires Refers(es, planned) && n < |planned| == |cs| == |cs'| && p <= n && Made(es, planned, cs, n, p, e, row)
    requires (forall q :: 0 <= q < |cs| && q != n ==> cs'[q] == cs[q]) && (planned[n].action != Create ==> cs'[n].id == cs[n].id)
    requires p == n ==> cs'[n].id.None? || cs'[n].id == Some(row.id)
    ensures Made(es, planned, cs', n + 1, p, e, row)
  {
    if e.dependsOn.Some? {
      var hit := FindChange(es, planned, e.dependsOn.value, 0);
      if hit.Some? { assert KnownAt(planned, cs', p, hit.value) == KnownAt(planned, cs, p, hit.value); }
    }
  }

  lemma LastIsLast(es: seq<Entity>, ord: seq<nat>, planned: seq<Change>, n: nat, k: Kind, j: nat)
    requires n < |ord| == |planned| && (forall p :: 0 <= p < |ord| ==> ord[p] < |es|)
    requires j < |CreatedAt(es, ord, planned, n + 1, k)| && CreatedAt(es, ord, planned, n + 1, k)[j] == n
    ensures planned[n].action == Create && es[ord[n]].kind == k && j == |CreatedAt(es, ord, planned, n + 1, k)| - 1
  {
    var at := CreatedAt(es, ord, planned, n + 1, k);
    var last := at[|at| - 1];
  }

  // ----- Every run -----

  ghost predicate NestedAt(es: seq<Entity>, ord: seq<nat>, plan: Plan, d0: Directory, r: Run, n: nat)
    requires forall p :: 0 <= p < |ord| ==> ord[p] < |es|
  {
    && r.entity <= n <= |ord| == |plan.changes| && (n == r.entity || (r.stop != Running && n == r.entity + 1))
    && Refers(es, plan.changes) && PlanSoFar(plan.changes, r.changes, r.entity)
    && AllRows(es, ord, plan.changes, r.changes, d0, r.world.dir, n, r.entity)
  }

  ghost predicate Nests(es: seq<Entity>, ord: seq<nat>, plan: Plan, d0: Directory, r: Run)
    requires forall p :: 0 <= p < |ord| ==> ord[p] < |es|
  {
    NestedAt(es, ord, plan, d0, r, r.entity) || NestedAt(es, ord, plan, d0, r, r.entity + 1)
  }

  /** What an answer leaves in the plan. */
  ghost predicate Lands(cs: seq<Change>, cs': seq<Change>, n: nat, free: Id)
    requires n < |cs| == |cs'|
  {
    && (forall p :: 0 <= p < |cs| && p != n ==> cs'[p] == cs[p])
    && cs'[n].entity == cs[n].entity && (cs[n].action != Create ==> cs'[n] == cs[n])
    && (cs[n].action == Create ==> cs'[n].id == cs[n].id || cs'[n].id == Some(free))
  }

  lemma LandedIs(m: Manifest, r: Run, script: Script)
    requires EntityReady(m, r) && r.stop == Running && Refers(m.entities, r.changes)
    ensures var r', k := StepEntity(m, r, script), r.entity;
      |r'.changes| == |r.changes| && Lands(r.changes, r'.changes, k, r.world.dir.nextId)
  {
  }

  /** The row just created carries the id that was free. */
  lemma NewestRow(es: seq<Entity>, ord: seq<nat>, planned: seq<Change>, cs: seq<Change>, d0: Directory, d: Directory, d': Directory, n: nat)
    requires n < |ord| == |planned| == |cs| && (forall p :: 0 <= p < |ord| ==> ord[p] < |es|) && Refers(es, cs)
    requires GrownIn(es, ord, planned, d0, d, n, es[ord[n]].kind) && cs[n].entity == ord[n] && cs[n].action == planned[n].action == Create
    requires CarriesOut(es, cs, n, d, d')
    ensures var rows, k := RowsOf(d', es[ord[n]].kind), es[ord[n]].kind;
      && |rows| == |RowsOf(d0, k)| + |CreatedAt(es, ord, planned, n + 1, k)| && |rows| > 0 && rows[|rows| - 1].id == d.nextId
  {
    var e := es[ord[n]];
    CreateStores(d, e, ResolvedOption(es, cs, e.dependsOn));
  }

  /** A change carried out makes its row, whatever the answer. */
  lemma CarriedOutMakesIn(es: seq<Entity>, ord: seq<nat>, planned: seq<Change>, cs: seq<Change>, d0: Directory, d: Directory, d': Directory, n: nat, k: Kind)
    requires Permutation(ord, |es|) && EverythingDecidable(es, d0) && planned == ChangesOn(es, ord, d0)
    requires n < |ord| == |cs| && Refers(es, planned) && Refers(es, cs) && Grown(es, ord, planned, d0, d, n)
    requires MadeIn(es, ord, planned, cs, d0, d, n, n, k) && PlanSoFar(planned, cs, n)
    requires (cs[n].action == Update ==> cs[n].id.Some?) && CarriesOut(es, cs, n, d, d')
    ensures GrownIn(es, ord, planned, d0, d', n + 1, k) && MadeIn(es, ord, planned, cs, d0, d', n + 1, n, k)
  {
    assert DecideOn(es[ord[n]], d0).Decided?;
    ChangeMakes(es, ord, planned, cs, d0, d, d', n, k);
    CarriedOutGrows(es, ord, d0, planned, cs, n, d, d');
  }

  lemma CarriedOutMakes(es: seq<Entity>, ord: seq<nat>, planned: seq<Change>, cs: seq<Change>, d0: Directory, d: Directory, d': Directory, n: nat)
    requires Permutation(ord, |es|) && EverythingDecidable(es, d0) && planned == ChangesOn(es, ord, d0)
    requires n < |ord| == |cs| && Refers(es, planned) && Refers(es, cs) && Grown(es, ord, planned, d0, d, n)
    requires AllRows(es, ord, planned, cs, d0, d, n, n) && PlanSoFar(planned, cs, n)
    requires (cs[n].action == Update ==> cs[n].id.Some?) && CarriesOut(es, cs, n, d, d')
    ensures AllRows(es, ord, planned, cs, d0, d', n + 1, n)
  {
    var next := n + 1;
    forall k ensures GrownIn(es, ord, planned, d0, d', next, k) && MadeIn(es, ord, planned, cs, d0, d', next, n, k) {
      assert MadeIn(es, ord, planned, cs, d0, d, n, n, k);
      CarriedOutMakesIn(es, ord, planned, cs, d0, d, d', n, k);
    }
  }

  /** The newest row of the kind that place n creates has this id. */
  ghost predicate Newest(es: seq<Entity>, ord: seq<nat>, planned: seq<Change>, d': Directory, n: nat, id: Id)
    requires n < |ord| == |planned| && forall p :: 0 <= p < |ord| ==> ord[p] < |es|
  {
    var rows := RowsOf(d', es[ord[n]].kind);
    planned[n].action == Create ==> |rows| > 0 && rows[|rows| - 1].id == id
  }

  lemma AnsweredMakes(es: seq<Entity>, ord: seq<nat>, planned: seq<Change>, cs: seq<Change>, cs': seq<Change>, d0: Directory, d': Directory, n: nat, id: Id)
    requires n < |ord| == |planned| == |cs| == |cs'| && (forall p :: 0 <= p < |ord| ==> ord[p] < |es|) && Refers(es, planned)
    requires PlanSoFar(planned, cs, n) && Newest(es, ord, planned, d', n, id) && Lands(cs, cs', n, id)
    requires AllRows(es, ord, planned, cs, d0, d', n + 1, n)
    ensures AllRows(es, ord, planned, cs', d0, d', n + 1, n + 1) && PlanSoFar(planned, cs', n + 1)
  {
    var next := n + 1;
    forall k ensures GrownIn(es, ord, planned, d0, d', next, k) && MadeIn(es, ord, planned, cs', d0, d', next, next, k) {
      assert MadeIn(es, ord, planned, cs, d0, d', next, n, k) && GrownIn(es, ord, planned, d0, d', next, k);
      LandsOn(es, ord, planned, cs, cs', d0, d', n, k);
    }
  }

  lemma RunningIsNested(es: seq<Entity>, ord: seq<nat>, d0: Directory, plan: Plan, r: Run)
    requires Permutation(ord, |es|) && Nests(es, ord, plan, d0, r) && r.stop == Running && r.entity < |ord|
    ensures NestedAt(es, ord, plan, d0, r, r.entity)
  {
  }

  lemma NewestIs(es: seq<Entity>, ord: seq<nat>, planned: seq<Change>, cs: seq<Change>, d0: Directory, d: Directory, d': Directory, n: nat)
    requires n < |ord| == |planned| == |cs| && (forall p :: 0 <= p < |ord| ==> ord[p] < |es|) && Refers(es, planned) && Refers(es, cs)
    requires AllRows(es, ord, planned, cs, d0, d, n, n) && cs[n] == planned[n] && cs[n].entity == ord[n]
    requires (cs[n].action == Update ==> cs[n].id.Some?) && CarriesOut(es, cs, n, d, d')
    ensures Newest(es, ord, planned, d', n, d.nextId)
  {
    assert MadeIn(es, ord, planned, cs, d0, d, n, n, es[ord[n]].kind) && GrownIn(es, ord, planned, d0, d, n, es[ord[n]].kind);
    if planned[n].action == Create { NewestRow(es, ord, planned, cs, d0, d, d', n); }
  }

  /** From one run to the next, an entity's write carried out in between. */
  lemma NestsAfterWrite(es: seq<Entity>, ord: seq<nat>, d0: Directory, plan: Plan, r: Run, r': Run)
    requires Permutation(ord, |es|) && |plan.changes| == |ord| && Refers(es, plan.changes) && |r.changes| == |ord|
    requires r.entity < |ord| && PlanSoFar(plan.changes, r.changes, r.entity) && StepsOver(r, r')
    requires AllRows(es, ord, plan.changes, r.changes, d0, r'.world.dir, r.entity + 1, r.entity)
    requires Newest(es, ord, plan.changes, r'.world.dir, r.entity, r.world.dir.nextId)
    requires r'.stop == Running ==> Lands(r.changes, r'.changes, r.entity, r.world.dir.nextId)
    ensures NestedAt(es, ord, plan, d0, r', r.entity + 1)
  {
    if r'.stop == Running {
      AnsweredMakes(es, ord, plan.changes, r.changes, r'.changes, d0, r'.world.dir, r.entity, r.world.dir.nextId);
    }
  }

  lemma UnmovedNests(es: seq<Entity>, ord: seq<nat>, d0: Directory, plan: Plan, r: Run, r': Run)
    requires Permutation(ord, |es|) && NestedAt(es, ord, plan, d0, r, r.entity)
    requires r'.changes == r.changes && r'.entity == r.entity && r'.world.dir == r.world.dir
    ensures NestedAt(es, ord, plan, d0, r', r'.entity)
  {
  }

  /** What a run that is nested has to its rows and plan. */
  lemma NestedRows(es: seq<Entity>, ord: seq<nat>, plan: Plan, d0: Directory, r: Run, n: nat)
    requires Permutation(ord, |es|) && NestedAt(es, ord, plan, d0, r, n)
    ensures Refers(es, plan.changes) && |r.changes| == |ord| == |plan.changes| && r.entity <= n <= r.entity + 1 && n <= |ord|
    ensures PlanSoFar(plan.changes, r.changes, r.entity) && AllRows(es, ord, plan.changes, r.changes, d0, r.world.dir, n, r.entity)
  {
  }

  lemma NestsAfter(es: seq<Entity>, ord: seq<nat>, d0: Directory, plan: Plan, r: Run, r': Run)
    requires Permutation(ord, |es|) && EverythingDecidable(es, d0) && plan.changes == ChangesOn(es, ord, d0)
    requires NestedAt(es, ord, plan, d0, r, r.entity) && r.stop == Running && r.entity < |ord| && Refers(es, r.changes)
    requires Grown(es, ord, plan.changes, d0, r.world.dir, r.entity) && (r.changes[r.entity].action == Update ==> r.changes[r.entity].id.Some?)
    requires StepsOver(r, r') && CarriesOut(es, r.changes, r.entity, r.world.dir, r'.world.dir)
    requires r'.stop == Running ==> Lands(r.changes, r'.changes, r.entity, r.world.dir.nextId)
    ensures NestedAt(es, ord, plan, d0, r', r.entity + 1)
  {
    NestedRows(es, ord, plan, d0, r, r.entity);
    NewestIs(es, ord, plan.changes, r.changes, d0, r.world.dir, r'.world.dir, r.entity);
    CarriedOutMakes(es, ord, plan.changes, r.changes, d0, r.world.dir, r'.world.dir, r.entity);
    NestsAfterWrite(es, ord, d0, plan, r, r');
  }

  /** What an entity's step does to the server and to the plan. */
  ghost predicate Steps(es: seq<Entity>, r: Run, r': Run)
    requires Refers(es, r.changes) && r.entity < |r.changes| && (r.changes[r.entity].action == Update ==> r.changes[r.entity].id.Some?)
  {
    && StepsOver(r, r')
    && (CarriesOut(es, r.changes, r.entity, r.world.dir, r'.world.dir) || (r'.stop != Running && r'.world.dir == r.world.dir))
    && (r'.stop == Running ==> Lands(r.changes, r'.changes, r.entity, r.world.dir.nextId))
  }

  lemma EntitySteps(m: Manifest, r: Run, script: Script)
    requires EntityReady(m, r) && r.stop == Running && Refers(m.entities, r.changes)
    ensures Steps(m.entities, r, StepEntity(m, r, script))
  {
    StepEntityFacts(m, r, script);
    LandedIs(m, r, script);
  }

  lemma EntityStepNests(es: seq<Entity>, ord: seq<nat>, d0: Directory, plan: Plan, r: Run, r': Run)
    requires Permutation(ord, |es|) && EverythingDecidable(es, d0) && plan.changes == ChangesOn(es, ord, d0)
    requires NestedAt(es, ord, plan, d0, r, r.entity) && r.stop == Running && r.entity < |ord| && Refers(es, r.changes)
    requires Grown(es, ord, plan.changes, d0, r.world.dir, r.entity)
    requires (r.changes[r.entity].action == Update ==> r.changes[r.entity].id.Some?) && Steps(es, r, r')
    ensures NestedAt(es, ord, plan, d0, r', r'.entity) || NestedAt(es, ord, plan, d0, r', r.entity + 1)
  {
    if CarriesOut(es, r.changes, r.entity, r.world.dir, r'.world.dir) {
      NestsAfter(es, ord, d0, plan, r, r');
    } else {
      UnmovedNests(es, ord, d0, plan, r, r');
    }
  }

  lemma StepEntityNests(m: Manifest, ord: seq<nat>, d0: Directory, plan: Plan, r: Run, script: Script)
    requires Permutation(ord, |m.entities|) && EverythingDecidable(m.entities, d0) && plan.changes == ChangesOn(m.entities, ord, d0)
    requires NestedAt(m.entities, ord, plan, d0, r, r.entity) && r.stop == Running && r.entity < |ord| && EntityReady(m, r)
    requires Grown(m.entities, ord, plan.changes, d0, r.world.dir, r.entity)
    ensures Nests(m.entities, ord, plan, d0, StepEntity(m, r, script))
  {
    EntitySteps(m, r, script);
    EntityStepNests(m.entities, ord, d0, plan, r, StepEntity(m, r, script));
    EntityFields(m, r, script);
  }

  /** A step that changes neither rows nor plan. */
  lemma OtherStepNests(es: seq<Entity>, ord: seq<nat>, d0: Directory, plan: Plan, r: Run, r': Run)
    requires Permutation(ord, |es|) && Nests(es, ord, plan, d0, r) && r.stop == Running
    requires r'.changes == r.changes && r'.entity == r.entity
    requires r'.world.dir.rows == r.world.dir.rows && r'.world.dir.nextId == r.world.dir.nextId
    ensures Nests(es, ord, plan, d0, r')
  {
    assert NestedAt(es, ord, plan, d0, r, r.entity);
    assert forall k :: RowsOf(r'.world.dir, k) == RowsOf(r.world.dir, k);
    var n := r.entity;
    forall k ensures GrownIn(es, ord, plan.changes, d0, r'.world.dir, n, k) && MadeIn(es, ord, plan.changes, r'.changes, d0, r'.world.dir, n, n, k) {
      assert MadeIn(es, ord, plan.changes, r.changes, d0, r.world.dir, n, n, k) && GrownIn(es, ord, plan.changes, d0, r.world.dir, n, k);
    }
    assert NestedAt(es, ord, plan, d0, r', r.entity);
  }

  lemma StepBindingNests(m: Manifest, ord: seq<nat>, d0: Directory, plan: Plan, r: Run, script: Script)
    requires Permutation(ord, |m.entities|) && Nests(m.entities, ord, plan, d0, r) && r.stop == Running && BindingReady(m, plan, r)
    ensures Nests(m.entities, ord, plan, d0, StepBinding(m, plan, r, script))
  {
    StepBindingKeepsRows(m, plan, r, script);
    BindingFields(m, plan, r, script);
    OtherStepNests(m.entities, ord, d0, plan, r, StepBinding(m, plan, r, script));
  }

  lemma StepNetworkNests(m: Manifest, ord: seq<nat>, d0: Directory, plan: Plan, r: Run, script: Script)
    requires Permutation(ord, |m.entities|) && Nests(m.entities, ord, plan, d0, r) && r.stop == Running && ItemReady(m, r)
    ensures Nests(m.entities, ord, plan, d0, StepNetwork(m, r, script))
  {
    ItemFields(m, r, script);
    OtherStepNests(m.entities, ord, d0, plan, r, StepNetwork(m, r, script));
  }

  lemma StartNests(es: seq<Entity>, ord: seq<nat>, plan: Plan, w: World)
    requires Permutation(ord, |es|) && EverythingDecidable(es, w.dir) && plan.changes == ChangesOn(es, ord, w.dir)
    ensures Nests(es, ord, plan, w.dir, Start(plan, w))
  {
    forall p | 0 <= p < |ord| ensures plan.changes[p].action == Create ==> plan.changes[p].id.None? {
      assert DecideOn(es[ord[p]], w.dir).Decided?;
      DecisionShape(es[ord[p]], w.dir);
    }
    forall k ensures GrownIn(es, ord, plan.changes, w.dir, w.dir, 0, k) && MadeIn(es, ord, plan.changes, plan.changes, w.dir, w.dir, 0, 0, k) {
    }
    assert NestedAt(es, ord, plan, w.dir, Start(plan, w), 0);
  }

  /** Where a run stands; and when every create is answered with a body, whatever it has done has a known id. */
  ghost predicate Standing(es: seq<Entity>, ord: seq<nat>, plan: Plan, d0: Directory, script: Script, r: Run)
    requires Permutation(ord, |es|)
  {
    Growing(es, ord, plan, d0, r) && Nests(es, ord, plan, d0, r) && (BodiesAlways(script) ==> IdsKnown(r))
  }

  lemma StepKeepsIdsKnown(m: Manifest, plan: Plan, r: Run, script: Script)
    requires EntityReady(m, r) && r.stop == Running && IdsKnown(r) && BodiesAlways(script) && PlannedIdsKnown(plan)
    requires |r.changes| == |plan.changes| && r.changes[r.entity] == plan.changes[r.entity]
    ensures IdsKnown(StepEntity(m, r, script))
  {
    assert script(|r.world.trace|) != AcceptBare;
  }

  lemma PlansKnowIds(es: seq<Entity>, ord: seq<nat>, d: Directory, plan: Plan)
    requires Permutation(ord, |es|) && EverythingDecidable(es, d) && plan.changes == ChangesOn(es, ord, d)
    ensures PlannedIdsKnown(plan)
  {
    forall p | 0 <= p < |plan.changes| && plan.changes[p].action != Create ensures plan.changes[p].id.Some? {
      assert DecideOn(es[ord[p]], d).Decided?;
      DecisionShape(es[ord[p]], d);
    }
  }

  lemma StepEntityStands(m: Manifest, ord: seq<nat>, d0: Directory, plan: Plan, x: Run, script: Script)
    requires Permutation(ord, |m.entities|) && EverythingDecidable(m.entities, d0) && plan.changes == ChangesOn(m.entities, ord, d0)
    requires Standing(m.entities, ord, plan, d0, script, x) && x.stop == Running && x.entity < |ord| && EntityReady(m, x) && PlannedIdsKnown(plan)
    ensures Standing(m.entities, ord, plan, d0, script, StepEntity(m, x, script))
  {
    StepEntityGrows(m, ord, d0, plan, x, script);
    RunningIsGrown(m.entities, ord, d0, plan, x);
    RunningIsNested(m.entities, ord, d0, plan, x);
    StepEntityNests(m, ord, d0, plan, x, script);
    if BodiesAlways(script) { StepKeepsIdsKnown(m, plan, x, script); }
  }

  lemma EveryRunStands(m: Manifest, ord: seq<nat>, w: World, plan: Plan, script: Script)
    requires Permutation(ord, |m.entities|) && Fits(m, plan)
    requires EverythingDecidable(m.entities, w.dir) && plan.changes == ChangesOn(m.entities, ord, w.dir)
    requires IdsAreUnique(w.dir) && RowIdsIssued(w.dir)
    ensures Standing(m.entities, ord, plan, w.dir, script, ApplyRun(m, plan, w, script))
  {
    var es, d0 := m.entities, w.dir;
    var inv := (x: Run) => Standing(es, ord, plan, d0, script, x);
    PlansKnowIds(es, ord, d0, plan);
    StartsGrown(es, ord, plan.changes, d0);
    StartNests(es, ord, plan, w);
    forall x: Run | Runnable(m, plan, x) && inv(x) && x.stop == Running && x.entity < |plan.changes|
      ensures inv(StepEntity(m, x, script))
    {
      StepEntityStands(m, ord, d0, plan, x, script);
    }
    forall x: Run | Runnable(m, plan, x) && inv(x) && x.stop == Running && x.binding < |plan.bindings|
      ensures inv(StepBinding(m, plan, x, script))
    {
      StepBindingGrows(m, ord, d0, plan, x, script);
      StepBindingNests(m, ord, d0, plan, x, script);
      BindingFields(m, plan, x, script);
    }
    forall x: Run | Runnable(m, plan, x) && inv(x) && x.stop == Running && x.item < |plan.network|
      ensures inv(StepNetwork(m, x, script))
    {
      StepNetworkGrows(m, ord, d0, plan, x, script);
      StepNetworkNests(m, ord, d0, plan, x, script);
      ItemFields(m, x, script);
    }
    ApplyKeeps(m, plan, w, script, inv);
  }

  // ----- What it means on the directory -----

  /** The row is the first under the declaration's name, and within the page. */
  ghost predicate OnPage(e: Entity, was: seq<Row>, i: int) {
    && 0 <= i < |was| && i < 200 && (if e.kind == Permission then e.action else e.name) == Some(was[i].name)
    && forall j :: 0 <= j < i ==> was[j].name != was[i].name
  }

  /** The server has the declaration at place q under this id: in the row this plan created for it, or in the first row under its name on the page the plan was made from. */
  ghost predicate HasId(es: seq<Entity>, ord: seq<nat>, planned: seq<Change>, d0: Directory, d: Directory, n: nat, q: nat, id: Id)
    requires n <= |ord| == |planned| && (forall p :: 0 <= p < |ord| ==> ord[p] < |es|) && q < |ord|
  {
    var e := es[ord[q]];
    var was, rows, at := RowsOf(d0, e.kind), RowsOf(d, e.kind), CreatedAt(es, ord, planned, n, e.kind);
    if planned[q].action == Create
    then exists j :: 0 <= j < |at| && at[j] == q && |was| + j < |rows| && rows[|was| + j].id == id
    else exists i :: OnPage(e, was, i) && i < |rows| && rows[i].id == id && rows[i].name == was[i].name
  }

  /**
   * The parent of what place p created.  Only a resource that depends on something declared has one:
   * of the declarations under that key the one of the least kind is meant.  If it is itself created, and
   * no earlier, there is no parent; otherwise the parent is its id on the server, and is missing only
   * if some create is answered without a body.
   */
  ghost predicate HangsRight(es: seq<Entity>, ord: seq<nat>, planned: seq<Change>, d0: Directory, d: Directory, n: nat, bodies: bool, p: nat, parent: Option<Id>)
    requires n <= |ord| == |planned| && (forall q :: 0 <= q < |ord| ==> ord[q] < |es|) && p < |ord|
  {
    var e := es[ord[p]];
    if e.kind != Resource || e.dependsOn.None? || FindKey(es, e.dependsOn.value).None? then parent.None?
    else exists q {:trigger HangsUnder(es, ord, planned, d0, d, n, bodies, p, q, parent)} ::
      0 <= q < |ord| && es[ord[q]].key == e.dependsOn.value && FoundInPlan(es, ord[q])
      && HangsUnder(es, ord, planned, d0, d, n, bodies, p, q, parent)
  }

  ghost predicate HangsUnder(es: seq<Entity>, ord: seq<nat>, planned: seq<Change>, d0: Directory, d: Directory, n: nat, bodies: bool, p: nat, q: nat, parent: Option<Id>)
    requires n <= |ord| == |planned| && (forall p :: 0 <= p < |ord| ==> ord[p] < |es|) && q < |ord|
  {
    if planned[q].action == Create && p <= q then parent.None?
    else if parent.None? then planned[q].action == Create && !bodies
    else HasId(es, ord, planned, d0, d, n, q, parent.value)
  }

  ghost predicate RowRight(es: seq<Entity>, ord: seq<nat>, planned: seq<Change>, d0: Directory, d: Directory, n: nat, bodies: bool, p: nat, row: Row)
    requires n <= |ord| == |planned| && (forall q :: 0 <= q < |ord| ==> ord[q] < |es|) && p < |ord|
  {
    AsDeclared(es[ord[p]], row) && HangsRight(es, ord, planned, d0, d, n, bodies, p, row.parent)
  }

  /** Of one kind, after what there was, one row for each create, each as declared. */
  ghost predicate CreatedRight(es: seq<Entity>, ord: seq<nat>, planned: seq<Change>, d0: Directory, d: Directory, n: nat, bodies: bool, k: Kind)
    requires n <= |ord| == |planned| && forall p :: 0 <= p < |ord| ==> ord[p] < |es|
  {
    var at, was := CreatedAt(es, ord, planned, n, k), |RowsOf(d0, k)|;
    && |RowsOf(d, k)| == was + |at|
    && forall j :: 0 <= j < |at| ==> RowRight(es, ord, planned, d0, d, n, bodies, at[j], RowsOf(d, k)[was + j])
  }

  /** The first planned change under a key is of the least kind among the declarations under it. */
  ghost predicate LeastUnder(es: seq<Entity>, ord: seq<nat>, planned: seq<Change>, key: string)
    requires Refers(es, planned)
  {
    var hit := FindChange(es, planned, key, 0);
    && (hit.None? <==> FindKey(es, key).None?)
    && (hit.Some? ==> hit.value < |ord| && ord[hit.value] < |es| && es[ord[hit.value]].key == key && FoundInPlan(es, ord[hit.value]))
  }

  lemma FirstPlannedIsLeast(es: seq<Entity>, ord: seq<nat>, planned: seq<Change>, key: string)
    requires DerivedOrder(es, ord) && |planned| == |ord| && forall p :: 0 <= p < |ord| ==> planned[p].entity == ord[p]
    ensures Refers(es, planned) && LeastUnder(es, ord, planned, key)
  {
    var hit := FindChange(es, planned, key, 0);
    forall j | 0 <= j < |es| && es[j].key == key ensures hit.Some? && Rank(es[ord[hit.value]].kind) <= Rank(es[j].kind) {
      var p := PermutationHits(ord, |es|, j);
      assert es[planned[p].entity].key == key;
      if hit.value < p { assert Precedes(es, ord[hit.value], ord[p]); }
    }
    if hit.Some? { assert es[ord[hit.value]].key == key; }
  }

  /** A change that creates nothing has the id of the first row under its name on the page it was planned from. */
  ghost predicate PagedId(e: Entity, c: Change, d0: Directory) {
    c.action != Create ==> c.id.Some? && exists i :: OnPage(e, RowsOf(d0, e.kind), i) && RowsOf(d0, e.kind)[i].id == c.id.value
  }

  lemma PlannedIsPaged(es: seq<Entity>, ord: seq<nat>, d0: Directory, planned: seq<Change>, q: nat)
    requires Permutation(ord, |es|) && EverythingDecidable(es, d0) && planned == ChangesOn(es, ord, d0) && q < |ord|
    ensures PagedId(es[ord[q]], planned[q], d0)
  {
    var e := es[ord[q]];
    assert DecideOn(e, d0).Decided?;
    DecideByPage(e, d0);
    if planned[q].action != Create {
      var i := FindRow(Page(RowsOf(d0, e.kind)), MatchName(e).value).value;
      assert OnPage(e, RowsOf(d0, e.kind), i);
    }
  }

  lemma {:induction false} CreatedHas(es: seq<Entity>, ord: seq<nat>, planned: seq<Change>, n: nat, q: nat) returns (j: nat)
    requires n <= |ord| == |planned| && (forall p :: 0 <= p < |ord| ==> ord[p] < |es|) && q < n && planned[q].action == Create
    ensures j < |CreatedAt(es, ord, planned, n, es[ord[q]].kind)| && CreatedAt(es, ord, planned, n, es[ord[q]].kind)[j] == q
    decreases n
  {
    if q == n - 1 { j := |CreatedAt(es, ord, planned, n - 1, es[ord[q]].kind)|; } else { j := CreatedHas(es, ord, planned, n - 1, q); }
  }

  /** A known id is the one the server has. */
  lemma KnownIsHad(es: seq<Entity>, ord: seq<nat>, planned: seq<Change>, cs: seq<Change>, d0: Directory, d: Directory, n: nat, m: nat, q: nat)
    requires n <= |ord| == |planned| == |cs| && (forall p :: 0 <= p < |ord| ==> ord[p] < |es|) && Refers(es, planned)
    requires AllRows(es, ord, planned, cs, d0, d, n, m) && q < |ord| && cs[q].id.Some? && PagedId(es[ord[q]], planned[q], d0)
    requires if planned[q].action == Create then q < n && q < m else cs[q] == planned[q]
    ensures HasId(es, ord, planned, d0, d, n, q, cs[q].id.value)
  {
    var e := es[ord[q]];
    assert MadeIn(es, ord, planned, cs, d0, d, n, m, e.kind) && GrownIn(es, ord, planned, d0, d, n, e.kind);
    if planned[q].action == Create {
      var j := CreatedHas(es, ord, planned, n, q);
      assert Made(es, planned, cs, m, q, e, RowsOf(d, e.kind)[|RowsOf(d0, e.kind)| + j]);
    } else {
      var i :| OnPage(e, RowsOf(d0, e.kind), i) && RowsOf(d0, e.kind)[i].id == cs[q].id.value;
      assert RowsOf(d, e.kind)[i].id == cs[q].id.value;
    }
  }

  /** What the run's plan knows. */
  ghost predicate WellPlanned(es: seq<Entity>, ord: seq<nat>, planned: seq<Change>, cs: seq<Change>, d0: Directory, m: nat, bodies: bool) {
    && |ord| == |planned| == |cs| && (forall p :: 0 <= p < |ord| ==> ord[p] < |es|) && Refers(es, planned)
    && (forall q {:trigger PagedId(es[ord[q]], planned[q], d0)} :: 0 <= q < |ord| ==> PagedId(es[ord[q]], planned[q], d0)) && (forall key :: LeastUnder(es, ord, planned, key))
    && PlanSoFar(planned, cs, m) && m <= |cs| && (bodies ==> forall p :: 0 <= p < m ==> cs[p].id.Some?)
  }

  lemma MadeIsRight(es: seq<Entity>, ord: seq<nat>, planned: seq<Change>, cs: seq<Change>, d0: Directory, d: Directory, n: nat, m: nat, bodies: bool, p: nat, row: Row)
    requires WellPlanned(es, ord, planned, cs, d0, m, bodies) && n <= |ord| && AllRows(es, ord, planned, cs, d0, d, n, m)
    requires p < n <= m + 1 && Made(es, planned, cs, m, p, es[ord[p]], row)
    ensures RowRight(es, ord, planned, d0, d, n, bodies, p, row)
  {
    var e := es[ord[p]];
    if e.kind == Resource && e.dependsOn.Some? {
      assert LeastUnder(es, ord, planned, e.dependsOn.value);
      var hit := FindChange(es, planned, e.dependsOn.value, 0);
      if hit.Some? {
        var q := hit.value;
        assert PagedId(es[ord[q]], planned[q], d0);
        if row.parent.Some? { KnownIsHad(es, ord, planned, cs, d0, d, n, m, q); }
        assert HangsUnder(es, ord, planned, d0, d, n, bodies, p, q, row.parent);
      }
    }
  }

  lemma RowsAreMade(es: seq<Entity>, ord: seq<nat>, planned: seq<Change>, cs: seq<Change>, d0: Directory, d: Directory, n: nat, m: nat, k: Kind)
    requires n <= |ord| == |planned| == |cs| && (forall p :: 0 <= p < |ord| ==> ord[p] < |es|) && Refers(es, planned)
    requires AllRows(es, ord, planned, cs, d0, d, n, m)
    ensures var at, was, rows := CreatedAt(es, ord, planned, n, k), |RowsOf(d0, k)|, RowsOf(d, k);
      && |rows| == was + |at|
      && forall j :: 0 <= j < |at| ==> Made(es, planned, cs, m, at[j], es[ord[at[j]]], rows[was + j])
  {
    assert MadeIn(es, ord, planned, cs, d0, d, n, m, k) && GrownIn(es, ord, planned, d0, d, n, k);
  }

  lemma KindIsRight(es: seq<Entity>, ord: seq<nat>, planned: seq<Change>, cs: seq<Change>, d0: Directory, d: Directory, n: nat, m: nat, bodies: bool, k: Kind)
    requires WellPlanned(es, ord, planned, cs, d0, m, bodies) && n <= |ord| && n <= m + 1 && AllRows(es, ord, planned, cs, d0, d, n, m)
    ensures CreatedRight(es, ord, planned, d0, d, n, bodies, k)
  {
    var at, was, rows := CreatedAt(es, ord, planned, n, k), |RowsOf(d0, k)|, RowsOf(d, k);
    RowsAreMade(es, ord, planned, cs, d0, d, n, m, k);
    forall j | 0 <= j < |at| ensures RowRight(es, ord, planned, d0, d, n, bodies, at[j], rows[was + j]) {
      MadeIsRight(es, ord, planned, cs, d0, d, n, m, bodies, at[j], rows[was + j]);
    }
  }

  lemma StandingPlan(es: seq<Entity>, ord: seq<nat>, plan: Plan, d0: Directory, r: Run, n: nat, bodies: bool)
    requires DerivedOrder(es, ord) && EverythingDecidable(es, d0) && plan.changes == ChangesOn(es, ord, d0)
    requires NestedAt(es, ord, plan, d0, r, n) && (bodies ==> IdsKnown(r))
    ensures Refers(es, plan.changes) && r.entity <= n <= r.entity + 1 && n <= |ord| == |r.changes|
    ensures WellPlanned(es, ord, plan.changes, r.changes, d0, r.entity, bodies)
    ensures AllRows(es, ord, plan.changes, r.changes, d0, r.world.dir, n, r.entity)
  {
    NestedRows(es, ord, plan, d0, r, n);
    forall q | 0 <= q < |ord| ensures PagedId(es[ord[q]], plan.changes[q], d0) { PlannedIsPaged(es, ord, d0, plan.changes, q); }
    forall key ensures LeastUnder(es, ord, plan.changes, key) { FirstPlannedIsLeast(es, ord, plan.changes, key); }
  }

  /** The server stands after n changes: those looked at, and possibly the one that seemed to fail. */
  predicate Stopped(r: Run, n: nat) {
    n == r.entity || (r.stop != Running && n == r.entity + 1)
  }

  lemma StandingIsRight(es: seq<Entity>, ord: seq<nat>, plan: Plan, d0: Directory, script: Script, r: Run) returns (n: nat)
    requires DerivedOrder(es, ord) && EverythingDecidable(es, d0) && plan.changes == ChangesOn(es, ord, d0)
    requires Nests(es, ord, plan, d0, r) && (BodiesAlways(script) ==> IdsKnown(r))
    ensures Stopped(r, n) && n <= |ord|
    ensures forall k :: CreatedRight(es, ord, plan.changes, d0, r.world.dir, n, BodiesAlways(script), k)
  {
    n := if NestedAt(es, ord, plan, d0, r, r.entity) then r.entity else r.entity + 1;
    StandingPlan(es, ord, plan, d0, r, n, BodiesAlways(script));
    forall k ensures CreatedRight(es, ord, plan.changes, d0, r.world.dir, n, BodiesAlways(script), k) {
      KindIsRight(es, ord, plan.changes, r.changes, d0, r.world.dir, n, r.entity, BodiesAlways(script), k);
    }
  }

  /**
   * Wherever a run stops, every row it created is as declared, member by member, and hangs where it is
   * declared to: under the id that the server has for the declaration meant.
   */
  lemma EveryRunNests(m: Manifest, ord: seq<nat>, w: World, plan: Plan, script: Script) returns (n: nat)
    requires DerivedOrder(m.entities, ord) && Fits(m, plan)
    requires EverythingDecidable(m.entities, w.dir) && plan.changes == ChangesOn(m.entities, ord, w.dir)
    requires IdsAreUnique(w.dir) && RowIdsIssued(w.dir)
    ensures Stopped(ApplyRun(m, plan, w, script), n) && n <= |ord|
    ensures forall k :: CreatedRight(m.entities, ord, plan.changes, w.dir, ApplyRun(m, plan, w, script).world.dir, n, BodiesAlways(script), k)
  {
    EveryRunStands(m, ord, w, plan, script);
    n := StandingIsRight(m.entities, ord, plan, w.dir, script, ApplyRun(m, plan, w, script));
  }

  /**
   * For a resource that depends on a resource, with every create answered by a body: what was created
   * hangs under that resource exactly when it was on the server when the plan was made, or no
   * declaration of another kind hides it by being written first under its key, or it comes first anyhow.
   */
  lemma HangsUnderParentIff(es: seq<Entity>, ord: seq<nat>, planned: seq<Change>, d0: Directory, d: Directory, n: nat, p: nat, q: nat, parent: Option<Id>)
    requires UniqueKeysWithinKind(es) && Acyclic(es) && DerivedOrder(es, ord) && n <= |ord| == |planned| && p < |ord| && q < |ord|
    requires es[ord[p]].kind == Resource == es[ord[q]].kind && es[ord[p]].dependsOn == Some(es[ord[q]].key)
    requires HangsRight(es, ord, planned, d0, d, n, true, p, parent)
    ensures parent.Some?
       <==> planned[q].action != Create || FindKey(es, es[ord[q]].key) == Some(ord[q])
            || (Depth(es, ord[q]) == 0 && Before(es[ord[q]].key, es[ord[p]].key))
    ensures parent.Some? ==> HasId(es, ord, planned, d0, d, n, q, parent.value)
  {
    EarlierIff(es, ord, p, q);
    var f :| 0 <= f < |ord| && es[ord[f]].key == es[ord[q]].key && FoundInPlan(es, ord[f])
             && HangsUnder(es, ord, planned, d0, d, n, true, p, f, parent);
    OneResource(es, ord, f, q);
  }

  lemma EarlierIff(es: seq<Entity>, ord: seq<nat>, p: nat, q: nat)
    requires UniqueKeysWithinKind(es) && Acyclic(es) && DerivedOrder(es, ord) && p < |ord| && q < |ord|
    requires es[ord[p]].kind == es[ord[q]].kind && es[ord[p]].dependsOn == Some(es[ord[q]].key)
    ensures q < p <==> FindKey(es, es[ord[q]].key) == Some(ord[q]) || (Depth(es, ord[q]) == 0 && Before(es[ord[q]].key, es[ord[p]].key))
  {
    ParentBeforeChildIff(es, ord, ord[p], ord[q]);
    assert q < p ==> Comes(ord, ord[q], ord[p]);
  }

  /** No other declaration of the least kind has a resource's key. */
  lemma OneResource(es: seq<Entity>, ord: seq<nat>, f: nat, q: nat)
    requires UniqueKeysWithinKind(es) && Permutation(ord, |es|) && f < |ord| && q < |ord|
    requires es[ord[q]].kind == Resource && es[ord[f]].key == es[ord[q]].key && FoundInPlan(es, ord[f])
    ensures f == q
  {
    assert Rank(es[ord[f]].kind) <= Rank(es[ord[q]].kind);
    assert ord[f] == ord[q];
  }

  lemma HiddenParent() returns (es: seq<Entity>, ord: seq<nat>)
    ensures EntitiesAccepted(es) && DerivedOrder(es, ord) && ord == [2, 1, 0]
    ensures es == [Plain(Permission, "x", None), Plain(Resource, "x", None), Plain(Resource, "a", Some("x"))]
  {
    es, ord := [Plain(Permission, "x", None), Plain(Resource, "x", None), Plain(Resource, "a", Some("x"))], [2, 1, 0];
    assert FindKey(es, "x") == Some(0);
    forall i, n: nat | 0 <= i < |es| ensures !OnCycle(es, i, n) { ShortChains(es, i, n); }
    assert SameKindParent(es, 2).None? && SameKindParent(es, 1).None?;
    assert Depth(es, 2) == 0 && Depth(es, 1) == 0 && Before("a", "x") && !Before("x", "a");
    assert Precedes(es, 2, 1) && Precedes(es, 1, 0) && Precedes(es, 2, 0);
  }

  /**
   * An accepted manifest whose nested resource is created at the root: a permission under the parent's
   * key, declared before it, hides the parent from the order, and the child comes first.
   */
  lemma HiddenParentIsLost(planned: seq<Change>, d0: Directory, d: Directory, n: nat, parent: Option<Id>)
    returns (es: seq<Entity>, ord: seq<nat>)
    requires n <= |planned| == 3 && planned[1].action == Create
    ensures EntitiesAccepted(es) && DerivedOrder(es, ord) && |ord| == 3
    ensures es[ord[0]].kind == es[ord[1]].kind == Resource && es[ord[0]].dependsOn == Some(es[ord[1]].key)
    ensures HangsRight(es, ord, planned, d0, d, n, true, 0, parent) ==> parent.None?
  {
    es, ord := HiddenParent();
    if HangsRight(es, ord, planned, d0, d, n, true, 0, parent) {
      NotFirst(es, ord, planned, d0, d, n, parent);
    }
  }

  /** Hidden and not before its child, the parent is not there yet. */
  lemma NotFirst(es: seq<Entity>, ord: seq<nat>, planned: seq<Change>, d0: Directory, d: Directory, n: nat, parent: Option<Id>)
    requires EntitiesAccepted(es) && DerivedOrder(es, ord) && 3 == |ord| == |planned| && n <= 3 && planned[1].action == Create
    requires es[ord[0]].kind == Resource == es[ord[1]].kind && es[ord[0]].dependsOn == Some(es[ord[1]].key)
    requires HangsRight(es, ord, planned, d0, d, n, true, 0, parent)
    ensures parent.None?
  {
    EarlierIff(es, ord, 0, 1);
    HangsUnderParentIff(es, ord, planned, d0, d, n, 0, 1, parent);
  }

  lemma {:induction false} ShortChains(es: seq<Entity>, i: nat, n: nat)
    requires |es| == 3 && FindKey(es, "x") == Some(0) && es[0].dependsOn.None? && es[1].dependsOn.None? && es[2].dependsOn == Some("x")
    requires i < 3
    ensures n > 0 ==> Follow(es, i, n) == (if i == 2 && n == 1 then Some(0) else None)
    decreases n
  {
    if n > 0 { ShortChains(es, i, n - 1); }
  }
}
