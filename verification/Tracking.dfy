/**
 * What every run of an apply keeps: at each point, planning again would give the plan being carried
 * out, with the entities and bindings already done settled.
 */
module Tracking {
  import opened Basics
  import opened Manifest
  import opened Directory
  import opened Planning
  import opened Settling
  import opened Order
  import opened OrderLaws
  import opened Sorting
  import opened Rebinding
  import opened Wire
  import opened Applying
  import opened Runs

  // ----- The invariant -----

  /** Done: settled, and the id the run knows, if any, is the server's. */
  ghost predicate EntityDone(e: Entity, d: Directory, c: Change) {
    && IdOf(e, d).Some? && DecideOn(e, d) == Decided(SettledAction(e), IdOf(e, d))
    && (c.id.Some? ==> c.id == IdOf(e, d))
  }

  /** To do: the decision is still the planned one. */
  ghost predicate EntityToDo(e: Entity, d: Directory, planned: Change) {
    DecideOn(e, d) == Decided(planned.action, planned.id)
  }

  /** The first n changes are done, the rest still as planned. */
  ghost predicate EntitiesOnTrack(es: seq<Entity>, ord: seq<nat>, planned: seq<Change>, cs: seq<Change>, d: Directory, n: nat)
    requires Permutation(ord, |es|)
  {
    && |cs| == |planned| == |ord| && n <= |ord|
    && (forall p :: 0 <= p < |ord| ==> cs[p].entity == ord[p])
    && (forall p :: 0 <= p < n ==> EntityDone(es[ord[p]], d, cs[p]))
    && (forall p :: n <= p < |ord| ==> cs[p] == planned[p] && EntityToDo(es[ord[p]], d, planned[p]))
  }

  /** The first n bindings are settled, the rest would be planned again as they were. */
  ghost predicate BindingsOnTrack(es: seq<Entity>, planned: seq<PlannedBinding>, d: Directory, n: nat)
    requires RefsValid(es)
  {
    var refs := BindingRefs(es);
    && |planned| == |refs| && n <= |refs|
    && (forall b :: 0 <= b < |refs| ==> planned[b].ref == refs[b])
    && (forall b :: 0 <= b < n ==> BindingNow(es, d, refs[b]).action == Unchanged)
    && (forall b :: n <= b < |refs| ==> BindingNow(es, d, refs[b]) == planned[b])
  }

  lemma {:induction false} RefsOfKindAreValid(es: seq<Entity>, kind: Kind, n: nat)
    requires n <= |es| && IsSubject(kind)
    ensures forall b :: 0 <= b < |RefsOfKind(es, kind, n)| ==>
      ValidRef(es, RefsOfKind(es, kind, n)[b]) && RefsOfKind(es, kind, n)[b].subject < n
      && es[RefsOfKind(es, kind, n)[b].subject].kind == kind
    ensures forall a, b :: 0 <= a < b < |RefsOfKind(es, kind, n)| ==>
      RefsOfKind(es, kind, n)[a] != RefsOfKind(es, kind, n)[b]
    decreases n
  {
    if n > 0 { RefsOfKindAreValid(es, kind, n - 1); }
  }

  lemma RefsAreValid(es: seq<Entity>)
    ensures forall b :: 0 <= b < |BindingRefs(es)| ==> ValidRef(es, BindingRefs(es)[b])
    ensures forall a, b :: 0 <= a < b < |BindingRefs(es)| ==> BindingRefs(es)[a] != BindingRefs(es)[b]
  {
    RefsOfKindAreValid(es, Group, |es|);
    RefsOfKindAreValid(es, ServiceAccount, |es|);
    var gs, ss := RefsOfKind(es, Group, |es|), RefsOfKind(es, ServiceAccount, |es|);
    forall a, b | 0 <= a < b < |gs + ss| ensures (gs + ss)[a] != (gs + ss)[b] {
      if a < |gs| <= b { assert es[gs[a].subject].kind != es[ss[b - |gs|].subject].kind; }
    }
  }

  predicate ComesBefore(a: BindingRef, b: BindingRef) {
    a.subject < b.subject || (a.subject == b.subject && a.binding < b.binding)
  }

  /** Group bindings come first; within a kind, in the order of the declarations, and of each one's own list. */
  ghost predicate Listed(es: seq<Entity>, a: BindingRef, b: BindingRef)
    requires ValidRef(es, a) && ValidRef(es, b)
  {
    || (es[a.subject].kind == Group && es[b.subject].kind == ServiceAccount)
    || (es[a.subject].kind == es[b.subject].kind && ComesBefore(a, b))
  }

  lemma {:induction false} RefIsListed(es: seq<Entity>, n: nat, ref: BindingRef)
    requires ref.subject < n <= |es| && ValidRef(es, ref)
    ensures ref in RefsOfKind(es, es[ref.subject].kind, n)
    decreases n
  {
    if ref.subject < n - 1 {
      RefIsListed(es, n - 1, ref);
    } else {
      assert RefsOfSubject(n - 1, |es[n - 1].roles|)[ref.binding] == ref;
    }
  }

  ghost predicate InRefOrder(rs: seq<BindingRef>) {
    forall a, b :: 0 <= a < b < |rs| ==> ComesBefore(rs[a], rs[b])
  }

  lemma NextSubjectInOrder(rest: seq<BindingRef>, i: nat, n: nat)
    requires InRefOrder(rest) && forall a :: 0 <= a < |rest| ==> rest[a].subject < i
    ensures InRefOrder(rest + RefsOfSubject(i, n))
  {
  }

  lemma {:induction false} RefsOfKindInOrder(es: seq<Entity>, kind: Kind, n: nat)
    requires n <= |es| && IsSubject(kind)
    ensures InRefOrder(RefsOfKind(es, kind, n))
    decreases n
  {
    if n > 0 {
      RefsOfKindInOrder(es, kind, n - 1);
      RefsOfKindAreValid(es, kind, n - 1);
      NextSubjectInOrder(RefsOfKind(es, kind, n - 1), n - 1, |es[n - 1].roles|);
    }
  }

  /** A plan lists every declared binding, each once, in that order. */
  lemma BindingsAreListed(es: seq<Entity>)
    ensures forall ref :: ref in BindingRefs(es) <==> ValidRef(es, ref)
    ensures forall a, b :: 0 <= a < b < |BindingRefs(es)| ==>
      ValidRef(es, BindingRefs(es)[a]) && ValidRef(es, BindingRefs(es)[b]) && Listed(es, BindingRefs(es)[a], BindingRefs(es)[b])
  {
    RefsAreValid(es);
    forall ref | ValidRef(es, ref) ensures ref in BindingRefs(es) { RefIsListed(es, |es|, ref); }
    var gs, ss := RefsOfKind(es, Group, |es|), RefsOfKind(es, ServiceAccount, |es|);
    RefsOfKindInOrder(es, Group, |es|);
    RefsOfKindInOrder(es, ServiceAccount, |es|);
    RefsOfKindAreValid(es, Group, |es|);
    RefsOfKindAreValid(es, ServiceAccount, |es|);
    forall a, b | 0 <= a < b < |gs + ss| ensures Listed(es, (gs + ss)[a], (gs + ss)[b]) {
      if b < |gs| { assert ComesBefore(gs[a], gs[b]); }
      else if a >= |gs| { assert ComesBefore(ss[a - |gs|], ss[b - |gs|]); }
      else { assert es[gs[a].subject].kind == Group && es[ss[b - |gs|].subject].kind == ServiceAccount; }
    }
  }

  ghost predicate RefsValid(es: seq<Entity>) {
    && (forall b :: 0 <= b < |BindingRefs(es)| ==> ValidRef(es, BindingRefs(es)[b]))
    && (forall a, b :: 0 <= a < b < |BindingRefs(es)| ==> BindingRefs(es)[a] != BindingRefs(es)[b])
  }

  ghost predicate OnTrack(es: seq<Entity>, ord: seq<nat>, plan: Plan, r: Run)
    requires Permutation(ord, |es|)
  {
    && RefsValid(es)
    && WellFormed(r.world.dir)
    && EntitiesOnTrack(es, ord, plan.changes, r.changes, r.world.dir, r.entity)
    && BindingsOnTrack(es, plan.bindings, r.world.dir, r.binding)
  }

  /** An object about to be created will be on the page a listing shows. */
  predicate RoomForOne(es: seq<Entity>, c: Change, d: Directory)
    requires c.entity < |es|
  {
    c.action == Create ==> |RowsOf(d, es[c.entity].kind)| < SCAN_LIMIT
  }

  /** Every role has been looked at. */
  ghost predicate RolesDone(es: seq<Entity>, ord: seq<nat>, n: nat)
    requires Permutation(ord, |es|)
  {
    forall p :: 0 <= p < |ord| && es[ord[p]].kind == Role ==> p < n
  }

  lemma DoneRolesAreSeen(es: seq<Entity>, ord: seq<nat>, planned: seq<Change>, cs: seq<Change>, d: Directory, n: nat)
    requires Permutation(ord, |es|) && EntitiesOnTrack(es, ord, planned, cs, d, n) && RolesDone(es, ord, n)
    ensures RolesSeen(es, d)
  {
    forall i | 0 <= i < |es| && es[i].kind == Role ensures Seen(es[i], d) {
      var p := PermutationHits(ord, |es|, i);
      assert EntityDone(es[ord[p]], d, cs[p]);
    }
  }

  /** A directory that moved under one entity only, its other decisions and every binding decision unmoved. */
  ghost predicate MovedOne(es: seq<Entity>, d: Directory, d': Directory, i: nat) {
    && (forall j :: 0 <= j < |es| && j != i ==> DecideOn(es[j], d') == DecideOn(es[j], d))
    && (forall ref :: ValidRef(es, ref) ==> BindingNow(es, d', ref) == BindingNow(es, d, ref))
  }

  lemma CreateMovesOne(es: seq<Entity>, d: Directory, i: nat, parent: Option<Id>)
    requires UsableManifest(es) && WellFormed(d) && i < |es| && |RowsOf(d, es[i].kind)| < SCAN_LIMIT
    requires MatchName(es[i]).Some? && DecideOn(es[i], d) == Decided(Create, None)
    ensures MovedOne(es, d, Effect(d, CreateCall(es[i], parent)), i)
  {
    forall j | 0 <= j < |es| && j != i
      ensures DecideOn(es[j], Effect(d, CreateCall(es[i], parent))) == DecideOn(es[j], d)
    {
      CreateLeavesOthers(es[i], d, parent, es[j]);
    }
    forall ref | ValidRef(es, ref)
      ensures BindingNow(es, Effect(d, CreateCall(es[i], parent)), ref) == BindingNow(es, d, ref)
    {
      CreateLeavesBinding(es, d, i, parent, ref);
    }
  }

  lemma UpdateMovesOne(es: seq<Entity>, d: Directory, i: nat, id: Id)
    requires UsableManifest(es) && WellFormed(d) && i < |es|
    requires DecideOn(es[i], d) == Decided(Update, Some(id))
    ensures Permits(d, UpdateCall(es[i], id)) && MovedOne(es, d, Effect(d, UpdateCall(es[i], id)), i)
  {
    UpdateSettles(es[i], d, id);
    forall j | 0 <= j < |es| && j != i
      ensures DecideOn(es[j], Effect(d, UpdateCall(es[i], id))) == DecideOn(es[j], d)
    {
      UpdateLeavesOthers(es[i], d, id, es[j]);
    }
    forall ref | ValidRef(es, ref)
      ensures BindingNow(es, Effect(d, UpdateCall(es[i], id)), ref) == BindingNow(es, d, ref)
    {
      UpdateLeavesBinding(es, d, i, id, ref);
    }
  }

  /** What a carried-out entity write leaves: that entity settled under a known id, all else unmoved. */
  ghost predicate Settles(es: seq<Entity>, ord: seq<nat>, d: Directory, d': Directory, k: nat, id: Id)
    requires Permutation(ord, |es|) && k < |ord|
  {
    && WellFormed(d') && MovedOne(es, d, d', ord[k])
    && DecideOn(es[ord[k]], d') == Decided(SettledAction(es[ord[k]]), Some(id))
  }

  lemma CreateWriteSettles(es: seq<Entity>, ord: seq<nat>, d: Directory, k: nat, parent: Option<Id>)
    requires UsableManifest(es) && DerivedOrder(es, ord) && WellFormed(d) && k < |ord|
    requires DecideOn(es[ord[k]], d) == Decided(Create, None) && |RowsOf(d, es[ord[k]].kind)| < SCAN_LIMIT
    requires Permits(d, CreateCall(es[ord[k]], parent))
    ensures Settles(es, ord, d, Effect(d, CreateCall(es[ord[k]], parent)), k, d.nextId)
  {
    var e := es[ord[k]];
    CreateStores(d, e, parent);
    CreateSettles(e, d, parent);
    CreateKeepsWellFormed(e, d, parent);
    CreateMovesOne(es, d, ord[k], parent);
  }

  lemma UpdateWriteSettles(es: seq<Entity>, ord: seq<nat>, d: Directory, k: nat, id: Id)
    requires UsableManifest(es) && DerivedOrder(es, ord) && WellFormed(d) && k < |ord|
    requires DecideOn(es[ord[k]], d) == Decided(Update, Some(id))
    ensures Permits(d, UpdateCall(es[ord[k]], id))
    ensures Settles(es, ord, d, Effect(d, UpdateCall(es[ord[k]], id)), k, id)
  {
    var e := es[ord[k]];
    UpdateSettles(e, d, id);
    UpdateKeepsWellFormed(e, d, id);
    UpdateMovesOne(es, d, ord[k], id);
  }

  /** A planned Unchanged is already settled; a planned Create has no id, and a planned Update has one. */
  lemma DecisionShape(e: Entity, d: Directory)
    ensures DecideOn(e, d).Decided? ==>
      match DecideOn(e, d).action
      case Unchanged => DecideOn(e, d).id.Some? && SettledAction(e) == Unchanged
      case Create => DecideOn(e, d).id.None?
      case Update => DecideOn(e, d).id.Some?
  {
  }

  lemma AdvanceEntities(es: seq<Entity>, ord: seq<nat>, planned: seq<Change>, cs: seq<Change>, d: Directory, d': Directory,
                        n: nat, c: Change, id: Id)
    requires Permutation(ord, |es|) && EntitiesOnTrack(es, ord, planned, cs, d, n) && n < |ord|
    requires Settles(es, ord, d, d', n, id) && c.entity == ord[n] && (c.id.Some? ==> c.id == Some(id))
    ensures EntitiesOnTrack(es, ord, planned, cs[n := c], d', n + 1)
  {
    var cs' := cs[n := c];
    forall p | 0 <= p < |ord| && p != n
      ensures p < n ==> EntityDone(es[ord[p]], d', cs'[p])
      ensures p > n ==> EntityToDo(es[ord[p]], d', planned[p])
    {
      OtherEntityStays(es, ord, planned, cs, d, d', n, p, id);
    }
  }

  lemma OtherEntityStays(es: seq<Entity>, ord: seq<nat>, planned: seq<Change>, cs: seq<Change>, d: Directory, d': Directory,
                         n: nat, p: nat, id: Id)
    requires Permutation(ord, |es|) && EntitiesOnTrack(es, ord, planned, cs, d, n) && n < |ord| && p < |ord| && p != n
    requires Settles(es, ord, d, d', n, id)
    ensures p < n ==> EntityDone(es[ord[p]], d', cs[p])
    ensures p > n ==> EntityToDo(es[ord[p]], d', planned[p])
  {
    assert ord[p] != ord[n];
    if p < n { assert EntityDone(es[ord[p]], d, cs[p]); } else { assert EntityToDo(es[ord[p]], d, planned[p]); }
  }

  lemma BindingsUnmoved(es: seq<Entity>, planned: seq<PlannedBinding>, d: Directory, d': Directory, n: nat)
    requires RefsValid(es) && BindingsOnTrack(es, planned, d, n)
    requires forall ref :: ValidRef(es, ref) ==> BindingNow(es, d', ref) == BindingNow(es, d, ref)
    ensures BindingsOnTrack(es, planned, d', n)
  {
    forall b | 0 <= b < |BindingRefs(es)|
      ensures BindingNow(es, d', BindingRefs(es)[b]) == BindingNow(es, d, BindingRefs(es)[b])
    {
      assert ValidRef(es, BindingRefs(es)[b]);
    }
  }

  lemma UnchangedWriteSettles(es: seq<Entity>, ord: seq<nat>, d: Directory, k: nat, id: Option<Id>)
    requires Permutation(ord, |es|) && WellFormed(d) && k < |ord|
    requires DecideOn(es[ord[k]], d) == Decided(Unchanged, id)
    ensures id.Some? && Settles(es, ord, d, d, k, id.value)
  {
    DecisionShape(es[ord[k]], d);
  }

  /** The directory after the write of one planned change, carried out. */
  ghost predicate CarriesOut(es: seq<Entity>, cs: seq<Change>, k: nat, d: Directory, d': Directory)
    requires Refers(es, cs) && k < |cs| && (cs[k].action == Update ==> cs[k].id.Some?)
  {
    if cs[k].action == Unchanged then d' == d
    else Permits(d, EntityCall(es, cs, k).d) && d' == Effect(d, EntityCall(es, cs, k).d)
  }

  /** A change carried out settles its entity, under the id planned or the fresh one. */
  lemma ChangeSettles(es: seq<Entity>, ord: seq<nat>, cs: seq<Change>, k: nat, d: Directory, d': Directory) returns (id: Id)
    requires UsableManifest(es) && DerivedOrder(es, ord) && WellFormed(d) && k < |ord|
    requires |cs| == |ord| && Refers(es, cs) && cs[k].entity == ord[k] && EntityToDo(es[ord[k]], d, cs[k]) && RoomForOne(es, cs[k], d)
    requires (cs[k].action == Update ==> cs[k].id.Some?) && CarriesOut(es, cs, k, d, d')
    ensures Settles(es, ord, d, d', k, id)
    ensures if cs[k].action == Create then id == d.nextId && cs[k].id.None? else cs[k].id == Some(id)
  {
    DecisionShape(es[ord[k]], d);
    match cs[k].action
    case Unchanged =>
      UnchangedWriteSettles(es, ord, d, k, cs[k].id);
      id := cs[k].id.value;
    case Create =>
      CreateWriteSettles(es, ord, d, k, ResolvedOption(es, cs, es[ord[k]].dependsOn));
      id := d.nextId;
    case Update =>
      UpdateWriteSettles(es, ord, d, k, cs[k].id.value);
      id := cs[k].id.value;
  }

  lemma StepCarriesOut(m: Manifest, r: Run, script: Script)
    requires EntityReady(m, r) && r.stop == Running && Refers(m.entities, r.changes) && StepEntity(m, r, script).stop == Running
    ensures var r', k := StepEntity(m, r, script), r.entity;
      && CarriesOut(m.entities, r.changes, k, r.world.dir, r'.world.dir)
      && r'.changes == r.changes[k := r'.changes[k]] && r'.changes[k].entity == r.changes[k].entity
      && (if r.changes[k].action == Create
          then r'.changes[k].id == r.changes[k].id || r'.changes[k].id == Some(r.world.dir.nextId)
          else r'.changes[k].id == r.changes[k].id)
  {
  }

  lemma AdvanceOverEntity(es: seq<Entity>, ord: seq<nat>, plan: Plan, r: Run, r': Run)
    requires UsableManifest(es) && DerivedOrder(es, ord) && OnTrack(es, ord, plan, r) && r.entity < |ord|
    requires Refers(es, r.changes) && (r.changes[r.entity].action == Update ==> r.changes[r.entity].id.Some?)
    requires RoomForOne(es, r.changes[r.entity], r.world.dir) && CarriesOut(es, r.changes, r.entity, r.world.dir, r'.world.dir)
    requires r'.entity == r.entity + 1 && r'.binding == r.binding
    requires |r'.changes| == |r.changes| && r'.changes == r.changes[r.entity := r'.changes[r.entity]]
    requires var was, now := r.changes[r.entity], r'.changes[r.entity];
      now.entity == was.entity && (now.id == was.id || (was.action == Create && now.id == Some(r.world.dir.nextId)))
    ensures OnTrack(es, ord, plan, r')
  {
    var id := ChangeSettles(es, ord, r.changes, r.entity, r.world.dir, r'.world.dir);
    AdvanceEntities(es, ord, plan.changes, r.changes, r.world.dir, r'.world.dir, r.entity, r'.changes[r.entity], id);
    BindingsUnmoved(es, plan.bindings, r.world.dir, r'.world.dir, r.binding);
  }

  lemma StepEntityKeepsTrack(m: Manifest, ord: seq<nat>, plan: Plan, r: Run, script: Script)
    requires UsableManifest(m.entities) && DerivedOrder(m.entities, ord) && OnTrack(m.entities, ord, plan, r)
    requires r.stop == Running && r.entity < |ord| && EntityReady(m, r) && RoomForOne(m.entities, r.changes[r.entity], r.world.dir)
    ensures StepEntity(m, r, script).stop == Running ==> OnTrack(m.entities, ord, plan, StepEntity(m, r, script))
  {
    if StepEntity(m, r, script).stop == Running {
      StepCarriesOut(m, r, script);
      EntityFields(m, r, script);
      AdvanceOverEntity(m.entities, ord, plan, r, StepEntity(m, r, script));
    }
  }
}
