/** axiam_mgmt_plan() for entities and bindings as it is written: validate, order, read each kind once, diff. */
module Planner {
  import opened Basics
  import opened Manifest
  import opened Directory
  import opened Planning
  import opened Wire
  import opened Sorting
  import opened Tracking
  import OrderLaws

  /** existing_find_checked(): the first match, and whether there is another. */
  method FindChecked(rows: seq<Row>, name: string) returns (found: Option<nat>, ambiguous: bool)
    ensures found == FindRow(rows, name) && (ambiguous <==> Ambiguous(rows, name))
  {
    found := None;
    var matches := 0;
    for i := 0 to |rows|
      invariant found.None? <==> matches == 0
      invariant found.None? ==> forall j :: 0 <= j < i ==> rows[j].name != name
      invariant found.Some? ==> found.value < i && rows[found.value].name == name
                                && forall j :: 0 <= j < found.value ==> rows[j].name != name
      invariant matches > 1 <==> exists j :: found.Some? && found.value < j < i && rows[j].name == name
    {
      if rows[i].name == name {
        if found.None? { found := Some(i); }
        matches := matches + 1;
      }
    }
    ambiguous := matches > 1;
    if found.Some? {
      Settle(rows, name, found.value);
    }
  }

  lemma Settle(rows: seq<Row>, name: string, i: nat)
    requires i < |rows| && rows[i].name == name && forall j :: 0 <= j < i ==> rows[j].name != name
    ensures FindRow(rows, name) == Some(i)
  {
    assert FindRow(rows, name).Some?;
    assert !(FindRow(rows, name).value < i);
  }

  method DecideEntity(e: Entity, listing: seq<Row>) returns (d: Decision)
    ensures d == Decide(e, listing)
  {
    if MatchName(e).None? { return Decided(Create, None); }
    var name := MatchName(e).value;
    var found: Option<nat>;
    if e.kind == ServiceAccount {
      var ambiguous;
      found, ambiguous := FindChecked(listing, name);
      if ambiguous { return Undecidable; }
    } else {
      found := FindRow(listing, name);
    }
    if found.None? { return Decided(Create, None); }
    var read := listing[found.value];
    return Decided(if Drifted(e, read) then Update else Unchanged, Some(read.id));
  }

  datatype EntityPlan = PlannedEntities(changes: seq<Change>) | AmbiguousAccount(i: nat) | ReadFailed

  ghost predicate CacheHolds(cache: map<Kind, seq<Row>>, d: Directory) {
    forall k :: k in cache ==> cache[k] == ReadExisting(d, k)
  }

  ghost function KindsOf(es: seq<Entity>): set<Kind> {
    set i | 0 <= i < |es| :: es[i].kind
  }

  /** The listing of one kind, read on first use. */
  method Cached(client: Client, k: Kind, cache: map<Kind, seq<Row>>) returns (rows: Option<map<Kind, seq<Row>>>)
    requires CacheHolds(cache, client.world.dir)
    modifies client`readCount
    ensures client.readCount == old(client.readCount) + (if k in cache then 0 else 1)
    ensures rows.Some? ==> CacheHolds(rows.value, client.world.dir) && rows.value.Keys == cache.Keys + {k}
    ensures rows.Some? ==> forall n :: old(client.readCount) <= n < client.readCount ==> client.answers(n)
    ensures rows.None? ==> k !in cache && !client.answers(old(client.readCount))
  {
    if k in cache { return Some(cache); }
    var read := client.List(k);
    if read.None? { return None; }
    return Some(cache[k := read.value]);
  }

  /** The first n decisions, made on the directory. */
  ghost predicate DecidedSoFar(es: seq<Entity>, ord: seq<nat>, d: Directory, cs: seq<Change>, n: nat)
    requires Permutation(ord, |es|)
  {
    n <= |es| && |cs| == n && forall k :: 0 <= k < n ==> DecideOn(es[ord[k]], d).Decided? && cs[k] == ChangeFor(es, ord[k], d)
  }

  /** Read for the kinds seen so far, and for no other. */
  ghost predicate ReadOnce(es: seq<Entity>, cache: map<Kind, seq<Row>>, count: int) {
    cache.Keys <= KindsOf(es) && count == |cache.Keys|
  }

  /** Reading for one more kind, if it was not read yet, stays within the kinds mentioned. */
  lemma ReadOnceFits(es: seq<Entity>, cache: map<Kind, seq<Row>>, count: int, i: nat)
    requires ReadOnce(es, cache, count) && i < |es|
    ensures count + (if es[i].kind in cache then 0 else 1) == |cache.Keys + {es[i].kind}| <= |KindsOf(es)|
    ensures cache.Keys + {es[i].kind} <= KindsOf(es)
  {
    assert es[i].kind in KindsOf(es);
    if es[i].kind in cache { assert cache.Keys + {es[i].kind} == cache.Keys; }
    SubsetSize(cache.Keys + {es[i].kind}, KindsOf(es));
  }

  lemma NextDecided(es: seq<Entity>, ord: seq<nat>, d: Directory, cs: seq<Change>, n: nat, c: Change)
    requires Permutation(ord, |es|) && DecidedSoFar(es, ord, d, cs, n) && n < |es|
    requires DecideOn(es[ord[n]], d).Decided? && c == ChangeFor(es, ord[n], d)
    ensures DecidedSoFar(es, ord, d, cs + [c], n + 1)
  {
  }

  lemma AllDecided(es: seq<Entity>, ord: seq<nat>, d: Directory, cs: seq<Change>)
    requires Permutation(ord, |es|) && DecidedSoFar(es, ord, d, cs, |es|)
    ensures EverythingDecidable(es, d) && cs == ChangesOn(es, ord, d)
  {
    EveryIndexDecided(es, ord, d);
  }

  /** One decision for each declaration, in order; one read for each kind the manifest mentions. */
  method PlanEntities(client: Client, es: seq<Entity>, ord: seq<nat>) returns (r: EntityPlan)
    requires Permutation(ord, |es|)
    modifies client`readCount
    ensures r.PlannedEntities? ==> EverythingDecidable(es, client.world.dir) && r.changes == ChangesOn(es, ord, client.world.dir)
    ensures r.AmbiguousAccount? ==> r.i < |es| && DecideOn(es[r.i], client.world.dir).Undecidable?
    ensures r.ReadFailed? ==> exists n :: old(client.readCount) <= n < client.readCount && !client.answers(n)
    ensures 0 <= client.readCount - old(client.readCount) <= |KindsOf(es)|
  {
    ghost var d := client.world.dir;
    var cache: map<Kind, seq<Row>> := map[];
    var changes: seq<Change> := [];
    for i := 0 to |es|
      invariant client.world.dir == d && CacheHolds(cache, d) && DecidedSoFar(es, ord, d, changes, i)
      invariant ReadOnce(es, cache, client.readCount - old(client.readCount))
    {
      var e := es[ord[i]];
      ghost var before := client.readCount;
      ReadOnceFits(es, cache, client.readCount - old(client.readCount), ord[i]);
      var read := Cached(client, e.kind, cache);
      if read.None? {
        assert !client.answers(before);
        return ReadFailed;
      }
      cache := read.value;
      var decision := DecideEntity(e, cache[e.kind]);
      if decision.Undecidable? { return AmbiguousAccount(ord[i]); }
      var change := Change(ord[i], decision.action, decision.id);
      NextDecided(es, ord, d, changes, i, change);
      changes := changes + [change];
    }
    SubsetSize(cache.Keys, KindsOf(es));
    AllDecided(es, ord, d, changes);
    return PlannedEntities(changes);
  }

  lemma EveryIndexDecided(es: seq<Entity>, ord: seq<nat>, d: Directory)
    requires Permutation(ord, |es|) && forall k :: 0 <= k < |es| ==> DecideOn(es[ord[k]], d).Decided?
    ensures EverythingDecidable(es, d)
  {
    forall i | 0 <= i < |es| ensures DecideOn(es[i], d).Decided? {
      var p := OrderLaws.PermutationHits(ord, |es|, i);
      assert DecideOn(es[ord[p]], d).Decided?;
    }
  }

  ghost predicate AllValid(es: seq<Entity>, refs: seq<BindingRef>) {
    forall b :: 0 <= b < |refs| ==> ValidRef(es, refs[b])
  }

  lemma BindingsAppend(es: seq<Entity>, cs: seq<Change>, d: Directory, a: seq<BindingRef>, b: seq<BindingRef>)
    requires Refers(es, cs) && AllValid(es, a) && AllValid(es, b)
    ensures AllValid(es, a + b)
    ensures BindingsOn(es, cs, d, a + b) == BindingsOn(es, cs, d, a) + BindingsOn(es, cs, d, b)
  {
  }

  /** The bindings of one subject; one read, if it exists. */
  method PlanSubject(client: Client, es: seq<Entity>, cs: seq<Change>, i: nat) returns (r: Option<seq<PlannedBinding>>)
    requires Refers(es, cs) && i < |es| && IsSubject(es[i].kind)
    modifies client`readCount
    ensures client.readCount >= old(client.readCount)
    ensures AllValid(es, RefsOfSubject(i, |es[i].roles|))
    ensures r.Some? ==> r.value == BindingsOn(es, cs, client.world.dir, RefsOfSubject(i, |es[i].roles|))
    ensures r.None? ==> exists n :: old(client.readCount) <= n < client.readCount && !client.answers(n)
  {
    ghost var d := client.world.dir;
    var id := Resolved(es, cs, es[i].key);
    var held: seq<HeldRole> := [];
    if id.Some? {
      var read := client.ListRoles(id.value);
      if read.None? {
        assert !client.answers(client.readCount - 1);
        return None;
      }
      held := read.value;
    }
    var bs: seq<PlannedBinding> := [];
    for b := 0 to |es[i].roles|
      invariant client.readCount >= old(client.readCount)
      invariant |bs| == b && forall k :: 0 <= k < b ==> bs[k] == PlanBinding(es, cs, d, BindingRef(i, k))
    {
      var pb := PlanOne(es, cs, BindingRef(i, b), id, held, d);
      bs := bs + [pb];
    }
    assert bs == BindingsOn(es, cs, d, RefsOfSubject(i, |es[i].roles|));
    return Some(bs);
  }

  /** The bindings of one subject kind, in declaration order. */
  method PlanBindingsOfKind(client: Client, es: seq<Entity>, cs: seq<Change>, kind: Kind)
    returns (r: Option<seq<PlannedBinding>>)
    requires Refers(es, cs) && IsSubject(kind)
    modifies client`readCount
    ensures client.readCount >= old(client.readCount)
    ensures AllValid(es, RefsOfKind(es, kind, |es|))
    ensures r.Some? ==> r.value == BindingsOn(es, cs, client.world.dir, RefsOfKind(es, kind, |es|))
    ensures r.None? ==> exists n :: old(client.readCount) <= n < client.readCount && !client.answers(n)
  {
    RefsOfKindAreValid(es, kind, |es|);
    ghost var d := client.world.dir;
    var bs: seq<PlannedBinding> := [];
    for i := 0 to |es|
      invariant client.world.dir == d && client.readCount >= old(client.readCount)
      invariant AllValid(es, RefsOfKind(es, kind, i)) && bs == BindingsOn(es, cs, d, RefsOfKind(es, kind, i))
    {
      if es[i].kind != kind || |es[i].roles| == 0 {
        assert RefsOfKind(es, kind, i + 1) == RefsOfKind(es, kind, i);
        continue;
      }
      var more := PlanSubject(client, es, cs, i);
      if more.None? { return None; }
      BindingsAppend(es, cs, d, RefsOfKind(es, kind, i), RefsOfSubject(i, |es[i].roles|));
      bs := bs + more.value;
    }
    return Some(bs);
  }

  /** One binding against the subject's role list as read; a subject without an id has an empty one. */
  method PlanOne(es: seq<Entity>, cs: seq<Change>, ref: BindingRef, id: Option<Id>, held: seq<HeldRole>, ghost d: Directory)
    returns (pb: PlannedBinding)
    requires Refers(es, cs) && ValidRef(es, ref) && id == Resolved(es, cs, es[ref.subject].key)
    requires held == if id.Some? then ReadBindings(d, id.value) else []
    ensures pb == PlanBinding(es, cs, d, ref)
  {
    var rb := es[ref.subject].roles[ref.binding];
    var role := FindKey(es, rb.roleKey);
    var resource := ResolvedOption(es, cs, rb.resourceKey);
    var existing := if role.None? || es[role.value].name.None? then None else FindHeld(held, es[role.value].name.value);
    pb := DecideBinding(ref, rb, existing, resource);
  }
}
