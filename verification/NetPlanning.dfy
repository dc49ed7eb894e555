/** What a plan decides about the network namespace. */
module NetPlanning {
  import opened Basics
  import opened Manifest
  import opened Planning
  import opened Validate
  import opened Network
  import opened Applying
  import opened Sorting

  predicate MatchesSpec(read: Segment, spec: SegmentSpec) {
    read.site == spec.site && read.name == spec.name && KindToWire(read.kind) == spec.kind
  }

  /** The first segment under the spec's natural key. */
  function FindSegment(ss: seq<Segment>, spec: SegmentSpec, from: nat): (r: Option<nat>)
    requires from <= |ss|
    ensures r.Some? ==> from <= r.value < |ss| && MatchesSpec(ss[r.value], spec)
                        && forall j :: from <= j < r.value ==> !MatchesSpec(ss[j], spec)
    ensures r.None? ==> forall j :: from <= j < |ss| ==> !MatchesSpec(ss[j], spec)
    decreases |ss| - from
  {
    if from == |ss| then None else if MatchesSpec(ss[from], spec) then Some(from) else FindSegment(ss, spec, from + 1)
  }

  /** The segment a spec stands for, now. */
  function SegmentNow(t: NetState, spec: SegmentSpec): Option<Segment> {
    match FindSegment(t.segments, spec, 0) case None => None case Some(i) => Some(t.segments[i])
  }

  function ProfileOf(t: NetState, segment: Id): Option<Profile> {
    match ProfileAt(t.profiles, segment, 0) case None => None case Some(i) => Some(t.profiles[i].profile)
  }

  /** The profile stored for the segment a spec stands for, now. */
  function ProfileNow(t: NetState, spec: SegmentSpec): Option<Profile> {
    match SegmentNow(t, spec) case None => None case Some(s) => ProfileOf(t, s.id)
  }

  function PolicyItemFor(cap: int, t: NetState): NetItem {
    PolicyItem(if t.cap != cap then Update else Unchanged, cap, t.capVersion)
  }

  function SegmentItemFor(m: Manifest, s: nat, t: NetState): NetItem
    requires s < |m.segments|
  {
    var read := SegmentNow(t, m.segments[s]);
    SegmentItem(if read.None? then Create else if SegmentDiffers(m.segments[s], read.value) then Update else Unchanged,
                s, read, None)
  }

  function ProfileItemFor(m: Manifest, s: nat, p: nat, t: NetState): NetItem
    requires s < |m.segments| && p < |m.profiles|
  {
    var stored := ProfileNow(t, m.segments[s]);
    var held := if stored.None? then None else Some(Effective(stored.value, t.cap));
    ProfileItem(if held.None? then Create else if ProfileDiffers(m.profiles[p], held.value) then Update else Unchanged,
                s, p, SegmentNow(t, m.segments[s]), held)
  }

  function ProfileSpecFor(ps: seq<ProfileSpec>, key: string, from: nat): (r: Option<nat>)
    requires from <= |ps|
    ensures r.Some? ==> from <= r.value < |ps| && ps[r.value].segment == key
                        && forall j :: from <= j < r.value ==> ps[j].segment != key
    ensures r.None? ==> forall j :: from <= j < |ps| ==> ps[j].segment != key
    decreases |ps| - from
  {
    if from == |ps| then None else if ps[from].segment == key then Some(from) else ProfileSpecFor(ps, key, from + 1)
  }

  ghost predicate SegmentOrder(ss: seq<SegmentSpec>, ord: seq<nat>) {
    && Permutation(ord, |ss|)
    && forall a, b :: 0 <= a < b < |ord| ==> Before(ss[ord[a]].key, ss[ord[b]].key)
  }

  function SegmentItems(m: Manifest, ord: seq<nat>, t: NetState): (items: seq<NetItem>)
    requires forall k :: 0 <= k < |ord| ==> ord[k] < |m.segments|
    ensures |items| == |ord| && forall k :: 0 <= k < |ord| ==> items[k] == SegmentItemFor(m, ord[k], t)
  {
    seq(|ord|, k requires 0 <= k < |ord| => SegmentItemFor(m, ord[k], t))
  }

  ghost predicate PlannedProfile(m: Manifest, ord: seq<nat>, t: NetState, n: nat, item: NetItem)
    requires n <= |ord|
  {
    && item.ProfileItem? && item.spec < |m.segments| && item.profile < |m.profiles|
    && item == ProfileItemFor(m, item.spec, item.profile, t)
    && m.profiles[item.profile].segment == m.segments[item.spec].key
    && item.spec in ord[..n]
  }

  /** The profile items of the first n segments, in their segments' order. */
  function ProfileItems(m: Manifest, ord: seq<nat>, t: NetState, n: nat): (items: seq<NetItem>)
    requires n <= |ord| && forall k :: 0 <= k < |ord| ==> ord[k] < |m.segments|
    ensures forall j :: 0 <= j < |items| ==> PlannedProfile(m, ord, t, n, items[j])
    decreases n
  {
    if n == 0 then []
    else
      var rest := ProfileItems(m, ord, t, n - 1);
      assert forall j :: 0 <= j < |rest| && PlannedProfile(m, ord, t, n - 1, rest[j]) ==> PlannedProfile(m, ord, t, n, rest[j]) by {
        assert forall x :: x in ord[..n - 1] ==> x in ord[..n];
      }
      match ProfileSpecFor(m.profiles, m.segments[ord[n - 1]].key, 0)
      case None => rest
      case Some(p) =>
        assert ord[..n][n - 1] == ord[n - 1];
        rest + [ProfileItemFor(m, ord[n - 1], p, t)]
  }

  function PolicyItems(m: Manifest, t: NetState): seq<NetItem> {
    if m.policy.Some? then [PolicyItemFor(m.policy.value, t)] else []
  }

  /** The policy, then the segments in key order, then the profiles in their segments' order. */
  function NetworkItems(m: Manifest, ord: seq<nat>, t: NetState): seq<NetItem>
    requires forall k :: 0 <= k < |ord| ==> ord[k] < |m.segments|
  {
    PolicyItems(m, t) + SegmentItems(m, ord, t) + ProfileItems(m, ord, t, |ord|)
  }

  /** An update that would write a default over a value this client has no name for. */
  predicate Refused(m: Manifest, n: NetItem)
    requires ItemFits(m, n)
  {
    n.ProfileItem? && n.action == Update && WouldDropUnknown(m.profiles[n.profile], n.held.value)
  }

  // ----- The shape of the list -----

  /** Each segment and each profile once, the policy first, every profile after its segment. */
  ghost predicate Listed(m: Manifest, items: seq<NetItem>) {
    && (forall k :: 0 <= k < |items| ==> ItemFits(m, items[k]))
    && (forall k :: 0 <= k < |items| && items[k].PolicyItem? ==> k == 0)
    && (forall a, b :: 0 <= a < b < |items| ==> !SameObject(items[a], items[b]))
    && (forall b :: 0 <= b < |items| && items[b].ProfileItem? ==> SegmentBefore(items, b))
  }

  predicate SameObject(a: NetItem, b: NetItem) {
    (a.SegmentItem? && b.SegmentItem? && a.spec == b.spec) || (a.ProfileItem? && b.ProfileItem? && a.spec == b.spec)
  }

  ghost predicate SegmentBefore(items: seq<NetItem>, b: nat)
    requires b < |items| && items[b].ProfileItem?
  {
    exists a :: 0 <= a < b && items[a].SegmentItem? && items[a].spec == items[b].spec
  }

  ghost predicate NoneTwice(items: seq<NetItem>) {
    forall a, b :: 0 <= a < b < |items| ==> !SameObject(items[a], items[b])
  }

  /** The items so far are for earlier segments, so one for the next is none of them. */
  lemma NextProfileIsNew(m: Manifest, ord: seq<nat>, t: NetState, n: nat, rest: seq<NetItem>, x: NetItem)
    requires Permutation(ord, |m.segments|) && n < |ord| && x.ProfileItem? && x.spec == ord[n] && NoneTwice(rest)
    requires forall j :: 0 <= j < |rest| ==> PlannedProfile(m, ord, t, n, rest[j])
    ensures NoneTwice(rest + [x])
  {
    assert forall i :: 0 <= i < n ==> ord[..n][i] == ord[i] != ord[n];
    forall a | 0 <= a < |rest| ensures !SameObject(rest[a], x) {
      assert PlannedProfile(m, ord, t, n, rest[a]);
    }
  }

  lemma {:induction false} ProfileItemsDistinct(m: Manifest, ord: seq<nat>, t: NetState, n: nat)
    requires Permutation(ord, |m.segments|) && n <= |ord|
    ensures NoneTwice(ProfileItems(m, ord, t, n))
    decreases n
  {
    if n > 0 {
      ProfileItemsDistinct(m, ord, t, n - 1);
      var p := ProfileSpecFor(m.profiles, m.segments[ord[n - 1]].key, 0);
      if p.Some? {
        NextProfileIsNew(m, ord, t, n - 1, ProfileItems(m, ord, t, n - 1), ProfileItemFor(m, ord[n - 1], p.value, t));
      }
    }
  }

  /** Every declared profile is planned for its segment. */
  lemma {:induction false} ProfileIsPlanned(m: Manifest, ord: seq<nat>, t: NetState, n: nat, k: nat)
    requires n <= |ord| && (forall i :: 0 <= i < |ord| ==> ord[i] < |m.segments|) && k < n
    requires ProfileSpecFor(m.profiles, m.segments[ord[k]].key, 0).Some?
    ensures ProfileItemFor(m, ord[k], ProfileSpecFor(m.profiles, m.segments[ord[k]].key, 0).value, t) in ProfileItems(m, ord, t, n)
    decreases n
  {
    if k < n - 1 { ProfileIsPlanned(m, ord, t, n - 1, k); }
  }

  /** A profile is an update only when something was held, and then its segment was read. */
  lemma HeldHasSegment(m: Manifest, s: nat, p: nat, t: NetState)
    requires s < |m.segments| && p < |m.profiles|
    ensures ItemFits(m, ProfileItemFor(m, s, p, t)) && ItemFits(m, SegmentItemFor(m, s, t))
  {
  }

  /** Where an item of the list comes from. */
  ghost predicate PlacedAt(m: Manifest, ord: seq<nat>, t: NetState, k: nat, item: NetItem)
    requires Permutation(ord, |m.segments|) && k < |NetworkItems(m, ord, t)|
  {
    var a, b, c := PolicyItems(m, t), SegmentItems(m, ord, t), ProfileItems(m, ord, t, |ord|);
    if k < |a| then k == 0 && item == PolicyItemFor(m.policy.value, t)
    else if k < |a| + |b| then item == SegmentItemFor(m, ord[k - |a|], t)
    else item == c[k - |a| - |b|] && PlannedProfile(m, ord, t, |ord|, item)
  }

  lemma ItemIsPlaced(m: Manifest, ord: seq<nat>, t: NetState, k: nat)
    requires Permutation(ord, |m.segments|) && k < |NetworkItems(m, ord, t)|
    ensures PlacedAt(m, ord, t, k, NetworkItems(m, ord, t)[k])
  {
    var a, b, c := PolicyItems(m, t), SegmentItems(m, ord, t), ProfileItems(m, ord, t, |ord|);
    ConcatAt(a, b, c, k);
    if k >= |a| + |b| { assert PlannedProfile(m, ord, t, |ord|, c[k - |a| - |b|]); }
  }

  lemma PlacedFits(m: Manifest, ord: seq<nat>, t: NetState, k: nat, item: NetItem)
    requires Permutation(ord, |m.segments|) && k < |NetworkItems(m, ord, t)| && PlacedAt(m, ord, t, k, item)
    ensures ItemFits(m, item)
  {
    if item.ProfileItem? { HeldHasSegment(m, item.spec, item.profile, t); }
  }

  lemma ItemOfEach(m: Manifest, ord: seq<nat>, t: NetState, k: nat)
    requires Permutation(ord, |m.segments|) && k < |NetworkItems(m, ord, t)|
    ensures var a, b, c := PolicyItems(m, t), SegmentItems(m, ord, t), ProfileItems(m, ord, t, |ord|);
      var item := NetworkItems(m, ord, t)[k];
      && ItemFits(m, item)
      && if k < |a| then k == 0 && item == PolicyItemFor(m.policy.value, t)
         else if k < |a| + |b| then item == SegmentItemFor(m, ord[k - |a|], t)
         else item == c[k - |a| - |b|] && PlannedProfile(m, ord, t, |ord|, item)
  {
    ItemIsPlaced(m, ord, t, k);
    PlacedFits(m, ord, t, k, NetworkItems(m, ord, t)[k]);
  }

  lemma ConcatAt<T>(a: seq<T>, b: seq<T>, c: seq<T>, k: nat)
    requires k < |a + b + c|
    ensures (a + b + c)[k] == if k < |a| then a[k] else if k < |a| + |b| then b[k - |a|] else c[k - |a| - |b|]
  {
  }

  lemma ItemsDistinct(m: Manifest, ord: seq<nat>, t: NetState, x: nat, y: nat)
    requires Permutation(ord, |m.segments|) && x < y < |NetworkItems(m, ord, t)|
    requires NoneTwice(ProfileItems(m, ord, t, |ord|))
    ensures !SameObject(NetworkItems(m, ord, t)[x], NetworkItems(m, ord, t)[y])
  {
    ItemOfEach(m, ord, t, x);
    ItemOfEach(m, ord, t, y);
  }

  lemma SegmentComesBefore(m: Manifest, ord: seq<nat>, t: NetState, k: nat)
    requires Permutation(ord, |m.segments|) && k < |NetworkItems(m, ord, t)| && NetworkItems(m, ord, t)[k].ProfileItem?
    ensures SegmentBefore(NetworkItems(m, ord, t), k)
  {
    ItemOfEach(m, ord, t, k);
    var x :| 0 <= x < |ord| && ord[..|ord|][x] == NetworkItems(m, ord, t)[k].spec;
    ItemOfEach(m, ord, t, |PolicyItems(m, t)| + x);
  }

  lemma NetworkItemsAreListed(m: Manifest, ord: seq<nat>, t: NetState)
    requires Permutation(ord, |m.segments|)
    ensures Listed(m, NetworkItems(m, ord, t))
  {
    var items := NetworkItems(m, ord, t);
    ProfileItemsDistinct(m, ord, t, |ord|);
    forall k | 0 <= k < |items| ensures ItemFits(m, items[k]) && (items[k].PolicyItem? ==> k == 0) {
      ItemOfEach(m, ord, t, k);
    }
    forall x, y | 0 <= x < y < |items| ensures !SameObject(items[x], items[y]) {
      ItemsDistinct(m, ord, t, x, y);
    }
    forall k | 0 <= k < |items| && items[k].ProfileItem? ensures SegmentBefore(items, k) {
      SegmentComesBefore(m, ord, t, k);
    }
  }

  // ----- What the decisions mean -----

  /** A stored segment under the site, kind and name of the spec. */
  predicate Named(read: Segment, spec: SegmentSpec) {
    && read.site == spec.site && read.name == spec.name
    && ((read.kind == Access && spec.kind == "access") || (read.kind == Quarantine && spec.kind == "quarantine"))
  }

  ghost predicate FirstNamed(ss: seq<Segment>, spec: SegmentSpec, read: Segment) {
    exists i :: 0 <= i < |ss| && read == ss[i] && Named(ss[i], spec) && forall j :: 0 <= j < i ==> !Named(ss[j], spec)
  }

  /**
   * A policy needs nothing exactly when the cap is the declared one; a segment is created exactly when
   * none is stored under its site, kind and name, and otherwise the first stored is the one it stands
   * for and needs nothing exactly when writing the spec would leave it as it is.
   */
  lemma PolicyAndSegmentActions(m: Manifest, s: nat, t: NetState, cap: int)
    requires s < |m.segments| && WireKind(m.segments[s].kind)
    ensures PolicyItemFor(cap, t).action == (if t.cap == cap then Unchanged else Update)
    ensures var item := SegmentItemFor(m, s, t); var spec := m.segments[s];
      (item.action == Create <==> forall i :: 0 <= i < |t.segments| ==> !Named(t.segments[i], spec))
    ensures var item := SegmentItemFor(m, s, t); var spec := m.segments[s];
      item.action != Create ==> item.read.Some? && FirstNamed(t.segments, spec, item.read.value)
    ensures var item := SegmentItemFor(m, s, t); var spec := m.segments[s];
      item.read.Some? ==> (item.action == Unchanged <==> WritingKeeps(spec, item.read.value))
  {
    var spec := m.segments[s];
    assert forall i :: 0 <= i < |t.segments| ==> (MatchesSpec(t.segments[i], spec) <==> Named(t.segments[i], spec));
    var read := SegmentNow(t, spec);
    if read.Some? { DiffersIffReplaceChanges(spec, read.value); }
  }

  /**
   * A profile is created exactly when none is stored for its segment, if that is there at all; and
   * otherwise it needs nothing exactly when storing the spec would leave it as it is read.
   */
  lemma ProfileActions(m: Manifest, s: nat, p: nat, t: NetState, version: nat)
    requires s < |m.segments| && p < |m.profiles| && ProfileSendable(m.profiles[p])
    ensures var item := ProfileItemFor(m, s, p, t); var read := SegmentNow(t, m.segments[s]);
      && item.read == read
      && (item.action == Create <==> read.None? || forall i :: 0 <= i < |t.profiles| ==> t.profiles[i].segment != read.value.id)
    ensures var item := ProfileItemFor(m, s, p, t); var spec := m.profiles[p];
      && (item.action != Create <==> item.held.Some?)
      && (item.action == Unchanged
          <==> item.held.Some? && ProfileKept(spec, StoredProfile(FillProfile(spec, item.held), version), item.held.value))
  {
    var item := ProfileItemFor(m, s, p, t);
    if item.held.Some? { DiffersIffStoreChanges(m.profiles[p], item.held.value, version); }
  }
}
