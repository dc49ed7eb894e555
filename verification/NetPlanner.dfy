/**
 * plan_network() as it is written, with the ownership of what it reads: every segment and profile
 * read belongs to its page until a plan item takes it, and is freed exactly once on every path.
 */
module NetPlanner {
  import opened Basics
  import opened Manifest
  import opened Planning
  import opened Validate
  import opened Network
  import opened Wire
  import opened Applying
  import opened Sorting
  import opened NetPlanning
  import opened NetTracking

  // ----- Segments in key order -----

  function KeyOrder(ss: seq<SegmentSpec>): (nat, nat) -> bool {
    (a: nat, b: nat) => a < |ss| && b < |ss| && Before(ss[a].key, ss[b].key)
  }

  lemma KeyOrderIsStrict(ss: seq<SegmentSpec>, n: nat)
    requires n <= |ss| && forall i, j :: 0 <= i < j < |ss| ==> ss[i].key != ss[j].key
    ensures StrictOrder(KeyOrder(ss), n)
  {
    var less := KeyOrder(ss);
    forall a: nat, b: nat, c: nat | a < n && b < n && c < n && less(a, b) && less(b, c) ensures less(a, c) {
      BeforeTransitive(ss[a].key, ss[b].key, ss[c].key);
    }
    forall a: nat, b: nat | a < n && b < n && a != b ensures less(a, b) || less(b, a) {
      BeforeTotal(ss[a].key, ss[b].key);
      assert if a < b then ss[a].key != ss[b].key else ss[b].key != ss[a].key;
    }
  }

  /** order_segment_specs(): each spec inserted into the ones already placed. */
  method OrderSegments(ss: seq<SegmentSpec>, out: array<nat>)
    requires out.Length == |ss| && forall i, j :: 0 <= i < j < |ss| ==> ss[i].key != ss[j].key
    modifies out
    ensures SegmentOrder(ss, out[..])
  {
    ghost var less := KeyOrder(ss);
    for i := 0 to |ss|
      invariant Permutation(out[..i], i) && Sorted(less, out[..i], i)
    {
      InsertSegment(ss, out, i);
    }
    assert out[..] == out[..|ss|];
    assert forall a, b :: 0 <= a < b < out.Length ==> less(out[..][a], out[..][b]);
  }

  method InsertSegment(ss: seq<SegmentSpec>, out: array<nat>, i: nat)
    requires i < out.Length == |ss| && forall a, b :: 0 <= a < b < |ss| ==> ss[a].key != ss[b].key
    requires Permutation(out[..i], i) && Sorted(KeyOrder(ss), out[..i], i)
    modifies out
    ensures Permutation(out[..i + 1], i + 1) && Sorted(KeyOrder(ss), out[..i + 1], i + 1)
  {
    ghost var less := KeyOrder(ss);
    var j: nat := i;
    ghost var s: seq<nat> := out[..i + 1];
    assert s[..i] == out[..i];
    PermutationGrows(s, i, i);
    assert Sorted(less, s, i) by { assert forall a :: 0 <= a < i ==> s[a] == out[..i][a]; }
    SlideStarts(less, s, i, i);
    while j > 0
      invariant s == out[..i + 1] && Sliding(less, s, i, j, i)
    {
      assert s[j := i][j - 1] == out[j - 1] < i + 1;
      if !Before(ss[i].key, ss[out[j - 1]].key) { break; }
      SlideStep(less, s, i, j, i);
      out[j] := out[j - 1];
      s := s[j := s[j - 1]];
      j := j - 1;
    }
    KeyOrderIsStrict(ss, i + 1);
    SlideEnds(less, s, i, j, i);
    out[j] := i;
    assert out[..i + 1] == s[j := i];
  }

  // ----- Ownership -----

  /**
   * A planned object and the reads behind it, by their place in the page they came from.  A segment
   * item owns its segment; a profile item owns its profile and only borrows the segment.
   */
  datatype Taken = Taken(item: NetItem, segment: Option<nat>, profile: Option<nat>)

  /** A page frees what is still in its slots. */
  function PageFrees(slots: seq<bool>): multiset<nat> {
    multiset(set i | 0 <= i < |slots| && slots[i])
  }

  function One(x: Option<nat>): multiset<nat> {
    match x case None => multiset{} case Some(i) => multiset{i}
  }

  /** axiam_mgmt_plan_free(): the segments of segment items only, and every profile. */
  function PlanFreesSegments(items: seq<Taken>): multiset<nat> {
    if items == [] then multiset{}
    else
      var last := items[|items| - 1];
      PlanFreesSegments(items[..|items| - 1]) + (if last.item.SegmentItem? then One(last.segment) else multiset{})
  }

  function PlanFreesProfiles(items: seq<Taken>): multiset<nat> {
    if items == [] then multiset{}
    else PlanFreesProfiles(items[..|items| - 1]) + One(items[|items| - 1].profile)
  }

  /** Freeing the pages and the plan frees every read segment once and every read profile once. */
  ghost predicate FreedOnce(items: seq<Taken>, segSlots: seq<bool>, profSlots: seq<bool>) {
    && PageFrees(segSlots) + PlanFreesSegments(items) == PageFrees(Full(|segSlots|))
    && PageFrees(profSlots) + PlanFreesProfiles(items) == PageFrees(Full(|profSlots|))
  }

  function Full(n: nat): (s: seq<bool>)
    ensures |s| == n && forall i :: 0 <= i < n ==> s[i]
  {
    seq(n, _ => true)
  }

  function Take(slots: seq<bool>, k: Option<nat>): seq<bool>
    requires k.Some? ==> k.value < |slots|
  {
    match k case None => slots case Some(i) => slots[i := false]
  }

  lemma TakingMovesOwnership(slots: seq<bool>, k: Option<nat>)
    requires k.Some? ==> k.value < |slots| && slots[k.value]
    ensures PageFrees(Take(slots, k)) + One(k) == PageFrees(slots)
  {
    if k.Some? {
      var a, b := set i | 0 <= i < |slots| && slots[i], set i | 0 <= i < |slots| && Take(slots, k)[i];
      assert a == b + {k.value} && k.value !in b;
    }
  }

  lemma AppendFrees(items: seq<Taken>, x: Taken)
    ensures PlanFreesSegments(items + [x])
         == PlanFreesSegments(items) + (if x.item.SegmentItem? then One(x.segment) else multiset{})
    ensures PlanFreesProfiles(items + [x]) == PlanFreesProfiles(items) + One(x.profile)
  {
    assert (items + [x])[..|items|] == items;
  }

  /** Taking a segment for a segment item keeps the account. */
  lemma TakeForSegment(items: seq<Taken>, segSlots: seq<bool>, profSlots: seq<bool>, x: Taken)
    requires FreedOnce(items, segSlots, profSlots) && x.item.SegmentItem? && x.profile.None?
    requires x.segment.Some? ==> x.segment.value < |segSlots| && segSlots[x.segment.value]
    ensures FreedOnce(items + [x], Take(segSlots, x.segment), profSlots)
  {
    TakingMovesOwnership(segSlots, x.segment);
    AppendFrees(items, x);
  }

  /** Taking a profile, and borrowing a segment, keeps the account. */
  lemma TakeForProfile(items: seq<Taken>, segSlots: seq<bool>, profSlots: seq<bool>, x: Taken)
    requires FreedOnce(items, segSlots, profSlots) && !x.item.SegmentItem?
    requires x.profile.Some? ==> x.profile.value < |profSlots| && profSlots[x.profile.value]
    ensures FreedOnce(items + [x], segSlots, Take(profSlots, x.profile))
  {
    TakingMovesOwnership(profSlots, x.profile);
    AppendFrees(items, x);
  }

  // ----- The search of a page -----

  /** What a scan of the page finds: the first segment still in its slot that the spec stands for. */
  ghost predicate Matched(segs: seq<Segment>, slots: seq<bool>, spec: SegmentSpec, found: Option<nat>)
    requires |slots| == |segs|
  {
    && (found.Some? ==> found.value < |segs| && slots[found.value] && MatchesSpec(segs[found.value], spec))
    && forall k :: 0 <= k < found.GetOr(|segs|) ==> !(slots[k] && MatchesSpec(segs[k], spec))
  }

  method SearchSegments(segs: seq<Segment>, slots: seq<bool>, spec: SegmentSpec) returns (found: Option<nat>)
    requires |slots| == |segs|
    ensures Matched(segs, slots, spec, found)
  {
    for k := 0 to |segs|
      invariant forall l :: 0 <= l < k ==> !(slots[l] && MatchesSpec(segs[l], spec))
    {
      if slots[k] && MatchesSpec(segs[k], spec) { return Some(k); }
    }
    return None;
  }

  method SearchProfiles(profs: seq<ProfileRow>, slots: seq<bool>, segment: Id) returns (found: Option<nat>)
    requires |slots| == |profs|
    ensures found.Some? ==> found.value < |profs| && slots[found.value] && profs[found.value].segment == segment
                            && forall k :: 0 <= k < found.value ==> !(slots[k] && profs[k].segment == segment)
    ensures found.None? ==> forall k :: 0 <= k < |profs| ==> !(slots[k] && profs[k].segment == segment)
  {
    for k := 0 to |profs|
      invariant forall l :: 0 <= l < k ==> !(slots[l] && profs[l].segment == segment)
    {
      if slots[k] && profs[k].segment == segment { return Some(k); }
    }
    return None;
  }

  /** Every empty slot was taken for one of the first n specs. */
  ghost predicate TakenFor(m: Manifest, ord: seq<nat>, segs: seq<Segment>, slots: seq<bool>, n: nat)
    requires Permutation(ord, |m.segments|) && |slots| == |segs| && n <= |ord|
  {
    forall k :: 0 <= k < |segs| && !slots[k] ==> exists i :: 0 <= i < n && MatchesSpec(segs[k], m.segments[ord[i]])
  }

  /** So an empty slot never hides the segment of a later spec. */
  lemma SearchIsFindSegment(m: Manifest, ord: seq<nat>, segs: seq<Segment>, slots: seq<bool>, n: nat, found: Option<nat>)
    requires SegmentsAccepted(m.segments) && Permutation(ord, |m.segments|) && |slots| == |segs| && n < |ord|
    requires TakenFor(m, ord, segs, slots, n) && Matched(segs, slots, m.segments[ord[n]], found)
    ensures found == FindSegment(segs, m.segments[ord[n]], 0)
    ensures TakenFor(m, ord, segs, Take(slots, found), n + 1)
  {
    var spec := m.segments[ord[n]];
    forall k | 0 <= k < |segs| && !slots[k] ensures !MatchesSpec(segs[k], spec) {
      var i :| 0 <= i < n && MatchesSpec(segs[k], m.segments[ord[i]]);
      if MatchesSpec(segs[k], spec) { OneSpecMatches(m, segs[k], ord[i], ord[n]); }
    }
    if found.Some? { FindSegmentIs(segs, spec, found.value); }
  }

  // ----- The loops -----

  ghost predicate SegmentTaken(m: Manifest, ord: seq<nat>, t: NetState, k: nat, x: Taken)
    requires Permutation(ord, |m.segments|) && k < |ord|
  {
    && x.item == SegmentItemFor(m, ord[k], t) && x.profile.None?
    && x.segment == FindSegment(t.segments, m.segments[ord[k]], 0)
  }

  ghost predicate SegmentsTaken(m: Manifest, ord: seq<nat>, t: NetState, items: seq<Taken>, lo: nat)
    requires Permutation(ord, |m.segments|)
  {
    lo <= |items| <= lo + |ord| && forall j :: lo <= j < |items| ==> SegmentTaken(m, ord, t, j - lo, items[j])
  }

  lemma OneMoreTaken(m: Manifest, ord: seq<nat>, t: NetState, items: seq<Taken>, before: seq<Taken>, x: Taken)
    requires Permutation(ord, |m.segments|) && SegmentsTaken(m, ord, t, items, |before|) && items[..|before|] == before
    requires |items| < |before| + |ord| && SegmentTaken(m, ord, t, |items| - |before|, x)
    ensures SegmentsTaken(m, ord, t, items + [x], |before|) && (items + [x])[..|before|] == before
  {
  }

  /** The item of one segment spec, with the segment found for it. */
  function TakenSegment(m: Manifest, s: nat, segs: seq<Segment>, found: Option<nat>): Taken
    requires s < |m.segments| && (found.Some? ==> found.value < |segs|)
  {
    var read := if found.Some? then Some(segs[found.value]) else None;
    var action := if read.None? then Create else if SegmentDiffers(m.segments[s], read.value) then Update else Unchanged;
    Taken(SegmentItem(action, s, read, None), found, None)
  }

  lemma SegmentStep(m: Manifest, ord: seq<nat>, t: NetState, items: seq<Taken>, before: seq<Taken>, slots: seq<bool>,
                    profSlots: seq<bool>, i: nat, x: Taken)
    requires SegmentsAccepted(m.segments) && Permutation(ord, |m.segments|) && i < |ord| && |slots| == |t.segments|
    requires SegmentsTaken(m, ord, t, items, |before|) && items[..|before|] == before && |items| == |before| + i
    requires FreedOnce(items, slots, profSlots) && TakenFor(m, ord, t.segments, slots, i)
    requires Matched(t.segments, slots, m.segments[ord[i]], x.segment) && x == TakenSegment(m, ord[i], t.segments, x.segment)
    ensures SegmentsTaken(m, ord, t, items + [x], |before|) && (items + [x])[..|before|] == before
    ensures FreedOnce(items + [x], Take(slots, x.segment), profSlots)
    ensures TakenFor(m, ord, t.segments, Take(slots, x.segment), i + 1)
  {
    SearchIsFindSegment(m, ord, t.segments, slots, i, x.segment);
    OneMoreTaken(m, ord, t, items, before, x);
    TakeForSegment(items, slots, profSlots, x);
  }

  /** One item for each segment spec, in key order, each match taken from its page. */
  method TakeSegments(m: Manifest, ord: seq<nat>, segs: seq<Segment>, before: seq<Taken>, ghost t: NetState, ghost profSlots: seq<bool>)
    returns (items: seq<Taken>, slots: seq<bool>)
    requires SegmentsAccepted(m.segments) && Permutation(ord, |m.segments|) && segs == t.segments
    requires FreedOnce(before, Full(|segs|), profSlots)
    ensures |slots| == |segs| && |items| == |before| + |ord| && items[..|before|] == before
    ensures SegmentsTaken(m, ord, t, items, |before|)
    ensures FreedOnce(items, slots, profSlots)
  {
    items, slots := before, Full(|segs|);
    for i := 0 to |ord|
      invariant |slots| == |segs| && |items| == |before| + i && items[..|before|] == before
      invariant SegmentsTaken(m, ord, t, items, |before|)
      invariant FreedOnce(items, slots, profSlots) && TakenFor(m, ord, segs, slots, i)
    {
      var spec := m.segments[ord[i]];
      var found := SearchSegments(segs, slots, spec);
      var x := TakenSegment(m, ord[i], segs, found);
      SegmentStep(m, ord, t, items, before, slots, profSlots, i, x);
      slots := Take(slots, found);
      items := items + [x];
    }
  }

  /** Every empty profile slot was taken for the segment of one of the first n specs. */
  ghost predicate TakenForOwner(m: Manifest, ord: seq<nat>, t: NetState, profs: seq<ProfileRow>, slots: seq<bool>, n: nat)
    requires Permutation(ord, |m.segments|) && |slots| == |profs| && n <= |ord|
  {
    forall k :: 0 <= k < |profs| && !slots[k] ==>
      exists i :: 0 <= i < n && SegmentNow(t, m.segments[ord[i]]).Some? && SegmentNow(t, m.segments[ord[i]]).value.id == profs[k].segment
  }

  lemma SameProfileAt(a: seq<ProfileRow>, b: seq<ProfileRow>, segment: Id, from: nat)
    requires |a| == |b| && from <= |a| && forall i :: 0 <= i < |a| ==> a[i].segment == b[i].segment
    ensures ProfileAt(a, segment, from) == ProfileAt(b, segment, from)
    decreases |a| - from
  {
    if from < |a| { SameProfileAt(a, b, segment, from + 1); }
  }

  lemma SearchIsProfileAt(m: Manifest, ord: seq<nat>, t: NetState, profs: seq<ProfileRow>, slots: seq<bool>, n: nat, found: Option<nat>)
    requires SegmentsAccepted(m.segments) && Permutation(ord, |m.segments|) && NetWellFormed(t)
    requires |slots| == |profs| && n < |ord| && TakenForOwner(m, ord, t, profs, slots, n)
    requires SegmentNow(t, m.segments[ord[n]]).Some?
    requires var id := SegmentNow(t, m.segments[ord[n]]).value.id;
      if found.Some? then found.value < |profs| && profs[found.value].segment == id
                          && forall k :: 0 <= k < found.value ==> !(slots[k] && profs[k].segment == id)
      else forall k :: 0 <= k < |profs| ==> !(slots[k] && profs[k].segment == id)
    ensures found == ProfileAt(profs, SegmentNow(t, m.segments[ord[n]]).value.id, 0)
    ensures TakenForOwner(m, ord, t, profs, Take(slots, found), n + 1)
  {
    var id := SegmentNow(t, m.segments[ord[n]]).value.id;
    forall k | 0 <= k < |profs| && !slots[k] ensures profs[k].segment != id {
      var i :| 0 <= i < n && SegmentNow(t, m.segments[ord[i]]).Some? && SegmentNow(t, m.segments[ord[i]]).value.id == profs[k].segment;
      DifferentSegments(m, t, ord[i], ord[n]);
    }
    if found.Some? { ProfileAtIs(profs, id, found.value); }
  }

  /** A profile and its segment's item: the profile borrows the very segment that item owns. */
  ghost predicate Borrows(x: Taken, owner: Taken) {
    x.item.ProfileItem? && owner.item.SegmentItem? && x.item.spec == owner.item.spec && x.segment == owner.segment
    && x.item.read == owner.item.read
  }

  function ItemsOf(xs: seq<Taken>): (items: seq<NetItem>)
    ensures |items| == |xs| && forall k :: 0 <= k < |xs| ==> items[k] == xs[k].item
  {
    seq(|xs|, k requires 0 <= k < |xs| => xs[k].item)
  }

  /** A declared profile's item as a scan of the page makes it, the first match still in its slot held. */
  ghost predicate Picked(m: Manifest, s: nat, p: nat, owner: Taken, profs: seq<ProfileRow>, slots: seq<bool>, x: Taken)
    requires p < |m.profiles| && |slots| == |profs|
  {
    && Borrows(x, owner) && x.item.spec == s && x.item.profile == p
    && (owner.item.read.None? ==> x.profile.None?)
    && (x.profile.Some? ==> x.profile.value < |profs| && slots[x.profile.value]
                            && profs[x.profile.value].segment == owner.item.read.value.id)
    && (owner.item.read.Some? ==> (forall k :: 0 <= k < x.profile.GetOr(|profs|) ==>
          !(slots[k] && profs[k].segment == owner.item.read.value.id)))
    && x.item.held == (if x.profile.Some? then Some(profs[x.profile.value].profile) else None)
    && x.item.action == if x.item.held.None? then Create
                        else if ProfileDiffers(m.profiles[p], x.item.held.value) then Update else Unchanged
  }

  method PickProfile(m: Manifest, s: nat, p: nat, owner: Taken, profs: seq<ProfileRow>, slots: seq<bool>)
    returns (x: Taken)
    requires s < |m.segments| && p < |m.profiles| && owner.item.SegmentItem? && owner.item.spec == s && |slots| == |profs|
    ensures Picked(m, s, p, owner, profs, slots, x)
  {
    var found: Option<nat> := None;
    if owner.item.read.Some? { found := SearchProfiles(profs, slots, owner.item.read.value.id); }
    var held := if found.Some? then Some(profs[found.value].profile) else None;
    var action := if held.None? then Create else if ProfileDiffers(m.profiles[p], held.value) then Update else Unchanged;
    x := Taken(ProfileItem(action, s, p, owner.item.read, held), owner.segment, found);
  }

  /** Profiles taken earlier never hide the one being looked for. */
  lemma PickedIsPlanned(m: Manifest, ord: seq<nat>, t: NetState, slots: seq<bool>, n: nat, p: nat, owner: Taken, x: Taken)
    requires SegmentsAccepted(m.segments) && Permutation(ord, |m.segments|) && NetWellFormed(t)
    requires n < |ord| && p < |m.profiles| && |slots| == |t.profiles|
    requires SegmentTaken(m, ord, t, n, owner) && TakenForOwner(m, ord, t, ReadProfiles(t), slots, n)
    requires Picked(m, ord[n], p, owner, ReadProfiles(t), slots, x)
    ensures x.item == ProfileItemFor(m, ord[n], p, t)
    ensures TakenForOwner(m, ord, t, ReadProfiles(t), Take(slots, x.profile), n + 1)
  {
    if SegmentNow(t, m.segments[ord[n]]).Some? {
      SearchIsProfileAt(m, ord, t, ReadProfiles(t), slots, n, x.profile);
      SameProfileAt(ReadProfiles(t), t.profiles, SegmentNow(t, m.segments[ord[n]]).value.id, 0);
    }
  }

  lemma TakenEarlier(m: Manifest, ord: seq<nat>, t: NetState, profs: seq<ProfileRow>, slots: seq<bool>, n: nat)
    requires Permutation(ord, |m.segments|) && |slots| == |profs| && n < |ord|
    requires TakenForOwner(m, ord, t, profs, slots, n)
    ensures TakenForOwner(m, ord, t, profs, slots, n + 1)
  {
  }

  ghost predicate AllBorrow(items: seq<Taken>, lo: nat) {
    forall j :: lo <= j < |items| ==> exists a :: 0 <= a < lo && Borrows(items[j], items[a])
  }

  /** The items from `lo` on are the profile items of the first n segments. */
  ghost predicate ProfilesAre(m: Manifest, ord: seq<nat>, t: NetState, items: seq<Taken>, lo: nat, n: nat)
    requires Permutation(ord, |m.segments|) && n <= |ord| && lo <= |items|
  {
    ItemsOf(items[lo..]) == ProfileItems(m, ord, t, n)
  }

  lemma OneMoreProfile(m: Manifest, ord: seq<nat>, t: NetState, items: seq<Taken>, lo: nat, n: nat, p: nat, x: Taken)
    requires Permutation(ord, |m.segments|) && n < |ord| && lo <= |items| && ProfilesAre(m, ord, t, items, lo, n)
    requires ProfileSpecFor(m.profiles, m.segments[ord[n]].key, 0) == Some(p) && x.item == ProfileItemFor(m, ord[n], p, t)
    ensures ProfilesAre(m, ord, t, items + [x], lo, n + 1)
  {
    assert (items + [x])[lo..] == items[lo..] + [x];
    assert ItemsOf(items[lo..] + [x]) == ItemsOf(items[lo..]) + [x.item];
  }

  /** The profile of the k-th segment in key order is declared, and its update would drop an unknown value. */
  ghost predicate RefusedFor(m: Manifest, ord: seq<nat>, t: NetState, k: nat)
    requires Permutation(ord, |m.segments|) && k < |ord|
  {
    var p := ProfileSpecFor(m.profiles, m.segments[ord[k]].key, 0);
    p.Some? && Refused(m, ProfileItemFor(m, ord[k], p.value, t))
  }

  ghost predicate NoneRefused(m: Manifest, ord: seq<nat>, t: NetState, n: nat)
    requires Permutation(ord, |m.segments|) && n <= |ord|
  {
    forall k :: 0 <= k < n ==> !RefusedFor(m, ord, t, k)
  }

  /** On a well-formed server the first n profiles are the planned ones, and only they left their slots. */
  ghost predicate AsPlanned(m: Manifest, ord: seq<nat>, t: NetState, profs: seq<ProfileRow>, slots: seq<bool>,
                            items: seq<Taken>, lo: nat, n: nat)
    requires Permutation(ord, |m.segments|) && n <= |ord| && lo <= |items| && |slots| == |profs|
  {
    NetWellFormed(t) ==> ProfilesAre(m, ord, t, items, lo, n) && (m.profiles != [] ==> TakenForOwner(m, ord, t, profs, slots, n))
  }

  lemma PickAdvances(m: Manifest, ord: seq<nat>, t: NetState, profs: seq<ProfileRow>, slots: seq<bool>,
                     items: seq<Taken>, lo: nat, n: nat, p: nat, owner: Taken, x: Taken)
    requires SegmentsAccepted(m.segments) && Permutation(ord, |m.segments|) && n < |ord| && lo <= |items|
    requires |slots| == |profs| && profs == ReadProfiles(t) && SegmentTaken(m, ord, t, n, owner)
    requires ProfileSpecFor(m.profiles, m.segments[ord[n]].key, 0) == Some(p)
    requires AsPlanned(m, ord, t, profs, slots, items, lo, n) && Picked(m, ord[n], p, owner, profs, slots, x)
    ensures AsPlanned(m, ord, t, profs, Take(slots, x.profile), items + [x], lo, n + 1)
    ensures NetWellFormed(t) ==> (RefusedFor(m, ord, t, n) <==> LosesUnknown(m, p, x))
  {
    if NetWellFormed(t) {
      PickedIsPlanned(m, ord, t, slots, n, p, owner, x);
      OneMoreProfile(m, ord, t, items, lo, n, p, x);
    }
  }

  lemma NoProfileAdvances(m: Manifest, ord: seq<nat>, t: NetState, profs: seq<ProfileRow>, slots: seq<bool>,
                          items: seq<Taken>, lo: nat, n: nat)
    requires Permutation(ord, |m.segments|) && n < |ord| && lo <= |items| && |slots| == |profs|
    requires ProfileSpecFor(m.profiles, m.segments[ord[n]].key, 0).None?
    requires AsPlanned(m, ord, t, profs, slots, items, lo, n)
    ensures AsPlanned(m, ord, t, profs, slots, items, lo, n + 1) && !RefusedFor(m, ord, t, n)
  {
    if NetWellFormed(t) && m.profiles != [] { TakenEarlier(m, ord, t, profs, slots, n); }
  }

  predicate LosesUnknown(m: Manifest, p: nat, x: Taken)
    requires p < |m.profiles| && x.item.ProfileItem? && (x.item.action == Update ==> x.item.held.Some?)
  {
    x.item.action == Update && WouldDropUnknown(m.profiles[p], x.item.held.value)
  }

  lemma BorrowAppends(items: seq<Taken>, before: seq<Taken>, x: Taken, a: nat)
    requires |before| <= |items| && items[..|before|] == before && AllBorrow(items, |before|)
    requires a < |before| && Borrows(x, before[a])
    ensures (items + [x])[..|before|] == before && AllBorrow(items + [x], |before|)
  {
    var more := items + [x];
    assert forall i :: 0 <= i < |before| ==> more[i] == items[..|before|][i];
    forall j | |before| <= j < |more| ensures exists b :: 0 <= b < |before| && Borrows(more[j], more[b]) {
      if j == |items| {
        assert Borrows(more[j], more[a]);
      } else {
        var b :| 0 <= b < |before| && Borrows(items[j], items[b]);
        assert Borrows(more[j], more[b]);
      }
    }
  }

  lemma OwnerIsTaken(m: Manifest, ord: seq<nat>, t: NetState, before: seq<Taken>, first: nat, i: nat)
    requires Permutation(ord, |m.segments|) && i < |ord| && first + |ord| == |before| && SegmentsTaken(m, ord, t, before, first)
    ensures SegmentTaken(m, ord, t, i, before[first + i])
  {
  }

  lemma ProfileStep(m: Manifest, ord: seq<nat>, t: NetState, profs: seq<ProfileRow>, segSlots: seq<bool>, slots: seq<bool>,
                    items: seq<Taken>, before: seq<Taken>, first: nat, i: nat, p: nat, x: Taken)
    requires SegmentsAccepted(m.segments) && Permutation(ord, |m.segments|) && i < |ord| && |slots| == |profs| && profs == ReadProfiles(t)
    requires first + |ord| == |before| && SegmentTaken(m, ord, t, i, before[first + i])
    requires |before| <= |items| && items[..|before|] == before && AllBorrow(items, |before|) && FreedOnce(items, segSlots, slots)
    requires ProfileSpecFor(m.profiles, m.segments[ord[i]].key, 0) == Some(p)
    requires AsPlanned(m, ord, t, profs, slots, items, |before|, i) && Picked(m, ord[i], p, before[first + i], profs, slots, x)
    ensures FreedOnce(items + [x], segSlots, Take(slots, x.profile))
    ensures (items + [x])[..|before|] == before && AllBorrow(items + [x], |before|)
    ensures AsPlanned(m, ord, t, profs, Take(slots, x.profile), items + [x], |before|, i + 1)
    ensures NetWellFormed(t) ==> (RefusedFor(m, ord, t, i) <==> LosesUnknown(m, p, x))
  {
    PickAdvances(m, ord, t, profs, slots, items, |before|, i, p, before[first + i], x);
    TakeForProfile(items, segSlots, slots, x);
    BorrowAppends(items, before, x, first + i);
  }

  /**
   * One item for each declared profile, in the segments' order.  An update that would drop an
   * unknown value stops it, with that item already in the plan and its profile already taken.
   */
  method TakeProfiles(m: Manifest, ord: seq<nat>, profs: seq<ProfileRow>, before: seq<Taken>, first: nat,
                      ghost t: NetState, ghost segSlots: seq<bool>)
    returns (items: seq<Taken>, slots: seq<bool>, refused: Option<nat>)
    requires SegmentsAccepted(m.segments) && Permutation(ord, |m.segments|)
    requires profs == ReadProfiles(t) || m.profiles == []
    requires first + |ord| == |before| && SegmentsTaken(m, ord, t, before, first)
    requires FreedOnce(before, segSlots, Full(|profs|))
    ensures |slots| == |profs| && FreedOnce(items, segSlots, slots)
    ensures |before| <= |items| && items[..|before|] == before && AllBorrow(items, |before|)
    ensures NetWellFormed(t) && refused.None? ==> ProfilesAre(m, ord, t, items, |before|, |ord|) && NoneRefused(m, ord, t, |ord|)
    ensures refused.Some? ==> refused.value < |ord| && (NetWellFormed(t) ==> RefusedFor(m, ord, t, refused.value))
  {
    items, slots, refused := before, Full(|profs|), None;
    for i := 0 to |ord|
      invariant |slots| == |profs| && FreedOnce(items, segSlots, slots)
      invariant |before| <= |items| && items[..|before|] == before && AllBorrow(items, |before|)
      invariant AsPlanned(m, ord, t, profs, slots, items, |before|, i)
      invariant NetWellFormed(t) ==> NoneRefused(m, ord, t, i)
    {
      var p := ProfileSpecFor(m.profiles, m.segments[ord[i]].key, 0);
      if p.None? {
        NoProfileAdvances(m, ord, t, profs, slots, items, |before|, i);
        continue;
      }
      OwnerIsTaken(m, ord, t, before, first, i);
      var x := PickProfile(m, ord[i], p.value, before[first + i], profs, slots);
      ProfileStep(m, ord, t, profs, segSlots, slots, items, before, first, i, p.value, x);
      slots := Take(slots, x.profile);
      items := items + [x];
      if LosesUnknown(m, p.value, x) { return items, slots, Some(i); }
    }
  }

  // ----- plan_network() -----

  datatype NetPlan = PlannedNetwork | UnknownMember(k: nat) | NetReadFailed | NoMemory

  /** Borrowing holds of the whole list: a profile item's segment is owned by an earlier segment item. */
  ghost predicate EveryProfileBorrows(items: seq<Taken>) {
    forall j :: 0 <= j < |items| && items[j].item.ProfileItem? ==> exists a :: 0 <= a < j && Borrows(items[j], items[a])
  }

  lemma LaterItemsBorrow(items: seq<Taken>, before: seq<Taken>)
    requires |before| <= |items| && items[..|before|] == before && AllBorrow(items, |before|)
    requires forall j :: 0 <= j < |before| ==> !before[j].item.ProfileItem?
    ensures EveryProfileBorrows(items)
  {
    assert forall j :: 0 <= j < |before| ==> items[j] == items[..|before|][j];
    forall j | 0 <= j < |items| && items[j].item.ProfileItem? ensures exists a :: 0 <= a < j && Borrows(items[j], items[a]) {
      var a :| 0 <= a < |before| && Borrows(items[j], items[a]);
    }
  }

  lemma AllPlanned(m: Manifest, ord: seq<nat>, t: NetState, items: seq<Taken>, before: seq<Taken>, head: seq<Taken>)
    requires Permutation(ord, |m.segments|) && ItemsOf(head) == PolicyItems(m, t)
    requires |before| == |head| + |ord| && before[..|head|] == head
    requires SegmentsTaken(m, ord, t, before, |head|)
    requires |before| <= |items| && items[..|before|] == before && ProfilesAre(m, ord, t, items, |before|, |ord|)
    ensures ItemsOf(items) == NetworkItems(m, ord, t)
  {
    var a, b, c := PolicyItems(m, t), SegmentItems(m, ord, t), ProfileItems(m, ord, t, |ord|);
    forall k | 0 <= k < |before| ensures items[k].item == (a + b)[k] {
      assert items[k] == items[..|before|][k];
      if k < |head| { assert before[k] == before[..|head|][k] && ItemsOf(head)[k] == a[k]; } else { assert SegmentTaken(m, ord, t, k - |head|, before[k]); }
    }
    assert ItemsOf(items[|before|..]) == c;
    forall k | |before| <= k < |items| ensures items[k].item == c[k - |before|] {
      assert items[k] == items[|before|..][k - |before|];
    }
    assert ItemsOf(items) == a + b + c;
  }

  /** A plan is refused exactly when one of its items would write a default over an unknown value. */
  lemma NoneRefusedListed(m: Manifest, ord: seq<nat>, t: NetState)
    requires Permutation(ord, |m.segments|)
    ensures NoneRefused(m, ord, t, |ord|)
      <==> forall k :: 0 <= k < |NetworkItems(m, ord, t)| ==> FitsAndStands(m, NetworkItems(m, ord, t)[k])
  {
    if NoneRefused(m, ord, t, |ord|) {
      forall k | 0 <= k < |NetworkItems(m, ord, t)| ensures FitsAndStands(m, NetworkItems(m, ord, t)[k]) {
        ItemStands(m, ord, t, k);
      }
    } else {
      var k :| 0 <= k < |ord| && RefusedFor(m, ord, t, k);
      var at := RefusedIsListed(m, ord, t, k);
    }
  }

  lemma ItemStands(m: Manifest, ord: seq<nat>, t: NetState, k: nat)
    requires Permutation(ord, |m.segments|) && NoneRefused(m, ord, t, |ord|) && k < |NetworkItems(m, ord, t)|
    ensures FitsAndStands(m, NetworkItems(m, ord, t)[k])
  {
    var item := NetworkItems(m, ord, t)[k];
    ItemOfEach(m, ord, t, k);
    if item.ProfileItem? {
      ProfileItemsCome(m, ord, t, |ord|, item);
      var q :| 0 <= q < |ord| && ProfileMadeFor(m, ord, t, q, item);
      assert !RefusedFor(m, ord, t, q);
    }
  }

  lemma RefusedIsListed(m: Manifest, ord: seq<nat>, t: NetState, k: nat) returns (at: nat)
    requires Permutation(ord, |m.segments|) && k < |ord| && RefusedFor(m, ord, t, k)
    ensures at < |NetworkItems(m, ord, t)| && !FitsAndStands(m, NetworkItems(m, ord, t)[at])
  {
    ProfileIsPlanned(m, ord, t, |ord|, k);
    at := ProfileIsListed(m, ord, t, ProfileItemFor(m, ord[k], ProfileSpecFor(m.profiles, m.segments[ord[k]].key, 0).value, t));
  }

  lemma ProfileIsListed(m: Manifest, ord: seq<nat>, t: NetState, item: NetItem) returns (at: nat)
    requires Permutation(ord, |m.segments|) && item in ProfileItems(m, ord, t, |ord|)
    ensures at < |NetworkItems(m, ord, t)| && NetworkItems(m, ord, t)[at] == item
  {
    at := LaterPartHolds(PolicyItems(m, t) + SegmentItems(m, ord, t), ProfileItems(m, ord, t, |ord|), item);
  }

  lemma LaterPartHolds(a: seq<NetItem>, b: seq<NetItem>, item: NetItem) returns (at: nat)
    requires item in b
    ensures at < |a + b| && (a + b)[at] == item
  {
    var i :| 0 <= i < |b| && b[i] == item;
    at := |a| + i;
  }

  predicate FitsAndStands(m: Manifest, n: NetItem) {
    ItemFits(m, n) && !Refused(m, n)
  }

  /** Every profile item was made for some segment in order. */
  lemma {:induction false} ProfileItemsCome(m: Manifest, ord: seq<nat>, t: NetState, n: nat, item: NetItem)
    requires Permutation(ord, |m.segments|) && n <= |ord| && item in ProfileItems(m, ord, t, n)
    ensures exists k :: 0 <= k < n && ProfileMadeFor(m, ord, t, k, item)
    decreases n
  {
    if n > 0 && item in ProfileItems(m, ord, t, n - 1) {
      ProfileItemsCome(m, ord, t, n - 1, item);
    } else {
      assert ProfileMadeFor(m, ord, t, n - 1, item);
    }
  }

  ghost predicate ProfileMadeFor(m: Manifest, ord: seq<nat>, t: NetState, k: nat, item: NetItem)
    requires Permutation(ord, |m.segments|) && k < |ord|
  {
    var p := ProfileSpecFor(m.profiles, m.segments[ord[k]].key, 0);
    p.Some? && item == ProfileItemFor(m, ord[k], p.value, t)
  }

  /** Which read asks for the segments: the one after the policy's, if there is a policy. */
  function SegmentsAt(m: Manifest, from: nat): nat {
    if m.policy.Some? then from + 1 else from
  }

  /** The policy's item, when the manifest has one. */
  method PlanPolicy(client: Client, m: Manifest) returns (items: seq<Taken>, ok: bool)
    modifies client`readCount
    ensures client.readCount == SegmentsAt(m, old(client.readCount))
    ensures ok ==> ItemsOf(items) == PolicyItems(m, client.world.net)
    ensures !ok ==> exists n :: old(client.readCount) <= n < client.readCount && !client.answers(n)
    ensures FreedOnce(items, [], []) && forall j :: 0 <= j < |items| ==> items[j].item.PolicyItem?
  {
    items, ok := [], true;
    if m.policy.Some? {
      var read := client.GetPolicy();
      if read.None? {
        assert !client.answers(client.readCount - 1);
        return [], false;
      }
      items := [Taken(PolicyItem(if read.value.0 != m.policy.value then Update else Unchanged, m.policy.value, read.value.1), None, None)];
      TakeForProfile([], [], [], items[0]);
      assert items == [] + [items[0]];
    }
  }

  /** An item that owns nothing leaves every account where it was. */
  lemma NothingOwnedYet(items: seq<Taken>, n: nat, p: nat)
    requires FreedOnce(items, [], [])
    ensures FreedOnce(items, Full(n), Full(p))
  {
    assert PageFrees([]) == multiset{};
    assert PageFrees(Full(0)) == multiset{} by { assert Full(0) == []; }
  }

  /** What freeing after a planning run finds: the items, and what is left in the two pages read. */
  datatype Freed = Freed(items: seq<Taken>, segSlots: seq<bool>, profSlots: seq<bool>)

  /** The segments, if any are declared, are asked for first, and the profiles, if any are, right after. */
  ghost predicate SegmentsCame(m: Manifest, answers: nat -> bool, at: nat, upTo: nat) {
    m.segments != [] && at < upTo && answers(at)
  }

  ghost predicate ProfilesCame(m: Manifest, answers: nat -> bool, at: nat, upTo: nat) {
    SegmentsCame(m, answers, at, upTo) && m.profiles != [] && at + 1 < upTo && answers(at + 1)
  }

  /** The pages that reads number `from` up to `upTo` brought. */
  ghost predicate SegmentsRead(m: Manifest, answers: nat -> bool, from: nat, upTo: nat) {
    SegmentsCame(m, answers, SegmentsAt(m, from), upTo)
  }

  ghost predicate ProfilesRead(m: Manifest, answers: nat -> bool, from: nat, upTo: nat) {
    ProfilesCame(m, answers, SegmentsAt(m, from), upTo)
  }

  /** Every object of every page read is accounted for, and freed once. */
  ghost predicate Released(m: Manifest, t: NetState, f: Freed, segsRead: bool, profsRead: bool) {
    && FreedOnce(f.items, f.segSlots, f.profSlots) && EveryProfileBorrows(f.items)
    && |f.segSlots| == (if segsRead then |t.segments| else 0) && |f.profSlots| == (if profsRead then |t.profiles| else 0)
  }

  lemma NoProfileYet(m: Manifest, ord: seq<nat>, t: NetState, head: seq<Taken>, before: seq<Taken>)
    requires Permutation(ord, |m.segments|) && |before| == |head| + |ord| && before[..|head|] == head
    requires forall j :: 0 <= j < |head| ==> head[j].item.PolicyItem?
    requires SegmentsTaken(m, ord, t, before, |head|)
    ensures forall j :: 0 <= j < |before| ==> !before[j].item.ProfileItem?
  {
    forall j | 0 <= j < |before| ensures !before[j].item.ProfileItem? {
      if j < |head| { assert before[j] == before[..|head|][j]; }
    }
  }

  /** The segments, then the profiles, once their pages are read. */
  method PlanPages(m: Manifest, ord: seq<nat>, head: seq<Taken>, segs: seq<Segment>, profs: seq<ProfileRow>, ghost t: NetState)
    returns (refused: Option<nat>, f: Freed)
    requires SegmentsAccepted(m.segments) && Permutation(ord, |m.segments|) && segs == t.segments
    requires profs == if m.profiles == [] then [] else ReadProfiles(t)
    requires FreedOnce(head, [], []) && ItemsOf(head) == PolicyItems(m, t)
    requires forall j :: 0 <= j < |head| ==> head[j].item.PolicyItem?
    ensures Released(m, t, f, true, m.profiles != [])
    ensures NetWellFormed(t) && refused.None? ==> ItemsOf(f.items) == NetworkItems(m, ord, t) && NoneRefused(m, ord, t, |ord|)
    ensures refused.Some? ==> refused.value < |ord| && (NetWellFormed(t) ==> RefusedFor(m, ord, t, refused.value))
  {
    NothingOwnedYet(head, |segs|, |profs|);
    var before, segSlots := TakeSegments(m, ord, segs, head, t, Full(|profs|));
    var items, profSlots;
    items, profSlots, refused := TakeProfiles(m, ord, profs, before, |head|, t, segSlots);
    NoProfileYet(m, ord, t, head, before);
    LaterItemsBorrow(items, before);
    if NetWellFormed(t) && refused.None? { AllPlanned(m, ord, t, items, before, head); }
    f := Freed(items, segSlots, profSlots);
  }

  lemma NothingPlanned(m: Manifest, ord: seq<nat>, t: NetState)
    requires SegmentOrder(m.segments, ord) && m.policy.None? && m.segments == []
    ensures ItemsOf([]) == NetworkItems(m, ord, t) && NoneRefused(m, ord, t, |ord|) && Released(m, t, Freed([], [], []), false, false)
  {
    NothingReleased(m, t, []);
  }

  lemma NothingReleased(m: Manifest, t: NetState, head: seq<Taken>)
    requires head == [] || FreedOnce(head, [], [])
    requires forall j :: 0 <= j < |head| ==> head[j].item.PolicyItem?
    ensures Released(m, t, Freed(head, [], []), false, false)
  {
    assert Full(0) == [];
  }

  /** The segments and profiles, once there is room for the items. */
  method PlanObjects(client: Client, m: Manifest, ord: seq<nat>, head: seq<Taken>, memory: nat -> bool) returns (r: NetPlan, f: Freed)
    requires SegmentsAccepted(m.segments) && Permutation(ord, |m.segments|) && m.segments != []
    requires FreedOnce(head, [], []) && ItemsOf(head) == PolicyItems(m, client.world.net)
    requires forall j :: 0 <= j < |head| ==> head[j].item.PolicyItem?
    modifies client`readCount
    ensures old(client.readCount) < client.readCount <= old(client.readCount) + 2
    ensures Released(m, client.world.net, f, SegmentsCame(m, client.answers, old(client.readCount), client.readCount),
                     ProfilesCame(m, client.answers, old(client.readCount), client.readCount))
    ensures r.NetReadFailed? ==> !client.answers(client.readCount - 1)
    ensures r.PlannedNetwork? && NetWellFormed(client.world.net)
      ==> ItemsOf(f.items) == NetworkItems(m, ord, client.world.net) && NoneRefused(m, ord, client.world.net, |ord|)
    ensures r.UnknownMember? ==> r.k < |ord| && (NetWellFormed(client.world.net) ==> RefusedFor(m, ord, client.world.net, r.k))
    ensures r.NoMemory? ==> !memory(1)
  {
    ghost var t := client.world.net;
    var segs := client.ListSegments();
    if segs.None? {
      NothingReleased(m, t, head);
      return NetReadFailed, Freed(head, [], []);
    }
    var profs: seq<ProfileRow> := [];
    if m.profiles != [] {
      var read := client.ListProfiles();
      if read.None? {
        PagesReleased(m, t, head, |segs.value|, 0);
        return NetReadFailed, Freed(head, Full(|segs.value|), []);
      }
      profs := read.value;
    }
    if !memory(1) {
      PagesReleased(m, t, head, |segs.value|, |profs|);
      return NoMemory, Freed(head, Full(|segs.value|), Full(|profs|));
    }
    var refused;
    refused, f := PlanPages(m, ord, head, segs.value, profs, t);
    r := if refused.Some? then UnknownMember(refused.value) else PlannedNetwork;
  }

  lemma PagesReleased(m: Manifest, t: NetState, head: seq<Taken>, n: nat, p: nat)
    requires FreedOnce(head, [], []) && (forall j :: 0 <= j < |head| ==> head[j].item.PolicyItem?)
    requires n == |t.segments| && (p == 0 || p == |t.profiles|)
    ensures FreedOnce(head, Full(n), Full(p)) && EveryProfileBorrows(head)
    ensures Full(0) == []
  {
    NothingOwnedYet(head, n, p);
  }

  /** The policy, then the rest, once there is room for the items. */
  method PlanStated(client: Client, m: Manifest, ord: seq<nat>, memory: nat -> bool) returns (r: NetPlan, f: Freed)
    requires SegmentsAccepted(m.segments) && SegmentOrder(m.segments, ord)
    modifies client`readCount
    ensures old(client.readCount) <= client.readCount <= old(client.readCount) + 3
    ensures Released(m, client.world.net, f, SegmentsRead(m, client.answers, old(client.readCount), client.readCount),
                     ProfilesRead(m, client.answers, old(client.readCount), client.readCount))
    ensures r.PlannedNetwork? && NetWellFormed(client.world.net)
      ==> ItemsOf(f.items) == NetworkItems(m, ord, client.world.net) && NoneRefused(m, ord, client.world.net, |ord|)
    ensures r.UnknownMember? ==> r.k < |ord| && (NetWellFormed(client.world.net) ==> RefusedFor(m, ord, client.world.net, r.k))
    ensures r.NetReadFailed? ==> old(client.readCount) < client.readCount && !client.answers(client.readCount - 1)
    ensures r.NoMemory? ==> !memory(1)
  {
    var head, ok := PlanPolicy(client, m);
    NothingReleased(m, client.world.net, head);
    if !ok { return NetReadFailed, Freed(head, [], []); }
    if m.segments == [] {
      PolicyAlone(m, ord, client.world.net);
      return PlannedNetwork, Freed(head, [], []);
    }
    r, f := PlanObjects(client, m, ord, head, memory);
  }

  lemma PolicyAlone(m: Manifest, ord: seq<nat>, t: NetState)
    requires SegmentOrder(m.segments, ord) && m.segments == []
    ensures NetworkItems(m, ord, t) == PolicyItems(m, t) && NoneRefused(m, ord, t, |ord|)
  {
  }

  /**
   * plan_network(): reads only, and one owner for everything read, whatever stops it: a failed read, a
   * refusal, or either of its allocations.
   */
  method PlanNetwork(client: Client, m: Manifest, ord: seq<nat>, memory: nat -> bool) returns (r: NetPlan, f: Freed)
    requires SegmentsAccepted(m.segments) && ProfilesAccepted(m.segments, m.profiles) && SegmentOrder(m.segments, ord)
    modifies client`readCount
    ensures old(client.readCount) <= client.readCount <= old(client.readCount) + 3
    ensures Released(m, client.world.net, f, SegmentsRead(m, client.answers, old(client.readCount), client.readCount),
                     ProfilesRead(m, client.answers, old(client.readCount), client.readCount))
    ensures r.PlannedNetwork? && NetWellFormed(client.world.net)
      ==> ItemsOf(f.items) == NetworkItems(m, ord, client.world.net) && NoneRefused(m, ord, client.world.net, |ord|)
    ensures r.UnknownMember? ==> r.k < |ord| && (NetWellFormed(client.world.net) ==> RefusedFor(m, ord, client.world.net, r.k))
    ensures r.NetReadFailed? ==> old(client.readCount) < client.readCount && !client.answers(client.readCount - 1)
    ensures r.NoMemory? ==> !memory(0) || !memory(1)
  {
    if m.policy.None? && m.segments == [] && m.profiles == [] {
      NothingPlanned(m, ord, client.world.net);
      return PlannedNetwork, Freed([], [], []);
    }
    if !memory(0) {
      NothingReleased(m, client.world.net, []);
      return NoMemory, Freed([], [], []);
    }
    r, f := PlanStated(client, m, ord, memory);
  }
}
