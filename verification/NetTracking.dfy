/** What every network phase keeps, and what a plan made after it says. */
module NetTracking {
  import opened Basics
  import opened Manifest
  import opened Planning
  import opened Validate
  import opened Network
  import opened Applying
  import opened NetPlanning

  ghost predicate NetWellFormed(t: NetState) {
    && (forall i :: 0 <= i < |t.segments| ==> t.segments[i].id < t.nextId)
    && (forall i, j :: 0 <= i < j < |t.segments| ==> t.segments[i].id != t.segments[j].id)
    && (forall i :: 0 <= i < |t.profiles| ==> t.profiles[i].segment < t.nextId)
  }

  // ----- Single writes -----

  /** Nothing moved but, at most, what one spec stands for. */
  ghost predicate OthersKept(m: Manifest, t: NetState, t': NetState, s: nat) {
    forall o :: 0 <= o < |m.segments| && o != s ==>
      SegmentNow(t', m.segments[o]) == SegmentNow(t, m.segments[o])
      && ProfileNow(t', m.segments[o]) == ProfileNow(t, m.segments[o])
  }

  lemma OneSpecMatches(m: Manifest, x: Segment, a: nat, b: nat)
    requires SegmentsAccepted(m.segments) && a < |m.segments| && b < |m.segments|
    requires MatchesSpec(x, m.segments[a]) && MatchesSpec(x, m.segments[b])
    ensures a == b
  {
    assert SameSegment(m.segments[a], m.segments[b]);
  }

  lemma FindSegmentIs(ss: seq<Segment>, spec: SegmentSpec, i: nat)
    requires i < |ss| && MatchesSpec(ss[i], spec) && forall j :: 0 <= j < i ==> !MatchesSpec(ss[j], spec)
    ensures FindSegment(ss, spec, 0) == Some(i)
  {
    var r := FindSegment(ss, spec, 0);
    assert r.Some?;
    assert !(r.value < i);
  }

  lemma AppendKeeps(t: NetState, x: Segment, spec: SegmentSpec)
    requires !MatchesSpec(x, spec)
    ensures SegmentNow(t.(segments := t.segments + [x]), spec) == SegmentNow(t, spec)
  {
    var r := FindSegment(t.segments, spec, 0);
    if r.Some? { FindSegmentIs(t.segments + [x], spec, r.value); }
  }

  /** The created segment is the one the spec stands for, and has no profile yet. */
  lemma SegmentCreated(t: NetState, spec: SegmentSpec)
    requires WireKind(spec.kind) && NetWellFormed(t) && SegmentNow(t, spec).None?
    ensures NetPermits(t, CreateSegmentCall(spec))
    ensures var t' := NetEffect(t, CreateSegmentCall(spec));
      && NetWellFormed(t') && t'.cap == t.cap && t'.capVersion == t.capVersion
      && SegmentNow(t', spec).Some? && !SegmentDiffers(spec, SegmentNow(t', spec).value)
      && SegmentNow(t', spec).value.id == t.nextId && SegmentNow(t', spec).value.version == 1
      && ProfileNow(t', spec).None?
  {
    CreatedSegmentConverges(spec, t);
    var t' := NetEffect(t, CreateSegmentCall(spec));
    assert t'.segments == t.segments + [t'.segments[|t.segments|]];
    FindSegmentIs(t'.segments, spec, |t.segments|);
  }

  lemma CreateMovesNoOther(m: Manifest, t: NetState, s: nat)
    requires SegmentsAccepted(m.segments) && s < |m.segments|
    ensures NetPermits(t, CreateSegmentCall(m.segments[s])) && OthersKept(m, t, NetEffect(t, CreateSegmentCall(m.segments[s])), s)
  {
    CreatedSegmentConverges(m.segments[s], t);
    var t' := NetEffect(t, CreateSegmentCall(m.segments[s]));
    var x := t'.segments[|t.segments|];
    assert t'.segments == t.segments + [x];
    forall o | 0 <= o < |m.segments| && o != s ensures SegmentNow(t', m.segments[o]) == SegmentNow(t, m.segments[o]) {
      if MatchesSpec(x, m.segments[o]) { OneSpecMatches(m, x, o, s); }
      AppendKeeps(t, x, m.segments[o]);
    }
  }

  lemma CreateSegmentMoves(m: Manifest, t: NetState, s: nat)
    requires SegmentsAccepted(m.segments) && NetWellFormed(t) && s < |m.segments| && SegmentNow(t, m.segments[s]).None?
    ensures var spec := m.segments[s];
      && NetPermits(t, CreateSegmentCall(spec))
      && var t' := NetEffect(t, CreateSegmentCall(spec));
         && NetWellFormed(t') && OthersKept(m, t, t', s) && t'.cap == t.cap && t'.capVersion == t.capVersion
         && SegmentNow(t', spec).Some? && !SegmentDiffers(spec, SegmentNow(t', spec).value)
         && SegmentNow(t', spec).value.id == t.nextId && SegmentNow(t', spec).value.version == 1
         && ProfileNow(t', spec).None?
  {
    SegmentCreated(t, m.segments[s]);
    CreateMovesNoOther(m, t, s);
  }

  lemma ReplaceKeeps(ss: seq<Segment>, at: nat, x: Segment, spec: SegmentSpec)
    requires at < |ss| && MatchesSpec(x, spec) == MatchesSpec(ss[at], spec)
    ensures FindSegment(ss[at := x], spec, 0) == FindSegment(ss, spec, 0)
  {
    var r := FindSegment(ss, spec, 0);
    if r.Some? { FindSegmentIs(ss[at := x], spec, r.value); }
  }

  lemma FoundById(t: NetState, i: nat)
    requires NetWellFormed(t) && i < |t.segments|
    ensures SegmentAt(t.segments, t.segments[i].id) == Some(i)
  {
  }

  lemma ReplaceSegmentMoves(m: Manifest, t: NetState, s: nat, read: Segment)
    requires SegmentsAccepted(m.segments) && NetWellFormed(t) && s < |m.segments|
    requires SegmentNow(t, m.segments[s]) == Some(read)
    ensures var spec := m.segments[s]; var c := ReplaceSegmentCall(spec, read);
      && NetPermits(t, c)
      && var t' := NetEffect(t, c); var x := ReplacedSegment(read, c);
         && NetWellFormed(t') && OthersKept(m, t, t', s) && t'.cap == t.cap && t'.capVersion == t.capVersion
         && SegmentNow(t', spec) == Some(x) && !SegmentDiffers(spec, x) && x.id == read.id && x.version == read.version + 1
         && ProfileNow(t', spec) == ProfileNow(t, spec)
  {
    var spec := m.segments[s];
    var c := ReplaceSegmentCall(spec, read);
    var at := FindSegment(t.segments, spec, 0).value;
    FoundById(t, at);
    ReplacedSegmentConverges(spec, read);
    var x := ReplacedSegment(read, c);
    var t' := NetEffect(t, c);
    assert t'.segments == t.segments[at := x];
    forall o | 0 <= o < |m.segments|
      ensures FindSegment(t'.segments, m.segments[o], 0) == FindSegment(t.segments, m.segments[o], 0)
      ensures o != s ==> SegmentNow(t', m.segments[o]) == SegmentNow(t, m.segments[o])
    {
      ReplaceKeeps(t.segments, at, x, m.segments[o]);
      if FindSegment(t.segments, m.segments[o], 0) == Some(at) { OneSpecMatches(m, read, o, s); }
    }
  }

  lemma DifferentSegments(m: Manifest, t: NetState, a: nat, b: nat)
    requires SegmentsAccepted(m.segments) && NetWellFormed(t) && a < |m.segments| && b < |m.segments| && a != b
    requires SegmentNow(t, m.segments[a]).Some? && SegmentNow(t, m.segments[b]).Some?
    ensures SegmentNow(t, m.segments[a]).value.id != SegmentNow(t, m.segments[b]).value.id
  {
    var i, j := FindSegment(t.segments, m.segments[a], 0).value, FindSegment(t.segments, m.segments[b], 0).value;
    if i == j { OneSpecMatches(m, t.segments[i], a, b); }
  }

  lemma ProfileAtIs(ps: seq<ProfileRow>, segment: Id, i: nat)
    requires i < |ps| && ps[i].segment == segment && forall j :: 0 <= j < i ==> ps[j].segment != segment
    ensures ProfileAt(ps, segment, 0) == Some(i)
  {
    var r := ProfileAt(ps, segment, 0);
    assert r.Some?;
    assert !(r.value < i);
  }

  /** A profile write, create or replace, puts one stored profile under one segment. */
  lemma ProfileWriteMoves(t: NetState, c: NetCall, other: Id)
    requires (c.CreateProfile? || c.ReplaceProfile?) && NetPermits(t, c)
    ensures var t' := NetEffect(t, c);
      && t'.segments == t.segments && t'.cap == t.cap && t'.capVersion == t.capVersion && t'.nextId == t.nextId
      && ProfileOf(t', c.segment) == Some(StoredProfile(c.input, if c.CreateProfile? then 1 else c.version + 1))
      && (other != c.segment ==> ProfileOf(t', other) == ProfileOf(t, other))
  {
    var t' := NetEffect(t, c);
    var r := ProfileAt(t.profiles, other, 0);
    if c.CreateProfile? {
      ProfileAtIs(t'.profiles, c.segment, |t.profiles|);
    } else {
      ProfileAtIs(t'.profiles, c.segment, ProfileAt(t.profiles, c.segment, 0).value);
    }
    if other != c.segment && r.Some? { ProfileAtIs(t'.profiles, other, r.value); }
  }

  lemma ProfileWriteKeepsWellFormed(t: NetState, c: NetCall)
    requires (c.CreateProfile? || c.ReplaceProfile?) && NetPermits(t, c) && NetWellFormed(t)
    ensures NetWellFormed(NetEffect(t, c))
  {
  }

  lemma WriteProfileMoves(m: Manifest, t: NetState, s: nat, c: NetCall)
    requires SegmentsAccepted(m.segments) && NetWellFormed(t) && s < |m.segments| && SegmentNow(t, m.segments[s]).Some?
    requires (c.CreateProfile? || c.ReplaceProfile?) && NetPermits(t, c) && c.segment == SegmentNow(t, m.segments[s]).value.id
    ensures var t' := NetEffect(t, c);
      && NetWellFormed(t') && OthersKept(m, t, t', s) && t'.cap == t.cap && t'.capVersion == t.capVersion
      && SegmentNow(t', m.segments[s]) == SegmentNow(t, m.segments[s])
      && ProfileNow(t', m.segments[s]) == Some(StoredProfile(c.input, if c.CreateProfile? then 1 else c.version + 1))
  {
    ProfileWriteMoves(t, c, 0);
    ProfileWriteKeepsWellFormed(t, c);
    forall o | 0 <= o < |m.segments| && o != s
      ensures ProfileNow(NetEffect(t, c), m.segments[o]) == ProfileNow(t, m.segments[o])
    {
      if SegmentNow(t, m.segments[o]).Some? {
        DifferentSegments(m, t, o, s);
        ProfileWriteMoves(t, c, SegmentNow(t, m.segments[o]).value.id);
      }
    }
  }

  // ----- The invariant of the phase -----

  /** A segment item that has been carried out, and what its profile will be sent. */
  ghost predicate SegmentDone(m: Manifest, item: NetItem, t: NetState)
    requires item.SegmentItem? && ItemFits(m, item)
  {
    var spec, now := m.segments[item.spec], SegmentNow(t, m.segments[item.spec]);
    && now.Some? && !SegmentDiffers(spec, now.value)
    && (item.applied.Some? ==> item.applied == Some((now.value.id, now.value.version)))
    && (item.applied.None? && item.read.Some? ==> item.read.value.id == now.value.id)
    && (item.action == Unchanged ==> item.applied.None? && item.read == now)
  }

  ghost predicate ProfileWritten(m: Manifest, item: NetItem, t: NetState)
    requires item.ProfileItem? && ItemFits(m, item)
  {
    var spec, now := m.profiles[item.profile], ProfileNow(t, m.segments[item.spec]);
    now.Some? && spec.timeout <= t.cap && !ProfileDiffers(spec, now.value)
  }

  /** What holds of one item, carried out or not. */
  ghost predicate ItemOnTrack(m: Manifest, t0: NetState, t: NetState, planned: NetItem, now: NetItem, done: bool)
    requires ItemFits(m, planned) && ItemFits(m, now)
  {
    match planned
    case PolicyItem(action, cap, version) =>
      now == planned && (if done then t.cap == cap else t.cap == t0.cap && t.capVersion == version)
    case SegmentItem(_, spec, read, _) =>
      && now.SegmentItem? && now.(applied := planned.applied) == planned
      && (if done then SegmentDone(m, now, t)
          else now == planned && planned.applied.None? && SegmentNow(t, m.segments[spec]) == read)
    case ProfileItem(action, spec, profile, _, _) =>
      && now == planned
      && (if done && action != Unchanged then ProfileWritten(m, planned, t)
          else ProfileNow(t, m.segments[spec]) == ProfileNow(t0, m.segments[spec]))
  }

  ghost predicate NoPolicy(items: seq<NetItem>) {
    forall k :: 0 <= k < |items| ==> !items[k].PolicyItem?
  }

  /** The item a plan on t0 makes. */
  predicate PlannedFrom(m: Manifest, item: NetItem, t0: NetState)
    requires ItemFits(m, item)
  {
    match item
    case PolicyItem(_, cap, _) => item == PolicyItemFor(cap, t0)
    case SegmentItem(_, spec, _, _) => item == SegmentItemFor(m, spec, t0)
    case ProfileItem(_, spec, profile, _, _) => item == ProfileItemFor(m, spec, profile, t0)
  }

  ghost predicate NetOnTrack(m: Manifest, t0: NetState, items: seq<NetItem>, now: seq<NetItem>, t: NetState, n: nat) {
    && NetWellFormed(t) && Listed(m, items) && |now| == |items| && n <= |items|
    && (forall k :: 0 <= k < |items| ==>
          ItemFits(m, items[k]) && PlannedFrom(m, items[k], t0)
          && ItemFits(m, now[k]) && ItemOnTrack(m, t0, t, items[k], now[k], k < n))
    && (NoPolicy(items) ==> t.cap == t0.cap)
  }

  /** What a write does to the cap: nothing, unless it is the policy's own. */
  lemma ItemUnmoved(m: Manifest, t0: NetState, t: NetState, t': NetState, planned: NetItem, now: NetItem, done: bool, s: nat)
    requires ItemFits(m, planned) && ItemFits(m, now) && ItemOnTrack(m, t0, t, planned, now, done)
    requires OthersKept(m, t, t', s) && t'.cap == t.cap && t'.capVersion == t.capVersion
    requires !planned.PolicyItem? ==> planned.spec != s
    ensures ItemOnTrack(m, t0, t', planned, now, done)
  {
  }

  /** A profile item is untouched when its own segment is written, as long as what is stored stays. */
  lemma ProfileItemUnmoved(m: Manifest, t0: NetState, t: NetState, t': NetState, planned: NetItem, now: NetItem, done: bool)
    requires planned.ProfileItem? && ItemFits(m, planned) && ItemFits(m, now) && ItemOnTrack(m, t0, t, planned, now, done)
    requires ProfileNow(t', m.segments[planned.spec]) == ProfileNow(t, m.segments[planned.spec]) && t'.cap == t.cap
    ensures ItemOnTrack(m, t0, t', planned, now, done)
  {
  }

  /** A segment item is untouched when only its profile is written. */
  lemma SegmentItemUnmoved(m: Manifest, t0: NetState, t: NetState, t': NetState, planned: NetItem, now: NetItem, done: bool)
    requires planned.SegmentItem? && ItemFits(m, planned) && ItemFits(m, now) && ItemOnTrack(m, t0, t, planned, now, done)
    requires SegmentNow(t', m.segments[planned.spec]) == SegmentNow(t, m.segments[planned.spec])
    ensures ItemOnTrack(m, t0, t', planned, now, done)
  {
  }

  // ----- One item -----

  /** The item of a profile's segment has been carried out by the time the profile is. */
  lemma OwnerIsDone(m: Manifest, t0: NetState, items: seq<NetItem>, now: seq<NetItem>, t: NetState, n: nat) returns (a: nat)
    requires NetOnTrack(m, t0, items, now, t, n) && n < |items| && items[n].ProfileItem?
    ensures a < n && now[a].SegmentItem? && now[a].spec == items[n].spec && SegmentDone(m, now[a], t)
    ensures items[a].SegmentItem? && items[a].spec == items[n].spec
    ensures SegmentItemOf(now, items[n].spec, 0) == Some(a)
  {
    assert SegmentBefore(items, n);
    a :| 0 <= a < n && items[a].SegmentItem? && items[a].spec == items[n].spec;
    assert ItemOnTrack(m, t0, t, items[a], now[a], true);
    var b := SegmentItemOf(now, items[n].spec, 0);
    assert b.Some? && b.value <= a;
    assert ItemOnTrack(m, t0, t, items[b.value], now[b.value], b.value < n);
    OneItemEach(m, items, b.value, a);
  }

  lemma OneItemEach(m: Manifest, items: seq<NetItem>, i: nat, j: nat)
    requires Listed(m, items) && i <= j < |items| && SameObject(items[i], items[j])
    ensures i == j
  {
  }

  lemma UnchangedItemAdvances(m: Manifest, t0: NetState, items: seq<NetItem>, now: seq<NetItem>, t: NetState, n: nat)
    requires NetOnTrack(m, t0, items, now, t, n) && n < |items| && now[n].action == Unchanged
    ensures NetOnTrack(m, t0, items, now, t, n + 1)
  {
    assert ItemOnTrack(m, t0, t, items[n], now[n], false);
    assert PlannedFrom(m, items[n], t0);
    forall k | 0 <= k < |items| && k != n ensures ItemOnTrack(m, t0, t, items[k], now[k], k < n + 1) {
      assert ItemOnTrack(m, t0, t, items[k], now[k], k < n);
    }
  }

  lemma PolicyItemAdvances(m: Manifest, t0: NetState, items: seq<NetItem>, now: seq<NetItem>, t: NetState, n: nat)
    requires NetOnTrack(m, t0, items, now, t, n) && n < |items| && now[n].PolicyItem?
    ensures var c := ReplacePolicy(now[n].cap, now[n].version);
      NetPermits(t, c) && NetOnTrack(m, t0, items, now, NetEffect(t, c), n + 1)
  {
    assert ItemOnTrack(m, t0, t, items[n], now[n], false);
    var t' := NetEffect(t, ReplacePolicy(now[n].cap, now[n].version));
    assert t'.segments == t.segments && t'.profiles == t.profiles;
    forall k | 0 <= k < |items| ensures ItemOnTrack(m, t0, t', items[k], now[k], k < n + 1) {
      assert ItemOnTrack(m, t0, t, items[k], now[k], k < n);
    }
  }

  /** After a segment write, everything but that segment's own item stands as it did. */
  lemma SegmentItemAdvances(m: Manifest, t0: NetState, items: seq<NetItem>, now: seq<NetItem>, t: NetState, n: nat,
                            t': NetState, item: NetItem)
    requires NetOnTrack(m, t0, items, now, t, n) && n < |items| && now[n].SegmentItem?
    requires ItemFits(m, item) && item.SegmentItem? && item.(applied := items[n].applied) == items[n] && SegmentDone(m, item, t')
    requires NetWellFormed(t') && OthersKept(m, t, t', now[n].spec) && t'.cap == t.cap && t'.capVersion == t.capVersion
    requires ProfileNow(t', m.segments[now[n].spec]) == ProfileNow(t, m.segments[now[n].spec])
    ensures NetOnTrack(m, t0, items, now[n := item], t', n + 1)
  {
    assert ItemOnTrack(m, t0, t, items[n], now[n], false);
    var now' := now[n := item];
    forall k | 0 <= k < |items| && k != n ensures ItemOnTrack(m, t0, t', items[k], now'[k], k < n + 1) {
      assert ItemOnTrack(m, t0, t, items[k], now[k], k < n);
      if items[k].ProfileItem? && items[k].spec == now[n].spec {
        ProfileItemUnmoved(m, t0, t, t', items[k], now[k], k < n);
      } else {
        assert k < n ==> !SameObject(items[k], items[n]);
        assert n < k ==> !SameObject(items[n], items[k]);
        ItemUnmoved(m, t0, t, t', items[k], now[k], k < n, now[n].spec);
      }
    }
  }

  lemma ProfileItemAdvances(m: Manifest, t0: NetState, items: seq<NetItem>, now: seq<NetItem>, t: NetState, n: nat, t': NetState)
    requires NetOnTrack(m, t0, items, now, t, n) && n < |items| && now[n].ProfileItem? && now[n].action != Unchanged
    requires NetWellFormed(t') && OthersKept(m, t, t', now[n].spec) && t'.cap == t.cap && t'.capVersion == t.capVersion
    requires SegmentNow(t', m.segments[now[n].spec]) == SegmentNow(t, m.segments[now[n].spec])
    requires ProfileWritten(m, now[n], t')
    ensures NetOnTrack(m, t0, items, now, t', n + 1)
  {
    assert ItemOnTrack(m, t0, t, items[n], now[n], false);
    forall k | 0 <= k < |items| && k != n ensures ItemOnTrack(m, t0, t', items[k], now[k], k < n + 1) {
      assert ItemOnTrack(m, t0, t, items[k], now[k], k < n);
      if items[k].SegmentItem? && items[k].spec == now[n].spec {
        SegmentItemUnmoved(m, t0, t, t', items[k], now[k], k < n);
      } else {
        assert k < n ==> !SameObject(items[k], items[n]);
        assert n < k ==> !SameObject(items[n], items[k]);
        ItemUnmoved(m, t0, t, t', items[k], now[k], k < n, now[n].spec);
      }
    }
  }
}
