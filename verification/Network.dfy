/** The `network` namespace: the server's side, what a plan decides, and the bodies a write sends. */
module Network {
  import opened Basics
  import opened Manifest
  import opened Validate

  // ----- Values as decoded -----

  datatype SegmentKind = Access | Quarantine | OtherKind

  function KindToWire(k: SegmentKind): string {
    match k case Access => "access" case Quarantine => "quarantine" case OtherKind => ""
  }

  function KindFromWire(text: string): SegmentKind {
    if text == "access" then Access else if text == "quarantine" then Quarantine else OtherKind
  }

  datatype Termination = DefaultAction | RadiusRequest | OtherTermination

  function TerminationToWire(t: Termination): string {
    match t case DefaultAction => "default" case RadiusRequest => "radius_request" case OtherTermination => ""
  }

  function TerminationFromWire(text: string): Termination {
    if text == "default" then DefaultAction else if text == "radius_request" then RadiusRequest else OtherTermination
  }

  datatype ServiceType = FramedUser | OtherServiceType

  function ServiceToWire(s: ServiceType): string {
    match s case FramedUser => "framed_user" case OtherServiceType => ""
  }

  function ServiceFromWire(text: string): ServiceType {
    if text == "framed_user" then FramedUser else OtherServiceType
  }

  datatype Segment = Segment(
    id: Id, site: string, kind: SegmentKind, name: string,
    vlan: int, rank: Option<int>, filterIds: seq<string>, enabled: bool, version: nat)

  datatype Profile = Profile(
    timeout: int, dictionary: string, termination: Termination, idle: Option<int>,
    filterId: Option<string>, serviceType: Option<ServiceType>, version: nat)

  /** The body of a profile write; None is a member left out. */
  datatype ProfileInput = ProfileInput(
    timeout: int, dictionary: Option<string>, termination: Option<Termination>, idle: Option<int>,
    filterId: Option<string>, serviceType: Option<ServiceType>)

  // ----- The server -----

  datatype ProfileRow = ProfileRow(segment: Id, profile: Profile)

  datatype NetState = NetState(
    cap: int, capVersion: nat, segments: seq<Segment>, profiles: seq<ProfileRow>, nextId: Id)

  function SegmentAt(ss: seq<Segment>, id: Id): (r: Option<nat>)
    ensures r.Some? ==> r.value < |ss| && ss[r.value].id == id && forall j :: 0 <= j < r.value ==> ss[j].id != id
    ensures r.None? ==> forall i :: 0 <= i < |ss| ==> ss[i].id != id
  {
    SegmentAtFrom(ss, id, 0)
  }

  function SegmentAtFrom(ss: seq<Segment>, id: Id, from: nat): (r: Option<nat>)
    requires from <= |ss|
    ensures r.Some? ==> from <= r.value < |ss| && ss[r.value].id == id
                        && forall j :: from <= j < r.value ==> ss[j].id != id
    ensures r.None? ==> forall i :: from <= i < |ss| ==> ss[i].id != id
    decreases |ss| - from
  {
    if from == |ss| then None else if ss[from].id == id then Some(from) else SegmentAtFrom(ss, id, from + 1)
  }

  /** The first profile listed for a segment. */
  function ProfileAt(ps: seq<ProfileRow>, segment: Id, from: nat): (r: Option<nat>)
    requires from <= |ps|
    ensures r.Some? ==> from <= r.value < |ps| && ps[r.value].segment == segment
                        && forall j :: from <= j < r.value ==> ps[j].segment != segment
    ensures r.None? ==> forall i :: from <= i < |ps| ==> ps[i].segment != segment
    decreases |ps| - from
  {
    if from == |ps| then None
    else if ps[from].segment == segment then Some(from)
    else ProfileAt(ps, segment, from + 1)
  }

  datatype NetCall =
    | ReplacePolicy(cap: int, version: nat)
    | CreateSegment(kind: SegmentKind, site: string, name: string, vlan: int, rank: Option<int>,
                    sentFilterIds: Option<seq<string>>, sentEnabled: Option<bool>)
    | ReplaceSegment(id: Id, version: nat, vlan: int, rank: Option<int>, filterIds: seq<string>, enabled: bool)
    | CreateProfile(segment: Id, segmentVersion: nat, input: ProfileInput)
    | ReplaceProfile(segment: Id, version: nat, segmentVersion: nat, input: ProfileInput)

  predicate SegmentIsAt(t: NetState, segment: Id, version: nat) {
    var at := SegmentAt(t.segments, segment);
    at.Some? && t.segments[at.value].version == version
  }

  /** Every conditional write must carry the current versions, and no timeout may pass the cap. */
  predicate NetPermits(t: NetState, c: NetCall) {
    match c
    case ReplacePolicy(_, version) => version == t.capVersion
    case CreateSegment(_, _, _, _, _, _, _) => true
    case ReplaceSegment(id, version, _, _, _, _) => SegmentIsAt(t, id, version)
    case CreateProfile(segment, segmentVersion, input) =>
      && SegmentIsAt(t, segment, segmentVersion)
      && ProfileAt(t.profiles, segment, 0).None? && input.timeout <= t.cap
    case ReplaceProfile(segment, version, segmentVersion, input) =>
      && SegmentIsAt(t, segment, segmentVersion)
      && (var at := ProfileAt(t.profiles, segment, 0); at.Some? && t.profiles[at.value].profile.version == version)
      && input.timeout <= t.cap
  }

  const DEFAULT_DICTIONARY := "axiam-radius-reply/1"

  function StoredProfile(input: ProfileInput, version: nat): Profile {
    Profile(input.timeout, input.dictionary.GetOr(DEFAULT_DICTIONARY), input.termination.GetOr(RadiusRequest),
            input.idle, input.filterId, input.serviceType, version)
  }

  function ReplacedSegment(s: Segment, c: NetCall): Segment
    requires c.ReplaceSegment?
  {
    s.(vlan := c.vlan, rank := c.rank, filterIds := c.filterIds, enabled := c.enabled, version := s.version + 1)
  }

  function NetEffect(t: NetState, c: NetCall): NetState
    requires NetPermits(t, c)
  {
    match c
    case ReplacePolicy(cap, _) => t.(cap := cap, capVersion := t.capVersion + 1)
    case CreateSegment(kind, site, name, vlan, rank, filterIds, enabled) =>
      var s := Segment(t.nextId, site, kind, name, vlan, rank, filterIds.GetOr([]), enabled.GetOr(true), 1);
      t.(segments := t.segments + [s], nextId := t.nextId + 1)
    case ReplaceSegment(id, _, _, _, _, _) =>
      var at := SegmentAt(t.segments, id).value;
      t.(segments := t.segments[at := ReplacedSegment(t.segments[at], c)])
    case CreateProfile(segment, _, input) =>
      t.(profiles := t.profiles + [ProfileRow(segment, StoredProfile(input, 1))])
    case ReplaceProfile(segment, version, _, input) =>
      var at := ProfileAt(t.profiles, segment, 0).value;
      t.(profiles := t.profiles[at := ProfileRow(segment, StoredProfile(input, version + 1))])
  }

  /** A profile is read with its timeout clamped to the cap. */
  function Effective(p: Profile, cap: int): Profile {
    p.(timeout := if p.timeout <= cap then p.timeout else cap)
  }

  // ----- Drift -----

  predicate Contains(fs: seq<string>, text: string) {
    exists i :: 0 <= i < |fs| && fs[i] == text
  }

  /** Containment both ways. */
  predicate FilterIdsDiffer(spec: seq<string>, read: seq<string>) {
    || (exists i :: 0 <= i < |spec| && !Contains(read, spec[i]))
    || (exists i :: 0 <= i < |read| && !Contains(spec, read[i]))
  }

  predicate StatedDiffers<T(==)>(spec: Stated<T>, read: Option<T>) {
    match spec
    case Unstated => false
    case Set(v) => read != Some(v)
    case Nothing => read.Some?
  }

  predicate SegmentDiffers(spec: SegmentSpec, read: Segment) {
    || spec.vlan != read.vlan
    || StatedDiffers(spec.rank, read.rank)
    || (spec.filterIds.Some? && FilterIdsDiffer(spec.filterIds.value, read.filterIds))
    || (spec.enabled.Set? && spec.enabled.value != read.enabled)
  }

  predicate ServiceDiffers(spec: Stated<string>, read: Option<ServiceType>) {
    match spec
    case Unstated => false
    case Set(text) => read.None? || ServiceToWire(read.value) != text
    case Nothing => read.Some?
  }

  predicate ProfileDiffers(spec: ProfileSpec, read: Profile) {
    || spec.timeout != read.timeout
    || (spec.termination.Some? && spec.termination.value != TerminationToWire(read.termination))
    || StatedDiffers(spec.idle, read.idle)
    || StatedDiffers(spec.filterId, read.filterId)
    || ServiceDiffers(spec.serviceType, read.serviceType)
  }

  // ----- Bodies -----

  function Carried<T>(spec: Stated<T>, read: Option<T>): Option<T> {
    match spec case Set(v) => Some(v) case Unstated => read case Nothing => None
  }

  function CreateSegmentCall(spec: SegmentSpec): NetCall {
    CreateSegment(KindFromWire(spec.kind), spec.site, spec.name, spec.vlan, Carried(spec.rank, None), spec.filterIds,
                  if spec.enabled.Set? then Some(spec.enabled.value) else None)
  }

  function ReplaceSegmentCall(spec: SegmentSpec, read: Segment): NetCall {
    ReplaceSegment(read.id, read.version, spec.vlan, Carried(spec.rank, read.rank),
                   spec.filterIds.GetOr(read.filterIds),
                   if spec.enabled.Set? then spec.enabled.value else read.enabled)
  }

  function FilledTermination(spec: ProfileSpec, read: Option<Profile>): Option<Termination> {
    if spec.termination.Some? && KnownTermination(spec.termination.value)
    then Some(TerminationFromWire(spec.termination.value))
    else if read.Some? && read.value.termination != OtherTermination then Some(read.value.termination)
    else None
  }

  function FilledService(spec: ProfileSpec, read: Option<Profile>): Option<ServiceType> {
    if spec.serviceType.Set? && KnownServiceType(spec.serviceType.value)
    then Some(ServiceFromWire(spec.serviceType.value))
    else if spec.serviceType.Unstated? && read.Some? && read.value.serviceType.Some?
            && read.value.serviceType.value != OtherServiceType
    then read.value.serviceType
    else None
  }

  /** fill_profile_input(): `read` is None for a create. */
  function FillProfile(spec: ProfileSpec, read: Option<Profile>): ProfileInput {
    ProfileInput(
      spec.timeout,
      if read.Some? then Some(read.value.dictionary) else None,
      FilledTermination(spec, read),
      Carried(spec.idle, if read.Some? then read.value.idle else None),
      Carried(spec.filterId, if read.Some? then read.value.filterId else None),
      FilledService(spec, read))
  }

  /** The member a plan refuses to leave out of an update, because the read holds it as unknown. */
  predicate WouldDropUnknown(spec: ProfileSpec, read: Profile) {
    || (read.termination == OtherTermination && spec.termination.None?)
    || (read.serviceType == Some(OtherServiceType) && spec.serviceType.Unstated?)
  }

  // ----- Laws of the bodies -----

  /** filter_ids is compared as a set. */
  lemma FilterIdsDifferIsSetInequality(spec: seq<string>, read: seq<string>)
    ensures FilterIdsDiffer(spec, read) <==> (set f | f in spec) != (set f | f in read)
  {
    var a, b := set f | f in spec, set f | f in read;
    if i :| 0 <= i < |spec| && !Contains(read, spec[i]) { assert spec[i] in a && spec[i] !in b; }
    if i :| 0 <= i < |read| && !Contains(spec, read[i]) { assert read[i] in b && read[i] !in a; }
    if !FilterIdsDiffer(spec, read) {
      forall f ensures f in a <==> f in b {
        if f in a { var i :| 0 <= i < |spec| && spec[i] == f; assert Contains(read, spec[i]); }
        if f in b { var i :| 0 <= i < |read| && read[i] == f; assert Contains(spec, read[i]); }
      }
    }
  }

  lemma NoDifferenceFromItself(fs: seq<string>)
    ensures !FilterIdsDiffer(fs, fs)
  {
    FilterIdsDifferIsSetInequality(fs, fs);
  }

  /** A replaced segment no longer differs, keeps its key, and every member the spec is silent about. */
  lemma ReplacedSegmentConverges(spec: SegmentSpec, read: Segment)
    ensures var s := ReplacedSegment(read, ReplaceSegmentCall(spec, read));
      && !SegmentDiffers(spec, s)
      && s.id == read.id && s.site == read.site && s.kind == read.kind && s.name == read.name
      && (spec.rank.Unstated? ==> s.rank == read.rank) && (spec.rank.Nothing? ==> s.rank.None?)
      && (spec.filterIds.None? ==> s.filterIds == read.filterIds)
      && (spec.filterIds.Some? ==> s.filterIds == spec.filterIds.value)
      && (!spec.enabled.Set? ==> s.enabled == read.enabled)
  {
    if spec.filterIds.Some? { NoDifferenceFromItself(spec.filterIds.value); }
  }

  lemma CreatedSegmentConverges(spec: SegmentSpec, t: NetState)
    requires WireKind(spec.kind)
    ensures NetPermits(t, CreateSegmentCall(spec))
    ensures var t' := NetEffect(t, CreateSegmentCall(spec)); var s := t'.segments[|t.segments|];
      && |t'.segments| == |t.segments| + 1 && t'.segments[..|t.segments|] == t.segments
      && s.id == t.nextId && s.version == 1 && s.site == spec.site && s.name == spec.name
      && KindToWire(s.kind) == spec.kind
      && !SegmentDiffers(spec, s)
  {
    if spec.filterIds.Some? { NoDifferenceFromItself(spec.filterIds.value); }
  }

  /** A stored profile with every member the spec is silent about as it was read. */
  predicate KeepsUnstated(spec: ProfileSpec, read: Profile, p: Profile) {
    && p.dictionary == read.dictionary
    && (spec.termination.None? ==> p.termination == read.termination)
    && (spec.idle.Unstated? ==> p.idle == read.idle)
    && (spec.filterId.Unstated? ==> p.filterId == read.filterId)
    && (spec.serviceType.Unstated? ==> p.serviceType == read.serviceType)
  }

  /**
   * A profile written for a sendable spec no longer differs once it is under the cap; and an update
   * the plan lets through keeps every member the spec is silent about, unknown values included
   * (they are kept because the plan let through only updates that state them).
   */
  lemma WrittenProfileConverges(spec: ProfileSpec, read: Option<Profile>, version: nat, cap: int)
    requires ProfileSendable(spec) && spec.timeout <= cap
    ensures !ProfileDiffers(spec, Effective(StoredProfile(FillProfile(spec, read), version), cap))
    ensures var p := StoredProfile(FillProfile(spec, read), version);
      read.Some? && !WouldDropUnknown(spec, read.value) ==> KeepsUnstated(spec, read.value, p)
    ensures var p := StoredProfile(FillProfile(spec, read), version);
      && (spec.idle.Nothing? ==> p.idle.None?) && (spec.filterId.Nothing? ==> p.filterId.None?)
      && (spec.serviceType.Nothing? ==> p.serviceType.None?)
  {
  }

  /**
   * The refusal is exact: an update is refused exactly when what it stores would not keep a member the
   * spec is silent about, the server's default standing where an unknown value was.
   */
  lemma RefusedIffNotKept(spec: ProfileSpec, read: Profile, version: nat)
    requires ProfileSendable(spec)
    ensures var p := StoredProfile(FillProfile(spec, Some(read)), version);
      && (WouldDropUnknown(spec, read) <==> !KeepsUnstated(spec, read, p))
      && (read.termination == OtherTermination && spec.termination.None? ==> p.termination == RadiusRequest)
      && (read.serviceType == Some(OtherServiceType) && spec.serviceType.Unstated? ==> p.serviceType.None?)
  {
  }

  // ----- Drift, decided by the server's effect -----

  /** Equal but for the version and for the order and repeats of the filter ids. */
  ghost predicate SegmentKept(a: Segment, b: Segment) {
    && a.(version := b.version, filterIds := b.filterIds) == b
    && (set f | f in a.filterIds) == (set f | f in b.filterIds)
  }

  /** Writing the spec over the segment as it is read leaves it as it is. */
  ghost predicate WritingKeeps(spec: SegmentSpec, read: Segment) {
    SegmentKept(ReplacedSegment(read, ReplaceSegmentCall(spec, read)), read)
  }

  /** A segment does not differ from its spec exactly when writing the spec would leave it as it is. */
  lemma DiffersIffReplaceChanges(spec: SegmentSpec, read: Segment)
    ensures !SegmentDiffers(spec, read) <==> WritingKeeps(spec, read)
  {
    if spec.filterIds.Some? { FilterIdsDifferIsSetInequality(spec.filterIds.value, read.filterIds); }
  }

  /**
   * Equal but for the version, and but for a member that the spec is silent about and the read holds as
   * a value unknown to this client, which no write can send.
   */
  predicate ProfileKept(spec: ProfileSpec, p: Profile, read: Profile) {
    && p.timeout == read.timeout && p.dictionary == read.dictionary && p.idle == read.idle && p.filterId == read.filterId
    && (p.termination == read.termination || (spec.termination.None? && read.termination == OtherTermination))
    && (p.serviceType == read.serviceType || (spec.serviceType.Unstated? && read.serviceType == Some(OtherServiceType)))
  }

  /** A profile does not differ from its spec exactly when storing the spec would leave it as it is read. */
  lemma DiffersIffStoreChanges(spec: ProfileSpec, read: Profile, version: nat)
    requires ProfileSendable(spec)
    ensures !ProfileDiffers(spec, read) <==> ProfileKept(spec, StoredProfile(FillProfile(spec, Some(read)), version), read)
    ensures !WouldDropUnknown(spec, read) ==>
      (!ProfileDiffers(spec, read) <==> StoredProfile(FillProfile(spec, Some(read)), read.version) == read)
  {
  }

  /** What a spec states, as it is stated. */
  predicate SegmentAsStated(spec: SegmentSpec, s: Segment) {
    && s.vlan == spec.vlan
    && (spec.rank.Set? ==> s.rank == Some(spec.rank.value)) && (spec.rank.Nothing? ==> s.rank.None?)
    && (spec.filterIds.Some? ==> s.filterIds == spec.filterIds.value)
    && (spec.enabled.Set? ==> s.enabled == spec.enabled.value)
  }

  lemma WritesAsStated(spec: SegmentSpec, read: Segment, t: NetState)
    ensures SegmentAsStated(spec, ReplacedSegment(read, ReplaceSegmentCall(spec, read)))
    ensures NetPermits(t, CreateSegmentCall(spec))
    ensures var s := NetEffect(t, CreateSegmentCall(spec)).segments[|t.segments|];
      && SegmentAsStated(spec, s) && (spec.rank.Unstated? ==> s.rank.None?) && (spec.filterIds.None? ==> s.filterIds == [])
      && (!spec.enabled.Set? ==> s.enabled)
  {
  }
}
