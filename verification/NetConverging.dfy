/** The network phase carried out: versions always current, and what a new plan says afterwards. */
module NetConverging {
  import opened Basics
  import opened Manifest
  import opened Planning
  import opened Validate
  import opened Network
  import opened Wire
  import opened Applying
  import opened NetPlanning
  import opened NetTracking

  ghost predicate NetworkAccepted(m: Manifest) {
    SegmentsAccepted(m.segments) && ProfilesAccepted(m.segments, m.profiles)
  }

  lemma AnsweredMeansDone(w: World, c: NetCall, o: Outcome)
    ensures var (w', reply) := Issue(w, OnNetwork(c), o);
      && w'.dir == w.dir
      && (reply.Answer? ==> NetPermits(w.net, c) && w'.net == NetEffect(w.net, c)
                            && reply.body == (if o == Accept then Some(ResponseOf(w, OnNetwork(c))) else None))
      && (!NetPermits(w.net, c) ==> w'.net == w.net)
  {
  }

  /** The segment a profile write names is the one the spec stands for. */
  lemma OwnerIsCurrent(m: Manifest, t0: NetState, items: seq<NetItem>, now: seq<NetItem>, t: NetState, n: nat)
    requires NetOnTrack(m, t0, items, now, t, n) && n < |items| && items[n].ProfileItem?
    ensures SegmentNow(t, m.segments[items[n].spec]).Some?
    ensures var owner := SegmentOf(now, items[n].spec);
      owner.Some? ==> owner.value.0 == SegmentNow(t, m.segments[items[n].spec]).value.id
  {
    var a := OwnerIsDone(m, t0, items, now, t, n);
  }

  // ----- Each kind of write -----

  lemma SegmentWriteSettles(m: Manifest, t0: NetState, items: seq<NetItem>, now: seq<NetItem>, w: World, n: nat, o: Outcome)
    requires NetworkAccepted(m) && NetOnTrack(m, t0, items, now, w.net, n) && n < |items|
    requires now[n].SegmentItem? && now[n].action != Unchanged
    ensures var c := NetworkCall(m, now, n);
      && c.Some?
      && var (w', reply) := Issue(w, c.value, o);
         reply.Answer? ==>
           var item := if reply.body.Some? then now[n].(applied := reply.body) else now[n];
           NetOnTrack(m, t0, items, now[n := item], w'.net, n + 1)
  {
    assert ItemOnTrack(m, t0, w.net, items[n], now[n], false);
    assert PlannedFrom(m, items[n], t0);
    var s := now[n].spec;
    var call := NetworkCall(m, now, n).value;
    var (w', reply) := Issue(w, call, o);
    AnsweredMeansDone(w, call.n, o);
    if reply.Answer? {
      var item := if reply.body.Some? then now[n].(applied := reply.body) else now[n];
      if now[n].action == Create { CreateSegmentMoves(m, w.net, s); }
      else { ReplaceSegmentMoves(m, w.net, s, now[n].read.value); }
      SegmentItemAdvances(m, t0, items, now, w.net, n, w'.net, item);
    }
  }

  lemma ProfileWriteSettles(m: Manifest, t0: NetState, items: seq<NetItem>, now: seq<NetItem>, w: World, n: nat, o: Outcome)
    requires NetworkAccepted(m) && NetOnTrack(m, t0, items, now, w.net, n) && n < |items|
    requires now[n].ProfileItem? && now[n].action != Unchanged
    ensures var c := NetworkCall(m, now, n);
      c.Some? ==>
        var (w', reply) := Issue(w, c.value, o);
        reply.Answer? ==> NetOnTrack(m, t0, items, now, w'.net, n + 1)
  {
    assert ItemOnTrack(m, t0, w.net, items[n], now[n], false);
    var c := NetworkCall(m, now, n);
    if c.Some? {
      var (w', reply) := Issue(w, c.value, o);
      var call := c.value.n;
      AnsweredMeansDone(w, call, o);
      OwnerIsCurrent(m, t0, items, now, w.net, n);
      if reply.Answer? {
        WriteProfileMoves(m, w.net, now[n].spec, call);
        WrittenProfileConverges(m.profiles[now[n].profile], if now[n].action == Update then now[n].held else None,
                                if now[n].action == Update then call.version + 1 else 1, w.net.cap);
        ProfileItemAdvances(m, t0, items, now, w.net, n, w'.net);
      }
    }
  }

  lemma PolicyWriteSettles(m: Manifest, t0: NetState, items: seq<NetItem>, now: seq<NetItem>, w: World, n: nat, o: Outcome)
    requires NetOnTrack(m, t0, items, now, w.net, n) && n < |items| && now[n].PolicyItem? && now[n].action != Unchanged
    ensures var c := NetworkCall(m, now, n);
      && c.Some?
      && var (w', reply) := Issue(w, c.value, o);
         reply.Answer? ==> NetOnTrack(m, t0, items, now, w'.net, n + 1)
  {
    var call := NetworkCall(m, now, n).value;
    AnsweredMeansDone(w, call.n, o);
    PolicyItemAdvances(m, t0, items, now, w.net, n);
  }

  /** The plan once item n has been answered. */
  function Kept(now: seq<NetItem>, n: nat, body: Option<(Id, nat)>): seq<NetItem>
    requires n < |now|
  {
    if now[n].SegmentItem? && body.Some? then now[n := now[n].(applied := body)] else now
  }

  lemma WriteSettles(m: Manifest, t0: NetState, items: seq<NetItem>, now: seq<NetItem>, w: World, n: nat, o: Outcome)
    requires NetworkAccepted(m) && NetOnTrack(m, t0, items, now, w.net, n) && n < |items| && now[n].action != Unchanged
    ensures var c := NetworkCall(m, now, n);
      c.Some? ==>
        var (w', reply) := Issue(w, c.value, o);
        reply.Answer? ==> NetOnTrack(m, t0, items, Kept(now, n, reply.body), w'.net, n + 1)
  {
    match now[n]
    case PolicyItem(_, _, _) => PolicyWriteSettles(m, t0, items, now, w, n, o);
    case SegmentItem(_, _, _, _) =>
      SegmentWriteSettles(m, t0, items, now, w, n, o);
      assert now == now[n := now[n]];
    case ProfileItem(_, _, _, _, _) => ProfileWriteSettles(m, t0, items, now, w, n, o);
  }

  lemma StepNetworkKeepsTrack(m: Manifest, t0: NetState, items: seq<NetItem>, r: Run, script: Script)
    requires NetworkAccepted(m) && NetOnTrack(m, t0, items, r.network, r.world.net, r.item)
    requires r.stop == Running && ItemReady(m, r)
    ensures var r' := StepNetwork(m, r, script);
      r'.stop == Running ==> NetOnTrack(m, t0, items, r'.network, r'.world.net, r'.item)
  {
    if r.network[r.item].action == Unchanged {
      UnchangedItemAdvances(m, t0, items, r.network, r.world.net, r.item);
    } else {
      WriteSettles(m, t0, items, r.network, r.world, r.item, script(|r.world.trace|));
    }
  }

  /** A call answered with an error did nothing, or what a carried-out call without a body does. */
  lemma FailedMovesNothingOrAll(w: World, c: Call, o: Outcome)
    requires Issue(w, c, o).1.Failure?
    ensures Issue(w, c, o).0 == w.(trace := w.trace + [c])
            || (Issue(w, c, o).0 == Issue(w, c, AcceptBare).0 && Issue(w, c, AcceptBare).1 == Answer(None))
  {
  }

  /** A step that stops tried something, and either had no segment to name or its call failed. */
  lemma StoppedStepIs(m: Manifest, r: Run, script: Script)
    requires r.stop == Running && ItemReady(m, r) && StepNetwork(m, r, script).stop != Running
    ensures var r', c := StepNetwork(m, r, script), NetworkCall(m, r.network, r.item);
      && r.network[r.item].action != Unchanged && r'.network == r.network
      && if c.None? then r'.world == r.world
         else var (w, reply) := Issue(r.world, c.value, script(|r.world.trace|)); r'.world == w && reply.Failure?
  {
  }

  lemma FailedWriteSettles(m: Manifest, t0: NetState, items: seq<NetItem>, now: seq<NetItem>, w: World, n: nat, c: Call, o: Outcome)
    requires NetworkAccepted(m) && NetOnTrack(m, t0, items, now, w.net, n) && n < |items| && now[n].action != Unchanged
    requires NetworkCall(m, now, n) == Some(c) && Issue(w, c, o).1.Failure?
    ensures var t := Issue(w, c, o).0.net; NetOnTrack(m, t0, items, now, t, n) || NetOnTrack(m, t0, items, now, t, n + 1)
  {
    FailedMovesNothingOrAll(w, c, o);
    if Issue(w, c, o).0 != w.(trace := w.trace + [c]) { WriteSettles(m, t0, items, now, w, n, AcceptBare); }
  }

  /** A step that stops has left its own object as planned or as written, and every other where it was. */
  lemma StoppedStepLeavesTrack(m: Manifest, t0: NetState, items: seq<NetItem>, r: Run, script: Script)
    requires NetworkAccepted(m) && NetOnTrack(m, t0, items, r.network, r.world.net, r.item)
    requires r.stop == Running && ItemReady(m, r)
    ensures var r' := StepNetwork(m, r, script);
      r'.stop != Running ==>
        NetOnTrack(m, t0, items, r'.network, r'.world.net, r.item) || NetOnTrack(m, t0, items, r'.network, r'.world.net, r.item + 1)
  {
    if StepNetwork(m, r, script).stop != Running {
      StoppedStepIs(m, r, script);
      StoppedWriteLeavesTrack(m, t0, items, r.network, r.world, r.item, NetworkCall(m, r.network, r.item), script(|r.world.trace|));
    }
  }

  lemma StoppedWriteLeavesTrack(m: Manifest, t0: NetState, items: seq<NetItem>, now: seq<NetItem>, w: World, n: nat, c: Option<Call>, o: Outcome)
    requires NetworkAccepted(m) && NetOnTrack(m, t0, items, now, w.net, n) && n < |items| && now[n].action != Unchanged
    requires NetworkCall(m, now, n) == c && (c.Some? ==> Issue(w, c.value, o).1.Failure?)
    ensures var t := if c.None? then w.net else Issue(w, c.value, o).0.net;
      NetOnTrack(m, t0, items, now, t, n) || NetOnTrack(m, t0, items, now, t, n + 1)
  {
    if c.Some? { FailedWriteSettles(m, t0, items, now, w, n, c.value, o); }
  }

  // ----- Versions -----

  /** The call carries the versions the server holds right now. */
  predicate VersionsCurrent(t: NetState, c: NetCall) {
    match c
    case ReplacePolicy(_, version) => version == t.capVersion
    case CreateSegment(_, _, _, _, _, _, _) => true
    case ReplaceSegment(id, version, _, _, _, _) => SegmentIsAt(t, id, version)
    case CreateProfile(segment, segmentVersion, _) => SegmentIsAt(t, segment, segmentVersion)
    case ReplaceProfile(segment, version, segmentVersion, _) =>
      && SegmentIsAt(t, segment, segmentVersion)
      && ProfileOf(t, segment).Some? && ProfileOf(t, segment).value.version == version
  }

  /** With a body in every answer, a segment item carried out and written knows its id and version. */
  ghost predicate AppliedKnown(now: seq<NetItem>, n: nat) {
    forall k :: 0 <= k < n && k < |now| && now[k].SegmentItem? && now[k].action != Unchanged ==> now[k].applied.Some?
  }

  /**
   * No apply ever refuses itself: as long as nobody else writes, every conditional write carries
   * current versions, the segment's own after this apply has moved it.
   */
  lemma WritesAreNeverStale(m: Manifest, t0: NetState, items: seq<NetItem>, now: seq<NetItem>, t: NetState, n: nat)
    requires NetworkAccepted(m) && NetOnTrack(m, t0, items, now, t, n) && AppliedKnown(now, n)
    requires n < |items| && now[n].action != Unchanged
    ensures NetworkCall(m, now, n).Some? && NetworkCall(m, now, n).value.OnNetwork?
    ensures VersionsCurrent(t, NetworkCall(m, now, n).value.n)
  {
    assert ItemOnTrack(m, t0, t, items[n], now[n], false);
    assert PlannedFrom(m, items[n], t0);
    if now[n].SegmentItem? && now[n].action == Update {
      FoundById(t, FindSegment(t.segments, m.segments[now[n].spec], 0).value);
    } else if now[n].ProfileItem? {
      var a := OwnerIsDone(m, t0, items, now, t, n);
      assert ItemOnTrack(m, t0, t, items[a], now[a], true);
      FoundById(t, FindSegment(t.segments, m.segments[now[n].spec], 0).value);
    }
  }

  // ----- Convergence -----

  lemma ReplannedPolicy(m: Manifest, t0: NetState, items: seq<NetItem>, now: seq<NetItem>, t: NetState, n: nat, k: nat)
    requires NetOnTrack(m, t0, items, now, t, n) && k < n && items[k].PolicyItem?
    ensures PolicyItemFor(items[k].cap, t).action == Unchanged
  {
    assert ItemOnTrack(m, t0, t, items[k], now[k], true);
  }

  lemma ReplannedSegment(m: Manifest, t0: NetState, items: seq<NetItem>, now: seq<NetItem>, t: NetState, n: nat, k: nat)
    requires NetOnTrack(m, t0, items, now, t, n) && k < n && items[k].SegmentItem?
    ensures items[k].spec < |m.segments| && SegmentItemFor(m, items[k].spec, t).action == Unchanged
  {
    assert ItemOnTrack(m, t0, t, items[k], now[k], true);
  }

  /** A profile that needed no write is read under the new cap from now on. */
  predicate ReadAsStated(m: Manifest, item: NetItem, t0: NetState, cap: int)
    requires item.ProfileItem? && ItemFits(m, item)
  {
    var stored := ProfileNow(t0, m.segments[item.spec]);
    stored.Some? && Effective(stored.value, cap).timeout == m.profiles[item.profile].timeout
  }

  /**
   * A profile converges exactly when it was written, or is still read with the stated timeout: a
   * profile left alone because it was clamped to the stated value comes loose when the same apply
   * raises the cap, and one stated above a lowered cap can never be read as stated.
   */
  lemma ReplannedProfile(m: Manifest, t0: NetState, items: seq<NetItem>, now: seq<NetItem>, t: NetState, n: nat, k: nat)
    requires NetOnTrack(m, t0, items, now, t, n) && k < n && items[k].ProfileItem?
    ensures items[k].spec < |m.segments| && items[k].profile < |m.profiles|
    ensures ProfileItemFor(m, items[k].spec, items[k].profile, t).action == Unchanged
       <==> items[k].action != Unchanged || ReadAsStated(m, items[k], t0, t.cap)
  {
    assert ItemOnTrack(m, t0, t, items[k], now[k], true);
    assert PlannedFrom(m, items[k], t0);
    var a := SegmentIsThere(m, t0, items, now, t, n, k);
  }

  lemma SegmentIsThere(m: Manifest, t0: NetState, items: seq<NetItem>, now: seq<NetItem>, t: NetState, n: nat, k: nat)
    returns (a: nat)
    requires NetOnTrack(m, t0, items, now, t, n) && k < n && items[k].ProfileItem?
    ensures a < k && items[a].SegmentItem? && items[a].spec == items[k].spec && SegmentNow(t, m.segments[items[k].spec]).Some?
  {
    assert SegmentBefore(items, k);
    a :| 0 <= a < k && items[a].SegmentItem? && items[a].spec == items[k].spec;
    assert ItemOnTrack(m, t0, t, items[a], now[a], true);
  }

  /** An object not reached yet: a new plan would list the same, a profile as it is read under the cap there is now. */
  predicate StillPlanned(m: Manifest, item: NetItem, t0: NetState, again: NetItem, t: NetState)
    requires ItemFits(m, item)
  {
    match item
    case PolicyItem(_, _, _) => again == item
    case SegmentItem(_, _, _, _) => again == item
    case ProfileItem(_, spec, profile, _, _) =>
      var stored := ProfileNow(t0, m.segments[spec]);
      && again.ProfileItem?
      && again.held == (if stored.None? then None else Some(Effective(stored.value, t.cap)))
      && (t.cap == t0.cap ==> again.held == item.held && again.action == item.action)
  }

  lemma ReplannedAsBefore(m: Manifest, t0: NetState, items: seq<NetItem>, now: seq<NetItem>, t: NetState, n: nat, k: nat, again: NetItem)
    requires NetOnTrack(m, t0, items, now, t, n) && n <= k < |items|
    requires match items[k]
      case PolicyItem(_, cap, _) => again == PolicyItemFor(cap, t)
      case SegmentItem(_, spec, _, _) => spec < |m.segments| && again == SegmentItemFor(m, spec, t)
      case ProfileItem(_, spec, profile, _, _) => spec < |m.segments| && profile < |m.profiles| && again == ProfileItemFor(m, spec, profile, t)
    ensures ItemFits(m, items[k]) && StillPlanned(m, items[k], t0, again, t)
  {
    assert ItemOnTrack(m, t0, t, items[k], now[k], false);
    assert PlannedFrom(m, items[k], t0);
  }
}
