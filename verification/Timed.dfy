/**
 * What the decision memo promises, over whole histories of calls: a hit is the last thing put under
 * the key since the last clear, younger than the TTL, with fewer than MAX_ENTRIES other keys put since.
 */
module Timed {
  import opened Basics

  const MAX_ENTRIES: nat := 1024
  const MAX_TTL: int := 5000

  /** axiam_memo_init(): a TTL is clamped, never refused; none or a negative one turns the memo off. */
  function EffectiveTtl(requested: int): (ttl: int)
    ensures 0 <= ttl <= 5000 && (ttl == 0 <==> requested <= 0)
    ensures (0 < requested <= 5000 ==> ttl == requested) && (requested > 5000 ==> ttl == 5000)
  {
    if requested <= 0 then 0 else if requested > MAX_TTL then MAX_TTL else requested
  }

  datatype Decision = Decision(allowed: bool, reason: Option<string>, reasonCode: Option<string>)

  datatype Entry = Entry(key: string, value: Decision, storedAt: int)

  ghost predicate DistinctKeys(q: seq<Entry>) {
    forall i, j :: 0 <= i < j < |q| ==> q[i].key != q[j].key
  }

  // ----- The queue -----

  function Without(q: seq<Entry>, key: string): (r: seq<Entry>)
    ensures |r| <= |q| && forall i :: 0 <= i < |r| ==> r[i] in q && r[i].key != key
  {
    if q == [] then []
    else if q[|q| - 1].key == key then Without(q[..|q| - 1], key)
    else Without(q[..|q| - 1], key) + [q[|q| - 1]]
  }

  function Trimmed(q: seq<Entry>): seq<Entry> {
    if |q| <= MAX_ENTRIES then q else q[|q| - MAX_ENTRIES..]
  }

  function FindEntry(q: seq<Entry>, key: string): (r: Option<nat>)
    ensures r.Some? ==> r.value < |q| && q[r.value].key == key
    ensures r.None? ==> forall i :: 0 <= i < |q| ==> q[i].key != key
  {
    if q == [] then None
    else if q[|q| - 1].key == key then Some(|q| - 1)
    else FindEntry(q[..|q| - 1], key)
  }

  predicate Fresh(e: Entry, now: int, ttl: int) { now - e.storedAt < ttl }

  function Hit(q: seq<Entry>, key: string, now: int, ttl: int): Option<Decision> {
    match FindEntry(q, key)
    case None => None
    case Some(i) => if Fresh(q[i], now, ttl) then Some(q[i].value) else None
  }

  function AfterGet(q: seq<Entry>, key: string, now: int, ttl: int): seq<Entry> {
    match FindEntry(q, key)
    case None => q
    case Some(i) => if Fresh(q[i], now, ttl) then q else Without(q, key)
  }

  function AfterPut(q: seq<Entry>, e: Entry): seq<Entry> {
    Trimmed(Without(q, e.key) + [e])
  }

  // ----- Histories -----

  datatype Op = Put(entry: Entry) | Get(key: string, now: int) | Clear

  function Queue(h: seq<Op>, ttl: int): seq<Entry> {
    if h == [] then []
    else
      var q := Queue(h[..|h| - 1], ttl);
      match h[|h| - 1]
      case Put(e) => AfterPut(q, e)
      case Get(key, now) => AfterGet(q, key, now, ttl)
      case Clear => []
  }

  /** The time of the last call that read the clock. */
  function Clock(h: seq<Op>): Option<int> {
    if h == [] then None
    else match h[|h| - 1]
      case Put(e) => Some(e.storedAt)
      case Get(_, now) => Some(now)
      case Clear => Clock(h[..|h| - 1])
  }

  predicate NotBefore(now: int, last: Option<int>) { last.Some? ==> last.value <= now }

  /** The clock never runs backwards. */
  ghost predicate Monotone(h: seq<Op>) {
    h != [] ==>
      && Monotone(h[..|h| - 1])
      && match h[|h| - 1]
         case Put(e) => NotBefore(e.storedAt, Clock(h[..|h| - 1]))
         case Get(_, now) => NotBefore(now, Clock(h[..|h| - 1]))
         case Clear => true
  }

  /** The last put of a key since the last clear. */
  function LastPut(h: seq<Op>, key: string): (r: Option<nat>)
    ensures r.Some? ==> r.value < |h| && h[r.value].Put? && h[r.value].entry.key == key
    ensures r.Some? ==> forall j :: r.value < j < |h| ==> !h[j].Clear? && (h[j].Put? ==> h[j].entry.key != key)
  {
    if h == [] then None
    else match h[|h| - 1]
      case Clear => None
      case Put(e) => if e.key == key then Some(|h| - 1) else LastPut(h[..|h| - 1], key)
      case Get(_, _) => LastPut(h[..|h| - 1], key)
  }

  /** The keys put after call i. */
  function KeysSince(h: seq<Op>, i: nat): set<string> {
    set j | i < j < |h| && h[j].Put? :: h[j].entry.key
  }

  // ----- An unbounded queue that forgets nothing -----

  /** Everything put since the last clear, by last put. */
  function Shadow(h: seq<Op>): seq<Entry> {
    if h == [] then []
    else
      var s := Shadow(h[..|h| - 1]);
      match h[|h| - 1]
      case Put(e) => Without(s, e.key) + [e]
      case Get(_, _) => s
      case Clear => []
  }

  function KeysOf(q: seq<Entry>): set<string> {
    set i | 0 <= i < |q| :: q[i].key
  }

  // Without

  lemma {:induction false} WithoutConcat(a: seq<Entry>, b: seq<Entry>, key: string)
    ensures Without(a + b, key) == Without(a, key) + Without(b, key)
    decreases |b|
  {
    if b == [] {
      assert a + b == a;
    } else {
      assert (a + b)[..|a + b| - 1] == a + b[..|b| - 1];
      WithoutConcat(a, b[..|b| - 1], key);
    }
  }

  lemma {:induction false} WithoutAbsent(q: seq<Entry>, key: string)
    requires forall i :: 0 <= i < |q| ==> q[i].key != key
    ensures Without(q, key) == q
    decreases |q|
  {
    if q != [] { WithoutAbsent(q[..|q| - 1], key); }
  }

  /** With distinct keys, at most one entry goes. */
  lemma {:induction false} WithoutAt(q: seq<Entry>, j: nat)
    requires DistinctKeys(q) && j < |q|
    ensures Without(q, q[j].key) == q[..j] + q[j + 1..]
    decreases |q|
  {
    var rest := q[..|q| - 1];
    if j == |q| - 1 {
      WithoutAbsent(rest, q[j].key);
      assert q[..j] + q[j + 1..] == rest;
    } else {
      WithoutAt(rest, j);
      assert rest[..j] + rest[j + 1..] + [q[|q| - 1]] == q[..j] + q[j + 1..];
    }
  }

  lemma WithoutKeepsDistinct(q: seq<Entry>, key: string)
    requires DistinctKeys(q)
    ensures DistinctKeys(Without(q, key))
  {
    var at := FindEntry(q, key);
    if at.Some? { WithoutAt(q, at.value); } else { WithoutAbsent(q, key); }
  }

  lemma FindEntryIs(q: seq<Entry>, i: nat)
    requires DistinctKeys(q) && i < |q|
    ensures FindEntry(q, q[i].key) == Some(i)
  {
    var at := FindEntry(q, q[i].key).value;
    assert !(at < i) && !(i < at);
  }

  // ----- What the bounded queue keeps of it -----

  ghost predicate EndsWith(q: seq<Entry>, suffix: seq<Entry>) {
    |suffix| <= |q| && q[|q| - |suffix|..] == suffix
  }

  ghost predicate InTimeOrder(s: seq<Entry>, last: Option<int>) {
    && (forall i, j :: 0 <= i < j < |s| ==> s[i].storedAt <= s[j].storedAt)
    && (s != [] ==> last.Some? && s[|s| - 1].storedAt <= last.value)
  }

  /** From place p on, everything is fresh and within the bound, so everything is kept. */
  ghost predicate KeptFrom(s: seq<Entry>, p: nat, now: int, ttl: int) {
    p <= |s| && |s| - p <= MAX_ENTRIES && (p < |s| ==> Fresh(s[p], now, ttl))
  }

  ghost predicate Tracks(q: seq<Entry>, s: seq<Entry>, now: int, ttl: int) {
    && DistinctKeys(q) && DistinctKeys(s) && |q| <= MAX_ENTRIES
    && (forall i :: 0 <= i < |q| ==> q[i] in s)
    && (forall p: nat :: KeptFrom(s, p, now, ttl) ==> EndsWith(q, s[p..]))
  }

  lemma WithoutKeepsSuffix(q: seq<Entry>, suffix: seq<Entry>, key: string)
    requires EndsWith(q, suffix)
    ensures EndsWith(Without(q, key), Without(suffix, key))
  {
    assert q == q[..|q| - |suffix|] + suffix;
    WithoutConcat(q[..|q| - |suffix|], suffix, key);
  }

  lemma TrimKeepsSuffix(q: seq<Entry>, suffix: seq<Entry>)
    requires EndsWith(q, suffix) && |suffix| <= MAX_ENTRIES
    ensures EndsWith(Trimmed(q), suffix)
  {
  }

  /** Where the suffix of the next queue comes from in this one. */
  function Origin(s: seq<Entry>, key: string, p: nat): nat {
    var at := FindEntry(s, key);
    if at.Some? && at.value <= p then p + 1 else p
  }

  lemma AbsentAfter(s: seq<Entry>, j: nat, p: nat)
    requires DistinctKeys(s) && j < p <= |s|
    ensures Without(s[p..], s[j].key) == s[p..]
  {
    forall i | 0 <= i < |s[p..]| ensures s[p..][i].key != s[j].key {
      assert s[p..][i] == s[p + i];
    }
    WithoutAbsent(s[p..], s[j].key);
  }

  lemma PresentAfter(s: seq<Entry>, j: nat, p: nat)
    requires DistinctKeys(s) && p <= j < |s|
    ensures Without(s[p..], s[j].key) == s[p..j] + s[j + 1..]
  {
    var t := s[p..];
    assert t[j - p] == s[j];
    WithoutAt(t, j - p);
    assert t[..j - p] == s[p..j] && t[j - p + 1..] == s[j + 1..];
  }

  lemma DropAcross<T>(s: seq<T>, j: nat, p: nat)
    requires j < |s| && p < |s|
    ensures (s[..j] + s[j + 1..])[p..] == if j <= p then s[p + 1..] else s[p..j] + s[j + 1..]
  {
  }

  lemma SuffixWhenPresent(s: seq<Entry>, j: nat, p: nat)
    requires DistinctKeys(s) && j < |s| && p < |s|
    ensures p <= |Without(s, s[j].key)|
    ensures Without(s, s[j].key)[p..] == Without(s[if j <= p then p + 1 else p..], s[j].key)
  {
    WithoutAt(s, j);
    DropAcross(s, j, p);
    if j <= p { AbsentAfter(s, j, p + 1); } else { PresentAfter(s, j, p); }
  }

  lemma SuffixWhenAbsent(s: seq<Entry>, key: string, p: nat)
    requires p <= |s| && forall i :: 0 <= i < |s| ==> s[i].key != key
    ensures Without(s, key) == s && Without(s[p..], key) == s[p..]
  {
    WithoutAbsent(s, key);
    WithoutAbsent(s[p..], key);
  }

  lemma WithoutOneLess(s: seq<Entry>, j: nat)
    requires DistinctKeys(s) && j < |s|
    ensures |Without(s, s[j].key)| == |s| - 1
  {
    WithoutAt(s, j);
  }

  lemma SuffixOfWithout(s: seq<Entry>, key: string, p: nat)
    requires DistinctKeys(s) && p <= |Without(s, key)|
    ensures Origin(s, key, p) <= |s| && Without(s, key)[p..] == Without(s[Origin(s, key, p)..], key)
  {
    var at := FindEntry(s, key);
    if at.None? {
      WithoutAbsent(s, key);
      SuffixWhenAbsent(s, key, p);
    } else {
      WithoutOneLess(s, at.value);
      SuffixWhenPresent(s, at.value, p);
    }
  }

  lemma OriginKept(s: seq<Entry>, e: Entry, p: nat, now: int, ttl: int)
    requires DistinctKeys(s) && p <= |Without(s, e.key)| && KeptFrom(Without(s, e.key) + [e], p, now, ttl)
    ensures KeptFrom(s, Origin(s, e.key, p), now, ttl)
  {
    var at := FindEntry(s, e.key);
    var w := Without(s, e.key);
    if p < |w| { assert (w + [e])[p] == w[p]; }
    if at.None? {
      WithoutAbsent(s, e.key);
    } else {
      WithoutAt(s, at.value);
    }
  }

  lemma AppendKeepsSuffix(q: seq<Entry>, suffix: seq<Entry>, e: Entry)
    requires EndsWith(q, suffix)
    ensures EndsWith(q + [e], suffix + [e])
  {
    assert q == q[..|q| - |suffix|] + suffix;
    assert q + [e] == q[..|q| - |suffix|] + (suffix + [e]);
  }

  lemma PutOnSuffix(q: seq<Entry>, t: seq<Entry>, e: Entry)
    requires EndsWith(q, t) && |Without(t, e.key)| < MAX_ENTRIES
    ensures EndsWith(AfterPut(q, e), Without(t, e.key) + [e])
  {
    WithoutKeepsSuffix(q, t, e.key);
    AppendKeepsSuffix(Without(q, e.key), Without(t, e.key), e);
    TrimKeepsSuffix(Without(q, e.key) + [e], Without(t, e.key) + [e]);
  }

  lemma PutKeepsSuffix(q: seq<Entry>, s: seq<Entry>, e: Entry, p: nat, now: int, ttl: int)
    requires Tracks(q, s, now, ttl) && KeptFrom(Without(s, e.key) + [e], p, now, ttl)
    ensures EndsWith(AfterPut(q, e), (Without(s, e.key) + [e])[p..])
  {
    var w := Without(s, e.key);
    if p <= |w| {
      OriginKept(s, e, p, now, ttl);
      SuffixOfWithout(s, e.key, p);
      PutOnSuffix(q, s[Origin(s, e.key, p)..], e);
      assert (w + [e])[p..] == w[p..] + [e];
    }
  }

  lemma {:induction false} OthersStayIn(s: seq<Entry>, key: string, x: Entry)
    requires x in s && x.key != key
    ensures x in Without(s, key)
    decreases |s|
  {
    if x in s[..|s| - 1] { OthersStayIn(s[..|s| - 1], key, x); }
  }

  lemma PutKeepsKeys(q: seq<Entry>, e: Entry)
    requires DistinctKeys(q)
    ensures DistinctKeys(Without(q, e.key) + [e]) && DistinctKeys(AfterPut(q, e))
  {
    WithoutKeepsDistinct(q, e.key);
  }

  lemma PutKeepsMembers(q: seq<Entry>, s: seq<Entry>, e: Entry, i: nat)
    requires (forall k :: 0 <= k < |q| ==> q[k] in s) && i < |AfterPut(q, e)|
    ensures AfterPut(q, e)[i] in Without(s, e.key) + [e]
  {
    var w := Without(q, e.key);
    var x := AfterPut(q, e)[i];
    assert x in w + [e];
    if x in w { OthersStayIn(s, e.key, x); }
  }

  lemma PutKeepsTrack(q: seq<Entry>, s: seq<Entry>, e: Entry, now: int, ttl: int)
    requires Tracks(q, s, now, ttl)
    ensures Tracks(AfterPut(q, e), Without(s, e.key) + [e], now, ttl)
  {
    var s' := Without(s, e.key) + [e];
    PutKeepsKeys(q, e);
    PutKeepsKeys(s, e);
    forall i | 0 <= i < |AfterPut(q, e)| ensures AfterPut(q, e)[i] in s' {
      PutKeepsMembers(q, s, e, i);
    }
    forall p: nat | KeptFrom(s', p, now, ttl) ensures EndsWith(AfterPut(q, e), s'[p..]) {
      PutKeepsSuffix(q, s, e, p, now, ttl);
    }
  }

  /** Nothing fresh is lost to an expiry: what is fresh came after what is not. */
  lemma GetKeepsTrack(q: seq<Entry>, s: seq<Entry>, key: string, now: int, ttl: int)
    requires Tracks(q, s, now, ttl) && InTimeOrder(s, Some(now))
    ensures Tracks(AfterGet(q, key, now, ttl), s, now, ttl)
  {
    var at := FindEntry(q, key);
    if at.Some? && !Fresh(q[at.value], now, ttl) {
      WithoutKeepsDistinct(q, key);
      forall p: nat | KeptFrom(s, p, now, ttl) ensures EndsWith(Without(q, key), s[p..]) {
        StaleIsBefore(q, s, at.value, p, now, ttl);
        WithoutKeepsSuffix(q, s[p..], key);
      }
    }
  }

  lemma StaleIsBefore(q: seq<Entry>, s: seq<Entry>, i: nat, p: nat, now: int, ttl: int)
    requires Tracks(q, s, now, ttl) && InTimeOrder(s, Some(now)) && KeptFrom(s, p, now, ttl)
    requires i < |q| && !Fresh(q[i], now, ttl)
    ensures Without(s[p..], q[i].key) == s[p..]
  {
    var k :| 0 <= k < |s| && s[k] == q[i];
    assert k < p;
    AbsentAfter(s, k, p);
  }

  lemma AdvanceKeepsTrack(q: seq<Entry>, s: seq<Entry>, now: int, later: int, ttl: int)
    requires Tracks(q, s, now, ttl) && now <= later
    ensures Tracks(q, s, later, ttl)
  {
    forall p: nat | KeptFrom(s, p, later, ttl) ensures EndsWith(q, s[p..]) {
      assert KeptFrom(s, p, now, ttl);
    }
  }

  lemma RemovalKeepsTimeOrder(s: seq<Entry>, j: nat, last: Option<int>)
    requires InTimeOrder(s, last) && j < |s|
    ensures InTimeOrder(s[..j] + s[j + 1..], last)
  {
    var w := s[..j] + s[j + 1..];
    assert forall i :: 0 <= i < |w| ==> w[i] == s[if i < j then i else i + 1];
  }

  lemma WithoutKeepsTimeOrder(s: seq<Entry>, key: string, last: Option<int>)
    requires InTimeOrder(s, last) && DistinctKeys(s)
    ensures InTimeOrder(Without(s, key), last)
  {
    var at := FindEntry(s, key);
    if at.None? {
      WithoutAbsent(s, key);
    } else {
      var j, w := at.value, Without(s, key);
      WithoutAt(s, j);
      RemovalKeepsTimeOrder(s, j, last);
    }
  }

  lemma PutKeepsTimeOrder(s: seq<Entry>, e: Entry, last: Option<int>)
    requires InTimeOrder(s, last) && NotBefore(e.storedAt, last) && DistinctKeys(s)
    ensures InTimeOrder(Without(s, e.key) + [e], Some(e.storedAt))
  {
    var w := Without(s, e.key);
    WithoutKeepsTimeOrder(s, e.key, last);
    assert forall i :: 0 <= i < |w| ==> w[i].storedAt <= w[|w| - 1].storedAt;
  }

  lemma PutStep(h: seq<Op>, e: Entry, now: int, ttl: int)
    requires h != [] && h[|h| - 1] == Put(e) && e.storedAt <= now
    requires NotBefore(e.storedAt, Clock(h[..|h| - 1])) && InTimeOrder(Shadow(h[..|h| - 1]), Clock(h[..|h| - 1]))
    requires Tracks(Queue(h[..|h| - 1], ttl), Shadow(h[..|h| - 1]), e.storedAt, ttl)
    ensures InTimeOrder(Shadow(h), Clock(h)) && Tracks(Queue(h, ttl), Shadow(h), now, ttl)
  {
    var rest := h[..|h| - 1];
    PutKeepsTrack(Queue(rest, ttl), Shadow(rest), e, e.storedAt, ttl);
    PutKeepsTimeOrder(Shadow(rest), e, Clock(rest));
    AdvanceKeepsTrack(Queue(h, ttl), Shadow(h), e.storedAt, now, ttl);
  }

  lemma GetStep(h: seq<Op>, key: string, t: int, now: int, ttl: int)
    requires h != [] && h[|h| - 1] == Get(key, t) && t <= now
    requires NotBefore(t, Clock(h[..|h| - 1])) && InTimeOrder(Shadow(h[..|h| - 1]), Clock(h[..|h| - 1]))
    requires Tracks(Queue(h[..|h| - 1], ttl), Shadow(h[..|h| - 1]), t, ttl)
    ensures InTimeOrder(Shadow(h), Clock(h)) && Tracks(Queue(h, ttl), Shadow(h), now, ttl)
  {
    var rest := h[..|h| - 1];
    GetKeepsTrack(Queue(rest, ttl), Shadow(rest), key, t, ttl);
    AdvanceKeepsTrack(Queue(h, ttl), Shadow(h), t, now, ttl);
  }

  lemma {:induction false} QueueTracksShadow(h: seq<Op>, now: int, ttl: int)
    requires Monotone(h) && NotBefore(now, Clock(h))
    ensures InTimeOrder(Shadow(h), Clock(h)) && Tracks(Queue(h, ttl), Shadow(h), now, ttl)
    decreases |h|
  {
    if h != [] {
      match h[|h| - 1] {
        case Put(e) =>
          QueueTracksShadow(h[..|h| - 1], e.storedAt, ttl);
          PutStep(h, e, now, ttl);
        case Get(key, t) =>
          QueueTracksShadow(h[..|h| - 1], t, ttl);
          GetStep(h, key, t, now, ttl);
        case Clear =>
      }
    }
  }

  // ----- The shadow, in terms of the history -----

  /** Place p of the shadow is the last put of its key, and what comes after it was put since. */
  ghost predicate ShadowHolds(h: seq<Op>, s: seq<Entry>, key: string, p: nat) {
    && p < |s| && s[p].key == key
    && LastPut(h, key).Some? && h[LastPut(h, key).value] == Put(s[p])
    && KeysOf(s[p + 1..]) == KeysSince(h, LastPut(h, key).value)
  }

  lemma KeysOfConcat(a: seq<Entry>, b: seq<Entry>)
    ensures KeysOf(a + b) == KeysOf(a) + KeysOf(b)
  {
    var ab := a + b;
    forall k | k in KeysOf(a) + KeysOf(b) ensures k in KeysOf(ab) {
      if k in KeysOf(a) {
        var i :| 0 <= i < |a| && a[i].key == k;
        assert ab[i].key == k;
      } else {
        var i :| 0 <= i < |b| && b[i].key == k;
        assert ab[|a| + i].key == k;
      }
    }
  }

  lemma KeysOfWithout(s: seq<Entry>, key: string)
    ensures KeysOf(Without(s, key)) == KeysOf(s) - {key}
  {
    var w := Without(s, key);
    forall k | k in KeysOf(s) - {key} ensures k in KeysOf(w) {
      var i :| 0 <= i < |s| && s[i].key == k;
      OthersStayIn(s, key, s[i]);
      var n :| 0 <= n < |w| && w[n] == s[i];
    }
    forall k | k in KeysOf(w) ensures k in KeysOf(s) - {key} {
      var i :| 0 <= i < |w| && w[i].key == k;
      var n :| 0 <= n < |s| && s[n] == w[i];
    }
  }

  lemma KeysSinceGrows(h: seq<Op>, i: nat)
    requires h != [] && i < |h| - 1
    ensures KeysSince(h, i) == KeysSince(h[..|h| - 1], i) + (if h[|h| - 1].Put? then {h[|h| - 1].entry.key} else {})
  {
    var rest := h[..|h| - 1];
    forall k | k in KeysSince(rest, i) ensures k in KeysSince(h, i) {
      var j :| i < j < |rest| && rest[j].Put? && rest[j].entry.key == k;
      assert h[j] == rest[j];
    }
    forall k | k in KeysSince(h, i) ensures k in KeysSince(rest, i) || (h[|h| - 1].Put? && h[|h| - 1].entry.key == k) {
      var j :| i < j < |h| && h[j].Put? && h[j].entry.key == k;
      if j < |rest| { assert rest[j] == h[j]; }
    }
  }

  lemma WithoutAround(s: seq<Entry>, p: nat, key: string)
    requires p < |s| && s[p].key != key
    ensures Without(s, key) == Without(s[..p], key) + [s[p]] + Without(s[p + 1..], key)
  {
    var a, b := s[..p], s[p + 1..];
    assert s == a + [s[p]] + b;
    WithoutConcat(a + [s[p]], b, key);
    WithoutConcat(a, [s[p]], key);
    WithoutAbsent([s[p]], key);
  }

  lemma KeysAfterPut(b: seq<Entry>, e: Entry)
    ensures KeysOf(Without(b, e.key) + [e]) == KeysOf(b) + {e.key}
  {
    KeysOfConcat(Without(b, e.key), [e]);
    KeysOfWithout(b, e.key);
    assert KeysOf([e]) == {e.key} by { assert [e][0].key == e.key; }
  }

  /** Another key's put leaves this one's entry, with one more key after it or the same. */
  lemma OtherPutKeepsPlace(h: seq<Op>, s: seq<Entry>, key: string, p: nat, e: Entry) returns (p': nat)
    requires h != [] && h[|h| - 1] == Put(e) && e.key != key
    requires ShadowHolds(h[..|h| - 1], s, key, p)
    ensures ShadowHolds(h, Without(s, e.key) + [e], key, p')
  {
    var a', b' := Without(s[..p], e.key), Without(s[p + 1..], e.key);
    WithoutAround(s, p, e.key);
    p' := |a'|;
    var s' := Without(s, e.key) + [e];
    assert s'[p'] == s[p] && s'[p' + 1..] == b' + [e];
    KeysAfterPut(s[p + 1..], e);
    KeysSinceGrows(h, LastPut(h[..|h| - 1], key).value);
  }

  lemma {:induction false} ShadowMeans(h: seq<Op>, key: string) returns (p: nat)
    ensures DistinctKeys(Shadow(h))
    ensures if LastPut(h, key).Some? then ShadowHolds(h, Shadow(h), key, p)
            else forall i :: 0 <= i < |Shadow(h)| ==> Shadow(h)[i].key != key
    decreases |h|
  {
    p := 0;
    if h != [] {
      var rest := h[..|h| - 1];
      var s := Shadow(rest);
      p := ShadowMeans(rest, key);
      match h[|h| - 1] {
        case Put(e) =>
          PutKeepsKeys(s, e);
          if e.key == key {
            p := |Without(s, key)|;
            assert KeysOf(Shadow(h)[p + 1..]) == {} == KeysSince(h, |h| - 1);
          } else if LastPut(h, key).Some? {
            p := OtherPutKeepsPlace(h, s, key, p, e);
          }
        case Get(_, _) =>
          if LastPut(h, key).Some? { KeysSinceGrows(h, LastPut(h, key).value); }
        case Clear =>
      }
    }
  }

  lemma {:induction false} OneKeyEach(q: seq<Entry>)
    requires DistinctKeys(q)
    ensures |KeysOf(q)| == |q|
    decreases |q|
  {
    if q != [] {
      var rest, last := q[..|q| - 1], q[|q| - 1];
      OneKeyEach(rest);
      KeysOfConcat(rest, [last]);
      assert KeysOf([last]) == {last.key} by { assert [last][0].key == last.key; }
      assert q == rest + [last];
      assert last.key !in KeysOf(rest);
    }
  }

  // ----- The law -----

  /** A decision is served. */
  ghost predicate Served(h: seq<Op>, key: string, now: int, ttl: int, v: Decision) {
    Hit(Queue(h, ttl), key, now, ttl) == Some(v)
  }

  /** It is the last one put since the last clear, still young, and few other keys were put since. */
  ghost predicate Remembered(h: seq<Op>, key: string, now: int, ttl: int, v: Decision) {
    && LastPut(h, key).Some?
    && var i := LastPut(h, key).value;
       h[i].entry.value == v && Fresh(h[i].entry, now, ttl) && |KeysSince(h, i)| < MAX_ENTRIES
  }

  lemma ServedIsRemembered(h: seq<Op>, key: string, now: int, ttl: int, v: Decision)
    requires Monotone(h) && NotBefore(now, Clock(h)) && Served(h, key, now, ttl, v)
    ensures Remembered(h, key, now, ttl, v)
  {
    var q, s := Queue(h, ttl), Shadow(h);
    QueueTracksShadow(h, now, ttl);
    var p := ShadowMeans(h, key);
    var at := FindEntry(q, key).value;
    var k :| 0 <= k < |s| && s[k] == q[at];
    assert k == p;
    SuffixKeepsDistinct(s, p + 1);
    OneKeyEach(s[p + 1..]);
    WithinBound(q, s, at, p, now, ttl);
  }

  lemma SuffixKeepsDistinct(s: seq<Entry>, p: nat)
    requires DistinctKeys(s) && p <= |s|
    ensures DistinctKeys(s[p..])
  {
  }

  lemma OnePlaceEach(s: seq<Entry>, a: nat, b: nat)
    requires DistinctKeys(s) && a < |s| && b < |s| && s[a] == s[b]
    ensures a == b
  {
    assert !(a < b) && !(b < a);
  }

  /** A fresh entry the bound has passed by is not in the queue: later ones fill it. */
  lemma WithinBound(q: seq<Entry>, s: seq<Entry>, i: nat, p: nat, now: int, ttl: int)
    requires Tracks(q, s, now, ttl) && InTimeOrder(s, Some(now)) && p < |s|
    requires i < |q| && q[i] == s[p] && Fresh(s[p], now, ttl)
    ensures |s| - p <= MAX_ENTRIES
  {
    var cut := |s| - MAX_ENTRIES;
    if p <= cut {
      assert KeptFrom(s, cut, now, ttl);
      assert q == s[cut..];
      OnePlaceEach(s, cut + i, p);
    }
  }

  lemma RememberedIsServed(h: seq<Op>, key: string, now: int, ttl: int, v: Decision)
    requires Monotone(h) && NotBefore(now, Clock(h)) && Remembered(h, key, now, ttl, v)
    ensures Served(h, key, now, ttl, v)
  {
    var q, s := Queue(h, ttl), Shadow(h);
    QueueTracksShadow(h, now, ttl);
    var p := ShadowMeans(h, key);
    SuffixKeepsDistinct(s, p + 1);
    OneKeyEach(s[p + 1..]);
    assert KeptFrom(s, p, now, ttl);
    assert q[|q| - (|s| - p)] == s[p..][0] == s[p];
    FindEntryIs(q, |q| - (|s| - p));
  }

  /**
   * For any history of calls with a clock that never runs backwards: a lookup hits exactly when the
   * last put of its key since the last clear is younger than the TTL and fewer than MAX_ENTRIES other
   * keys were put after it, and it answers with what that put stored.
   */
  lemma HitIff(h: seq<Op>, key: string, now: int, ttl: int, v: Decision)
    requires Monotone(h) && NotBefore(now, Clock(h))
    ensures Served(h, key, now, ttl, v) <==> Remembered(h, key, now, ttl, v)
  {
    if Served(h, key, now, ttl, v) { ServedIsRemembered(h, key, now, ttl, v); }
    if Remembered(h, key, now, ttl, v) { RememberedIsServed(h, key, now, ttl, v); }
  }
}
