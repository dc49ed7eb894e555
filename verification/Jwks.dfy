/**
 * The signing-key cache: one lock around each look at the cache, a fetch outside it, and a cooldown
 * that bounds what forged key ids can make the client fetch.
 */
module Jwks {
  import opened Basics

  /** One entry of a key document as JSON has it; `x` is what its text decodes to, if it is one. */
  datatype RawKey = RawKey(kty: Option<string>, crv: Option<string>, alg: Option<string>, x: Option<seq<int>>, kid: Option<string>)

  datatype Document = NotKeys | Keys(entries: seq<RawKey>)

  datatype Key = Key(x: seq<int>, kid: Option<string>)

  predicate Usable(k: RawKey) {
    && k.kty == Some("OKP") && k.crv == Some("Ed25519") && (k.alg.Some? ==> k.alg.value == "EdDSA")
    && k.x.Some? && |k.x.value| == 32
  }

  function KeysOf(entries: seq<RawKey>): (ks: seq<Key>)
    ensures forall i :: 0 <= i < |ks| ==> |ks[i].x| == 32
  {
    if entries == [] then []
    else
      var last := entries[|entries| - 1];
      KeysOf(entries[..|entries| - 1]) + (if Usable(last) then [Key(last.x.value, last.kid)] else [])
  }

  /** A usable key of the document carries this id. */
  ghost predicate Publishes(entries: seq<RawKey>, kid: string) {
    exists i :: 0 <= i < |entries| && Usable(entries[i]) && entries[i].kid == Some(kid)
  }

  /** The first key with this id; without an id, the only key there is. */
  function FindKey(ks: seq<Key>, kid: Option<string>): Option<Key> {
    match kid
    case None => if |ks| == 1 then Some(ks[0]) else None
    case Some(id) => FindId(ks, id, 0)
  }

  function FindId(ks: seq<Key>, id: string, from: nat): (r: Option<Key>)
    requires from <= |ks|
    ensures r.Some? <==> exists i :: from <= i < |ks| && ks[i].kid == Some(id)
    ensures r.Some? ==> r.value in ks && r.value.kid == Some(id)
    decreases |ks| - from
  {
    if from == |ks| then None else if ks[from].kid == Some(id) then Some(ks[from]) else FindId(ks, id, from + 1)
  }

  lemma {:induction false} KeysOfPublishes(entries: seq<RawKey>, kid: string)
    ensures (exists i :: 0 <= i < |KeysOf(entries)| && KeysOf(entries)[i].kid == Some(kid)) <==> Publishes(entries, kid)
    decreases |entries|
  {
    if entries != [] {
      var rest, last, ks := entries[..|entries| - 1], entries[|entries| - 1], KeysOf(entries);
      KeysOfPublishes(rest, kid);
      if i :| 0 <= i < |KeysOf(rest)| && KeysOf(rest)[i].kid == Some(kid) { assert ks[i].kid == Some(kid); }
      if Usable(last) && last.kid == Some(kid) { assert ks[|ks| - 1].kid == Some(kid); }
      if i :| 0 <= i < |ks| && ks[i].kid == Some(kid) {
        if i < |KeysOf(rest)| { assert KeysOf(rest)[i].kid == Some(kid); } else { assert Usable(entries[|entries| - 1]); }
      }
      if Publishes(rest, kid) {
        var i :| 0 <= i < |rest| && Usable(rest[i]) && rest[i].kid == Some(kid);
        assert entries[i] == rest[i];
      }
    }
  }

  /** A key is found by its id exactly when the document the cache came from publishes it. */
  lemma FoundIffPublished(entries: seq<RawKey>, kid: string)
    ensures FindKey(KeysOf(entries), Some(kid)).Some? <==> Publishes(entries, kid)
  {
    KeysOfPublishes(entries, kid);
  }

  // ----- Which key is found -----

  /** The entry offers this key: an Ed25519 key of 32 bytes, for EdDSA if it says what for, the bytes and the id its own. */
  ghost predicate Offers(e: RawKey, k: Key) {
    && e.kty == Some("OKP") && e.crv == Some("Ed25519") && (e.alg.None? || e.alg == Some("EdDSA"))
    && e.x == Some(k.x) && |k.x| == 32 && e.kid == k.kid
  }

  ghost predicate OffersNothing(e: RawKey) {
    forall o :: !Offers(e, o)
  }

  ghost predicate OffersOne(e: RawKey, k: Key) {
    forall o :: Offers(e, o) <==> o == k
  }

  /** Entry i offers the key under the id, and no earlier entry offers one under it. */
  ghost predicate FirstOffer(entries: seq<RawKey>, id: string, i: nat, k: Key) {
    && i < |entries| && Offers(entries[i], k) && k.kid == Some(id)
    && forall j, o :: 0 <= j < i && Offers(entries[j], o) ==> o.kid != Some(id)
  }

  /** Entry i offers the key, and no other entry offers any. */
  ghost predicate OnlyOffer(entries: seq<RawKey>, i: nat, k: Key) {
    && i < |entries| && Offers(entries[i], k)
    && forall j, o :: 0 <= j < |entries| && Offers(entries[j], o) ==> j == i
  }

  /** The key a document has for a token: the first offered under its id, or without an id the only one offered. */
  ghost predicate HasKey(entries: seq<RawKey>, kid: Option<string>, k: Key) {
    match kid
    case Some(id) => exists i: nat :: FirstOffer(entries, id, i, k)
    case None => exists i: nat :: OnlyOffer(entries, i, k)
  }

  /** An entry adds the key it offers, or nothing. */
  lemma KeysOfNext(entries: seq<RawKey>)
    requires entries != []
    ensures var rest, last, ks := KeysOf(entries[..|entries| - 1]), entries[|entries| - 1], KeysOf(entries);
      if OffersNothing(last) then ks == rest
      else |ks| == |rest| + 1 && ks[..|rest|] == rest && OffersOne(last, ks[|rest|])
  {
    var last := entries[|entries| - 1];
    if Usable(last) { assert Offers(last, Key(last.x.value, last.kid)); }
  }

  lemma {:induction false} FindIdNext(ks: seq<Key>, k: Key, id: string, from: nat)
    requires from <= |ks|
    ensures FindId(ks + [k], id, from) == if FindId(ks, id, from).Some? then FindId(ks, id, from) else if k.kid == Some(id) then Some(k) else None
    decreases |ks| - from
  {
    if from < |ks| { FindIdNext(ks, k, id, from + 1); }
  }

  lemma OfferBefore(entries: seq<RawKey>, id: string, i: nat, k: Key)
    requires entries != [] && i < |entries| - 1
    ensures FirstOffer(entries, id, i, k) <==> FirstOffer(entries[..|entries| - 1], id, i, k)
  {
    var rest := entries[..|entries| - 1];
    assert forall j :: 0 <= j < |rest| ==> rest[j] == entries[j];
  }

  lemma {:induction false} FindIdIs(entries: seq<RawKey>, id: string, k: Key)
    ensures FindId(KeysOf(entries), id, 0) == Some(k) <==> HasKey(entries, Some(id), k)
    decreases |entries|
  {
    if entries != [] {
      var rest, last, n := entries[..|entries| - 1], entries[|entries| - 1], |entries| - 1;
      KeysOfNext(entries);
      var ks := KeysOf(rest);
      if KeysOf(entries) != ks { FindIdNext(ks, KeysOf(entries)[|ks|], id, 0); assert KeysOf(entries) == ks + [KeysOf(entries)[|ks|]]; }
      FindIdIs(rest, id, k);
      var r := FindId(ks, id, 0);
      if r.Some? {
        FindIdIs(rest, id, r.value);
        var i: nat :| FirstOffer(rest, id, i, r.value);
        OfferBefore(entries, id, i, r.value);
        assert Offers(entries[i], r.value);
        forall j: nat | FirstOffer(entries, id, j, k) ensures k == r.value { assert j <= i; if j < i { OfferBefore(entries, id, j, k); } }
      } else {
        NoneOffered(rest, id);
        forall j: nat | FirstOffer(entries, id, j, k) ensures j == n { if j < n { OfferBefore(entries, id, j, k); } }
        if Offers(last, k) && k.kid == Some(id) { assert FirstOffer(entries, id, n, k); }
      }
    }
  }

  /** Where no key is found under an id, none is offered under it. */
  lemma NoneOffered(entries: seq<RawKey>, id: string)
    requires FindId(KeysOf(entries), id, 0).None?
    ensures forall j, o :: 0 <= j < |entries| && Offers(entries[j], o) ==> o.kid != Some(id)
  {
    KeysOfPublishes(entries, id);
    forall j, o | 0 <= j < |entries| && Offers(entries[j], o) ensures o.kid != Some(id) {
      assert !(Usable(entries[j]) && entries[j].kid == Some(id));
    }
  }

  lemma {:induction false} EmptyIff(entries: seq<RawKey>)
    ensures KeysOf(entries) == [] <==> forall j, o :: 0 <= j < |entries| ==> !Offers(entries[j], o)
    decreases |entries|
  {
    if entries != [] {
      var rest := entries[..|entries| - 1];
      KeysOfNext(entries);
      EmptyIff(rest);
      assert forall j :: 0 <= j < |rest| ==> rest[j] == entries[j];
      if |KeysOf(entries)| > |KeysOf(rest)| { assert Offers(entries[|rest|], KeysOf(entries)[|KeysOf(rest)|]); }
    }
  }

  /** An entry that offers nothing changes nothing. */
  lemma OnlyOfferAmong(entries: seq<RawKey>, i: nat, k: Key)
    requires entries != [] && OffersNothing(entries[|entries| - 1])
    ensures OnlyOffer(entries, i, k) <==> OnlyOffer(entries[..|entries| - 1], i, k)
  {
    var rest := entries[..|entries| - 1];
    assert forall j :: 0 <= j < |rest| ==> rest[j] == entries[j];
  }

  /** One that offers a key is the only one exactly when nothing came before it. */
  lemma OnlyOfferLast(entries: seq<RawKey>, i: nat, k: Key, last: Key)
    requires entries != [] && OffersOne(entries[|entries| - 1], last)
    ensures OnlyOffer(entries, i, k) <==> i == |entries| - 1 && KeysOf(entries[..|entries| - 1]) == [] && k == last
  {
    var rest, n := entries[..|entries| - 1], |entries| - 1;
    EmptyIff(rest);
    assert forall j :: 0 <= j < |rest| ==> rest[j] == entries[j];
    assert Offers(entries[n], last);
  }

  lemma {:induction false} OnlyKeyIs(entries: seq<RawKey>, k: Key)
    ensures KeysOf(entries) == [k] <==> exists i: nat :: OnlyOffer(entries, i, k)
    decreases |entries|
  {
    if entries != [] {
      var rest, n := entries[..|entries| - 1], |entries| - 1;
      var ks, was := KeysOf(entries), KeysOf(rest);
      KeysOfNext(entries);
      if OffersNothing(entries[n]) {
        OnlyKeyIs(rest, k);
        forall i: nat ensures OnlyOffer(entries, i, k) <==> OnlyOffer(rest, i, k) { OnlyOfferAmong(entries, i, k); }
      } else {
        var last := ks[|was|];
        forall i: nat ensures OnlyOffer(entries, i, k) <==> i == n && was == [] && k == last { OnlyOfferLast(entries, i, k, last); }
        assert (exists i: nat :: OnlyOffer(entries, i, k)) <==> OnlyOffer(entries, n, k);
        assert ks == was + [last] && (was == [] ==> ks == [last]);
      }
    }
  }

  /**
   * A lookup finds the document's own key: under an id exactly the first one offered under it, with
   * its own bytes; without an id exactly the one that is offered alone.
   */
  lemma FoundIsOffered(entries: seq<RawKey>, kid: Option<string>, k: Key)
    ensures FindKey(KeysOf(entries), kid) == Some(k) <==> HasKey(entries, kid, k)
  {
    match kid
    case Some(id) => FindIdIs(entries, id, k);
    case None => OnlyKeyIs(entries, k);
  }

  // ----- The cache, and what is done to it under the lock -----

  datatype Cache = Cache(keys: seq<Key>, valid: bool, fetchedAt: int, cooldownUntil: int)

  function Empty(): Cache { Cache([], false, 0, 0) }

  /** What a look at the cache decides. */
  datatype Verdict = Found(key: Key) | Refetch | Absent

  function Consult(c: Cache, kid: Option<string>, now: int, cooldown: int): (Cache, Verdict) {
    match FindKey(c.keys, kid)
    case Some(k) => (c, Found(k))
    case None => if now >= c.cooldownUntil then (c.(cooldownUntil := now + cooldown), Refetch) else (c, Absent)
  }

  function Swap(c: Cache, d: Document, now: int): (Cache, bool) {
    match d
    case NotKeys => (c, false)
    case Keys(entries) => (c.(keys := KeysOf(entries), valid := true, fetchedAt := now), true)
  }

  predicate Fresh(c: Cache, now: int, ttl: int) { c.valid && now - c.fetchedAt < ttl }

  class KeyCache {
    var keys: seq<Key>
    var valid: bool
    var fetchedAt: int
    var cooldownUntil: int
    const cooldown: int

    constructor (cooldown: int)
      ensures Value() == Empty() && this.cooldown == cooldown
    {
      keys, valid, fetchedAt, cooldownUntil := [], false, 0, 0;
      this.cooldown := cooldown;
    }

    function Value(): Cache
      reads this
    {
      Cache(keys, valid, fetchedAt, cooldownUntil)
    }

    /** find_key() */
    method Find(kid: Option<string>) returns (r: Option<Key>)
      ensures r == FindKey(keys, kid)
    {
      for i := 0 to |keys|
        invariant kid.Some? ==> FindId(keys, kid.value, 0) == FindId(keys, kid.value, i)
      {
        if kid.Some? && keys[i].kid == kid { return Some(keys[i]); }
      }
      return if kid.None? && |keys| == 1 then Some(keys[0]) else None;
    }

    /** lookup_key(), first time under the lock. */
    method LookUp(kid: Option<string>, now: int) returns (v: Verdict)
      modifies this
      ensures (Value(), v) == Consult(old(Value()), kid, now, cooldown)
      ensures keys == old(keys) && valid == old(valid) && fetchedAt == old(fetchedAt)
      ensures forall k :: v == Found(k) <==> FindKey(keys, kid) == Some(k)
      ensures v == Refetch <==> FindKey(keys, kid).None? && now >= old(cooldownUntil)
      ensures cooldownUntil == if v == Refetch then now + cooldown else old(cooldownUntil)
    {
      var key := Find(kid);
      if key.Some? { return Found(key.value); }
      if now < cooldownUntil { return Absent; }
      cooldownUntil := now + cooldown;
      return Refetch;
    }

    /** parse_jwks(): the usable keys, in document order, swapped in. */
    method Parse(d: Document, now: int) returns (ok: bool)
      modifies this
      ensures (Value(), ok) == Swap(old(Value()), d, now)
      ensures cooldownUntil == old(cooldownUntil)
      ensures if d.NotKeys? then !ok && Value() == old(Value()) else ok && valid && fetchedAt == now
      ensures ok ==> forall kid, k :: FindKey(keys, kid) == Some(k) <==> HasKey(d.entries, kid, k)
    {
      if d.NotKeys? { return false; }
      var list: seq<Key> := [];
      for i := 0 to |d.entries|
        invariant list == KeysOf(d.entries[..i])
        invariant Value() == old(Value())
      {
        assert d.entries[..i + 1][..i] == d.entries[..i];
        if Usable(d.entries[i]) { list := list + [Key(d.entries[i].x.value, d.entries[i].kid)]; }
      }
      assert d.entries[..|d.entries|] == d.entries;
      keys, fetchedAt, valid := list, now, true;
      forall kid, k ensures FindKey(keys, kid) == Some(k) <==> HasKey(d.entries, kid, k) {
        FoundIsOffered(d.entries, kid, k);
      }
      return true;
    }
  }

  // ----- Any number of callers -----

  /** How a call ends.  `from`: swaps so far when it looked.  `superseded`: somebody else swapped the cache after this call did. */
  datatype Ending =
    | Served(key: Key, from: nat)
    | Cooling(at: int)
    | NoDocument
    | Looked(entries: seq<RawKey>, superseded: bool, found: Option<Key>)

  datatype Pc =
    | Idle
    | Checking(kid: Option<string>)               // is the cache fresh?
    | Fetching(kid: Option<string>, forced: bool) // on the wire
    | Swapping(kid: Option<string>, forced: bool, d: Document)
    | Looking(kid: Option<string>)
    | LookingAgain(kid: Option<string>, entries: seq<RawKey>, swap: nat)
    | Done(kid: Option<string>, ending: Ending)

  /** A document swapped in, and when. */
  datatype Swapped = Swapped(entries: seq<RawKey>, at: int)

  /** `swaps` is every document swapped in so far; `refetches` is when each unknown-id refetch was decided. */
  datatype State = State(cache: Cache, clock: int, pcs: seq<Pc>, swaps: seq<Swapped>, refetches: seq<int>)

  datatype Config = Config(cooldown: int, ttl: int)

  datatype Action = Tick(seconds: nat) | Verify(thread: nat, keyId: Option<string>) | Arrives(thread: nat, body: Option<Document>) | Run(thread: nat)

  predicate Enabled(s: State, a: Action) {
    match a
    case Tick(_) => true
    case Verify(t, _) => t < |s.pcs| && (s.pcs[t].Idle? || s.pcs[t].Done?)
    case Arrives(t, _) => t < |s.pcs| && s.pcs[t].Fetching?
    case Run(t) => t < |s.pcs| && !s.pcs[t].Idle? && !s.pcs[t].Fetching? && !s.pcs[t].Done?
  }

  function At(s: State, t: nat, pc: Pc): State
    requires t < |s.pcs|
  {
    s.(pcs := s.pcs[t := pc])
  }

  function Do(g: Config, s: State, a: Action): (s': State)
    requires Enabled(s, a)
    ensures |s'.pcs| == |s.pcs|
  {
    match a
    case Tick(seconds) => s.(clock := s.clock + seconds)
    case Verify(t, kid) => At(s, t, Checking(kid))
    case Arrives(t, body) =>
      var pc := s.pcs[t];
      At(s, t, if body.None? then Done(pc.kid, NoDocument) else Swapping(pc.kid, pc.forced, body.value))
    case Run(t) => RunThread(g, s, t)
  }

  function RunThread(g: Config, s: State, t: nat): (s': State)
    requires Enabled(s, Run(t))
    ensures |s'.pcs| == |s.pcs|
  {
    match s.pcs[t]
    case Checking(kid) => At(s, t, if Fresh(s.cache, s.clock, g.ttl) then Looking(kid) else Fetching(kid, false))
    case Swapping(kid, forced, d) =>
      var (cache, ok) := Swap(s.cache, d, s.clock);
      if !ok then At(s, t, Done(kid, NoDocument))
      else At(s, t, if forced then LookingAgain(kid, d.entries, |s.swaps| + 1) else Looking(kid))
           .(cache := cache, swaps := s.swaps + [Swapped(d.entries, s.clock)])
    case Looking(kid) =>
      var (cache, v) := Consult(s.cache, kid, s.clock, g.cooldown);
      var pc := if v.Found? then Done(kid, Served(v.key, |s.swaps|)) else if v.Absent? then Done(kid, Cooling(s.clock)) else Fetching(kid, true);
      At(s, t, pc).(cache := cache, refetches := if v.Refetch? then s.refetches + [s.clock] else s.refetches)
    case LookingAgain(kid, entries, swap) =>
      At(s, t, Done(kid, Looked(entries, |s.swaps| != swap, FindKey(s.cache.keys, kid))))
    case _ => s
  }

  function Initial(threads: nat, clock: nat): State {
    State(Empty(), clock, seq(threads, _ => Idle), [], [])
  }

  ghost predicate Possible(g: Config, s: State, run: seq<Action>)
    decreases |run|, 0
  {
    run != [] ==> Possible(g, s, run[..|run| - 1]) && Enabled(After(g, s, run[..|run| - 1]), run[|run| - 1])
  }

  ghost function After(g: Config, s: State, run: seq<Action>): (s': State)
    requires Possible(g, s, run)
    ensures |s'.pcs| == |s.pcs|
    decreases |run|, 1
  {
    if run == [] then s else Do(g, After(g, s, run[..|run| - 1]), run[|run| - 1])
  }

  // ----- The invariant -----

  ghost predicate Spaced(g: Config, s: State) {
    && 0 <= s.clock
    && (forall i :: 0 <= i < |s.refetches| - 1 ==> s.refetches[i] + g.cooldown <= s.refetches[i + 1])
    && (forall i :: 0 <= i < |s.refetches| ==> s.refetches[i] <= s.clock)
    && s.cache.cooldownUntil == if s.refetches == [] then 0 else s.refetches[|s.refetches| - 1] + g.cooldown
  }

  /** At that time some refetch was less than one cooldown old. */
  ghost predicate Within(g: Config, s: State, at: int) {
    exists i :: 0 <= i < |s.refetches| && s.refetches[i] <= at < s.refetches[i] + g.cooldown
  }

  /** The cache is what the last document left, or nothing yet. */
  ghost predicate Cached(s: State) {
    if s.swaps == [] then s.cache.keys == [] && !s.cache.valid
    else var last := s.swaps[|s.swaps| - 1];
      s.cache.keys == KeysOf(last.entries) && s.cache.valid && s.cache.fetchedAt == last.at
  }

  ghost predicate Sound(g: Config, s: State, pc: Pc) {
    && (pc.Done? && pc.ending.Served? ==>
         0 < pc.ending.from <= |s.swaps| && FindKey(KeysOf(s.swaps[pc.ending.from - 1].entries), pc.kid) == Some(pc.ending.key))
    && (pc.LookingAgain? ==> pc.swap <= |s.swaps| && (pc.swap == |s.swaps| ==> s.cache.keys == KeysOf(pc.entries)))
    && (pc.Done? && pc.ending.Cooling? ==> Within(g, s, pc.ending.at))
    && (pc.Done? && pc.ending.Looked? && !pc.ending.superseded ==> pc.ending.found == FindKey(KeysOf(pc.ending.entries), pc.kid))
  }

  ghost predicate Invariant(g: Config, s: State) {
    Spaced(g, s) && Cached(s) && forall t :: 0 <= t < |s.pcs| ==> Sound(g, s, s.pcs[t])
  }

  lemma KeepsSpaced(g: Config, s: State, a: Action)
    requires Invariant(g, s) && Enabled(s, a) && g.cooldown > 0
    ensures Spaced(g, Do(g, s, a)) && s.refetches <= Do(g, s, a).refetches
  {
  }

  /** A step leaves keys and documents as they are, or swaps one in. */
  lemma KeepsCached(g: Config, s: State, a: Action)
    requires Cached(s) && Enabled(s, a)
    ensures Cached(Do(g, s, a)) && s.swaps <= Do(g, s, a).swaps
  {
    if a.Run? && s.pcs[a.thread].Swapping? { SwapKeepsCached(g, s, a.thread); } else { NoSwapKeepsCached(g, s, a); }
  }

  lemma SwapKeepsCached(g: Config, s: State, t: nat)
    requires Cached(s) && Enabled(s, Run(t)) && s.pcs[t].Swapping?
    ensures Cached(Do(g, s, Run(t))) && s.swaps <= Do(g, s, Run(t)).swaps
  {
  }

  lemma NoSwapKeepsCached(g: Config, s: State, a: Action)
    requires Cached(s) && Enabled(s, a) && !(a.Run? && s.pcs[a.thread].Swapping?)
    ensures var s' := Do(g, s, a); Cached(s') && s'.swaps == s.swaps
  {
  }

  lemma KeepsOwn(g: Config, s: State, t: nat)
    requires Invariant(g, s) && Enabled(s, Run(t)) && g.cooldown > 0
    ensures Sound(g, Do(g, s, Run(t)), Do(g, s, Run(t)).pcs[t])
  {
    assert Sound(g, s, s.pcs[t]);
    KeepsSpaced(g, s, Run(t));
    KeepsCached(g, s, Run(t));
    if s.pcs[t].Looking? && s.clock < s.cache.cooldownUntil {
      assert Within(g, s, s.clock) by { assert s.refetches[|s.refetches| - 1] <= s.clock; }
    }
  }

  lemma KeepsOther(g: Config, s: State, a: Action, u: nat)
    requires Invariant(g, s) && Enabled(s, a) && g.cooldown > 0 && u < |s.pcs|
    requires a.Tick? || a.thread != u || !a.Run?
    ensures Sound(g, Do(g, s, a), Do(g, s, a).pcs[u])
  {
    assert Sound(g, s, s.pcs[u]);
    KeepsSpaced(g, s, a);
    KeepsCached(g, s, a);
  }

  lemma StepKeepsInvariant(g: Config, s: State, a: Action)
    requires Invariant(g, s) && Enabled(s, a) && g.cooldown > 0
    ensures Invariant(g, Do(g, s, a))
  {
    KeepsSpaced(g, s, a);
    KeepsCached(g, s, a);
    forall u | 0 <= u < |s.pcs| ensures Sound(g, Do(g, s, a), Do(g, s, a).pcs[u]) {
      if a == Run(u) { KeepsOwn(g, s, u); } else { KeepsOther(g, s, a, u); }
    }
  }

  lemma {:induction false} EveryRunKeeps(g: Config, s: State, run: seq<Action>)
    requires Invariant(g, s) && Possible(g, s, run) && g.cooldown > 0
    ensures Invariant(g, After(g, s, run))
    decreases |run|
  {
    if run != [] {
      EveryRunKeeps(g, s, run[..|run| - 1]);
      StepKeepsInvariant(g, After(g, s, run[..|run| - 1]), run[|run| - 1]);
    }
  }

  // ----- What every run keeps -----

  lemma {:induction false} SpreadOut(rs: seq<int>, c: int, i: nat, j: nat)
    requires i <= j < |rs| && forall k :: 0 <= k < |rs| - 1 ==> rs[k] + c <= rs[k + 1]
    ensures rs[i] + (j - i) * c <= rs[j]
    decreases j
  {
    if i < j {
      SpreadOut(rs, c, i, j - 1);
      assert (j - i) * c == (j - 1 - i) * c + c;
    }
  }

  lemma EveryRunIsSound(g: Config, threads: nat, clock: nat, run: seq<Action>)
    requires g.cooldown > 0 && Possible(g, Initial(threads, clock), run)
    ensures var s := After(g, Initial(threads, clock), run);
      Spaced(g, s) && Cached(s) && |s.pcs| == threads && forall t :: 0 <= t < threads ==> Sound(g, s, s.pcs[t])
  {
    EveryRunKeeps(g, Initial(threads, clock), run);
  }

  /**
   * Any callers, any interleaving, any forged ids: unknown-id refetches are a cooldown apart, so an
   * interval of length T holds at most T / cooldown + 1 of them.
   */
  lemma RefetchesAreBounded(g: Config, threads: nat, clock: nat, run: seq<Action>, i: nat, j: nat)
    requires g.cooldown > 0 && Possible(g, Initial(threads, clock), run)
    requires i <= j < |After(g, Initial(threads, clock), run).refetches|
    ensures var rs := After(g, Initial(threads, clock), run).refetches;
      (i < j ==> rs[i] + g.cooldown <= rs[j]) && j - i + 1 <= (rs[j] - rs[i]) / g.cooldown + 1
  {
    EveryRunIsSound(g, threads, clock, run);
    GapsBound(After(g, Initial(threads, clock), run).refetches, g.cooldown, i, j);
  }

  lemma GapsBound(rs: seq<int>, c: int, i: nat, j: nat)
    requires c > 0 && i <= j < |rs| && forall k :: 0 <= k < |rs| - 1 ==> rs[k] + c <= rs[k + 1]
    ensures (i < j ==> rs[i] + c <= rs[j]) && j - i + 1 <= (rs[j] - rs[i]) / c + 1
  {
    SpreadOut(rs, c, i, j);
    if i < j { SpreadOut(rs, c, i + 1, j); }
    Quotient(rs[j] - rs[i], c, j - i);
  }

  lemma Quotient(x: int, c: int, n: nat)
    requires c > 0 && n * c <= x
    ensures n <= x / c
  {
    assert x == (x / c) * c + x % c;
    assert (x / c + 1 - n) * c == (x / c) * c + c - n * c;
    PositiveFactor(x / c + 1 - n, c);
  }

  /** A call gives up without a fetch of its own only inside the window a refetch opened. */
  lemma GivesUpOnlyInsideTheWindow(g: Config, threads: nat, clock: nat, run: seq<Action>, t: nat)
    requires g.cooldown > 0 && Possible(g, Initial(threads, clock), run) && t < threads
    requires var pc := After(g, Initial(threads, clock), run).pcs[t]; pc.Done? && pc.ending.Cooling?
    ensures var s := After(g, Initial(threads, clock), run); Within(g, s, s.pcs[t].ending.at)
  {
    EveryRunIsSound(g, threads, clock, run);
    assert Sound(g, After(g, Initial(threads, clock), run), After(g, Initial(threads, clock), run).pcs[t]);
  }

  /**
   * A call that refetched finds its key exactly when the server published it, and then the one the
   * document has for it, unless a later swap came in between.
   */
  lemma RefetchFindsIffPublished(g: Config, threads: nat, clock: nat, run: seq<Action>, t: nat, k: Key)
    requires g.cooldown > 0 && Possible(g, Initial(threads, clock), run) && t < threads
    requires var pc := After(g, Initial(threads, clock), run).pcs[t]; pc.Done? && pc.ending.Looked? && !pc.ending.superseded
    ensures var pc := After(g, Initial(threads, clock), run).pcs[t];
      && (pc.kid.Some? ==> (pc.ending.found.Some? <==> Publishes(pc.ending.entries, pc.kid.value)))
      && (pc.ending.found == Some(k) <==> HasKey(pc.ending.entries, pc.kid, k))
  {
    EveryRunIsSound(g, threads, clock, run);
    var pc := After(g, Initial(threads, clock), run).pcs[t];
    assert Sound(g, After(g, Initial(threads, clock), run), pc);
    if pc.kid.Some? { FoundIffPublished(pc.ending.entries, pc.kid.value); }
    FoundIsOffered(pc.ending.entries, pc.kid, k);
  }

  /** A key served from the cache is the one that the document last swapped in at that moment has for the token. */
  lemma ServedIsOffered(g: Config, threads: nat, clock: nat, run: seq<Action>, t: nat)
    requires g.cooldown > 0 && Possible(g, Initial(threads, clock), run) && t < threads
    requires var pc := After(g, Initial(threads, clock), run).pcs[t]; pc.Done? && pc.ending.Served?
    ensures var s := After(g, Initial(threads, clock), run); var pc := s.pcs[t];
      0 < pc.ending.from <= |s.swaps| && HasKey(s.swaps[pc.ending.from - 1].entries, pc.kid, pc.ending.key)
  {
    EveryRunIsSound(g, threads, clock, run);
    var s := After(g, Initial(threads, clock), run);
    assert Sound(g, s, s.pcs[t]);
    FoundIsOffered(s.swaps[s.pcs[t].ending.from - 1].entries, s.pcs[t].kid, s.pcs[t].ending.key);
  }

  /** Without an unknown id a call fetches exactly when no document was swapped in yet or the last one a TTL ago or more. */
  lemma FetchesIffStale(g: Config, threads: nat, clock: nat, run: seq<Action>, t: nat)
    requires g.cooldown > 0 && Possible(g, Initial(threads, clock), run) && t < threads
    requires After(g, Initial(threads, clock), run).pcs[t].Checking?
    ensures var s := After(g, Initial(threads, clock), run); var kid := s.pcs[t].kid;
      Do(g, s, Run(t)).pcs[t]
        == if s.swaps == [] || s.clock - s.swaps[|s.swaps| - 1].at >= g.ttl then Fetching(kid, false) else Looking(kid)
  {
    EveryRunIsSound(g, threads, clock, run);
  }
}
