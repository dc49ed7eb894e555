/** axiam_check_access() with the memo in front of the wire: what it serves is what the server said. */
module Checking {
  import opened Basics
  import opened Timed
  import opened Memo

  // ----- The key -----

  const SEP: char := '\U{1F}'
  const ABSENT := ['\U{1}']

  /** A NULL and an empty subject, scope or acting tenant are the same question. */
  datatype Question = Question(
    subject: Option<string>, resource: string, action: string, scope: Option<string>, acting: Option<string>)

  function Component(x: Option<string>): string {
    if x.Some? && x.value != "" then x.value else ABSENT
  }

  function Key(q: Question): string {
    Component(q.subject) + [SEP] + q.resource + [SEP] + q.action + [SEP] + Component(q.scope) + [SEP] + Component(q.acting)
  }

  function Plain(x: Option<string>): Option<string> {
    if x == Some("") then None else x
  }

  predicate SameQuestion(a: Question, b: Question) {
    && Plain(a.subject) == Plain(b.subject) && a.resource == b.resource && a.action == b.action
    && Plain(a.scope) == Plain(b.scope) && Plain(a.acting) == Plain(b.acting)
  }

  predicate CleanOption(x: Option<string>) {
    x.Some? ==> SEP !in x.value && x.value != ABSENT
  }

  /** No separator in any component, and no optional component that is the absent marker. */
  predicate Clean(q: Question) {
    && CleanOption(q.subject) && SEP !in q.resource && SEP !in q.action && CleanOption(q.scope) && CleanOption(q.acting)
  }

  lemma SplitOnce(a: string, x: string, b: string, y: string)
    requires SEP !in a && SEP !in b && a + [SEP] + x == b + [SEP] + y
    ensures a == b && x == y
  {
    var t := a + [SEP] + x;
    Joins(a, [SEP], x);
    Joins(b, [SEP], y);
    FirstAfter(a, [SEP] + x, SEP);
    FirstAfter(b, [SEP] + y, SEP);
    assert a == t[..|a|] && b == t[..|b|] && x == t[|a| + 1..] && y == t[|b| + 1..];
  }

  function KeyTail(q: Question): string {
    q.resource + [SEP] + (q.action + [SEP] + (Component(q.scope) + [SEP] + Component(q.acting)))
  }

  lemma KeySplits(q: Question)
    ensures Key(q) == Component(q.subject) + [SEP] + KeyTail(q)
  {
  }

  /** Both say the same, or one is silent where the other is the marker that stands for silence. */
  predicate SameSaid(a: Option<string>, b: Option<string>) {
    Plain(a) == Plain(b) || (Plain(a).None? && b == Some(ABSENT)) || (a == Some(ABSENT) && Plain(b).None?)
  }

  predicate Unseparated(q: Question) {
    && SEP !in Component(q.subject) && SEP !in q.resource && SEP !in q.action
    && SEP !in Component(q.scope) && SEP !in Component(q.acting)
  }

  /**
   * Without separators, exactly when two questions share a key: they are one question but for a
   * subject, scope or acting tenant absent in one and equal to the absent marker in the other.
   */
  lemma KeysCoincideIff(a: Question, b: Question)
    requires Unseparated(a) && Unseparated(b)
    ensures Key(a) == Key(b)
       <==> SameSaid(a.subject, b.subject) && a.resource == b.resource && a.action == b.action
            && SameSaid(a.scope, b.scope) && SameSaid(a.acting, b.acting)
  {
    if Key(a) == Key(b) {
      KeySplits(a);
      KeySplits(b);
      SplitOnce(Component(a.subject), KeyTail(a), Component(b.subject), KeyTail(b));
      SplitOnce(a.resource, a.action + [SEP] + (Component(a.scope) + [SEP] + Component(a.acting)),
                b.resource, b.action + [SEP] + (Component(b.scope) + [SEP] + Component(b.acting)));
      SplitOnce(a.action, Component(a.scope) + [SEP] + Component(a.acting),
                b.action, Component(b.scope) + [SEP] + Component(b.acting));
      SplitOnce(Component(a.scope), Component(a.acting), Component(b.scope), Component(b.acting));
    }
  }

  /** One key for one question: no two questions whose components are clean share an entry. */
  lemma KeyIsInjective(a: Question, b: Question)
    requires Clean(a) && Clean(b)
    ensures Key(a) == Key(b) <==> SameQuestion(a, b)
  {
    KeysCoincideIff(a, b);
  }

  /** Both conditions are needed: a separator moves a boundary, and the marker passes for an absence. */
  lemma UncleanKeysCollide()
    ensures var a := Question(None, "r" + [SEP] + "x", "y", None, None); var b := Question(None, "r", "x" + [SEP] + "y", None, None);
      Key(a) == Key(b) && !SameQuestion(a, b)
    ensures var a := Question(None, "r", "x", Some(ABSENT), None); var b := Question(None, "r", "x", None, None);
      Key(a) == Key(b) && !SameQuestion(a, b)
  {
    var a, b := Question(None, "r" + [SEP] + "x", "y", None, None), Question(None, "r", "x" + [SEP] + "y", None, None);
    assert |a.resource| == 3 && |b.resource| == 1;
    assert Key(a) == Key(b);
  }

  // ----- The log of one client -----

  /**
   * Asked: a lookup.  Said: a 2xx answer, and what its body parses to, if it does.  Forgot: any
   * login, MFA step, logout, close, credential switch or refresh, each of which clears the memo.
   */
  datatype Event =
    | Asked(q: Question, at: int)
    | Said(q: Question, decision: Option<Decision>, at: int)
    | Forgot

  /** What a caller is left with when a 2xx body does not parse: its zeroed result. */
  const ZEROED := Decision(false, None, None)

  function OpOf(e: Event): Op {
    match e
    case Asked(q, at) => Get(Key(q), at)
    case Said(q, decision, at) => Put(Entry(Key(q), decision.GetOr(ZEROED), at))
    case Forgot => Clear
  }

  function OpsOf(log: seq<Event>): (h: seq<Op>)
    ensures |h| == |log| && forall i :: 0 <= i < |log| ==> h[i] == OpOf(log[i])
  {
    seq(|log|, i requires 0 <= i < |log| => OpOf(log[i]))
  }

  predicate AllClean(log: seq<Event>) {
    forall i :: 0 <= i < |log| && !log[i].Forgot? ==> Clean(log[i].q)
  }

  /** Event i is the server's last answer to this question, given within the TTL, with no clear since. */
  ghost predicate LastSaid(log: seq<Event>, q: Question, now: int, ttl: int, i: nat) {
    && i < |log| && log[i].Said? && SameQuestion(log[i].q, q) && now - log[i].at < ttl
    && forall j :: i < j < |log| ==> !log[j].Forgot? && (log[j].Said? ==> !SameQuestion(log[j].q, q))
  }

  /** The same by the memo's key, which is all the memo compares. */
  ghost predicate LastSaidUnder(log: seq<Event>, key: string, now: int, ttl: int, i: nat) {
    && i < |log| && log[i].Said? && Key(log[i].q) == key && now - log[i].at < ttl
    && forall j :: i < j < |log| ==> !log[j].Forgot? && (log[j].Said? ==> Key(log[j].q) != key)
  }

  /** Whatever the memo serves is the latest answer under its key, within the TTL, with no clear in between. */
  lemma ServedWasSaidUnder(log: seq<Event>, key: string, now: int, ttl: int, v: Decision) returns (i: nat)
    requires Monotone(OpsOf(log)) && NotBefore(now, Clock(OpsOf(log))) && Served(OpsOf(log), key, now, ttl, v)
    ensures LastSaidUnder(log, key, now, ttl, i) && v == log[i].decision.GetOr(ZEROED)
  {
    var h := OpsOf(log);
    HitIff(h, key, now, ttl, v);
    i := LastPut(h, key).value;
    assert h[i] == OpOf(log[i]);
    forall j | i < j < |log| ensures !log[j].Forgot? && (log[j].Said? ==> Key(log[j].q) != key) {
      assert h[j] == OpOf(log[j]);
    }
  }

  /** The keys of the answers given after event i. */
  function KeysSaidSince(log: seq<Event>, i: nat): set<string> {
    set j | i < j < |log| && log[j].Said? :: Key(log[j].q)
  }

  /** The memo still has the answer of event i: the last under its key, young, and fewer than 1024 other keys answered since. */
  ghost predicate StillHeld(log: seq<Event>, key: string, now: int, ttl: int, i: nat) {
    LastSaidUnder(log, key, now, ttl, i) && |KeysSaidSince(log, i)| < 1024
  }

  /** What event i said: what its body parsed to, or the zeroed denial when it did not. */
  ghost predicate SaysSo(e: Event, v: Decision) {
    e.Said? && match e.decision case Some(d) => v == d case None => v == Decision(false, None, None)
  }

  lemma SaidSinceIsPutSince(log: seq<Event>, i: nat)
    ensures KeysSaidSince(log, i) == KeysSince(OpsOf(log), i)
  {
    var h := OpsOf(log);
    assert forall j :: 0 <= j < |log| ==> h[j] == OpOf(log[j]);
    forall k | k in KeysSaidSince(log, i) ensures k in KeysSince(h, i) {
      var j :| i < j < |log| && log[j].Said? && Key(log[j].q) == k;
      assert h[j].Put? && h[j].entry.key == k;
    }
    forall k | k in KeysSince(h, i) ensures k in KeysSaidSince(log, i) {
      var j :| i < j < |h| && h[j].Put? && h[j].entry.key == k;
      assert log[j].Said? && Key(log[j].q) == k;
    }
  }

  /** The last put of a key is the last answer under it. */
  lemma LastPutIs(log: seq<Event>, key: string, i: nat)
    requires i < |log| && log[i].Said? && Key(log[i].q) == key
    requires forall j :: i < j < |log| ==> !log[j].Forgot? && (log[j].Said? ==> Key(log[j].q) != key)
    ensures LastPut(OpsOf(log), key) == Some(i)
  {
    LastPutFrom(OpsOf(log), key, i);
  }

  lemma {:induction false} LastPutFrom(h: seq<Op>, key: string, i: nat)
    requires i < |h| && h[i].Put? && h[i].entry.key == key
    requires forall j :: i < j < |h| ==> !h[j].Clear? && (h[j].Put? ==> h[j].entry.key != key)
    ensures LastPut(h, key) == Some(i)
    decreases |h|
  {
    if i < |h| - 1 { LastPutFrom(h[..|h| - 1], key, i); }
  }

  /** A lookup is served exactly when the memo still has an answer under its key, and then with what that answer said. */
  lemma ServedIff(log: seq<Event>, key: string, now: int, ttl: int, v: Decision)
    requires Monotone(OpsOf(log)) && NotBefore(now, Clock(OpsOf(log)))
    ensures Served(OpsOf(log), key, now, ttl, v) <==> exists i: nat :: StillHeld(log, key, now, ttl, i) && SaysSo(log[i], v)
  {
    var h := OpsOf(log);
    HitIff(h, key, now, ttl, v);
    if Served(h, key, now, ttl, v) {
      var i := ServedWasSaidUnder(log, key, now, ttl, v);
      LastPutIs(log, key, i);
      SaidSinceIsPutSince(log, i);
      assert StillHeld(log, key, now, ttl, i) && SaysSo(log[i], v);
    }
    if i: nat :| StillHeld(log, key, now, ttl, i) && SaysSo(log[i], v) {
      LastPutIs(log, key, i);
      SaidSinceIsPutSince(log, i);
      assert h[i] == OpOf(log[i]);
    }
  }

  /** The memo has an answer to this. */
  ghost predicate CanServe(log: seq<Event>, key: string, now: int, ttl: int) {
    exists i: nat :: StillHeld(log, key, now, ttl, i)
  }

  /** Of the answers under a key the memo can have only the last, so there is one thing it can serve. */
  lemma HitIffHeld(log: seq<Event>, key: string, now: int, ttl: int)
    requires Monotone(OpsOf(log)) && NotBefore(now, Clock(OpsOf(log)))
    ensures var r := Hit(Queue(OpsOf(log), ttl), key, now, ttl);
      && (r.Some? <==> CanServe(log, key, now, ttl))
      && forall i: nat :: r.Some? && StillHeld(log, key, now, ttl, i) ==> SaysSo(log[i], r.value)
  {
    var r := Hit(Queue(OpsOf(log), ttl), key, now, ttl);
    if r.Some? { ServedIff(log, key, now, ttl, r.value); }
    forall i: nat | StillHeld(log, key, now, ttl, i) ensures r.Some? && SaysSo(log[i], r.value) {
      var v := log[i].decision.GetOr(ZEROED);
      assert SaysSo(log[i], v);
      ServedIff(log, key, now, ttl, v);
    }
  }

  /** Among clean questions the key stands for the question. */
  lemma LastUnderIsLast(log: seq<Event>, q: Question, now: int, ttl: int, i: nat)
    requires AllClean(log) && Clean(q)
    ensures LastSaidUnder(log, Key(q), now, ttl, i) <==> LastSaid(log, q, now, ttl, i)
  {
    forall j | 0 <= j < |log| && log[j].Said? ensures Key(log[j].q) == Key(q) <==> SameQuestion(log[j].q, q) {
      KeyIsInjective(log[j].q, q);
    }
  }

  /**
   * Transparency: whatever the memo serves, the server said: the same question, its latest answer,
   * within the TTL, with no clear in between.
   */
  lemma ServedWasSaid(log: seq<Event>, q: Question, now: int, ttl: int, v: Decision) returns (i: nat)
    requires AllClean(log) && Clean(q) && Monotone(OpsOf(log)) && NotBefore(now, Clock(OpsOf(log)))
    requires Served(OpsOf(log), Key(q), now, ttl, v)
    ensures LastSaid(log, q, now, ttl, i) && v == log[i].decision.GetOr(ZEROED)
  {
    i := ServedWasSaidUnder(log, Key(q), now, ttl, v);
    LastUnderIsLast(log, q, now, ttl, i);
  }

  /** The server gave this decision for this question, in a body that parsed. */
  ghost predicate Given(log: seq<Event>, q: Question, v: Decision) {
    exists i :: 0 <= i < |log| && log[i].Said? && SameQuestion(log[i].q, q) && log[i].decision == Some(v)
  }

  /** The answer served is a decision the server gave exactly when that answer's body parsed; else it is the zeroed denial. */
  lemma ServedWasGivenIff(log: seq<Event>, q: Question, now: int, ttl: int, v: Decision) returns (i: nat)
    requires AllClean(log) && Clean(q) && Monotone(OpsOf(log)) && NotBefore(now, Clock(OpsOf(log)))
    requires Served(OpsOf(log), Key(q), now, ttl, v)
    ensures LastSaid(log, q, now, ttl, i)
    ensures log[i].decision == Some(v) <==> log[i].decision.Some?
    ensures log[i].decision.Some? ==> Given(log, q, v)
    ensures log[i].decision.None? ==> v == ZEROED
  {
    i := ServedWasSaid(log, q, now, ttl, v);
  }

  /** When it did not, the memo serves a denial nobody gave. */
  lemma UnparsedBodyIsServed(q: Question, ttl: int)
    requires Clean(q) && ttl > 1
    ensures var log := [Said(q, None, 0)];
      Monotone(OpsOf(log)) && Served(OpsOf(log), Key(q), 1, ttl, ZEROED) && !Given(log, q, ZEROED)
  {
    var log := [Said(q, None, 0)];
    var h := OpsOf(log);
    assert h == [Put(Entry(Key(q), ZEROED, 0))];
    assert h[..0] == [] && Queue(h, ttl) == [Entry(Key(q), ZEROED, 0)];
  }

  // ----- The call -----

  /** How the wire answers: an error, or a 2xx whose body parses or not.  A refresh on the way clears the memo. */
  datatype Wire = Wire(refreshed: bool, answer: Answer)
  datatype Answer = Denied(kind: int) | Body(decision: Option<Decision>)

  datatype Checked = Failed(kind: int) | Decided(decision: Decision)

  function Forgotten(refreshed: bool): seq<Event> {
    if refreshed then [Forgot] else []
  }

  function Stored(q: Question, answer: Answer, t: int, keyed: bool): seq<Event> {
    if keyed && answer.Body? then [Said(q, answer.decision, t)] else []
  }

  function Heard(q: Question, w: Wire, t: int, keyed: bool): seq<Event> {
    Forgotten(w.refreshed) + Stored(q, w.answer, t, keyed)
  }

  class Checker {
    const memo: DecisionMemo
    ghost var log: seq<Event>

    constructor (requestedTtl: int)
      ensures Valid() && log == [] && memo.ttl == EffectiveTtl(requestedTtl) && fresh(memo) && fresh(memo.repr)
    {
      memo := new DecisionMemo(requestedTtl);
      log := [];
    }

    /** The memo holds what its calls so far, in order, leave in it. */
    ghost predicate Valid()
      reads this, memo, memo.repr
    {
      memo.Valid() && memo.Contents() == Queue(OpsOf(log), memo.ttl) && Monotone(OpsOf(log))
    }

    ghost method Record(e: Event)
      requires match e case Asked(_, at) => NotBefore(at, Clock(OpsOf(log))) case Said(_, _, at) => NotBefore(at, Clock(OpsOf(log)))
                       case Forgot => true
      requires Monotone(OpsOf(log))
      modifies this`log
      ensures log == old(log) + [e] && OpsOf(log)[..|log| - 1] == OpsOf(old(log)) && OpsOf(log)[|log| - 1] == OpOf(e)
      ensures Monotone(OpsOf(log))
    {
      log := log + [e];
      assert OpsOf(log)[..|log| - 1] == OpsOf(old(log));
    }

    /** Every credential change goes through here, whatever its outcome on the server. */
    method Forget()
      requires Valid()
      modifies this, memo
      ensures Valid() && log == old(log) + [Forgot] && memo.repr == old(memo.repr)
      ensures Clock(OpsOf(log)) == Clock(OpsOf(old(log)))
    {
      memo.Clear();
      Record(Forgot);
    }

    /** The memo before the wire. */
    method Lookup(q: Question, now: int) returns (r: Option<Decision>)
      requires Valid() && memo.ttl > 0 && NotBefore(now, Clock(OpsOf(log)))
      modifies this, memo, memo.repr
      ensures Valid() && log == old(log) + [Asked(q, now)]
      ensures r == Hit(Queue(OpsOf(old(log)), memo.ttl), Key(q), now, memo.ttl)
      ensures memo.repr == old(memo.repr)
    {
      r := memo.Get(Key(q), now);
      Record(Asked(q, now));
    }

    /** The memo after it: what the caller was given, parsed or not. */
    method Store(q: Question, decision: Option<Decision>, now: int)
      requires Valid() && memo.ttl > 0 && NotBefore(now, Clock(OpsOf(log)))
      modifies this, memo, memo.repr
      ensures Valid() && log == old(log) + [Said(q, decision, now)] && fresh(memo.repr - old(memo.repr))
    {
      memo.Put(Key(q), decision.GetOr(ZEROED), now);
      Record(Said(q, decision, now));
    }

    method StoreIfKeyed(q: Question, keyed: bool, answer: Answer, now: int)
      requires Valid() && (keyed ==> memo.ttl > 0) && NotBefore(now, Clock(OpsOf(log)))
      modifies this, memo, memo.repr
      ensures Valid() && log == old(log) + Stored(q, answer, now, keyed) && fresh(memo.repr - old(memo.repr))
    {
      if keyed && answer.Body? { Store(q, answer.decision, now); }
    }

    method ForgetIf(refreshed: bool)
      requires Valid()
      modifies this, memo
      ensures Valid() && log == old(log) + Forgotten(refreshed) && memo.repr == old(memo.repr)
      ensures Clock(OpsOf(log)) == Clock(OpsOf(old(log)))
    {
      if refreshed { Forget(); }
    }

    method AfterWire(q: Question, keyed: bool, w: Wire, now: int) returns (r: Checked)
      requires Valid() && (keyed ==> memo.ttl > 0) && NotBefore(now, Clock(OpsOf(log)))
      modifies this, memo, memo.repr
      ensures Valid() && log == old(log) + Heard(q, w, now, keyed) && fresh(memo.repr - old(memo.repr))
      ensures r == Answered(w)
    {
      Joins(log, Forgotten(w.refreshed), Stored(q, w.answer, now, keyed));
      ForgetIf(w.refreshed);
      StoreIfKeyed(q, keyed, w.answer, now);
      return Answered(w);
    }

    /** A hit is what the server last said. */
    method Recall(q: Question, keyed: bool, now: int) returns (r: Option<Decision>)
      requires Valid() && (keyed ==> memo.ttl > 0) && NotBefore(now, Clock(OpsOf(log)))
      modifies this, memo, memo.repr
      ensures Valid() && log == old(log) + Looked(q, keyed, now) && NotBefore(now, Clock(OpsOf(log)))
      ensures r.Some? ==> keyed && SaidBefore(old(log), Key(q), now, memo.ttl, r.value)
      ensures r.Some? && AllClean(old(log)) && Clean(q) ==> AnsweredBefore(old(log), q, now, memo.ttl, r.value)
      ensures r.Some? <==> keyed && CanServe(old(log), Key(q), now, memo.ttl)
      ensures forall i: nat :: r.Some? && StillHeld(old(log), Key(q), now, memo.ttl, i) ==> SaysSo(old(log)[i], r.value)
      ensures memo.repr == old(memo.repr)
    {
      r := None;
      if keyed {
        r := Lookup(q, now);
        HitIffHeld(old(log), Key(q), now, memo.ttl);
        if r.Some? {
          ServedWasSaidBefore(old(log), Key(q), now, memo.ttl, r.value);
          SaidIsAnswered(old(log), q, now, memo.ttl, r.value);
        }
      }
    }

    /**
     * axiam_check_access(), `wanted` being whether the caller passed a result to fill.  A decision is
     * served without a call exactly when one is wanted, the memo is on and it still has the last answer
     * under the question's key; among clean questions, the last to that question.  Otherwise the answer
     * is the wire's, and of what happened exactly this is remembered: the lookup, a clear if a refresh
     * was made on the way, and after it a 2xx answer.
     */
    method CheckAccess(q: Question, wanted: bool, t1: int, t2: int, w: Wire) returns (r: Checked, served: bool)
      requires Valid() && NotBefore(t1, Clock(OpsOf(log))) && t1 <= t2
      modifies this, memo, memo.repr
      ensures Valid() && fresh(memo.repr - old(memo.repr))
      ensures served ==> wanted && memo.ttl > 0 && r.Decided? && SaidBefore(old(log), Key(q), t1, memo.ttl, r.decision)
      ensures served && AllClean(old(log)) && Clean(q) ==> AnsweredBefore(old(log), q, t1, memo.ttl, r.decision)
      ensures AllClean(old(log)) && Clean(q) ==> AllClean(log)
      ensures served <==> wanted && memo.ttl > 0 && CanServe(old(log), Key(q), t1, memo.ttl)
      ensures forall i: nat :: served && StillHeld(old(log), Key(q), t1, memo.ttl, i) ==> SaysSo(old(log)[i], r.decision)
      ensures !served ==> match w.answer
                          case Denied(kind) => r == Failed(kind)
                          case Body(Some(v)) => r == Decided(v)
                          case Body(None) => r == Decided(Decision(false, None, None))
      ensures !served ==> log == old(log) + (if wanted && memo.ttl > 0 then [Asked(q, t1)] else []) + (if w.refreshed then [Forgot] else [])
                                 + (if wanted && memo.ttl > 0 && w.answer.Body? then [Said(q, w.answer.decision, t2)] else [])
      ensures served ==> log == old(log) + [Asked(q, t1)]
    {
      var keyed := wanted && memo.ttl > 0;
      var hit := Recall(q, keyed, t1);
      RemembersClean(old(log), q, keyed, t1, t2, w);
      if hit.Some? { return Decided(hit.value), true; }
      RemembersIs(old(log), q, keyed, t1, t2, w);
      r := AfterWire(q, keyed, w, t2);
      served := false;
    }
  }

  function Answered(w: Wire): Checked {
    match w.answer case Denied(kind) => Failed(kind) case Body(d) => Decided(d.GetOr(ZEROED))
  }

  function Looked(q: Question, keyed: bool, now: int): seq<Event> {
    if keyed then [Asked(q, now)] else []
  }

  lemma RemembersIs(log: seq<Event>, q: Question, keyed: bool, t1: int, t2: int, w: Wire)
    ensures log + Looked(q, keyed, t1) + Heard(q, w, t2, keyed)
         == log + (if keyed then [Asked(q, t1)] else []) + (if w.refreshed then [Forgot] else [])
            + (if keyed && w.answer.Body? then [Said(q, w.answer.decision, t2)] else [])
  {
    Joins(log + Looked(q, keyed, t1), Forgotten(w.refreshed), Stored(q, w.answer, t2, keyed));
  }

  /** A log of clean questions stays one. */
  lemma RemembersClean(log: seq<Event>, q: Question, keyed: bool, t1: int, t2: int, w: Wire)
    ensures AllClean(log) && Clean(q) ==> AllClean(log + [Asked(q, t1)]) && AllClean(log + Looked(q, keyed, t1) + Heard(q, w, t2, keyed))
  {
  }

  ghost predicate SaidBefore(log: seq<Event>, key: string, now: int, ttl: int, v: Decision) {
    exists i: nat :: LastSaidUnder(log, key, now, ttl, i) && v == log[i].decision.GetOr(ZEROED)
  }

  ghost predicate AnsweredBefore(log: seq<Event>, q: Question, now: int, ttl: int, v: Decision) {
    exists i: nat :: LastSaid(log, q, now, ttl, i) && v == log[i].decision.GetOr(ZEROED)
  }

  lemma ServedWasSaidBefore(log: seq<Event>, key: string, now: int, ttl: int, v: Decision)
    requires Monotone(OpsOf(log)) && NotBefore(now, Clock(OpsOf(log))) && Served(OpsOf(log), key, now, ttl, v)
    ensures SaidBefore(log, key, now, ttl, v)
  {
    var i := ServedWasSaidUnder(log, key, now, ttl, v);
  }

  lemma SaidIsAnswered(log: seq<Event>, q: Question, now: int, ttl: int, v: Decision)
    requires SaidBefore(log, Key(q), now, ttl, v)
    ensures AllClean(log) && Clean(q) ==> AnsweredBefore(log, q, now, ttl, v)
  {
    var i: nat :| LastSaidUnder(log, Key(q), now, ttl, i) && v == log[i].decision.GetOr(ZEROED);
    if AllClean(log) && Clean(q) { LastUnderIsLast(log, q, now, ttl, i); }
  }
}
