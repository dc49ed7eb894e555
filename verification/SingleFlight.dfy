/**
 * Single-flight refresh: any number of threads, each step of the mutex and condition-variable code
 * taken on its own, in any interleaving.
 */
module SingleFlight {
  import opened Basics

  /** What perform_refresh() returns: an error kind. */
  type Result = nat

  /**
   * Where a thread is.  `k` is bookkeeping: which refresh the result it carries is.
   * From Entering on, a call is under way; Returned is its return value.
   */
  datatype Pc =
    | Idle
    | Entering              // wants the mutex
    | Testing               // holds it, about to test the flag
    | Setting               // the flag was clear: about to set it
    | Leaving               // has set it, about to release the mutex
    | Performing            // inside perform_refresh()
    | Reentering(r: Result) // wants the mutex again, with its result
    | Clearing(r: Result)   // holds it: clear the flag,
    | Storing(r: Result)    // store the result,
    | Counting(r: Result, k: nat)     // count,
    | Broadcasting(r: Result, k: nat) // wake everyone,
    | Unlocking(r: Result, k: nat)    // and release
    | Looping               // a follower, holding the mutex, about to test the flag
    | Asleep                // waiting on the condition variable
    | Waking                // woken, wants the mutex back
    | Reading               // the flag is clear: about to read the result
    | Returned(r: Result, k: nat)

  /**
   * The mutex, the three fields it guards, and bookkeeping: who leads, what perform_refresh()
   * returned, what was published, and how much was published when each call began; once the call has
   * had the mutex, how much was when it first did.
   */
  datatype State = State(
    pcs: seq<Pc>, holder: Option<nat>,
    inFlight: bool, result: Result, count: nat,
    leader: Option<nat>, performed: seq<Result>, published: seq<Result>, arrivals: seq<nat>)

  datatype Action = Call(thread: nat) | Run(thread: nat) | Perform(thread: nat, res: Result) | Spurious(thread: nat)

  predicate WantsMutex(pc: Pc) { pc.Entering? || pc.Reentering? || pc.Waking? }

  predicate HoldsMutex(pc: Pc) {
    pc.Testing? || pc.Setting? || pc.Leaving? || pc.Clearing? || pc.Storing? || pc.Counting? || pc.Broadcasting?
    || pc.Unlocking? || pc.Looping? || pc.Reading?
  }

  /** A leader between setting the flag and clearing it. */
  predicate InFlight(pc: Pc) { pc.Leaving? || pc.Performing? || pc.Reentering? || pc.Clearing? }

  /** A leader that has still to broadcast. */
  predicate Leads(pc: Pc) { InFlight(pc) || pc.Storing? || pc.Counting? || pc.Broadcasting? }

  predicate Enabled(s: State, a: Action) {
    && a.thread < |s.pcs| == |s.arrivals|
    && var pc := s.pcs[a.thread];
       match a
       case Call(_) => pc.Idle? || pc.Returned?
       case Perform(_, _) => pc.Performing?
       case Spurious(_) => pc.Asleep?
       case Run(_) => HoldsMutex(pc) || (WantsMutex(pc) && s.holder.None?)
  }

  function At(s: State, t: nat, pc: Pc): State
    requires t < |s.pcs|
  {
    s.(pcs := s.pcs[t := pc])
  }

  function Woken(pcs: seq<Pc>): (woken: seq<Pc>)
    ensures |woken| == |pcs| && forall t :: 0 <= t < |pcs| ==> woken[t] == if pcs[t].Asleep? then Waking else pcs[t]
  {
    seq(|pcs|, t requires 0 <= t < |pcs| => if pcs[t].Asleep? then Waking else pcs[t])
  }

  function Latest(s: State): nat { if s.published == [] then 0 else |s.published| - 1 }

  function Do(s: State, a: Action): (s': State)
    requires Enabled(s, a)
    ensures |s'.pcs| == |s.pcs|
  {
    var t := a.thread;
    match a
    case Call(_) => At(s, t, Entering).(arrivals := s.arrivals[t := |s.published|])
    case Perform(_, r) => At(s, t, Reentering(r)).(performed := s.performed + [r])
    case Spurious(_) => At(s, t, Waking)
    case Run(_) => RunThread(s, t)
  }

  function RunThread(s: State, t: nat): (s': State)
    requires Enabled(s, Run(t))
    ensures |s'.pcs| == |s.pcs|
  {
    match s.pcs[t]
    case Entering => At(s, t, Testing).(holder := Some(t), arrivals := s.arrivals[t := |s.published|])
    case Testing => At(s, t, if s.inFlight then Looping else Setting)
    case Setting => At(s, t, Leaving).(inFlight := true, leader := Some(t))
    case Leaving => At(s, t, Performing).(holder := None)
    case Reentering(r) => At(s, t, Clearing(r)).(holder := Some(t))
    case Clearing(r) => At(s, t, Storing(r)).(inFlight := false)
    case Storing(r) => At(s, t, Counting(r, |s.published|)).(result := r, published := s.published + [r])
    case Counting(r, k) => At(s, t, Broadcasting(r, k)).(count := s.count + 1)
    case Broadcasting(r, k) => s.(pcs := Woken(s.pcs)[t := Unlocking(r, k)], leader := None)
    case Unlocking(r, k) => At(s, t, Returned(r, k)).(holder := None)
    case Looping => if s.inFlight then At(s, t, Asleep).(holder := None) else At(s, t, Reading)
    case Waking => At(s, t, Looping).(holder := Some(t))
    case _ => // Reading
      At(s, t, Returned(s.result, Latest(s))).(holder := None)
  }

  // ----- Runs -----

  function Initial(threads: nat): State {
    State(seq(threads, _ => Idle), None, false, 0, 0, None, [], [], seq(threads, _ => 0))
  }

  /** A run: actions taken one after the other, each enabled when it is taken. */
  ghost predicate Possible(s: State, run: seq<Action>)
    decreases |run|, 0
  {
    run != [] ==> Possible(s, run[..|run| - 1]) && Enabled(After(s, run[..|run| - 1]), run[|run| - 1])
  }

  ghost function After(s: State, run: seq<Action>): (s': State)
    requires Possible(s, run)
    ensures |s'.pcs| == |s.pcs|
    decreases |run|, 1
  {
    if run == [] then s else Do(After(s, run[..|run| - 1]), run[|run| - 1])
  }

  // ----- The invariant -----

  ghost predicate Exclusive(s: State) {
    && |s.arrivals| == |s.pcs|
    && (s.holder.Some? ==> s.holder.value < |s.pcs|) && (s.leader.Some? ==> s.leader.value < |s.pcs|)
    && (forall t :: 0 <= t < |s.pcs| ==> Placed(s, t))
    && (s.inFlight <==> s.leader.Some? && InFlight(s.pcs[s.leader.value]))
  }

  ghost predicate Placed(s: State, t: nat)
    requires t < |s.pcs|
  {
    && (HoldsMutex(s.pcs[t]) <==> s.holder == Some(t))
    && (Leads(s.pcs[t]) <==> s.leader == Some(t))
    && (s.pcs[t].Setting? || s.pcs[t].Reading? ==> !s.inFlight)
  }

  predicate Unpublished(pc: Pc) { pc.Reentering? || pc.Clearing? || pc.Storing? }

  /** Results are published in the order they were obtained; at most one is obtained and not yet published. */
  ghost predicate ResultsInOrder(s: State)
    requires Exclusive(s)
  {
    && s.performed == (if s.leader.Some? && Unpublished(s.pcs[s.leader.value])
                       then s.published + [s.pcs[s.leader.value].r] else s.published)
    && |s.published| == s.count + (if s.leader.Some? && s.pcs[s.leader.value].Counting? then 1 else 0)
    && (s.published != [] ==> s.result == s.published[|s.published| - 1])
  }

  predicate Follows(pc: Pc) { pc.Looping? || pc.Asleep? || pc.Waking? || pc.Reading? }

  predicate Carries(pc: Pc) { pc.Counting? || pc.Broadcasting? || pc.Unlocking? || pc.Returned? }

  /** A leader whose refresh is not published yet. */
  ghost predicate OneComing(s: State)
    requires Exclusive(s)
  {
    s.leader.Some? && (InFlight(s.pcs[s.leader.value]) || s.pcs[s.leader.value].Storing?)
  }

  /** A result carried is that of a refresh published after the call began; a follower has one coming. */
  ghost predicate Answered(s: State)
    requires Exclusive(s)
  {
    forall t :: 0 <= t < |s.pcs| ==> AnsweredAt(s, t)
  }

  ghost predicate AnsweredAt(s: State, t: nat)
    requires Exclusive(s) && t < |s.pcs|
  {
    && s.arrivals[t] <= |s.published|
    && (Carries(s.pcs[t]) ==> s.arrivals[t] <= s.pcs[t].k < |s.published| && s.published[s.pcs[t].k] == s.pcs[t].r)
    && (Follows(s.pcs[t]) ==> OneComing(s) || s.arrivals[t] < |s.published|)
    && (s.pcs[t].Asleep? ==> s.leader.Some?)
  }

  ghost predicate Invariant(s: State) {
    Exclusive(s) && ResultsInOrder(s) && Answered(s)
  }

  // ----- Every step keeps it -----

  /** A step moves its own thread; only a broadcast moves others, and only sleepers. */
  lemma OthersStay(s: State, a: Action, u: nat)
    requires Enabled(s, a) && u < |s.pcs| && u != a.thread
    ensures |Do(s, a).pcs| == |s.pcs| == |Do(s, a).arrivals| && Do(s, a).arrivals[u] == s.arrivals[u]
    ensures Do(s, a).pcs[u] == s.pcs[u] || (s.pcs[u].Asleep? && Do(s, a).pcs[u].Waking? && Do(s, a).leader.None?)
  {
  }

  /** Who moves the flag, the mutex or the lead holds the mutex, and so is alone in doing so. */
  lemma KeepsOwnPlace(s: State, a: Action)
    requires Exclusive(s) && Enabled(s, a)
    ensures var s' := Do(s, a);
      |s'.pcs| == |s.pcs| == |s'.arrivals| && Placed(s', a.thread)
      && (s'.leader.Some? ==> s'.leader.value < |s.pcs|) && (s'.holder.Some? ==> s'.holder.value < |s.pcs|)
  {
    assert Placed(s, a.thread);
    if s.leader.Some? { assert Placed(s, s.leader.value); }
  }

  lemma KeepsOtherPlace(s: State, a: Action, u: nat)
    requires Exclusive(s) && Enabled(s, a) && u < |s.pcs| && u != a.thread
    ensures |Do(s, a).pcs| == |s.pcs| && Placed(Do(s, a), u)
  {
    OthersStay(s, a, u);
    assert Placed(s, a.thread) && Placed(s, u);
    if s.leader.Some? { assert Placed(s, s.leader.value); }
  }

  lemma KeepsFlag(s: State, a: Action)
    requires Exclusive(s) && Enabled(s, a)
    ensures var s' := Do(s, a);
      (s'.leader.Some? ==> s'.leader.value < |s'.pcs|)
      && (s'.inFlight <==> s'.leader.Some? && InFlight(s'.pcs[s'.leader.value]))
  {
    assert Placed(s, a.thread);
    if s.leader.Some? {
      assert Placed(s, s.leader.value);
      if s.leader.value != a.thread { OthersStay(s, a, s.leader.value); }
    }
  }

  lemma KeepsExclusive(s: State, a: Action)
    requires Exclusive(s) && Enabled(s, a)
    ensures Exclusive(Do(s, a))
  {
    KeepsOwnPlace(s, a);
    KeepsFlag(s, a);
    forall u | 0 <= u < |s.pcs| && u != a.thread ensures Placed(Do(s, a), u) {
      KeepsOtherPlace(s, a, u);
    }
  }

  /** Whoever does not lead leaves the results alone. */
  lemma OthersKeepResults(s: State, a: Action)
    requires Exclusive(s) && ResultsInOrder(s) && Enabled(s, a) && Exclusive(Do(s, a)) && !Leads(s.pcs[a.thread])
    ensures ResultsInOrder(Do(s, a))
  {
    assert Placed(s, a.thread);
    if s.leader.Some? {
      assert Placed(s, s.leader.value);
      OthersStay(s, a, s.leader.value);
    }
  }

  lemma LeaderKeepsResults(s: State, a: Action)
    requires Exclusive(s) && ResultsInOrder(s) && Enabled(s, a) && Exclusive(Do(s, a)) && Leads(s.pcs[a.thread])
    ensures ResultsInOrder(Do(s, a))
  {
    assert Placed(s, a.thread);
  }

  lemma KeepsResults(s: State, a: Action)
    requires Exclusive(s) && ResultsInOrder(s) && Enabled(s, a) && Exclusive(Do(s, a))
    ensures ResultsInOrder(Do(s, a))
  {
    if Leads(s.pcs[a.thread]) { LeaderKeepsResults(s, a); } else { OthersKeepResults(s, a); }
  }

  /** What is coming stays coming until it is published. */
  lemma ComingArrives(s: State, a: Action)
    requires Exclusive(s) && Enabled(s, a) && Exclusive(Do(s, a))
    ensures s.published <= Do(s, a).published
    ensures OneComing(s) ==> OneComing(Do(s, a)) || |s.published| < |Do(s, a).published|
  {
    assert Placed(s, a.thread);
    if s.leader.Some? && s.leader.value != a.thread { OthersStay(s, a, s.leader.value); }
  }

  lemma StaysFollowing(s: State, a: Action)
    requires Invariant(s) && Enabled(s, a) && Exclusive(Do(s, a))
    requires Follows(s.pcs[a.thread]) && Follows(Do(s, a).pcs[a.thread])
    ensures AnsweredAt(Do(s, a), a.thread)
  {
    assert AnsweredAt(s, a.thread) && Placed(s, a.thread);
    ComingArrives(s, a);
  }

  /** A call that finds the flag set follows the leader that set it. */
  lemma StartsFollowing(s: State, a: Action)
    requires Invariant(s) && Enabled(s, a) && Exclusive(Do(s, a))
    requires !Follows(s.pcs[a.thread]) && Follows(Do(s, a).pcs[a.thread])
    ensures AnsweredAt(Do(s, a), a.thread)
  {
    assert AnsweredAt(s, a.thread) && Placed(s, a.thread);
    assert a == Run(a.thread) && s.pcs[a.thread].Testing?;
  }

  /** A follower that reads is given the latest result, which came after it called. */
  lemma FollowerIsAnswered(s: State, a: Action)
    requires Invariant(s) && Enabled(s, a) && Exclusive(Do(s, a))
    requires Follows(s.pcs[a.thread]) && !Follows(Do(s, a).pcs[a.thread])
    ensures AnsweredAt(Do(s, a), a.thread)
  {
    assert AnsweredAt(s, a.thread) && Placed(s, a.thread);
    assert a == Run(a.thread) && s.pcs[a.thread].Reading?;
    assert s.leader.Some? ==> Placed(s, s.leader.value);
  }

  lemma LeaderIsAnswered(s: State, t: nat)
    requires Invariant(s) && Enabled(s, Run(t)) && Exclusive(Do(s, Run(t)))
    requires Carries(s.pcs[t]) || s.pcs[t].Storing?
    ensures AnsweredAt(Do(s, Run(t)), t)
  {
    assert AnsweredAt(s, t);
  }

  lemma NothingCarriedYet(s: State, a: Action)
    requires Invariant(s) && Enabled(s, a) && Exclusive(Do(s, a))
    requires !Follows(Do(s, a).pcs[a.thread]) && !Carries(Do(s, a).pcs[a.thread])
    ensures AnsweredAt(Do(s, a), a.thread)
  {
    assert AnsweredAt(s, a.thread);
    ArrivalsKnown(s, a);
  }

  lemma ArrivalsKnown(s: State, a: Action)
    requires Enabled(s, a) && s.arrivals[a.thread] <= |s.published|
    ensures |Do(s, a).arrivals| == |s.pcs| && Do(s, a).arrivals[a.thread] <= |Do(s, a).published|
  {
  }

  lemma CarriesFromStore(s: State, a: Action)
    requires Enabled(s, a) && !Follows(s.pcs[a.thread]) && Carries(Do(s, a).pcs[a.thread])
    ensures a == Run(a.thread) && (Carries(s.pcs[a.thread]) || s.pcs[a.thread].Storing?)
  {
  }

  lemma KeepsOwnAnswer(s: State, a: Action)
    requires Invariant(s) && Enabled(s, a) && Exclusive(Do(s, a))
    ensures AnsweredAt(Do(s, a), a.thread)
  {
    if Follows(s.pcs[a.thread]) {
      if Follows(Do(s, a).pcs[a.thread]) { StaysFollowing(s, a); } else { FollowerIsAnswered(s, a); }
    } else if Follows(Do(s, a).pcs[a.thread]) {
      StartsFollowing(s, a);
    } else if Carries(Do(s, a).pcs[a.thread]) {
      CarriesFromStore(s, a);
      LeaderIsAnswered(s, a.thread);
    } else {
      NothingCarriedYet(s, a);
    }
  }

  lemma KeepsOtherAnswer(s: State, a: Action, u: nat)
    requires Invariant(s) && Enabled(s, a) && Exclusive(Do(s, a)) && u < |s.pcs| && u != a.thread
    ensures AnsweredAt(Do(s, a), u)
  {
    OthersStay(s, a, u);
    ComingArrives(s, a);
    assert AnsweredAt(s, u) && Placed(s, a.thread);
  }

  lemma StepKeepsInvariant(s: State, a: Action)
    requires Invariant(s) && Enabled(s, a)
    ensures Invariant(Do(s, a))
  {
    KeepsExclusive(s, a);
    KeepsResults(s, a);
    KeepsOwnAnswer(s, a);
    forall u | 0 <= u < |s.pcs| && u != a.thread ensures AnsweredAt(Do(s, a), u) {
      KeepsOtherAnswer(s, a, u);
    }
  }

  lemma {:induction false} RunKeepsInvariant(s: State, run: seq<Action>)
    requires Invariant(s) && Possible(s, run)
    ensures Invariant(After(s, run))
    decreases |run|
  {
    if run != [] {
      RunKeepsInvariant(s, run[..|run| - 1]);
      StepKeepsInvariant(After(s, run[..|run| - 1]), run[|run| - 1]);
      KeepsOwnPlace(After(s, run[..|run| - 1]), run[|run| - 1]);
    }
  }

  lemma InitiallySound(threads: nat)
    ensures Invariant(Initial(threads))
  {
  }

  // ----- What every run keeps -----

  function Refreshes(run: seq<Action>): nat {
    if run == [] then 0 else Refreshes(run[..|run| - 1]) + if run[|run| - 1].Perform? then 1 else 0
  }

  lemma {:induction false} EachRefreshOnce(s: State, run: seq<Action>)
    requires Possible(s, run) && s.performed == []
    ensures |After(s, run).performed| == Refreshes(run)
    decreases |run|
  {
    if run != [] {
      EachRefreshOnce(s, run[..|run| - 1]);
    }
  }

  ghost predicate OnlyLeader(s: State, t: nat) {
    t < |s.pcs| && InFlight(s.pcs[t]) && forall u :: 0 <= u < |s.pcs| && InFlight(s.pcs[u]) ==> u == t
  }

  /**
   * Any number of threads, any interleaving: at most one is inside perform_refresh(); the flag is set
   * exactly while one leader is between setting and clearing it.
   */
  lemma OneRefreshAtATime(threads: nat, run: seq<Action>)
    requires Possible(Initial(threads), run)
    ensures var s := After(Initial(threads), run);
      && (forall t, u :: 0 <= t < |s.pcs| && 0 <= u < |s.pcs| && s.pcs[t].Performing? && s.pcs[u].Performing? ==> t == u)
      && (s.inFlight <==> exists t :: OnlyLeader(s, t))
  {
    InitiallySound(threads);
    RunKeepsInvariant(Initial(threads), run);
    var s := After(Initial(threads), run);
    forall t | 0 <= t < |s.pcs| && InFlight(s.pcs[t]) ensures s.leader == Some(t) && s.inFlight {
      assert Placed(s, t);
    }
    if s.inFlight { assert OnlyLeader(s, s.leader.value); }
  }

  /**
   * The counter is the number of refreshes completed: every perform_refresh() that returned, but for
   * one whose leader has still to publish it.
   */
  lemma CounterCountsRefreshes(threads: nat, run: seq<Action>)
    requires Possible(Initial(threads), run)
    ensures var s := After(Initial(threads), run);
      && s.count <= Refreshes(run) <= s.count + 1
      && (s.leader.None? ==> s.count == Refreshes(run))
  {
    InitiallySound(threads);
    RunKeepsInvariant(Initial(threads), run);
    EachRefreshOnce(Initial(threads), run);
  }

  /** Every call returns the result of a refresh published after the call had the mutex, leader or follower. */
  lemma EveryCallSharesALaterRefresh(threads: nat, run: seq<Action>, t: nat)
    requires Possible(Initial(threads), run) && t < threads && After(Initial(threads), run).pcs[t].Returned?
    ensures var s := After(Initial(threads), run); var (r, k) := (s.pcs[t].r, s.pcs[t].k);
      && s.arrivals[t] <= k < |s.published| && s.published[k] == r
      && k < |s.performed| && s.performed[k] == r
  {
    InitiallySound(threads);
    RunKeepsInvariant(Initial(threads), run);
    assert AnsweredAt(After(Initial(threads), run), t);
  }

  // ----- Nobody is left waiting -----

  ghost predicate Busy(pc: Pc) { !pc.Idle? && !pc.Returned? }

  /** A step other than a new call or a spurious wake-up. */
  predicate Proceeds(a: Action) { a.Run? || a.Perform? }

  lemma HolderProceeds(s: State)
    requires Invariant(s) && s.holder.Some?
    ensures Enabled(s, Run(s.holder.value))
  {
    assert Placed(s, s.holder.value);
  }

  /** No deadlock and no lost wake-up: while any call is under way, some thread can take a step of its own. */
  lemma SomeoneProceeds(threads: nat, run: seq<Action>, t: nat)
    requires Possible(Initial(threads), run) && t < threads && Busy(After(Initial(threads), run).pcs[t])
    ensures exists a :: Proceeds(a) && Enabled(After(Initial(threads), run), a)
  {
    InitiallySound(threads);
    RunKeepsInvariant(Initial(threads), run);
    var s := After(Initial(threads), run);
    if s.holder.Some? {
      HolderProceeds(s);
    } else {
      assert Placed(s, t) && AnsweredAt(s, t);
      var u := if s.pcs[t].Asleep? then s.leader.value else t;
      assert Placed(s, u);
      var a := if s.pcs[u].Performing? then Perform(u, 0) else Run(u);
      assert Proceeds(a) && Enabled(s, a);
    }
  }

  // ----- A refresh that had already returned -----

  /** A run from s to s' in which t makes no call. */
  ghost predicate Reaches(s: State, s': State, t: nat) {
    exists run :: Continues(s, run, t) && After(s, run) == s'
  }

  ghost predicate Continues(s: State, run: seq<Action>, t: nat) {
    Possible(s, run) && Call(t) !in run
  }

  lemma ReachesItself(s: State, t: nat)
    ensures Reaches(s, s, t)
  {
    assert Continues(s, [], t) && After(s, []) == s;
  }

  lemma Extends(s: State, run: seq<Action>, a: Action)
    requires Possible(s, run) && Enabled(After(s, run), a)
    ensures Possible(s, run + [a]) && After(s, run + [a]) == Do(After(s, run), a)
  {
    assert (run + [a])[..|run|] == run;
  }

  lemma Takes(s: State, s1: State, a: Action, t: nat) returns (s2: State)
    requires Reaches(s, s1, t) && Enabled(s1, a) && a != Call(t)
    ensures s2 == Do(s1, a) && Reaches(s, s2, t)
  {
    var run :| Continues(s, run, t) && After(s, run) == s1;
    Extends(s, run, a);
    s2 := Do(s1, a);
    assert Continues(s, run + [a], t);
  }

  /** What will be published before t gets the mutex, and what was when it did. */
  ghost predicate Assured(s: State, t: nat, n: nat) {
    && t < |s.pcs| == |s.arrivals|
    && if s.pcs[t].Entering? then |s.published| >= n || (|s.published| + 1 == n && LeaderStores(s)) else s.arrivals[t] >= n
  }

  /** A leader has the mutex and will publish before it lets go of it. */
  predicate LeaderStores(s: State) {
    s.leader.Some? && s.leader.value < |s.pcs| && (s.pcs[s.leader.value].Clearing? || s.pcs[s.leader.value].Storing?)
  }

  lemma LeaderStillStores(s: State, a: Action)
    requires Exclusive(s) && Enabled(s, a) && LeaderStores(s)
    ensures WantsMutex(s.pcs[a.thread]) ==> a != Run(a.thread)
    ensures |Do(s, a).published| == |s.published| + 1 || (Do(s, a).published == s.published && LeaderStores(Do(s, a)))
  {
    assert Placed(s, s.leader.value) && Placed(s, a.thread);
    if a.thread != s.leader.value { OthersStay(s, a, s.leader.value); }
  }

  /** A thread's own step other than a call: it gets the mutex for the first time, or its arrival stands. */
  lemma OwnStepArrives(s: State, t: nat, a: Action)
    requires Enabled(s, a) && a.thread == t && a != Call(t)
    ensures |Do(s, a).pcs| == |s.pcs| == |Do(s, a).arrivals| && !Do(s, a).pcs[t].Entering?
    ensures s.pcs[t].Entering? ==> a == Run(t) && Do(s, a).arrivals[t] == |s.published|
    ensures !s.pcs[t].Entering? ==> Do(s, a).arrivals[t] == s.arrivals[t]
  {
  }

  lemma OthersStepAssures(s: State, a: Action, t: nat, n: nat)
    requires Exclusive(s) && Enabled(s, a) && Exclusive(Do(s, a)) && Assured(s, t, n) && a.thread != t
    ensures Assured(Do(s, a), t, n)
  {
    OthersStay(s, a, t);
    if s.pcs[t].Entering? {
      if LeaderStores(s) { LeaderStillStores(s, a); } else { ComingArrives(s, a); }
    }
  }

  lemma StepKeepsAssured(s: State, a: Action, t: nat, n: nat)
    requires Exclusive(s) && Enabled(s, a) && Exclusive(Do(s, a)) && Assured(s, t, n) && a != Call(t)
    ensures Assured(Do(s, a), t, n)
  {
    if a.thread != t {
      OthersStepAssures(s, a, t, n);
    } else {
      if LeaderStores(s) { LeaderStillStores(s, a); }
      OwnStepArrives(s, t, a);
    }
  }

  lemma {:induction false} RunKeepsAssured(s: State, run: seq<Action>, t: nat, n: nat)
    requires Invariant(s) && Continues(s, run, t) && Assured(s, t, n)
    ensures Invariant(After(s, run)) && Assured(After(s, run), t, n)
    decreases |run|
  {
    if run != [] {
      var before := run[..|run| - 1];
      RunKeepsAssured(s, before, t, n);
      StepKeepsInvariant(After(s, before), run[|run| - 1]);
      StepKeepsAssured(After(s, before), run[|run| - 1], t, n);
    }
  }

  lemma AssuredIsLater(s: State, run: seq<Action>, t: nat, n: nat)
    requires Invariant(s) && Continues(s, run, t) && Assured(s, t, n)
    ensures t < |After(s, run).pcs| && (After(s, run).pcs[t].Returned? ==> After(s, run).pcs[t].k >= n)
  {
    RunKeepsAssured(s, run, t, n);
    assert AnsweredAt(After(s, run), t);
  }

  /** Whatever t returns from the call it makes now is a refresh whose perform_refresh() has not returned yet. */
  ghost predicate SharesALaterOne(s: State, t: nat)
    requires Enabled(s, Call(t))
  {
    forall run :: Continues(Do(s, Call(t)), run, t) && After(Do(s, Call(t)), run).pcs[t].Returned?
      ==> After(Do(s, Call(t)), run).pcs[t].k >= |s.performed|
  }

  lemma NoneReenteringShares(s: State, t: nat)
    requires Invariant(s) && Enabled(s, Call(t)) && forall l :: 0 <= l < |s.pcs| ==> !s.pcs[l].Reentering?
    ensures SharesALaterOne(s, t)
  {
    var s1 := Do(s, Call(t));
    StepKeepsInvariant(s, Call(t));
    assert Placed(s, t);
    assert Assured(s1, t, |s.performed|);
    forall run | Continues(s1, run, t) && After(s1, run).pcs[t].Returned? ensures After(s1, run).pcs[t].k >= |s.performed| {
      AssuredIsLater(s1, run, t, |s.performed|);
    }
  }

  // ----- A leader with its result, and a caller that comes between -----

  /** Where the leader l and the caller t stand. */
  ghost predicate Stand(s: State, l: nat, t: nat, leads: Pc, calls: Pc, holder: Option<nat>) {
    && l < |s.pcs| && t < |s.pcs| && l != t && |s.pcs| == |s.arrivals|
    && s.pcs[l] == leads && s.pcs[t] == calls && s.holder == holder
  }

  /** Whoever has the mutex while a leader reenters lets go of it within two steps. */
  lemma HolderMovesOn(s: State, l: nat, t: nat)
    requires Invariant(s) && s.holder.Some? && l < |s.pcs| && Stand(s, l, t, s.pcs[l], Entering, s.holder) && s.pcs[l].Reentering?
    ensures Enabled(s, Run(s.holder.value))
    ensures var s' := Do(s, Run(s.holder.value));
      && s'.performed == s.performed && s'.published == s.published && s'.inFlight
      && (Stand(s', l, t, s.pcs[l], Entering, None)
          || (Stand(s', l, t, s.pcs[l], Entering, s.holder) && s.pcs[s.holder.value].Testing? && s'.pcs[s.holder.value].Looping?))
  {
    assert Placed(s, s.holder.value) && Placed(s, l) && Placed(s, t);
  }

  lemma MutexComesFree(s: State, l: nat, t: nat) returns (s': State)
    requires Invariant(s) && l < |s.pcs| && Stand(s, l, t, s.pcs[l], Entering, s.holder) && s.pcs[l].Reentering?
    ensures Reaches(s, s', t) && Invariant(s') && s'.inFlight && Stand(s', l, t, s.pcs[l], Entering, None)
    ensures s'.performed == s.performed && s'.published == s.published
  {
    ReachesItself(s, t);
    assert Placed(s, l);
    s' := s;
    if s'.holder.Some? {
      HolderMovesOn(s', l, t);
      StepKeepsInvariant(s', Run(s'.holder.value));
      s' := Takes(s, s', Run(s'.holder.value), t);
    }
    if s'.holder.Some? {
      HolderMovesOn(s', l, t);
      StepKeepsInvariant(s', Run(s'.holder.value));
      s' := Takes(s, s', Run(s'.holder.value), t);
    }
  }

  ghost predicate CanRunThrice(s: State, u: nat) {
    && Enabled(s, Run(u)) && Enabled(Do(s, Run(u)), Run(u)) && Enabled(Do(Do(s, Run(u)), Run(u)), Run(u))
  }

  ghost function Thrice(s: State, u: nat): State
    requires CanRunThrice(s, u)
  {
    Do(Do(Do(s, Run(u)), Run(u)), Run(u))
  }

  lemma TakesThrice(s: State, s1: State, u: nat, t: nat)
    requires Reaches(s, s1, t) && CanRunThrice(s1, u)
    ensures Reaches(s, Thrice(s1, u), t)
  {
    var s2 := Takes(s, s1, Run(u), t);
    var s3 := Takes(s, s2, Run(u), t);
    var s4 := Takes(s, s3, Run(u), t);
  }

  lemma CallerFallsAsleep(s: State, l: nat, t: nat, leads: Pc)
    requires Stand(s, l, t, leads, Entering, None) && s.inFlight
    ensures CanRunThrice(s, t)
    ensures var s' := Thrice(s, t); Stand(s', l, t, leads, Asleep, None) && s'.performed == s.performed && s'.published == s.published
  {
    var s1 := Do(s, Run(t));
    assert Stand(s1, l, t, leads, Testing, Some(t)) && s1.inFlight;
    var s2 := Do(s1, Run(t));
    assert Stand(s2, l, t, leads, Looping, Some(t)) && s2.inFlight;
  }

  lemma LeaderPublishes(s: State, l: nat, t: nat, r: Result)
    requires Stand(s, l, t, Reentering(r), Asleep, None)
    ensures CanRunThrice(s, l)
    ensures var s' := Thrice(s, l);
      && Stand(s', l, t, Counting(r, |s.published|), Asleep, Some(l))
      && s'.performed == s.performed && s'.published == s.published + [r] && s'.result == r && !s'.inFlight
  {
    var s1 := Do(s, Run(l));
    assert Stand(s1, l, t, Clearing(r), Asleep, Some(l)) && s1.published == s.published;
    var s2 := Do(s1, Run(l));
    assert Stand(s2, l, t, Storing(r), Asleep, Some(l)) && s2.published == s.published;
  }

  lemma LeaderReturns(s: State, l: nat, t: nat, r: Result, k: nat)
    requires Stand(s, l, t, Counting(r, k), Asleep, Some(l)) && s.result == r && !s.inFlight
    ensures CanRunThrice(s, l)
    ensures var s' := Thrice(s, l);
      && Stand(s', l, t, Returned(r, k), Waking, None)
      && s'.performed == s.performed && s'.published == s.published && s'.result == r && !s'.inFlight
  {
    var s1 := Do(s, Run(l));
    assert Stand(s1, l, t, Broadcasting(r, k), Asleep, Some(l)) && s1.result == r;
    var s2 := Do(s1, Run(l));
    assert Stand(s2, l, t, Unlocking(r, k), Waking, Some(l)) && s2.result == r;
  }

  lemma CallerReads(s: State, l: nat, t: nat, leads: Pc)
    requires Stand(s, l, t, leads, Waking, None) && !s.inFlight && s.published != []
    ensures CanRunThrice(s, t)
    ensures var s' := Thrice(s, t);
      Stand(s', l, t, leads, Returned(s.result, |s.published| - 1), None) && s'.performed == s.performed
  {
    var s1 := Do(s, Run(t));
    assert Stand(s1, l, t, leads, Looping, Some(t)) && !s1.inFlight && s1.result == s.result;
    var s2 := Do(s1, Run(t));
    assert Stand(s2, l, t, leads, Reading, Some(t)) && s2.result == s.result;
  }

  /** From a free mutex: the caller sleeps, the leader publishes and returns, the caller reads. */
  lemma CallerIsGivenIt(s: State, s0: State, l: nat, t: nat, r: Result) returns (s': State)
    requires Reaches(s, s0, t) && Stand(s0, l, t, Reentering(r), Entering, None) && s0.inFlight
    ensures Reaches(s, s', t) && s'.performed == s0.performed
    ensures Stand(s', l, t, Returned(r, |s0.published|), Returned(r, |s0.published|), None)
  {
    CallerFallsAsleep(s0, l, t, Reentering(r));
    TakesThrice(s, s0, t, t);
    var s1 := Thrice(s0, t);
    LeaderPublishes(s1, l, t, r);
    TakesThrice(s, s1, l, t);
    var s2 := Thrice(s1, l);
    LeaderReturns(s2, l, t, r, |s0.published|);
    TakesThrice(s, s2, l, t);
    var s3 := Thrice(s2, l);
    CallerReads(s3, l, t, Returned(r, |s0.published|));
    TakesThrice(s, s3, t, t);
    s' := Thrice(s3, t);
  }

  /** A caller that comes while a leader wants the mutex back can be given that leader's result. */
  lemma SharesTheEarlierOne(s: State, l: nat, t: nat) returns (s': State)
    requires Invariant(s) && Enabled(s, Call(t)) && l < |s.pcs| && s.pcs[l].Reentering?
    ensures Reaches(Do(s, Call(t)), s', t) && s'.performed == s.performed && |s.performed| == |s.published| + 1
    ensures var out := Returned(s.pcs[l].r, |s.published|); Stand(s', l, t, out, out, None)
  {
    assert Placed(s, l);
    var r, s1 := s.pcs[l].r, Do(s, Call(t));
    StepKeepsInvariant(s, Call(t));
    var free := MutexComesFree(s1, l, t);
    s' := CallerIsGivenIt(s1, free, l, t, r);
  }

  /**
   * The refresh a call shares is one that returned after the call began, in every continuation,
   * exactly when no leader is waiting to reenter with its result at that moment.
   */
  lemma SharesALaterOneIff(threads: nat, run: seq<Action>, t: nat)
    requires Possible(Initial(threads), run) && Enabled(After(Initial(threads), run), Call(t))
    ensures var s := After(Initial(threads), run);
      SharesALaterOne(s, t) <==> forall l :: 0 <= l < |s.pcs| ==> !s.pcs[l].Reentering?
  {
    InitiallySound(threads);
    RunKeepsInvariant(Initial(threads), run);
    var s := After(Initial(threads), run);
    if l :| 0 <= l < |s.pcs| && s.pcs[l].Reentering? {
      var s' := SharesTheEarlierOne(s, l, t);
      var more :| Continues(Do(s, Call(t)), more, t) && After(Do(s, Call(t)), more) == s';
      assert s'.pcs[t].k < |s.performed|;
    } else {
      NoneReenteringShares(s, t);
    }
  }

  /** Call by call: the refresh shared is a later one unless it is the one that was out and not yet published. */
  lemma WhichRefreshIsShared(threads: nat, run: seq<Action>, t: nat, more: seq<Action>)
    requires Possible(Initial(threads), run) && Enabled(After(Initial(threads), run), Call(t))
    requires Continues(Do(After(Initial(threads), run), Call(t)), more, t)
    ensures var s := After(Initial(threads), run); var s' := After(Do(s, Call(t)), more);
      s'.pcs[t].Returned? ==>
        (s'.pcs[t].k >= |s.performed| <==> !(|s.performed| == |s.published| + 1 && s'.pcs[t].k == |s.published|))
  {
    InitiallySound(threads);
    RunKeepsInvariant(Initial(threads), run);
    var s := After(Initial(threads), run);
    StepKeepsInvariant(s, Call(t));
    AssuredIsLater(Do(s, Call(t)), more, t, |s.published|);
  }

  lemma FirstCallLeads(s: State)
    requires s == Do(Initial(2), Call(0))
    ensures CanRunThrice(s, 0) && var s' := Thrice(s, 0); s'.pcs == [Leaving, Idle] && s'.performed == [] && s'.published == [] && |s'.arrivals| == 2
  {
    var s1 := Do(s, Run(0));
    assert s1.pcs == [Testing, Idle] && !s1.inFlight && s1.arrivals == [0, 0];
    var s2 := Do(s1, Run(0));
    assert s2.pcs == [Setting, Idle] && s2.arrivals == [0, 0];
    assert Do(s2, Run(0)).pcs == [Leaving, Idle];
  }

  lemma FirstCallPerforms(s: State, r: Result)
    requires s.pcs == [Leaving, Idle] && s.performed == [] && s.published == [] && |s.arrivals| == 2
    ensures Enabled(s, Run(0)) && Enabled(Do(s, Run(0)), Perform(0, r))
    ensures var s' := Do(Do(s, Run(0)), Perform(0, r)); s'.pcs == [Reentering(r), Idle] && s'.performed == [r] && s'.published == []
  {
    assert Do(s, Run(0)).pcs == [Performing, Idle];
  }

  /** Thread 0 has its result; thread 1 has not called yet. */
  lemma LateStateIsReached(r: Result) returns (s: State)
    ensures Reaches(Initial(2), s, 1) && s.pcs == [Reentering(r), Idle] && s.performed == [r] && s.published == []
  {
    var s0 := Initial(2);
    ReachesItself(s0, 1);
    var s1 := Takes(s0, s0, Call(0), 1);
    FirstCallLeads(s1);
    TakesThrice(s0, s1, 0, 1);
    s := Thrice(s1, 0);
    FirstCallPerforms(s, r);
    s := Takes(s0, s, Run(0), 1);
    s := Takes(s0, s, Perform(0, r), 1);
  }

  /**
   * It happens: from a state where perform_refresh() has already returned and thread 1 has not called,
   * thread 1 can call and be given that result.
   */
  lemma MaySharePerformedRefresh(r: Result)
    ensures exists s, s' :: && Reaches(Initial(2), s, 1) && s.pcs == [Reentering(r), Idle] && s.performed == [r]
                            && Enabled(s, Call(1)) && Reaches(Do(s, Call(1)), s', 1)
                            && s'.pcs == [Returned(r, 0), Returned(r, 0)] && s'.performed == [r]
  {
    var s := LateStateIsReached(r);
    ReachedIsSound(2, s, 1);
    var s' := SharesTheEarlierOne(s, 0, 1);
    ReachedIsAsBig(Do(s, Call(1)), s', 1);
    assert s'.pcs == [Returned(r, 0), Returned(r, 0)];
  }

  lemma ReachedIsSound(threads: nat, s: State, t: nat)
    requires Reaches(Initial(threads), s, t)
    ensures Invariant(s)
  {
    var run :| Continues(Initial(threads), run, t) && After(Initial(threads), run) == s;
    InitiallySound(threads);
    RunKeepsInvariant(Initial(threads), run);
  }

  lemma ReachedIsAsBig(s: State, s': State, t: nat)
    requires Reaches(s, s', t)
    ensures |s'.pcs| == |s.pcs|
  {
  }
}
