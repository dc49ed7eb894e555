/** Bounded retry and its composition with the refresh: what goes on the wire, and the events it leaves. */
module Retry {

  const MAX_ATTEMPTS: nat := 3

  /** One exchange: none at all, or a status (0 is none either) and whether a body parses. */
  datatype Reply = Lost | Reply(status: int, parses: bool)

  function StatusOf(r: Reply): int {
    if r.Lost? then 0 else r.status
  }

  predicate NoResponse(r: Reply) { StatusOf(r) == 0 }

  predicate Success(r: Reply) { 200 <= StatusOf(r) < 300 }

  /** axiam_retry_should_retry() */
  predicate ShouldRetry(r: Reply) {
    NoResponse(r) || StatusOf(r) == 408 || StatusOf(r) == 429 || 500 <= StatusOf(r) <= 599
  }

  /** Every answer the wire will ever give, in order. */
  type Replies = nat -> Reply

  ghost predicate AllRetried(replies: Replies, from: nat, to: int) {
    forall i :: from <= i < to ==> ShouldRetry(replies(i))
  }

  datatype Event = Start(attempt: nat) | End(attempt: nat, status: int, success: bool) | Again(attempt: nat) | Refreshed

  // ----- What a budget allows -----

  /** How many exchanges a budget of `max` takes, the next one being number `at` on the wire. */
  function Spent(replies: Replies, at: nat, max: nat): (n: nat)
    requires max >= 1
    ensures 1 <= n <= max
    decreases max
  {
    if max == 1 || !ShouldRetry(replies(at)) then 1 else 1 + Spent(replies, at + 1, max - 1)
  }

  lemma {:induction false} SpentMeans(replies: Replies, at: nat, max: nat, n: nat)
    requires max >= 1
    ensures Spent(replies, at, max) == n
       <==> 1 <= n <= max && AllRetried(replies, at, at + n - 1) && (n == max || !ShouldRetry(replies(at + n - 1)))
    decreases max
  {
    if max > 1 && ShouldRetry(replies(at)) {
      if n >= 1 { SpentMeans(replies, at + 1, max - 1, n - 1); }
    } else {
      assert 1 < n <= max ==> !AllRetried(replies, at, at + n - 1) by {
        if 1 < n <= max { assert !ShouldRetry(replies(at)); }
      }
    }
  }

  /**
   * n exchanges are made exactly when all but the last went unanswered or were answered 408, 429 or with
   * a server error, and the last was not, or ends the budget.
   */
  lemma SpentIff(replies: Replies, at: nat, max: nat, n: nat)
    requires max >= 1
    ensures Spent(replies, at, max) == n
       <==> 1 <= n <= max
            && (forall i :: at <= i < at + n - 1 ==> replies(i).Lost? || replies(i).status in {0, 408, 429} || 500 <= replies(i).status <= 599)
            && (n == max || var r := replies(at + n - 1); r.Reply? && r.status !in {0, 408, 429} && !(500 <= r.status <= 599))
  {
    SpentMeans(replies, at, max, n);
  }

  function Exchanged(r: Reply, attempt: nat): seq<Event> {
    [Start(attempt), End(attempt, StatusOf(r), Success(r))]
  }

  /** The events of n exchanges, the first being attempt `first`. */
  function Phase(replies: Replies, at: nat, first: nat, n: nat): seq<Event>
    requires n >= 1
  {
    var pair := Exchanged(replies(at + n - 1), first + n - 1);
    if n == 1 then pair else Phase(replies, at, first, n - 1) + [Again(first + n - 2)] + pair
  }

  /**
   * What a phase reports: the i-th exchange as attempt first + i, its start, its end with its own status
   * and whether that was a success, and between two exchanges that the earlier one is tried again.
   */
  lemma {:induction false} PhaseReports(replies: Replies, at: nat, first: nat, n: nat, i: nat)
    requires i < n
    ensures var es := Phase(replies, at, first, n); var r := replies(at + i);
      && |es| == 3 * n - 1 && es[3 * i] == Start(first + i)
      && es[3 * i + 1] == (if r.Lost? then End(first + i, 0, false) else End(first + i, r.status, 200 <= r.status <= 299))
      && (i + 1 < n ==> es[3 * i + 2] == Again(first + i))
    decreases n
  {
    if i < n - 1 { PhaseReports(replies, at, first, n - 1, i); } else if n > 1 { PhaseReports(replies, at, first, n - 1, n - 2); }
  }

  lemma PhaseGrows(es: seq<Event>, replies: Replies, at: nat, first: nat, n: nat)
    requires n >= 1
    ensures es + Phase(replies, at, first, n) + [Again(first + n - 1)] + Exchanged(replies(at + n), first + n)
         == es + Phase(replies, at, first, n + 1)
  {
    Appended(es, Phase(replies, at, first, n) + [Again(first + n - 1)], Exchanged(replies(at + n), first + n));
    Appended(es, Phase(replies, at, first, n), [Again(first + n - 1)]);
  }

  lemma Appended(a: seq<Event>, b: seq<Event>, c: seq<Event>)
    ensures a + (b + c) == a + b + c && a + b + [] == a + b
  {
  }

  // ----- The trace grammar -----

  /** (start end again)* start end, attempts counted up from `first`. */
  ghost predicate Grammar(es: seq<Event>, first: nat)
    decreases |es|
  {
    && |es| >= 2 && es[0] == Start(first) && es[1].End? && es[1].attempt == first
    && (|es| > 2 ==> es[2] == Again(first) && Grammar(es[3..], first + 1))
  }

  function Starts(es: seq<Event>): seq<nat> {
    if es == [] then []
    else Starts(es[..|es| - 1]) + (if es[|es| - 1].Start? then [es[|es| - 1].attempt] else [])
  }

  lemma {:induction false} StartsConcat(a: seq<Event>, b: seq<Event>)
    ensures Starts(a + b) == Starts(a) + Starts(b)
    decreases |b|
  {
    if b == [] {
      assert a + b == a;
    } else {
      assert (a + b)[..|a + b| - 1] == a + b[..|b| - 1];
      StartsConcat(a, b[..|b| - 1]);
    }
  }

  function CountUp(first: nat, n: nat): seq<nat> { seq(n, i => first + i) }

  lemma ExchangeStarts(r: Reply, attempt: nat)
    ensures Starts(Exchanged(r, attempt)) == [attempt]
  {
    var es, start := Exchanged(r, attempt), [Start(attempt)];
    assert es[..|es| - 1] == start && start[..|start| - 1] == [];
    assert Starts(start) == [attempt];
    assert Starts(es) == Starts(start) + [];
  }

  lemma NextExchangeStarts(es: seq<Event>, again: Event, r: Reply, attempt: nat)
    requires again.Again?
    ensures Starts(es + [again] + Exchanged(r, attempt)) == Starts(es) + [attempt]
  {
    ExchangeStarts(r, attempt);
    StartsConcat(es + [again], Exchanged(r, attempt));
    assert (es + [again])[..|es + [again]| - 1] == es;
  }

  lemma {:induction false} PhaseAttempts(replies: Replies, at: nat, first: nat, n: nat)
    requires n >= 1
    ensures Starts(Phase(replies, at, first, n)) == CountUp(first, n)
    decreases n
  {
    if n == 1 {
      ExchangeStarts(replies(at), first);
    } else {
      PhaseAttempts(replies, at, first, n - 1);
      NextExchangeStarts(Phase(replies, at, first, n - 1), Again(first + n - 2), replies(at + n - 1), first + n - 1);
    }
  }

  lemma {:induction false} GrammarGrows(es: seq<Event>, first: nat, n: nat, status: int, success: bool)
    requires Grammar(es, first) && n >= 1 && |es| == 3 * n - 1
    ensures Grammar(es + [Again(first + n - 1), Start(first + n), End(first + n, status, success)], first)
    decreases n
  {
    var more := es + [Again(first + n - 1), Start(first + n), End(first + n, status, success)];
    if n > 1 {
      GrammarGrows(es[3..], first + 1, n - 1, status, success);
      assert more[3..] == es[3..] + [Again(first + n - 1), Start(first + n), End(first + n, status, success)];
    } else {
      assert more[3..] == [Start(first + n), End(first + n, status, success)];
    }
  }

  lemma {:induction false} PhaseFollowsGrammar(replies: Replies, at: nat, first: nat, n: nat)
    requires n >= 1
    ensures Grammar(Phase(replies, at, first, n), first) && |Phase(replies, at, first, n)| == 3 * n - 1
    decreases n
  {
    if n > 1 {
      PhaseFollowsGrammar(replies, at, first, n - 1);
      var r := replies(at + n - 1);
      GrammarGrows(Phase(replies, at, first, n - 1), first, n - 1, StatusOf(r), Success(r));
      assert Phase(replies, at, first, n)
          == Phase(replies, at, first, n - 1) + [Again(first + n - 2), Start(first + n - 1), End(first + n - 1, StatusOf(r), Success(r))];
    }
  }

  lemma {:induction false} PhaseHasNoRefresh(replies: Replies, at: nat, first: nat, n: nat)
    requires n >= 1
    ensures Refreshed !in Phase(replies, at, first, n)
    decreases n
  {
    if n > 1 { PhaseHasNoRefresh(replies, at, first, n - 1); }
  }

  /** The exchanges of one check: its budget, and after a refresh one more. */
  function CheckSends(replies: Replies, at: nat, budget: nat, refreshes: bool, refreshKind: int): nat
    requires budget >= 1
  {
    Spent(replies, at, budget) + (if refreshes && refreshKind == 0 then 1 else 0)
  }

  function CheckEvents(replies: Replies, at: nat, budget: nat, refreshes: bool, refreshKind: int): seq<Event>
    requires budget >= 1
  {
    var n := Spent(replies, at, budget);
    Phase(replies, at, 1, n) + AfterRefresh(replies, at + n, n + 1, refreshes, refreshKind)
  }

  function AfterRefresh(replies: Replies, at: nat, attempt: nat, refreshes: bool, refreshKind: int): seq<Event> {
    if !refreshes then [] else [Refreshed] + (if refreshKind == 0 then Phase(replies, at, attempt, 1) else [])
  }

  /** At most three attempts; then nothing, a refresh alone, or a refresh and one attempt more. */
  ghost predicate TwoPhases(first: seq<Event>, second: seq<Event>) {
    && Grammar(first, 1) && |Starts(first)| <= 3
    && (second == [] || second == [Refreshed] || (second[0] == Refreshed && |second| == 3 && Grammar(second[1..], |Starts(first)| + 1)))
  }

  /** So many attempts, numbered from 1 without a gap, in two phases. */
  ghost predicate Protocol(es: seq<Event>, sends: nat) {
    Starts(es) == CountUp(1, sends) && exists first, second :: es == first + second && TwoPhases(first, second)
  }

  lemma RefreshedIff(replies: Replies, at: nat, budget: nat, refreshes: bool, refreshKind: int)
    requires budget >= 1
    ensures Refreshed in CheckEvents(replies, at, budget, refreshes, refreshKind) <==> refreshes
  {
    PhaseHasNoRefresh(replies, at, 1, Spent(replies, at, budget));
    if refreshes { assert AfterRefresh(replies, at + Spent(replies, at, budget), Spent(replies, at, budget) + 1, refreshes, refreshKind)[0] == Refreshed; }
  }

  /** The events of a check, one phase after another. */
  lemma CheckGrows(replies: Replies, at: nat, budget: nat, refreshes: bool, refreshKind: int, es: seq<Event>)
    requires budget >= 1
    ensures var n := Spent(replies, at, budget); var first := es + Phase(replies, at, 1, n);
      es + CheckEvents(replies, at, budget, refreshes, refreshKind)
        == (if !refreshes then first else if refreshKind != 0 then first + [Refreshed] else first + [Refreshed] + Phase(replies, at + n, n + 1, 1))
  {
    var n := Spent(replies, at, budget);
    Appended(es, Phase(replies, at, 1, n), AfterRefresh(replies, at + n, n + 1, refreshes, refreshKind));
    if refreshes { Appended(es + Phase(replies, at, 1, n), [Refreshed], if refreshKind == 0 then Phase(replies, at + n, n + 1, 1) else []); }
  }

  /** Of the new events one says that a refresh was made exactly when one was. */
  lemma RefreshedAfter(es: seq<Event>, replies: Replies, at: nat, budget: nat, refreshes: bool, refreshKind: int)
    requires budget >= 1
    ensures Refreshed in (es + CheckEvents(replies, at, budget, refreshes, refreshKind))[|es|..] <==> refreshes
  {
    var more := CheckEvents(replies, at, budget, refreshes, refreshKind);
    RefreshedIff(replies, at, budget, refreshes, refreshKind);
    assert (es + more)[|es|..] == more;
  }

  /**
   * Every authorization check: at most three attempts, then at most one refresh and, if it succeeds,
   * one attempt more; attempts are numbered from 1 without a gap, and each phase is (start end
   * again)* start end.
   */
  lemma CheckTrace(replies: Replies, at: nat, budget: nat, refreshes: bool, refreshKind: int)
    requires 1 <= budget <= MAX_ATTEMPTS
    ensures var es := CheckEvents(replies, at, budget, refreshes, refreshKind);
            var sends := CheckSends(replies, at, budget, refreshes, refreshKind);
      sends <= 4 && (!refreshes ==> sends <= 3) && Protocol(es, sends)
  {
    var n := Spent(replies, at, budget);
    PhasesFollow(replies, at, n, refreshes, refreshKind, CheckEvents(replies, at, budget, refreshes, refreshKind));
  }

  lemma PhasesFollow(replies: Replies, at: nat, n: nat, refreshes: bool, refreshKind: int, es: seq<Event>)
    requires 1 <= n <= 3 && es == Phase(replies, at, 1, n) + AfterRefresh(replies, at + n, n + 1, refreshes, refreshKind)
    ensures Protocol(es, n + (if refreshes && refreshKind == 0 then 1 else 0))
  {
    PhaseFollowsGrammar(replies, at, 1, n);
    PhaseAttempts(replies, at, 1, n);
    AfterRefreshFollows(replies, at + n, n + 1, refreshes, refreshKind);
    PhasesJoin(es, Phase(replies, at, 1, n), AfterRefresh(replies, at + n, n + 1, refreshes, refreshKind), n,
               if refreshes && refreshKind == 0 then 1 else 0);
  }

  lemma PhasesJoin(es: seq<Event>, first: seq<Event>, second: seq<Event>, n: nat, more: nat)
    requires es == first + second && n <= 3
    requires Grammar(first, 1) && Starts(first) == CountUp(1, n) && Starts(second) == CountUp(n + 1, more)
    requires second == [] || second == [Refreshed] || (second[0] == Refreshed && |second| == 3 && Grammar(second[1..], n + 1))
    ensures Protocol(es, n + more)
  {
    StartsConcat(first, second);
    CountsJoin(1, n, more);
    assert TwoPhases(first, second);
  }

  lemma CountsJoin(first: nat, n: nat, more: nat)
    ensures CountUp(first, n) + CountUp(first + n, more) == CountUp(first, n + more)
  {
  }

  /** What comes after the first phase: nothing, a refresh that failed, or a refresh and one exchange. */
  lemma AfterRefreshFollows(replies: Replies, at: nat, attempt: nat, refreshes: bool, refreshKind: int)
    ensures var es := AfterRefresh(replies, at, attempt, refreshes, refreshKind);
      && Starts(es) == CountUp(attempt, if refreshes && refreshKind == 0 then 1 else 0)
      && (es == [] || es == [Refreshed] || (es[0] == Refreshed && |es| == 3 && Grammar(es[1..], attempt)))
  {
    if refreshes {
      assert [Refreshed][..0] == [] && Starts([Refreshed]) == [];
      if refreshKind == 0 {
        var extra := Phase(replies, at, attempt, 1);
        PhaseFollowsGrammar(replies, at, attempt, 1);
        PhaseAttempts(replies, at, attempt, 1);
        StartsConcat([Refreshed], extra);
        assert AfterRefresh(replies, at, attempt, refreshes, refreshKind)[1..] == extra;
      }
    }
  }

  // ----- The code -----

  datatype Outcome = Ok | Network | Status(status: int) | RefreshFailed(kind: int) | Refused

  /** The outcome an answer stands for. */
  function OutcomeOf(r: Reply): Outcome
  {
    if NoResponse(r) then Network else if Success(r) then Ok else Status(StatusOf(r))
  }


  class Session {
    const replies: Replies
    const retryEnabled: bool
    var authenticated: bool
    var deviceSession: bool
    var sent: nat
    var events: seq<Event>

    constructor (replies: Replies, retryEnabled: bool, authenticated: bool, deviceSession: bool)
      ensures sent == 0 && events == []
      ensures this.replies == replies && this.retryEnabled == retryEnabled
      ensures this.authenticated == authenticated && this.deviceSession == deviceSession
    {
      this.replies, this.retryEnabled := replies, retryEnabled;
      this.authenticated, this.deviceSession := authenticated, deviceSession;
      sent, events := 0, [];
    }

    function Budget(): (n: nat)
      ensures n == (if retryEnabled then 3 else 1)
    {
      if retryEnabled then MAX_ATTEMPTS else 1
    }

    /** One exchange and its pair of events. */
    method Exchange(attempt: nat) returns (r: Reply)
      modifies this`sent, this`events
      ensures r == replies(old(sent)) && sent == old(sent) + 1
      ensures events == old(events) + Exchanged(r, attempt)
    {
      r := replies(sent);
      events := events + [Start(attempt), End(attempt, StatusOf(r), Success(r))];
      sent := sent + 1;
    }

    /** transport_retrying() */
    method TransportRetrying(first: nat, max: nat) returns (r: Reply, last: nat)
      requires max >= 1
      modifies this`sent, this`events
      ensures var n := Spent(replies, old(sent), max);
        && last == first + n - 1 && sent == old(sent) + n && r == replies(sent - 1)
        && events == old(events) + Phase(replies, old(sent), first, n)
    {
      last := first;
      r := Exchange(last);
      ghost var n := 1;
      while last < first + max - 1 && ShouldRetry(r)
        invariant 1 <= n <= max && last == first + n - 1 && sent == old(sent) + n && r == replies(sent - 1)
        invariant events == old(events) + Phase(replies, old(sent), first, n)
        invariant Spent(replies, old(sent), max) == n - 1 + Spent(replies, sent - 1, max - n + 1)
      {
        PhaseGrows(old(events), replies, old(sent), first, n);
        events := events + [Again(last)];
        last := last + 1;
        r := Exchange(last);
        n := n + 1;
      }
    }

    /** A device credential has no refresh. */
    predicate Refreshable()
      reads this`authenticated, this`deviceSession
    {
      authenticated && !deviceSession
    }

    /** The exchanges of authz_post(): the budget, a refresh when it ended in a 401, and after it one exchange more. */
    method SendCheck(refreshKind: int) returns (r: Reply, refreshed: bool)
      modifies this`sent, this`events
      ensures var n := Spent(replies, old(sent), Budget());
        && refreshed == (authenticated && !deviceSession && StatusOf(replies(old(sent) + n - 1)) == 401)
        && sent == old(sent) + (if refreshed && refreshKind == 0 then n + 1 else n) && r == replies(sent - 1)
        && events == old(events) + CheckEvents(replies, old(sent), Budget(), refreshed, refreshKind)
    {
      var spent;
      r, spent := TransportRetrying(1, Budget());
      refreshed := StatusOf(r) == 401 && Refreshable();
      CheckGrows(replies, old(sent), Budget(), refreshed, refreshKind, old(events));
      if refreshed {
        events := events + [Refreshed];
        if refreshKind == 0 {
          var last;
          r, last := TransportRetrying(spent + 1, 1);
        }
      }
    }

    /** authz_post(); `refreshKind` is what single_flight_refresh() returns, 0 being AXIAM_OK. */
    method AuthzPost(refreshKind: int) returns (o: Outcome)
      modifies this`sent, this`events
      ensures var n := Spent(replies, old(sent), if retryEnabled then 3 else 1); var first := replies(old(sent) + n - 1);
        var refreshed := authenticated && !deviceSession && first.Reply? && first.status == 401;
        && sent == old(sent) + (if refreshed && refreshKind == 0 then n + 1 else n)
        && events == old(events) + CheckEvents(replies, old(sent), Budget(), refreshed, refreshKind)
        && (Refreshed in events[|old(events)|..] <==> refreshed)
      ensures var first := replies(old(sent) + Spent(replies, old(sent), if retryEnabled then 3 else 1) - 1); var r := replies(sent - 1);
        if authenticated && !deviceSession && first.Reply? && first.status == 401 && refreshKind != 0 then o == RefreshFailed(refreshKind)
        else if r.Lost? || r.status == 0 then o == Network
        else if 200 <= r.status <= 299 then o == Ok else o == Status(r.status)
    {
      var r, refreshed := SendCheck(refreshKind);
      RefreshedAfter(old(events), replies, old(sent), Budget(), refreshed, refreshKind);
      return if refreshed && refreshKind != 0 then RefreshFailed(refreshKind) else OutcomeOf(r);
    }

    /**
     * axiam_mgmt_send(): refused before the wire when the client is closed or has no session; only a
     * GET may be sent again.
     */
    method MgmtSend(isGet: bool, shut: bool, hasSession: bool, wantsBody: bool) returns (o: Outcome)
      modifies this`sent, this`events
      ensures shut || !hasSession ==> o == Refused && sent == old(sent) && events == old(events)
      ensures !shut && hasSession ==>
        var n := Spent(replies, old(sent), if isGet then Budget() else 1);
        && sent == old(sent) + n && events == old(events) + Phase(replies, old(sent), 1, n)
        && var r := replies(sent - 1);
           && (r.Lost? || r.status == 0 ==> o == Network)
           && (r.Reply? && 200 <= r.status <= 299 ==> o == if wantsBody && !r.parses then Network else Ok)
           && (r.Reply? && r.status != 0 && !(200 <= r.status <= 299) ==> o == Status(r.status))
      ensures !isGet ==> sent <= old(sent) + 1
      ensures sent <= old(sent) + 3
    {
      if shut || !hasSession { return Refused; }
      var attempts := if isGet && retryEnabled then MAX_ATTEMPTS else 1;
      var attempt := 1;
      while true
        invariant 1 <= attempt <= attempts && sent == old(sent) + attempt - 1
        invariant attempt == 1 ==> events == old(events)
        invariant attempt > 1 ==> events == old(events) + Phase(replies, old(sent), 1, attempt - 1) + [Again(attempt - 1)]
        invariant AllRetried(replies, old(sent), sent)
        decreases attempts - attempt
      {
        var r := Exchange(attempt);
        if attempt < attempts && !Success(r) && ShouldRetry(r) {
          events := events + [Again(attempt)];
          attempt := attempt + 1;
          continue;
        }
        SpentMeans(replies, old(sent), attempts, attempt);
        return MgmtOutcome(r, wantsBody);
      }
    }
  }

  /** A 2xx whose body is asked for and is no JSON is a failure, and never sent again. */
  function MgmtOutcome(r: Reply, wantsBody: bool): Outcome {
    if Success(r) && wantsBody && !r.parses then Network else OutcomeOf(r)
  }
}
