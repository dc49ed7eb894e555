/** The auto-paging walk every listing is generated with: what it asks, what it returns, and who frees what. */
module Paging {
  import opened Basics

  const DEFAULT_LIMIT: int := 50

  datatype PageReq = PageReq(offset: int, limit: int, search: Option<string>)

  function OffsetOf(r: PageReq): nat { if r.offset < 0 then 0 else r.offset }

  function LimitOf(r: PageReq): (l: nat)
    ensures l >= 1
  {
    if r.limit < 1 then DEFAULT_LIMIT else r.limit
  }

  /** axiam_mgmt_page_next() */
  function PageNext(r: PageReq): PageReq {
    PageReq(OffsetOf(r) + LimitOf(r), LimitOf(r), r.search)
  }

  /** A server that lists the matches of a term, and gives at most `cap` of them at a time. */
  datatype Server<T> = Server(matches: Option<string> -> seq<T>, cap: nat)

  function Least(a: nat, b: nat): nat { if a <= b then a else b }

  function Page<T>(list: seq<T>, offset: nat, limit: nat, cap: nat): seq<T> {
    if offset >= |list| then [] else list[offset..Least(offset + Least(limit, cap), |list|)]
  }

  // ----- The walk, as a function -----

  /** Pages at offset, offset + limit, ... until one is empty. */
  function Walk<T>(list: seq<T>, offset: nat, limit: nat, cap: nat): seq<T>
    requires limit >= 1
    decreases |list| - offset
  {
    if offset >= |list| then [] else Page(list, offset, limit, cap) + Walk(list, offset + limit, limit, cap)
  }

  function Requests(n: nat, offset: nat, limit: nat): nat
    requires limit >= 1
    decreases n - offset
  {
    if offset >= n then 1 else 1 + Requests(n, offset + limit, limit)
  }

  lemma {:induction false} WalkIsShort<T>(list: seq<T>, offset: nat, limit: nat, cap: nat)
    requires limit >= 1
    ensures |Walk(list, offset, limit, cap)| <= if offset <= |list| then |list| - offset else 0
    decreases |list| - offset
  {
    if offset < |list| { WalkIsShort(list, offset + limit, limit, cap); }
  }

  lemma {:induction false} UncappedWalk<T>(list: seq<T>, offset: nat, limit: nat, cap: nat)
    requires 1 <= limit <= cap && offset <= |list|
    ensures Walk(list, offset, limit, cap) == list[offset..]
    decreases |list| - offset
  {
    if offset < |list| {
      if offset + limit <= |list| {
        UncappedWalk(list, offset + limit, limit, cap);
        assert list[offset..] == list[offset..offset + limit] + list[offset + limit..];
      } else {
        assert Walk(list, offset + limit, limit, cap) == [];
      }
    }
  }

  /**
   * The walk is the whole list from its start, in order and without repetition, exactly when the server
   * honours the limit, or has no more than one of its own pages left: the next offset is computed from
   * the limit asked for, not from what came back.
   */
  lemma WalkIsCompleteIff<T>(list: seq<T>, offset: nat, limit: nat, cap: nat)
    requires limit >= 1 && cap >= 1 && offset <= |list|
    ensures Walk(list, offset, limit, cap) == list[offset..] <==> limit <= cap || |list| - offset <= cap
  {
    if limit <= cap {
      UncappedWalk(list, offset, limit, cap);
    } else if offset < |list| {
      WalkIsShort(list, offset + limit, limit, cap);
      if |list| - offset <= cap { assert Walk(list, offset + limit, limit, cap) == []; }
    }
  }

  /** One request for each page, and one for the empty page that ends it. */
  lemma {:induction false} RequestsAre(n: nat, offset: nat, limit: nat)
    requires limit >= 1 && offset <= n
    ensures Requests(n, offset, limit) == (n - offset + limit - 1) / limit + 1
    decreases n - offset
  {
    if offset == n {
      assert (limit - 1) / limit == 0;
    } else if offset + limit >= n {
      assert 1 <= n - offset <= limit;
      QuotientIs(n - offset + limit - 1, limit, 1);
    } else {
      RequestsAre(n, offset + limit, limit);
      QuotientStep(n - offset - 1, limit);
    }
  }

  lemma QuotientIs(x: nat, d: nat, q: nat)
    requires d >= 1 && q * d <= x < (q + 1) * d
    ensures x / d == q
  {
    QuotientBounds(x, d);
    assert (q + 1 - x / d) * d == (q + 1) * d - (x / d) * d;
    PositiveFactor(q + 1 - x / d, d);
    assert (x / d + 1 - q) * d == (x / d + 1) * d - q * d;
    PositiveFactor(x / d + 1 - q, d);
  }

  lemma QuotientBounds(x: nat, d: nat)
    requires d >= 1
    ensures (x / d) * d <= x < (x / d + 1) * d
  {
    assert x == (x / d) * d + x % d;
  }

  lemma QuotientStep(x: nat, d: nat)
    requires d >= 1
    ensures (x + d) / d == x / d + 1
  {
    QuotientBounds(x, d);
    assert (x / d + 1) * d == (x / d) * d + d;
    assert (x / d + 1 + 1) * d == (x / d + 1) * d + d;
    QuotientIs(x + d, d, x / d + 1);
  }

  // ----- The walk, as it is written -----

  /** A parsed item is an object of its own; `born` tells one from another. */
  datatype Object<T> = Object(value: T, born: nat)

  function Values<T>(os: seq<Object<T>>): (vs: seq<T>)
    ensures |vs| == |os| && forall i :: 0 <= i < |os| ==> vs[i] == os[i].value
  {
    seq(|os|, i requires 0 <= i < |os| => os[i].value)
  }

  function Born<T>(vs: seq<T>, from: nat): (os: seq<Object<T>>)
    ensures |os| == |vs| && forall i :: 0 <= i < |vs| ==> os[i] == Object(vs[i], from + i)
  {
    seq(|vs|, i requires 0 <= i < |vs| => Object(vs[i], from + i))
  }

  datatype Ending = Walked | Failed(request: nat) | OutOfMemory

  /** How each request and each allocation goes. */
  datatype Luck = Luck(answers: nat -> bool, memory: nat -> bool)

  function RequestList(first: PageReq, n: nat): (rs: seq<PageReq>)
    ensures |rs| == n
  {
    if n == 0 then [] else RequestList(first, n - 1) + [Nth(first, n - 1)]
  }

  function Nth(first: PageReq, k: nat): (r: PageReq)
    ensures r.search == first.search && LimitOf(r) == LimitOf(first)
  {
    if k == 0 then first else PageNext(Nth(first, k - 1))
  }

  /**
   * The k-th request asks for what starts k pages after the start, a negative start being 0 and a limit
   * under 1 being 50; each after the first states both, and the search stays as it was.
   */
  lemma {:induction false} NthStarts(first: PageReq, k: nat)
    ensures OffsetOf(Nth(first, k)) == OffsetOf(first) + k * LimitOf(first)
    ensures var offset := if first.offset < 0 then 0 else first.offset; var limit := if first.limit < 1 then 50 else first.limit;
      && OffsetOf(first) == offset && LimitOf(first) == limit
      && Nth(first, k) == if k == 0 then first else PageReq(offset + k * limit, limit, first.search)
    decreases k
  {
    if k > 0 {
      NthStarts(first, k - 1);
      assert k * LimitOf(first) == (k - 1) * LimitOf(first) + LimitOf(first);
    }
  }

  /** After n pages: everything so far, and the walk still to come. */
  ghost predicate Walking<T>(list: seq<T>, first: PageReq, cap: nat, all: seq<Object<T>>, offset: nat, n: nat) {
    && (forall i :: 0 <= i < |all| ==> all[i].born == i)
    && Values(all) + Walk(list, offset, LimitOf(first), cap) == Walk(list, OffsetOf(first), LimitOf(first), cap)
    && n + Requests(|list|, offset, LimitOf(first)) == Requests(|list|, OffsetOf(first), LimitOf(first))
  }

  lemma ValuesConcat<T>(a: seq<Object<T>>, vs: seq<T>, from: nat)
    ensures Values(a + Born(vs, from)) == Values(a) + vs
  {
  }

  lemma OnePageOn<T>(list: seq<T>, first: PageReq, cap: nat, all: seq<Object<T>>, offset: nat, n: nat)
    requires Walking(list, first, cap, all, offset, n) && offset < |list|
    ensures Walking(list, first, cap, all + Born(Page(list, offset, LimitOf(first), cap), |all|), offset + LimitOf(first), n + 1)
  {
    var limit := LimitOf(first);
    var page := Page(list, offset, limit, cap);
    ValuesConcat(all, page, |all|);
    Joins(Values(all), page, Walk(list, offset + limit, limit, cap));
  }

  lemma WalkEnds<T>(list: seq<T>, first: PageReq, cap: nat, all: seq<Object<T>>, offset: nat, n: nat)
    requires Walking(list, first, cap, all, offset, n) && offset >= |list|
    ensures Values(all) == Walk(list, OffsetOf(first), LimitOf(first), cap)
    ensures n + 1 == Requests(|list|, OffsetOf(first), LimitOf(first))
  {
  }

  ghost predicate WalkedAll<T>(server: Server<T>, first: PageReq, all: seq<Object<T>>, requests: nat) {
    var list := server.matches(first.search);
    && Values(all) == Walk(list, OffsetOf(first), LimitOf(first), server.cap)
    && requests == Requests(|list|, OffsetOf(first), LimitOf(first))
  }

  /** The loop's state: what was asked, what was collected, and the request to come. */
  ghost predicate Underway<T>(server: Server<T>, first: PageReq, req: PageReq, all: seq<Object<T>>, requests: seq<PageReq>) {
    && requests == RequestList(first, |requests|) && req == Nth(first, |requests|)
    && Walking(server.matches(first.search), first, server.cap, all, OffsetOf(req), |requests|)
  }

  function PageOf<T>(server: Server<T>, req: PageReq, born: nat): seq<Object<T>> {
    Born(Page(server.matches(req.search), OffsetOf(req), LimitOf(req), server.cap), born)
  }

  lemma OneTurn<T>(server: Server<T>, first: PageReq, req: PageReq, all: seq<Object<T>>, requests: seq<PageReq>)
    requires Underway(server, first, req, all, requests) && PageOf(server, req, |all|) != []
    ensures Underway(server, first, PageNext(req), all + PageOf(server, req, |all|), requests + [req])
    ensures OffsetOf(PageNext(req)) == OffsetOf(req) + LimitOf(req) && OffsetOf(req) < |server.matches(first.search)|
  {
    OnePageOn(server.matches(first.search), first, server.cap, all, OffsetOf(req), |requests|);
  }

  lemma LastTurn<T>(server: Server<T>, first: PageReq, req: PageReq, all: seq<Object<T>>, requests: seq<PageReq>)
    requires server.cap >= 1 && Underway(server, first, req, all, requests) && PageOf(server, req, |all|) == []
    ensures WalkedAll(server, first, all, |requests| + 1)
  {
    WalkEnds(server.matches(first.search), first, server.cap, all, OffsetOf(req), |requests|);
  }

  lemma OneMoreAsked(first: PageReq, req: PageReq, requests: seq<PageReq>)
    requires requests == RequestList(first, |requests|) && req == Nth(first, |requests|)
    ensures requests + [req] == RequestList(first, |requests| + 1)
  {
  }

  /** The loop: `all` is what was collected, `one` a page that could not be. */
  method WalkPages<T>(server: Server<T>, first: PageReq, luck: Luck)
    returns (e: Ending, all: seq<Object<T>>, one: seq<Object<T>>, requests: seq<PageReq>)
    requires server.cap >= 1
    ensures requests == RequestList(first, |requests|)
    ensures e.Walked? ==> one == [] && WalkedAll(server, first, all, |requests|)
    ensures e.Failed? ==> one == [] && |requests| == e.request + 1 && !luck.answers(e.request)
    ensures forall i :: 0 <= i < |all + one| ==> (all + one)[i].born == i
  {
    var req := first;
    all, requests := [], [];
    while true
      invariant Underway(server, first, req, all, requests)
      decreases |server.matches(first.search)| - OffsetOf(req)
    {
      OneMoreAsked(first, req, requests);
      if !luck.answers(|requests|) { return Failed(|requests|), all, [], requests + [req]; }
      one := PageOf(server, req, |all|);
      if |one| == 0 {
        LastTurn(server, first, req, all, requests);
        return Walked, all, one, requests + [req];
      }
      if !luck.memory(|requests| + 1) { return OutOfMemory, all, one, requests + [req]; }
      OneTurn(server, first, req, all, requests);
      all, requests, req := all + one, requests + [req], PageNext(req);
    }
  }

  /**
   * One `_all` operation.  On success every item of the walk comes back in one page, none of them freed;
   * on any failure nothing comes back, and every item made so far is freed once.
   */
  method All<T(==)>(server: Server<T>, start: Option<PageReq>, wanted: bool, luck: Luck)
    returns (e: Ending, items: seq<Object<T>>, requests: seq<PageReq>, freed: multiset<Object<T>>, made: seq<Object<T>>)
    requires server.cap >= 1
    ensures requests == RequestList(start.GetOr(PageReq(0, 50, None)), |requests|)
    ensures e.Walked? ==> WalkedAll(server, start.GetOr(PageReq(0, 50, None)), made, |requests|)
    ensures e.Failed? ==> |requests| == e.request + 1 && !luck.answers(e.request)
    ensures e.Walked? && wanted ==> items == made && freed == multiset{}
    ensures !e.Walked? || !wanted ==> items == [] && freed == multiset(made)
    ensures forall i :: 0 <= i < |made| ==> made[i].born == i
  {
    if !luck.memory(0) { return OutOfMemory, [], [], multiset{}, []; }
    var all, one;
    e, all, one, requests := WalkPages(server, start.GetOr(PageReq(0, DEFAULT_LIMIT, None)), luck);
    made := all + one;
    if e.Walked? && wanted { return e, all, requests, multiset{}, made; }
    return e, [], requests, multiset(one) + multiset(all), made;
  }
}
