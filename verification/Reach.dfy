/** The generator's two set computations: a worklist over references, and a fixpoint of what can hold an enum. */
module Reach {
  import opened Basics

  /** What each known name refers to; a name outside the map is skipped. */
  type Graph = map<string, seq<string>>

  ghost predicate Path(g: Graph, p: seq<string>) {
    && p != [] && (forall i :: 0 <= i < |p| ==> p[i] in g)
    && forall i :: 0 <= i < |p| - 1 ==> p[i + 1] in g[p[i]]
  }

  /** Reached from a seed along references, all of it inside the graph. */
  ghost predicate Reached(g: Graph, seeds: seq<string>, n: string) {
    exists p :: Path(g, p) && p[0] in seeds && p[|p| - 1] == n
  }

  lemma SeedReached(g: Graph, seeds: seq<string>, n: string)
    requires n in g && n in seeds
    ensures Reached(g, seeds, n)
  {
    assert Path(g, [n]);
  }

  lemma ReachedGoesOn(g: Graph, seeds: seq<string>, n: string, m: string)
    requires Reached(g, seeds, n) && m in g && m in g[n]
    ensures Reached(g, seeds, m)
  {
    var p :| Path(g, p) && p[0] in seeds && p[|p| - 1] == n;
    var q := p + [m];
    assert forall i :: 0 <= i < |q| - 1 ==> q[i + 1] in g[q[i]];
    assert Path(g, q) && q[0] in seeds && q[|q| - 1] == m;
  }

  ghost predicate Closed(g: Graph, seeds: seq<string>, seen: set<string>, frontier: seq<string>) {
    && (forall n :: n in seeds && n in g ==> n in seen || n in frontier)
    && (forall n, m :: n in seen && n in g && m in g[n] && m in g ==> m in seen || m in frontier)
  }

  lemma {:induction false} PathStaysInside(g: Graph, seeds: seq<string>, seen: set<string>, p: seq<string>, k: nat)
    requires Closed(g, seeds, seen, []) && Path(g, p) && p[0] in seeds && k < |p|
    ensures p[k] in seen
    decreases k
  {
    if k > 0 {
      PathStaysInside(g, seeds, seen, p, k - 1);
      assert p[k - 1 + 1] in g[p[k - 1]];
    }
  }

  ghost predicate AllReached(g: Graph, seeds: seq<string>, names: seq<string>) {
    forall n :: n in names && n in g ==> Reached(g, seeds, n)
  }

  lemma SkipKeeps(g: Graph, seeds: seq<string>, seen: set<string>, rest: seq<string>, name: string)
    requires Closed(g, seeds, seen, rest + [name]) && (name in seen || name !in g)
    ensures Closed(g, seeds, seen, rest)
  {
    assert forall n :: n in rest + [name] ==> n in rest || n == name;
  }

  lemma VisitKeeps(g: Graph, seeds: seq<string>, seen: set<string>, rest: seq<string>, name: string)
    requires Closed(g, seeds, seen, rest + [name]) && name in g && Reached(g, seeds, name) && AllReached(g, seeds, rest)
    ensures Closed(g, seeds, seen + {name}, rest + g[name]) && AllReached(g, seeds, rest + g[name])
  {
    assert forall n :: n in rest + [name] ==> n in rest || n == name;
    forall m | m in g[name] && m in g ensures Reached(g, seeds, m) {
      ReachedGoesOn(g, seeds, name, m);
    }
  }

  /** The worklist: schema_closure() over schema references, unsendable_models() over model members. */
  method Reachable(g: Graph, seeds: seq<string>) returns (seen: set<string>)
    ensures forall n :: n in seen <==> Reached(g, seeds, n)
    ensures seen <= g.Keys
  {
    seen := {};
    var frontier := seeds;
    forall n | n in seeds && n in g ensures Reached(g, seeds, n) {
      SeedReached(g, seeds, n);
    }
    while frontier != []
      invariant seen <= g.Keys && Closed(g, seeds, seen, frontier)
      invariant AllReached(g, seeds, frontier) && forall n :: n in seen ==> Reached(g, seeds, n)
      decreases |g.Keys - seen|, |frontier|
    {
      var name, rest := frontier[|frontier| - 1], frontier[..|frontier| - 1];
      assert frontier == rest + [name];
      frontier := rest;
      if name in seen || name !in g {
        SkipKeeps(g, seeds, seen, rest, name);
        continue;
      }
      VisitKeeps(g, seeds, seen, rest, name);
      Smaller(g.Keys - (seen + {name}), g.Keys - seen, name);
      seen := seen + {name};
      frontier := rest + g[name];
    }
    EverythingReachedSeen(g, seeds, seen);
  }

  lemma EverythingReachedSeen(g: Graph, seeds: seq<string>, seen: set<string>)
    requires Closed(g, seeds, seen, [])
    ensures forall n :: Reached(g, seeds, n) ==> n in seen
  {
    forall n | Reached(g, seeds, n) ensures n in seen {
      var p :| Path(g, p) && p[0] in seeds && p[|p| - 1] == n;
      PathStaysInside(g, seeds, seen, p, |p| - 1);
    }
  }

  // ----- The fixpoint -----

  /** A path from n, inside the reachable names, to one that is marked. */
  ghost predicate Bears(g: Graph, within: set<string>, marked: set<string>, n: string) {
    exists p :: Path(g, p) && p[0] == n && p[|p| - 1] in marked && forall i :: 0 <= i < |p| ==> p[i] in within
  }

  lemma BearsByStep(g: Graph, within: set<string>, marked: set<string>, n: string, m: string)
    requires Bears(g, within, marked, m) && n in g && n in within && m in g[n]
    ensures Bears(g, within, marked, n)
  {
    var p :| Path(g, p) && p[0] == m && p[|p| - 1] in marked && forall i :: 0 <= i < |p| ==> p[i] in within;
    var q := [n] + p;
    assert forall i :: 0 < i < |q| ==> q[i] == p[i - 1];
    assert Path(g, q) && q[0] == n && q[|q| - 1] in marked;
  }

  predicate Contributes(g: Graph, marked: set<string>, bearing: set<string>, n: string)
    requires n in g
  {
    n in marked || exists m :: m in g[n] && m in bearing
  }

  /** One pass over the names in order, each seeing what the pass has added so far. */
  method Pass(g: Graph, reachable: set<string>, marked: set<string>, order: seq<string>, bearing: set<string>)
    returns (grown: set<string>)
    requires reachable <= g.Keys && bearing <= reachable && (forall n :: n in reachable ==> n in order)
    requires forall n :: n in bearing ==> Bears(g, reachable, marked, n)
    ensures bearing <= grown <= reachable && forall n :: n in grown ==> Bears(g, reachable, marked, n)
    ensures grown == bearing ==> forall n :: n in reachable && Contributes(g, marked, bearing, n) ==> n in bearing
  {
    grown := bearing;
    for i := 0 to |order|
      invariant bearing <= grown <= reachable && forall n :: n in grown ==> Bears(g, reachable, marked, n)
      invariant grown == bearing ==> forall j :: 0 <= j < i && order[j] in reachable && Contributes(g, marked, bearing, order[j]) ==> order[j] in bearing
    {
      var n := order[i];
      if n in reachable && n !in bearing {
        if Contributes(g, marked, grown, n) {
          if n in marked {
            assert Path(g, [n]);
          } else {
            ghost var m :| m in g[n] && m in grown;
            BearsByStep(g, reachable, marked, n, m);
          }
          grown := grown + {n};
        }
      }
    }
  }

  lemma {:induction false} BearingHasPath(g: Graph, reachable: set<string>, marked: set<string>, bearing: set<string>, p: seq<string>, k: nat)
    requires Path(g, p) && p[|p| - 1] in marked && (forall i :: 0 <= i < |p| ==> p[i] in reachable) && k < |p|
    requires forall n :: n in reachable && n in g && Contributes(g, marked, bearing, n) ==> n in bearing
    ensures p[k] in bearing
    decreases |p| - k
  {
    if k < |p| - 1 {
      BearingHasPath(g, reachable, marked, bearing, p, k + 1);
      assert p[k + 1] in g[p[k]];
    }
  }

  /** The loop runs until a pass adds nothing, and has then found exactly what bears. */
  method Bearing(g: Graph, reachable: set<string>, marked: set<string>, order: seq<string>) returns (bearing: set<string>)
    requires reachable <= g.Keys && forall n :: n in reachable ==> n in order
    ensures forall n :: n in bearing <==> n in reachable && Bears(g, reachable, marked, n)
  {
    bearing := {};
    var changed := true;
    while changed
      invariant bearing <= reachable && forall n :: n in bearing ==> Bears(g, reachable, marked, n)
      invariant !changed ==> forall n :: n in reachable && Contributes(g, marked, bearing, n) ==> n in bearing
      decreases |reachable - bearing|, changed
    {
      var grown := Pass(g, reachable, marked, order, bearing);
      changed := grown != bearing;
      if changed {
        assert !(grown <= bearing);
        ghost var x :| x in grown && x !in bearing;
        Smaller(reachable - grown, reachable - bearing, x);
      }
      bearing := grown;
    }
    forall n | n in reachable && Bears(g, reachable, marked, n) ensures n in bearing {
      var p :| Path(g, p) && p[0] == n && p[|p| - 1] in marked && forall i :: 0 <= i < |p| ==> p[i] in reachable;
      BearingHasPath(g, reachable, marked, bearing, p, 0);
    }
  }
}
