/** axiam_mgmt_query(): a buffer sized before the values are encoded, and never outgrown. */
module UrlQuery {
  import opened Basics
  import opened UrlText

  datatype Pair = Pair(name: Bytes, value: Bytes)

  /** The parameters that are set, in order. */
  function SetPairs(names: seq<Bytes>, values: seq<Option<Bytes>>): seq<Pair>
    requires |names| == |values|
  {
    if names == [] then []
    else
      var n := |names| - 1;
      SetPairs(names[..n], values[..n]) + (if values[n].None? then [] else [Pair(names[n], values[n].value)])
  }

  /** The pairs stand at these places: every parameter with a value, each once, under its own name, in order. */
  ghost predicate StandAt(names: seq<Bytes>, values: seq<Option<Bytes>>, ps: seq<Pair>, at: seq<nat>)
    requires |names| == |values|
  {
    && |at| == |ps| && (forall j, k :: 0 <= j < k < |at| ==> at[j] < at[k])
    && (forall j :: 0 <= j < |at| ==> at[j] < |names| && Some(ps[j].value) == values[at[j]] && ps[j].name == names[at[j]])
    && (forall i :: 0 <= i < |names| && values[i].Some? ==> i in at)
  }

  lemma StandAtNext(names: seq<Bytes>, values: seq<Option<Bytes>>, ps: seq<Pair>, at: seq<nat>)
    requires |names| == |values| > 0 && StandAt(names[..|names| - 1], values[..|names| - 1], ps, at)
    ensures var n := |names| - 1;
      if values[n].None? then StandAt(names, values, ps, at) else StandAt(names, values, ps + [Pair(names[n], values[n].value)], at + [n])
  {
    var n := |names| - 1;
    forall i | 0 <= i < n && values[i].Some? ensures i in at { assert values[..n][i] == values[i]; }
    if values[n].Some? { assert (at + [n])[|at|] == n; }
  }

  lemma {:induction false} SetPairsAre(names: seq<Bytes>, values: seq<Option<Bytes>>) returns (at: seq<nat>)
    requires |names| == |values|
    ensures StandAt(names, values, SetPairs(names, values), at)
    decreases |names|
  {
    at := [];
    if names != [] {
      var n := |names| - 1;
      at := SetPairsAre(names[..n], values[..n]);
      StandAtNext(names, values, SetPairs(names[..n], values[..n]), at);
      if values[n].Some? { at := at + [n]; }
    }
  }

  function Term(p: Pair, first: bool): Bytes {
    [if first then QUESTION else AMPERSAND] + p.name + [EQUALS] + Encode(p.value)
  }

  function QueryText(ps: seq<Pair>): Bytes {
    if ps == [] then [] else QueryText(ps[..|ps| - 1]) + Term(ps[|ps| - 1], |ps| == 1)
  }

  /** Three bytes for each byte of a value, two for the punctuation, one for the NUL. */
  function Need(path: Bytes, ps: seq<Pair>): nat {
    if ps == [] then |path| + 1
    else Need(path, ps[..|ps| - 1]) + |ps[|ps| - 1].name| + 3 * |ps[|ps| - 1].value| + 2
  }

  lemma {:induction false} NeedIsEnough(path: Bytes, ps: seq<Pair>)
    ensures |path + QueryText(ps)| < Need(path, ps)
    decreases |ps|
  {
    if ps != [] { NeedIsEnough(path, ps[..|ps| - 1]); }
  }

  lemma {:induction false} NeedGrows(path: Bytes, ps: seq<Pair>, n: nat)
    requires n <= |ps|
    ensures Need(path, ps[..n]) <= Need(path, ps)
    decreases |ps|
  {
    if n == |ps| {
      assert ps[..n] == ps;
    } else {
      assert ps[..|ps| - 1][..n] == ps[..n];
      NeedGrows(path, ps[..|ps| - 1], n);
    }
  }

  /** snprintf() into what is left of a buffer: all of the text, if there is room for it and a NUL. */
  method Print(out: array<Byte>, used: nat, text: Bytes)
    requires used + |text| < out.Length
    modifies out
    ensures out[..used] == old(out[..used]) && out[used..used + |text|] == text
  {
    for i := 0 to |text|
      invariant out[..used] == old(out[..used]) && out[used..used + i] == text[..i]
    {
      out[used + i] := text[i];
      assert out[used..used + i + 1] == text[..i] + [text[i]];
    }
    assert text[..|text|] == text;
  }

  lemma PairsStep(names: seq<Bytes>, values: seq<Option<Bytes>>, i: nat)
    requires i < |names| == |values|
    ensures SetPairs(names[..i + 1], values[..i + 1])
      == if values[i].None? then SetPairs(names[..i], values[..i])
         else SetPairs(names[..i], values[..i]) + [Pair(names[i], values[i].value)]
  {
    assert names[..i + 1][..i] == names[..i] && values[..i + 1][..i] == values[..i];
  }

  lemma {:induction false} PairsPrefix(names: seq<Bytes>, values: seq<Option<Bytes>>, i: nat)
    requires i <= |names| == |values|
    ensures SetPairs(names[..i], values[..i]) <= SetPairs(names, values)
    decreases |names| - i
  {
    if i == |names| {
      assert names[..i] == names && values[..i] == values;
    } else {
      PairsStep(names, values, i);
      PairsPrefix(names, values, i + 1);
    }
  }

  /** The size the code asks for. */
  method Size(path: Bytes, names: seq<Bytes>, values: seq<Option<Bytes>>) returns (need: nat)
    requires |names| == |values|
    ensures need == Need(path, SetPairs(names, values))
  {
    need := |path| + 1;
    for i := 0 to |names|
      invariant need == Need(path, SetPairs(names[..i], values[..i]))
    {
      PairsStep(names, values, i);
      if values[i].None? { continue; }
      NeedStep(path, SetPairs(names[..i], values[..i]), Pair(names[i], values[i].value));
      need := need + |names[i]| + |values[i].value| * 3 + 2;
    }
    assert names[..|names|] == names && values[..|names|] == values;
  }

  lemma NeedStep(path: Bytes, ps: seq<Pair>, p: Pair)
    ensures Need(path, ps + [p]) == Need(path, ps) + |p.name| + 3 * |p.value| + 2
    ensures QueryText(ps + [p]) == QueryText(ps) + Term(p, ps == [])
  {
    assert (ps + [p])[..|ps|] == ps;
  }

  /** Every print fits, so nothing is cut off. */
  lemma RoomForTerm(path: Bytes, all: seq<Pair>, ps: seq<Pair>, p: Pair)
    requires ps + [p] <= all
    ensures |path + QueryText(ps)| + |Term(p, ps == [])| < Need(path, all)
  {
    NeedIsEnough(path, ps + [p]);
    NeedStep(path, ps, p);
    NeedGrows(path, all, |ps| + 1);
    assert all[..|ps| + 1] == ps + [p];
  }

  method PrintTerm(out: array<Byte>, used: nat, name: Bytes, value: Bytes, first: bool) returns (next: nat)
    requires used + |Term(Pair(name, value), first)| < out.Length
    modifies out
    ensures next == used + |Term(Pair(name, value), first)| < out.Length
    ensures out[..next] == old(out[..used]) + Term(Pair(name, value), first)
  {
    var encoded := UrlEncode(value);
    var text := [if first then QUESTION else AMPERSAND] + name + [EQUALS] + encoded;
    Print(out, used, text);
    next := used + |text|;
    assert out[..next] == out[..used] + out[used..next];
  }

  /** The buffer after the first i parameters. */
  ghost predicate Holds(out: array<Byte>, used: nat, first: bool, path: Bytes, names: seq<Bytes>, values: seq<Option<Bytes>>, i: nat)
    requires i <= |names| == |values|
    reads out
  {
    var ps := SetPairs(names[..i], values[..i]);
    used < out.Length && out[..used] == path + QueryText(ps) && (first <==> ps == [])
  }

  lemma OneMoreFits(path: Bytes, all: seq<Pair>, ps: seq<Pair>, p: Pair)
    requires ps + [p] <= all
    ensures |path + QueryText(ps)| + |Term(p, ps == [])| < Need(path, all)
    ensures path + QueryText(ps + [p]) == path + QueryText(ps) + Term(p, ps == [])
  {
    RoomForTerm(path, all, ps, p);
    NeedStep(path, ps, p);
    Joins(path, QueryText(ps), Term(p, ps == []));
  }

  lemma ParameterFits(path: Bytes, names: seq<Bytes>, values: seq<Option<Bytes>>, i: nat)
    requires i < |names| == |values| && values[i].Some?
    ensures var ps, qs := SetPairs(names[..i], values[..i]), SetPairs(names[..i + 1], values[..i + 1]);
            var text := Term(Pair(names[i], values[i].value), ps == []);
      && qs != [] && path + QueryText(qs) == path + QueryText(ps) + text
      && |path + QueryText(ps)| + |text| < Need(path, SetPairs(names, values))
  {
    PairsStep(names, values, i);
    PairsPrefix(names, values, i + 1);
    OneMoreFits(path, SetPairs(names, values), SetPairs(names[..i], values[..i]), Pair(names[i], values[i].value));
  }

  method PrintParameter(out: array<Byte>, used: nat, first: bool, path: Bytes, names: seq<Bytes>, values: seq<Option<Bytes>>, i: nat)
    returns (next: nat)
    requires i < |names| == |values| && Holds(out, used, first, path, names, values, i) && values[i].Some?
    requires out.Length == Need(path, SetPairs(names, values))
    modifies out
    ensures Holds(out, next, false, path, names, values, i + 1)
  {
    ParameterFits(path, names, values, i);
    next := PrintTerm(out, used, names[i], values[i].value, first);
  }

  method Query(path: Bytes, names: seq<Bytes>, values: seq<Option<Bytes>>) returns (r: Bytes)
    requires |names| == |values|
    ensures r == path + QueryText(SetPairs(names, values)) && |r| < Need(path, SetPairs(names, values))
  {
    NeedIsEnough(path, []);
    NeedGrows(path, SetPairs(names, values), 0);
    var need := Size(path, names, values);
    var out := new Byte[need];
    Print(out, 0, path);
    var used: nat, first := |path|, true;
    assert out[..used] == path + QueryText([]);
    for i := 0 to |names|
      invariant out.Length == need && Holds(out, used, first, path, names, values, i)
    {
      PairsStep(names, values, i);
      if values[i].None? { continue; }
      used := PrintParameter(out, used, first, path, names, values, i);
      first := false;
    }
    assert names[..|names|] == names && values[..|names|] == values;
    r := out[..used];
  }

  // ----- Reading a query back -----

  predicate Ends(b: Byte) { b == AMPERSAND || b == QUESTION }

  /** The length of the run before the first byte that is `d`, or a separator. */
  function Run(t: Bytes, d: Byte): (n: nat)
    ensures n <= |t|
  {
    if t == [] || t[0] == d || Ends(t[0]) then 0 else 1 + Run(t[1..], d)
  }

  /** `?name=value&name=value...`, or what comes after the first of these; None where it is anything else. */
  function Parse(t: Bytes, first: bool): Option<seq<Pair>>
    decreases |t|
  {
    if t == [] then Some([])
    else
      var n := Run(t[1..], EQUALS);
      if t[0] != (if first then '?' as int else '&' as int) || n == |t| - 1 || t[1 + n] != EQUALS then None
      else
        var v := Run(t[2 + n..], AMPERSAND);
        var value, rest := Decode(t[2 + n..][..v]), Parse(t[2 + n..][v..], false);
        if value.None? || rest.None? then None else Some([Pair(t[1..][..n], value.value)] + rest.value)
  }

  predicate PlainName(name: Bytes) {
    EQUALS !in name && AMPERSAND !in name && QUESTION !in name
  }

  lemma {:induction false} RunStops(a: Bytes, rest: Bytes, d: Byte)
    requires d !in a && AMPERSAND !in a && QUESTION !in a && (rest == [] || rest[0] == d || Ends(rest[0]))
    ensures Run(a + rest, d) == |a|
    decreases |a|
  {
    if a == [] {
      assert a + rest == rest;
    } else {
      assert (a + rest)[0] == a[0] && (a + rest)[1..] == a[1..] + rest;
      RunStops(a[1..], rest, d);
    }
  }

  /** A query, read from the front. */
  function Terms(ps: seq<Pair>, first: bool): Bytes {
    if ps == [] then [] else Term(ps[0], first) + Terms(ps[1..], false)
  }

  lemma {:induction false} TermsAppend(ps: seq<Pair>, p: Pair, first: bool)
    ensures Terms(ps + [p], first) == Terms(ps, first) + Term(p, first && ps == [])
    decreases |ps|
  {
    if ps == [] {
      assert ([] + [p])[1..] == [];
    } else {
      assert (ps + [p])[1..] == ps[1..] + [p];
      TermsAppend(ps[1..], p, false);
    }
  }

  lemma {:induction false} QueryIsTerms(ps: seq<Pair>)
    ensures QueryText(ps) == Terms(ps, true)
    decreases |ps|
  {
    if ps != [] {
      var init := ps[..|ps| - 1];
      QueryIsTerms(init);
      TermsAppend(init, ps[|ps| - 1], true);
      assert init + [ps[|ps| - 1]] == ps;
    }
  }

  lemma NameRuns(p: Pair, first: bool, rest: Bytes)
    requires PlainName(p.name)
    ensures var t := Term(p, first) + rest; var n := |p.name|;
      Run(t[1..], EQUALS) == n && t[1..][..n] == p.name && t[1 + n] == EQUALS && t[2 + n..] == Encode(p.value) + rest
  {
    var t := Term(p, first) + rest;
    assert t[1..] == p.name + ([EQUALS] + Encode(p.value) + rest);
    RunStops(p.name, [EQUALS] + Encode(p.value) + rest, EQUALS);
  }

  lemma ValueRuns(value: Bytes, rest: Bytes)
    requires rest == [] || rest[0] == AMPERSAND
    ensures var e := Encode(value);
      Run(e + rest, AMPERSAND) == |e| && (e + rest)[..|e|] == e && (e + rest)[|e|..] == rest && Decode(e) == Some(value)
  {
    DelimiterNotEncoded(value, AMPERSAND);
    DelimiterNotEncoded(value, QUESTION);
    EncodeRoundTrip(value);
    RunStops(Encode(value), rest, AMPERSAND);
  }

  lemma ParseOne(p: Pair, first: bool, rest: Bytes)
    requires PlainName(p.name) && (rest == [] || rest[0] == AMPERSAND) && Parse(rest, false).Some?
    ensures Parse(Term(p, first) + rest, first) == Some([p] + Parse(rest, false).value)
  {
    NameRuns(p, first, rest);
    ValueRuns(p.value, rest);
  }

  lemma LaterTermsStart(ps: seq<Pair>)
    ensures Terms(ps, false) == [] || Terms(ps, false)[0] == AMPERSAND
  {
  }

  lemma {:induction false} TermsParse(ps: seq<Pair>, first: bool)
    requires forall i :: 0 <= i < |ps| ==> PlainName(ps[i].name)
    ensures Parse(Terms(ps, first), first) == Some(ps)
    decreases |ps|
  {
    if ps != [] {
      TermsParse(ps[1..], false);
      LaterTermsStart(ps[1..]);
      ParseOne(ps[0], first, Terms(ps[1..], false));
      assert [ps[0]] + ps[1..] == ps;
    }
  }

  /** What is appended to a path parses back to the parameters that were set, in order. */
  lemma QueryReadsBack(names: seq<Bytes>, values: seq<Option<Bytes>>)
    requires |names| == |values| && forall i :: 0 <= i < |names| ==> PlainName(names[i])
    ensures Parse(QueryText(SetPairs(names, values)), true) == Some(SetPairs(names, values))
  {
    var ps := SetPairs(names, values);
    PairNamesArePlain(names, values);
    QueryIsTerms(ps);
    TermsParse(ps, true);
  }

  lemma {:induction false} PairNamesArePlain(names: seq<Bytes>, values: seq<Option<Bytes>>)
    requires |names| == |values| && forall i :: 0 <= i < |names| ==> PlainName(names[i])
    ensures forall i :: 0 <= i < |SetPairs(names, values)| ==> PlainName(SetPairs(names, values)[i].name)
    decreases |names|
  {
    if names != [] { PairNamesArePlain(names[..|names| - 1], values[..|values| - 1]); }
  }
}
