/** axiam_mgmt_path(): one substitution after another in place, and the simultaneous one it amounts to. */
module UrlPath {
  import opened Basics
  import opened UrlText

  // ----- What the code does -----

  predicate OccursAt(t: Bytes, p: Bytes, at: nat) {
    at + |p| <= |t| && t[at..at + |p|] == p
  }

  /** strstr() */
  function Find(t: Bytes, p: Bytes, from: nat): (r: Option<nat>)
    requires from <= |t|
    ensures r.Some? ==> from <= r.value && OccursAt(t, p, r.value) && forall i :: from <= i < r.value ==> !OccursAt(t, p, i)
    ensures r.None? ==> forall i :: from <= i <= |t| ==> !OccursAt(t, p, i)
    decreases |t| - from
  {
    if OccursAt(t, p, from) then Some(from)
    else if from == |t| then None
    else Find(t, p, from + 1)
  }

  const PLACEHOLDER_SIZE: nat := 64

  /** The placeholder is printed into 64 bytes, the last of them a NUL. */
  function Placeholder(name: Bytes): Bytes {
    var full := [OPEN] + name + [CLOSE];
    if |full| < PLACEHOLDER_SIZE then full else full[..PLACEHOLDER_SIZE - 1]
  }

  /** The first placeholder of this name, replaced. */
  function Replaced(t: Bytes, name: Bytes, by_: Bytes): Bytes {
    match Find(t, Placeholder(name), 0)
    case None => t
    case Some(at) => t[..at] + by_ + t[at + |Placeholder(name)|..]
  }

  predicate Missing(v: Option<Bytes>) { v.None? || v.value == [] }

  function Sequential(t: Bytes, names: seq<Bytes>, values: seq<Option<Bytes>>): Option<Bytes>
    requires |names| == |values|
    decreases |names|
  {
    if names == [] then Some(t)
    else
      var n := |names| - 1;
      var before := Sequential(t, names[..n], values[..n]);
      if before.None? || Missing(values[n]) then None else Some(Replaced(before.value, names[n], Encode(values[n].value)))
  }

  /** One turn of the loop: the text around the placeholder is copied, the encoded value in between. */
  method Substitute(path: Bytes, name: Bytes, value: Bytes) returns (next: Bytes)
    ensures next == Replaced(path, name, Encode(value))
  {
    var placeholder := Placeholder(name);
    var at := Find(path, placeholder, 0);
    if at.None? { return path; }
    var encoded := UrlEncode(value);
    next := path[..at.value] + encoded + path[at.value + |placeholder|..];
  }

  lemma SequentialStep(t: Bytes, names: seq<Bytes>, values: seq<Option<Bytes>>, i: nat)
    requires i < |names| == |values|
    ensures var before := Sequential(t, names[..i], values[..i]);
      Sequential(t, names[..i + 1], values[..i + 1])
        == if before.None? || Missing(values[i]) then None else Some(Replaced(before.value, names[i], Encode(values[i].value)))
  {
    assert names[..i + 1][..i] == names[..i] && values[..i + 1][..i] == values[..i];
  }

  method Path(template: Bytes, names: seq<Bytes>, values: seq<Option<Bytes>>) returns (r: Option<Bytes>)
    requires |names| == |values|
    ensures r == Sequential(template, names, values)
  {
    var path := template;
    for i := 0 to |names|
      invariant Sequential(template, names[..i], values[..i]) == Some(path)
    {
      SequentialStep(template, names, values, i);
      if Missing(values[i]) {
        MissingStays(template, names, values, i + 1);
        return None;
      }
      path := Substitute(path, names[i], values[i].value);
    }
    assert names[..|names|] == names && values[..|names|] == values;
    return Some(path);
  }

  lemma {:induction false} MissingStays(t: Bytes, names: seq<Bytes>, values: seq<Option<Bytes>>, n: nat)
    requires n <= |names| == |values| && Sequential(t, names[..n], values[..n]).None?
    ensures Sequential(t, names, values).None?
    decreases |names| - n
  {
    if n == |names| {
      assert names[..n] == names && values[..n] == values;
    } else {
      assert names[..n + 1][..n] == names[..n] && values[..n + 1][..n] == values[..n];
      MissingStays(t, names, values, n + 1);
    }
  }

  ghost predicate SomeMissing(values: seq<Option<Bytes>>) {
    exists i :: 0 <= i < |values| && (values[i].None? || values[i] == Some([]))
  }

  lemma SomeMissingGrows(values: seq<Option<Bytes>>)
    requires values != []
    ensures SomeMissing(values) <==> SomeMissing(values[..|values| - 1]) || Missing(values[|values| - 1])
  {
    var init := values[..|values| - 1];
    if SomeMissing(init) {
      var i :| 0 <= i < |init| && Missing(init[i]);
      assert Missing(values[i]);
    }
    if SomeMissing(values) {
      var i :| 0 <= i < |values| && Missing(values[i]);
      if i < |init| { assert Missing(init[i]); }
    }
  }

  /** A path is refused exactly when a value is missing. */
  lemma {:induction false} RefusedIffMissing(t: Bytes, names: seq<Bytes>, values: seq<Option<Bytes>>)
    requires |names| == |values|
    ensures Sequential(t, names, values).None? <==> SomeMissing(values)
    decreases |names|
  {
    if names != [] {
      RefusedIffMissing(t, names[..|names| - 1], values[..|names| - 1]);
      SomeMissingGrows(values);
    }
  }

  // ----- What a template means -----

  datatype Piece = Text(bytes: Bytes) | Hole(name: Bytes)

  function PieceText(p: Piece): Bytes {
    match p case Text(b) => b case Hole(n) => [OPEN] + n + [CLOSE]
  }

  function Written(ps: seq<Piece>): Bytes {
    if ps == [] then [] else PieceText(ps[0]) + Written(ps[1..])
  }

  /** No brace outside a hole, none in its name, and each name once. */
  ghost predicate WellMade(ps: seq<Piece>) {
    && (forall i :: 0 <= i < |ps| ==> if ps[i].Text? then OPEN !in ps[i].bytes else OPEN !in ps[i].name && CLOSE !in ps[i].name)
    && (forall i, j :: 0 <= i < j < |ps| && ps[i].Hole? && ps[j].Hole? ==> ps[i].name != ps[j].name)
  }

  predicate Plain(name: Bytes) { OPEN !in name && CLOSE !in name }

  predicate Fits(name: Bytes) { |name| <= 61 && Plain(name) }

  /** What is left of a name that does not fit is how the name of this hole starts. */
  predicate Cuts(name: Bytes, hole: Bytes) {
    |name| >= 62 && |hole| >= 62 && name[..62] == hole[..62]
  }

  ghost predicate NoneCuts(ps: seq<Piece>, names: seq<Bytes>) {
    forall i, k :: 0 <= i < |names| && 0 <= k < |ps| && ps[k].Hole? ==> !Cuts(names[i], ps[k].name)
  }

  function IndexOf(names: seq<Bytes>, name: Bytes): (r: Option<nat>)
    ensures r.Some? ==> r.value < |names| && names[r.value] == name
    ensures r.None? ==> name !in names
  {
    if names == [] then None
    else if names[|names| - 1] == name then Some(|names| - 1)
    else IndexOf(names[..|names| - 1], name)
  }

  /** Every hole filled at once, from one table. */
  function Filled(p: Piece, names: seq<Bytes>, values: seq<Option<Bytes>>): Piece
    requires |names| == |values| && forall i :: 0 <= i < |values| ==> values[i].Some?
  {
    if p.Text? || IndexOf(names, p.name).None? then p else Text(Encode(values[IndexOf(names, p.name).value].value))
  }

  function Simultaneous(ps: seq<Piece>, names: seq<Bytes>, values: seq<Option<Bytes>>): (r: seq<Piece>)
    requires |names| == |values| && forall i :: 0 <= i < |values| ==> values[i].Some?
    ensures |r| == |ps| && forall i :: 0 <= i < |ps| ==> r[i] == Filled(ps[i], names, values)
  {
    seq(|ps|, i requires 0 <= i < |ps| => Filled(ps[i], names, values))
  }

  // ----- They are the same -----

  lemma {:induction false} WrittenConcat(a: seq<Piece>, b: seq<Piece>)
    ensures Written(a + b) == Written(a) + Written(b)
    decreases |a|
  {
    if a == [] {
      assert a + b == b;
    } else {
      assert (a + b)[1..] == a[1..] + b;
      WrittenConcat(a[1..], b);
    }
  }

  lemma Splices(t: Bytes, a: Bytes, p: Bytes, b: Bytes, x: Bytes)
    requires t == a + p + b
    ensures t[..|a|] + x + t[|a| + |p|..] == a + x + b
  {
  }

  lemma WrittenSplit(a: seq<Piece>, x: Piece, b: seq<Piece>)
    ensures Written(a + [x] + b) == Written(a) + PieceText(x) + Written(b)
  {
    WrittenConcat(a + [x], b);
    WrittenConcat(a, [x]);
    assert [x][1..] == [] && Written([x]) == PieceText(x);
  }

  lemma CutAround<T>(s: seq<T>, k: nat)
    requires k < |s|
    ensures s == s[..k] + [s[k]] + s[k + 1..]
  {
  }

  lemma WrittenAround(ps: seq<Piece>, k: nat)
    requires k < |ps|
    ensures Written(ps) == Written(ps[..k]) + PieceText(ps[k]) + Written(ps[k + 1..])
  {
    CutAround(ps, k);
    WrittenSplit(ps[..k], ps[k], ps[k + 1..]);
  }

  lemma SameHole(a: Bytes, x: Bytes, b: Bytes, y: Bytes)
    requires CLOSE !in a && CLOSE !in b && [OPEN] + a + [CLOSE] + x == [OPEN] + b + [CLOSE] + y
    ensures a == b
  {
    var t := a + [CLOSE] + x;
    assert t == ([OPEN] + a + [CLOSE] + x)[1..];
    assert b + [CLOSE] + y == ([OPEN] + b + [CLOSE] + y)[1..];
    Joins(a, [CLOSE], x);
    Joins(b, [CLOSE], y);
    FirstAfter(a, [CLOSE] + x, CLOSE);
    FirstAfter(b, [CLOSE] + y, CLOSE);
    assert a == t[..|a|] && b == t[..|b|];
  }

  /** What starts inside the first piece starts with it, and that piece is the hole. */
  lemma OccursInFirst(ps: seq<Piece>, name: Bytes, at: nat)
    requires WellMade(ps) && Fits(name) && ps != [] && at < |PieceText(ps[0])|
    requires OccursAt(Written(ps), Placeholder(name), at)
    ensures at == 0 && ps[0] == Hole(name)
  {
    var t, head, p := Written(ps), PieceText(ps[0]), Placeholder(name);
    assert head[at] == t[at] == t[at..at + |p|][0] == OPEN;
    assert ps[0].Hole? && at == 0;
    assert t == p + t[|p|..];
    SameHole(name, t[|p|..], ps[0].name, Written(ps[1..]));
  }

  lemma OccursLater(ps: seq<Piece>, p: Bytes, at: nat)
    requires ps != [] && at >= |PieceText(ps[0])| && OccursAt(Written(ps), p, at)
    ensures OccursAt(Written(ps[1..]), p, at - |PieceText(ps[0])|)
  {
    var t, rest, n := Written(ps), Written(ps[1..]), |PieceText(ps[0])|;
    assert rest[at - n..at - n + |p|] == t[at..at + |p|];
  }

  lemma PrefixGrows(ps: seq<Piece>, j: nat)
    requires ps != [] && j <= |ps| - 1
    ensures |Written(ps[..j + 1])| == |PieceText(ps[0])| + |Written(ps[1..][..j])|
  {
    assert ps[..j + 1] == [ps[0]] + ps[1..][..j];
    WrittenConcat([ps[0]], ps[1..][..j]);
  }

  lemma NothingOccursInNothing(name: Bytes, at: nat)
    requires Fits(name)
    ensures !OccursAt(Written([]), Placeholder(name), at)
  {
  }

  lemma RestIsWellMade(ps: seq<Piece>)
    requires WellMade(ps) && ps != []
    ensures WellMade(ps[1..])
  {
  }

  /** A placeholder occurs in a written template only where its hole is. */
  lemma {:induction false} OccursOnlyAtHole(ps: seq<Piece>, name: Bytes, at: nat) returns (k: nat)
    requires WellMade(ps) && Fits(name) && OccursAt(Written(ps), Placeholder(name), at)
    ensures k < |ps| && ps[k] == Hole(name) && at == |Written(ps[..k])|
    decreases |ps|
  {
    NothingOccursInNothing(name, at);
    assert ps != [];
    if at < |PieceText(ps[0])| {
      OccursInFirst(ps, name, at);
      k := 0;
    } else {
      OccursLater(ps, Placeholder(name), at);
      RestIsWellMade(ps);
      var rest := ps[1..];
      var j := OccursOnlyAtHole(rest, name, at - |PieceText(ps[0])|);
      PrefixGrows(ps, j);
      k := j + 1;
      assert rest[j] == ps[k];
    }
  }

  lemma HoleOccurs(ps: seq<Piece>, k: nat)
    requires k < |ps| && ps[k].Hole? && Fits(ps[k].name)
    ensures OccursAt(Written(ps), Placeholder(ps[k].name), |Written(ps[..k])|)
  {
    WrittenAround(ps, k);
  }

  lemma FindsItsHole(ps: seq<Piece>, k: nat)
    requires WellMade(ps) && k < |ps| && ps[k].Hole? && Fits(ps[k].name)
    ensures Find(Written(ps), Placeholder(ps[k].name), 0) == Some(|Written(ps[..k])|)
  {
    HoleOccurs(ps, k);
    var at := Find(Written(ps), Placeholder(ps[k].name), 0).value;
    var j := OccursOnlyAtHole(ps, ps[k].name, at);
  }

  lemma WrittenUpdated(ps: seq<Piece>, k: nat, x: Piece)
    requires k < |ps|
    ensures Written(ps[k := x]) == Written(ps[..k]) + PieceText(x) + Written(ps[k + 1..])
  {
    var qs := ps[k := x];
    WrittenAround(qs, k);
    assert qs[..k] == ps[..k] && qs[k + 1..] == ps[k + 1..];
  }

  lemma OneHoleReplaced(ps: seq<Piece>, k: nat, value: Bytes)
    requires WellMade(ps) && k < |ps| && ps[k].Hole? && Fits(ps[k].name)
    ensures Replaced(Written(ps), ps[k].name, Encode(value)) == Written(ps[k := Text(Encode(value))])
  {
    FindsItsHole(ps, k);
    WrittenUpdated(ps, k, Text(Encode(value)));
    WrittenAround(ps, k);
    Splices(Written(ps), Written(ps[..k]), PieceText(ps[k]), Written(ps[k + 1..]), Encode(value));
  }

  lemma NoHoleNothingReplaced(ps: seq<Piece>, name: Bytes, value: Bytes)
    requires WellMade(ps) && Fits(name) && forall k :: 0 <= k < |ps| ==> ps[k] != Hole(name)
    ensures Replaced(Written(ps), name, value) == Written(ps)
  {
    var r := Find(Written(ps), Placeholder(name), 0);
    if r.Some? { var k := OccursOnlyAtHole(ps, name, r.value); }
  }

  function FillOne(ps: seq<Piece>, name: Bytes, value: Bytes): (r: seq<Piece>)
    ensures |r| == |ps| && forall i :: 0 <= i < |ps| ==> r[i] == if ps[i] == Hole(name) then Text(Encode(value)) else ps[i]
  {
    seq(|ps|, i requires 0 <= i < |ps| => if ps[i] == Hole(name) then Text(Encode(value)) else ps[i])
  }

  lemma FilledIsWellMade(ps: seq<Piece>, name: Bytes, value: Bytes)
    requires WellMade(ps)
    ensures WellMade(FillOne(ps, name, value))
  {
    DelimiterNotEncoded(value, OPEN);
  }

  /** One step of the loop fills one hole, and leaves a template as good. */
  lemma ReplacedIsFilled(ps: seq<Piece>, name: Bytes, value: Bytes)
    requires WellMade(ps) && Fits(name)
    ensures Replaced(Written(ps), name, Encode(value)) == Written(FillOne(ps, name, value)) && WellMade(FillOne(ps, name, value))
  {
    FilledIsWellMade(ps, name, value);
    if k :| 0 <= k < |ps| && ps[k] == Hole(name) {
      OneHoleReplaced(ps, k, value);
      assert FillOne(ps, name, value) == ps[k := Text(Encode(value))];
    } else {
      NoHoleNothingReplaced(ps, name, Encode(value));
      assert FillOne(ps, name, value) == ps;
    }
  }

  ghost predicate Supplied(names: seq<Bytes>, values: seq<Option<Bytes>>) {
    && |names| == |values| && (forall i :: 0 <= i < |names| ==> Plain(names[i]))
    && (forall i, j :: 0 <= i < j < |names| ==> names[i] != names[j])
    && (forall i :: 0 <= i < |values| ==> !Missing(values[i]))
  }

  lemma FillOneMore(ps: seq<Piece>, names: seq<Bytes>, values: seq<Option<Bytes>>)
    requires Supplied(names, values) && names != []
    ensures var n := |names| - 1;
      FillOne(Simultaneous(ps, names[..n], values[..n]), names[n], values[n].value) == Simultaneous(ps, names, values)
  {
    var n := |names| - 1;
    forall i | 0 <= i < |ps|
      ensures FillOne(Simultaneous(ps, names[..n], values[..n]), names[n], values[n].value)[i] == Simultaneous(ps, names, values)[i]
    {
      if ps[i].Hole? && ps[i].name == names[n] {
        assert names[n] !in names[..n];
      }
    }
  }

  /** A name cut short that matches at a hole matches the start of the hole's name. */
  lemma CutMatches(name: Bytes, hole: Bytes, x: Bytes)
    requires CLOSE !in name && |name| >= PLACEHOLDER_SIZE - 2 && CLOSE !in hole
    requires name[..PLACEHOLDER_SIZE - 2] <= hole + ([CLOSE] + x)
    ensures Cuts(name, hole)
  {
    var n := PLACEHOLDER_SIZE - 2;
    FirstAfter(hole, [CLOSE] + x, CLOSE);
    FirstIsNotBefore(hole + ([CLOSE] + x), CLOSE, n);
    assert (hole + ([CLOSE] + x))[..n] == hole[..n];
  }

  lemma AfterOpen(a: Bytes, t: Bytes, hole: Bytes, x: Bytes)
    requires [OPEN] + a <= t && t == [OPEN] + hole + [CLOSE] + x
    ensures a <= hole + ([CLOSE] + x)
  {
    assert t[1..] == hole + ([CLOSE] + x);
    assert ([OPEN] + a)[1..] == a;
  }

  /** A name cut short in the buffer is found only where a hole's name starts the same way. */
  lemma CutInFirst(ps: seq<Piece>, name: Bytes, at: nat)
    requires WellMade(ps) && Plain(name) && !Fits(name) && ps != [] && at < |PieceText(ps[0])|
    requires OccursAt(Written(ps), Placeholder(name), at)
    ensures at == 0 && ps[0].Hole? && Cuts(name, ps[0].name)
  {
    var t, head, p := Written(ps), PieceText(ps[0]), Placeholder(name);
    assert head[at] == t[at] == t[at..at + |p|][0] == OPEN;
    assert ps[0].Hole? && at == 0;
    CutPlaceholder(name);
    AfterOpen(name[..PLACEHOLDER_SIZE - 2], t, ps[0].name, Written(ps[1..]));
    CutMatches(name, ps[0].name, Written(ps[1..]));
  }

  lemma {:induction false} FirstIsNotBefore(t: Bytes, d: Byte, n: nat)
    requires n <= |t| && d !in t[..n]
    ensures FirstAt(t, d) >= n
    decreases n
  {
    if n > 0 {
      assert t[..n][0] == t[0] && t[1..][..n - 1] == t[..n][1..];
      FirstIsNotBefore(t[1..], d, n - 1);
    }
  }

  lemma CutPlaceholder(name: Bytes)
    requires Plain(name) && !Fits(name)
    ensures Placeholder(name) == [OPEN] + name[..PLACEHOLDER_SIZE - 2]
  {
  }

  lemma NothingCutInNothing(name: Bytes, at: nat)
    requires Plain(name) && !Fits(name)
    ensures !OccursAt(Written([]), Placeholder(name), at)
  {
  }

  lemma {:induction false} CutOccursAtHole(ps: seq<Piece>, name: Bytes, at: nat) returns (k: nat)
    requires WellMade(ps) && Plain(name) && !Fits(name) && OccursAt(Written(ps), Placeholder(name), at)
    ensures k < |ps| && ps[k].Hole? && Cuts(name, ps[k].name)
    decreases |ps|
  {
    NothingCutInNothing(name, at);
    assert ps != [];
    if at < |PieceText(ps[0])| {
      CutInFirst(ps, name, at);
      k := 0;
    } else {
      OccursLater(ps, Placeholder(name), at);
      RestIsWellMade(ps);
      var rest := ps[1..];
      var j := CutOccursAtHole(rest, name, at - |PieceText(ps[0])|);
      k := j + 1;
      assert rest[j] == ps[k];
    }
  }

  lemma NothingCutNothingReplaced(ps: seq<Piece>, name: Bytes, value: Bytes)
    requires WellMade(ps) && Plain(name) && !Fits(name) && forall k :: 0 <= k < |ps| && ps[k].Hole? ==> !Cuts(name, ps[k].name)
    ensures Replaced(Written(ps), name, Encode(value)) == Written(FillOne(ps, name, value)) && FillOne(ps, name, value) == ps
  {
    var r := Find(Written(ps), Placeholder(name), 0);
    if r.Some? { var k := CutOccursAtHole(ps, name, r.value); }
    forall k | 0 <= k < |ps| ensures ps[k] != Hole(name) {
      assert Cuts(name, name);
    }
    assert FillOne(ps, name, value) == ps;
  }

  lemma FilledCutsNoMore(ps: seq<Piece>, names: seq<Bytes>, values: seq<Option<Bytes>>, n: nat)
    requires |names| == |values| && (forall i :: 0 <= i < |values| ==> values[i].Some?) && n < |names| && NoneCuts(ps, names)
    ensures var filled := Simultaneous(ps, names[..n], values[..n]);
      NoneCuts(ps, names[..n]) && forall k :: 0 <= k < |ps| && filled[k].Hole? ==> !Cuts(names[n], filled[k].name)
  {
  }

  /**
   * One replacement after another is all of them at once, for every template and distinct names none of
   * which is cut short to the start of one in the template, whatever the values hold: an encoded value
   * never makes a placeholder.
   */
  lemma {:induction false} SequentialIsSimultaneous(ps: seq<Piece>, names: seq<Bytes>, values: seq<Option<Bytes>>)
    requires WellMade(ps) && Supplied(names, values) && NoneCuts(ps, names)
    ensures Sequential(Written(ps), names, values) == Some(Written(Simultaneous(ps, names, values)))
    ensures WellMade(Simultaneous(ps, names, values))
    decreases |names|
  {
    var n := |names| - 1;
    if names == [] {
      assert Simultaneous(ps, names, values) == ps;
    } else {
      FilledCutsNoMore(ps, names, values, n);
      SequentialIsSimultaneous(ps, names[..n], values[..n]);
      var filled := Simultaneous(ps, names[..n], values[..n]);
      if Fits(names[n]) { ReplacedIsFilled(filled, names[n], values[n].value); }
      else { NothingCutNothingReplaced(filled, names[n], values[n].value); }
      FillOneMore(ps, names, values);
    }
  }

  // ----- And only then -----

  /** Closing braces over opening ones. */
  function Balance(t: Bytes): int {
    if t == [] then 0 else (if t[0] == CLOSE then 1 else if t[0] == OPEN then -1 else 0) + Balance(t[1..])
  }

  lemma {:induction false} BalanceConcat(a: Bytes, b: Bytes)
    ensures Balance(a + b) == Balance(a) + Balance(b)
    decreases |a|
  {
    if a == [] {
      assert a + b == b;
    } else {
      assert (a + b)[1..] == a[1..] + b;
      BalanceConcat(a[1..], b);
    }
  }

  lemma {:induction false} PlainBalances(t: Bytes)
    requires Plain(t)
    ensures Balance(t) == 0
    decreases |t|
  {
    if t != [] { PlainBalances(t[1..]); }
  }

  lemma EncodedBalances(value: Bytes)
    ensures Balance(Encode(value)) == 0
  {
    DelimiterNotEncoded(value, OPEN);
    DelimiterNotEncoded(value, CLOSE);
    PlainBalances(Encode(value));
  }

  lemma HoleBalances(name: Bytes)
    requires Plain(name)
    ensures Balance([OPEN] + name) == -1 && Balance([OPEN] + name + [CLOSE]) == 0
  {
    PlainBalances(name);
    BalanceConcat([OPEN], name);
    BalanceConcat([OPEN] + name, [CLOSE]);
  }

  /** A placeholder cut short has lost its closing brace. */
  lemma PlaceholderBalance(name: Bytes)
    requires Plain(name)
    ensures Balance(Placeholder(name)) == if Fits(name) then 0 else -1
  {
    HoleBalances(name);
    if !Fits(name) {
      var n := PLACEHOLDER_SIZE - 2;
      CutPlaceholder(name);
      HoleBalances(name[..n]);
    }
  }

  lemma ReplacedBalance(t: Bytes, name: Bytes, value: Bytes)
    requires Plain(name)
    ensures Balance(Replaced(t, name, Encode(value)))
         == Balance(t) + if Find(t, Placeholder(name), 0).Some? && !Fits(name) then 1 else 0
  {
    var p, at := Placeholder(name), Find(t, Placeholder(name), 0);
    if at.Some? {
      var a, b := t[..at.value], t[at.value + |p|..];
      PlaceholderBalance(name);
      EncodedBalances(value);
      assert t == a + p + b;
      BalanceConcat(a + p, b);
      BalanceConcat(a, p);
      BalanceConcat(a + Encode(value), b);
      BalanceConcat(a, Encode(value));
    }
  }

  lemma {:induction false} SameBalance(ps: seq<Piece>, qs: seq<Piece>)
    requires |ps| == |qs| && forall i :: 0 <= i < |ps| ==> Balance(PieceText(qs[i])) == Balance(PieceText(ps[i]))
    ensures Balance(Written(qs)) == Balance(Written(ps))
    decreases |ps|
  {
    if ps != [] {
      SameBalance(ps[1..], qs[1..]);
      BalanceConcat(PieceText(ps[0]), Written(ps[1..]));
      BalanceConcat(PieceText(qs[0]), Written(qs[1..]));
    }
  }

  lemma SimultaneousBalance(ps: seq<Piece>, names: seq<Bytes>, values: seq<Option<Bytes>>)
    requires WellMade(ps) && Supplied(names, values)
    ensures Balance(Written(Simultaneous(ps, names, values))) == Balance(Written(ps))
  {
    var qs := Simultaneous(ps, names, values);
    forall i | 0 <= i < |ps| ensures Balance(PieceText(qs[i])) == Balance(PieceText(ps[i])) {
      if ps[i].Hole? && qs[i] != ps[i] {
        HoleBalances(ps[i].name);
        EncodedBalances(values[IndexOf(names, ps[i].name).value].value);
      }
    }
    SameBalance(ps, qs);
  }

  /** A name that cuts a hole nobody filled is found there. */
  lemma CutIsFound(ps: seq<Piece>, name: Bytes, k: nat)
    requires WellMade(ps) && k < |ps| && ps[k].Hole? && Plain(name) && Cuts(name, ps[k].name)
    ensures !Fits(name) && Find(Written(ps), Placeholder(name), 0).Some?
  {
    WrittenAround(ps, k);
    CutPlaceholder(name);
    CutOfHole(name, ps[k].name);
    Inside(Written(ps[..k]), PieceText(ps[k]), Written(ps[k + 1..]), Placeholder(name));
  }

  lemma CutOfHole(name: Bytes, hole: Bytes)
    requires Cuts(name, hole)
    ensures [OPEN] + name[..PLACEHOLDER_SIZE - 2] <= [OPEN] + hole + [CLOSE]
  {
    var n := PLACEHOLDER_SIZE - 2;
    assert ([OPEN] + hole + [CLOSE])[..n + 1] == [OPEN] + hole[..n];
  }

  lemma Inside(a: Bytes, b: Bytes, c: Bytes, p: Bytes)
    requires p <= b
    ensures OccursAt(a + b + c, p, |a|) && Find(a + b + c, p, 0).Some?
  {
    var t := a + b + c;
    assert t[|a|..|a| + |p|] == b[..|p|] == p;
    assert OccursAt(t, p, |a|) && |a| <= |t|;
  }

  /** A hole whose name starts like one that does not fit is filled by no name before that cuts nothing. */
  lemma CutHoleStays(ps: seq<Piece>, names: seq<Bytes>, values: seq<Option<Bytes>>, name: Bytes, k: nat)
    requires WellMade(ps) && Supplied(names, values) && NoneCuts(ps, names) && k < |ps| && ps[k].Hole? && Cuts(name, ps[k].name)
    ensures Simultaneous(ps, names, values)[k] == ps[k]
  {
    assert Cuts(ps[k].name, ps[k].name);
    forall i | 0 <= i < |names| ensures names[i] != ps[k].name {
      assert !Cuts(names[i], ps[k].name);
    }
  }

  lemma NoneCutsOneMore(ps: seq<Piece>, names: seq<Bytes>, values: seq<Option<Bytes>>, name: Bytes)
    requires WellMade(ps) && Supplied(names, values) && NoneCuts(ps, names) && Plain(name)
    requires var filled := Simultaneous(ps, names, values);
      WellMade(filled) && (Find(Written(filled), Placeholder(name), 0).Some? ==> Fits(name))
    ensures NoneCuts(ps, names + [name])
  {
    var filled := Simultaneous(ps, names, values);
    forall k | 0 <= k < |ps| && ps[k].Hole? ensures !Cuts(name, ps[k].name) {
      if Cuts(name, ps[k].name) {
        CutHoleStays(ps, names, values, name, k);
        CutIsFound(filled, name, k);
      }
    }
  }

  lemma SuppliedInit(names: seq<Bytes>, values: seq<Option<Bytes>>)
    requires Supplied(names, values) && names != []
    ensures Supplied(names[..|names| - 1], values[..|names| - 1])
  {
  }

  lemma BalancedStep(ps: seq<Piece>, names: seq<Bytes>, values: seq<Option<Bytes>>, name: Bytes, value: Bytes)
    requires WellMade(ps) && Supplied(names, values) && Plain(name) && NoneCuts(ps, names)
    requires var filled := Written(Simultaneous(ps, names, values));
      Balance(Replaced(filled, name, Encode(value))) == Balance(filled)
    ensures NoneCuts(ps, names + [name])
  {
    SequentialIsSimultaneous(ps, names, values);
    ReplacedBalance(Written(Simultaneous(ps, names, values)), name, value);
    NoneCutsOneMore(ps, names, values, name);
  }

  /** No replacement takes a closing brace more than an opening one. */
  lemma {:induction false} SequentialBalances(t: Bytes, names: seq<Bytes>, values: seq<Option<Bytes>>)
    requires |names| == |values| && (forall i :: 0 <= i < |names| ==> Plain(names[i])) && Sequential(t, names, values).Some?
    ensures Balance(Sequential(t, names, values).value) >= Balance(t)
    decreases |names|
  {
    if names != [] {
      var n := |names| - 1;
      var init, vs := names[..n], values[..n];
      SequentialBalances(t, init, vs);
      ReplacedBalance(Sequential(t, init, vs).value, names[n], values[n].value);
    }
  }

  /** If all replacements together took no closing brace more than an opening one, neither did the last. */
  lemma InitBalances(t: Bytes, names: seq<Bytes>, values: seq<Option<Bytes>>)
    requires Supplied(names, values) && names != []
    requires Sequential(t, names, values).Some? && Balance(Sequential(t, names, values).value) == Balance(t)
    ensures var n := |names| - 1; var before := Sequential(t, names[..n], values[..n]);
      && before.Some? && Balance(before.value) == Balance(t)
      && Balance(Replaced(before.value, names[n], Encode(values[n].value))) == Balance(before.value)
  {
    var n := |names| - 1;
    var init, vs := names[..n], values[..n];
    SequentialBalances(t, init, vs);
    ReplacedBalance(Sequential(t, init, vs).value, names[n], values[n].value);
  }

  predicate Balanced(t: Bytes, names: seq<Bytes>, values: seq<Option<Bytes>>)
    requires |names| == |values|
  {
    var r := Sequential(t, names, values);
    r.Some? && Balance(r.value) == Balance(t)
  }

  lemma InitIsBalanced(t: Bytes, names: seq<Bytes>, values: seq<Option<Bytes>>)
    requires Supplied(names, values) && names != [] && Balanced(t, names, values)
    ensures Supplied(names[..|names| - 1], values[..|names| - 1]) && Balanced(t, names[..|names| - 1], values[..|names| - 1])
  {
    SuppliedInit(names, values);
    InitBalances(t, names, values);
  }

  lemma SplitLast<T>(s: seq<T>)
    requires s != []
    ensures s == s[..|s| - 1] + [s[|s| - 1]]
  {
  }

  lemma CutsNothingMore(ps: seq<Piece>, names: seq<Bytes>, values: seq<Option<Bytes>>)
    requires WellMade(ps) && Supplied(names, values) && names != [] && Balanced(Written(ps), names, values)
    requires NoneCuts(ps, names[..|names| - 1])
    ensures NoneCuts(ps, names)
  {
    var n := |names| - 1;
    SuppliedInit(names, values);
    InitBalances(Written(ps), names, values);
    SplitLast(names);
    LastCutsNothing(ps, names[..n], values[..n], names[n], values[n].value, names);
  }

  /** As long as no replacement took a hole without its closing brace, no name cut short was there to do it. */
  lemma {:induction false} BalancedCutsNothing(ps: seq<Piece>, names: seq<Bytes>, values: seq<Option<Bytes>>)
    requires WellMade(ps) && Supplied(names, values) && Balanced(Written(ps), names, values)
    ensures NoneCuts(ps, names)
    decreases |names|
  {
    if names != [] {
      InitIsBalanced(Written(ps), names, values);
      BalancedCutsNothing(ps, names[..|names| - 1], values[..|names| - 1]);
      CutsNothingMore(ps, names, values);
    }
  }

  lemma LastCutsNothing(ps: seq<Piece>, names: seq<Bytes>, values: seq<Option<Bytes>>, name: Bytes, value: Bytes, all: seq<Bytes>)
    requires all == names + [name] && WellMade(ps) && Supplied(names, values) && Plain(name) && NoneCuts(ps, names)
    requires var before := Sequential(Written(ps), names, values);
      before.Some? && Balance(Replaced(before.value, name, Encode(value))) == Balance(before.value)
    ensures NoneCuts(ps, all)
  {
    SequentialIsSimultaneous(ps, names, values);
    BalancedStep(ps, names, values, name, value);
  }

  /**
   * Exactly when: for every template and distinct names, the loop fills the holes as meant if and only
   * if no name too long for the buffer starts, in its first 62 bytes, like a name in the template.
   */
  lemma SequentialIsSimultaneousIff(ps: seq<Piece>, names: seq<Bytes>, values: seq<Option<Bytes>>)
    requires WellMade(ps) && Supplied(names, values)
    ensures Sequential(Written(ps), names, values) == Some(Written(Simultaneous(ps, names, values))) <==> NoneCuts(ps, names)
  {
    SimultaneousBalance(ps, names, values);
    if NoneCuts(ps, names) {
      SequentialIsSimultaneous(ps, names, values);
    } else if Sequential(Written(ps), names, values) == Some(Written(Simultaneous(ps, names, values))) {
      BalancedCutsNothing(ps, names, values);
    }
  }

  /** In particular, a single hole is filled as meant exactly when its name fits the buffer. */
  lemma OneHoleFilledIffFits(name: Bytes, value: Bytes)
    requires OPEN !in name && CLOSE !in name && value != []
    ensures Sequential(Written([Hole(name)]), [name], [Some(value)]) == Some(Encode(value)) <==> |name| + 2 < PLACEHOLDER_SIZE
  {
    var ps := [Hole(name)];
    SequentialIsSimultaneousIff(ps, [name], [Some(value)]);
    assert IndexOf([name], name) == Some(0);
    assert Simultaneous(ps, [name], [Some(value)]) == [Text(Encode(value))];
    assert Written([Text(Encode(value))]) == Encode(value) + Written([]) == Encode(value);
    assert NoneCuts(ps, [name]) <==> !Cuts([name][0], ps[0].name);
  }

  // ----- Reading a path back -----

  /** A template of whole segments. */
  datatype Segment = Fixed(bytes: Bytes) | Param(name: Bytes)

  function PieceOf(s: Segment): Piece {
    match s case Fixed(b) => Text(b) case Param(n) => Hole(n)
  }

  function Pieces(segs: seq<Segment>): seq<Piece> {
    if segs == [] then []
    else [Text([SLASH]), PieceOf(segs[0])] + Pieces(segs[1..])
  }

  function Joined(parts: seq<Bytes>): Bytes {
    if parts == [] then [] else [SLASH] + parts[0] + Joined(parts[1..])
  }

  /** Splitting at slashes. */
  function Split(t: Bytes): seq<Bytes>
    decreases |t|
  {
    if t == [] || t[0] != SLASH then []
    else
      var n := FirstAt(t[1..], SLASH);
      [t[1..][..n]] + Split(t[1..][n..])
  }

  lemma {:induction false} SplitJoined(parts: seq<Bytes>)
    requires forall i :: 0 <= i < |parts| ==> SLASH !in parts[i]
    ensures Split(Joined(parts)) == parts
    decreases |parts|
  {
    if parts != [] {
      var rest := Joined(parts[1..]);
      SplitJoined(parts[1..]);
      FirstAfter(parts[0], rest, SLASH);
      assert Joined(parts)[1..] == parts[0] + rest;
      assert (parts[0] + rest)[..|parts[0]|] == parts[0] && (parts[0] + rest)[|parts[0]|..] == rest;
      assert parts == [parts[0]] + parts[1..];
    }
  }

  function PartOf(s: Segment, names: seq<Bytes>, values: seq<Option<Bytes>>): Bytes
    requires |names| == |values| && forall i :: 0 <= i < |values| ==> values[i].Some?
  {
    match s
    case Fixed(b) => b
    case Param(n) => PieceText(Filled(Hole(n), names, values))
  }

  function Parts(segs: seq<Segment>, names: seq<Bytes>, values: seq<Option<Bytes>>): (r: seq<Bytes>)
    requires |names| == |values| && forall i :: 0 <= i < |values| ==> values[i].Some?
    ensures |r| == |segs| && forall i :: 0 <= i < |segs| ==> r[i] == PartOf(segs[i], names, values)
  {
    seq(|segs|, i requires 0 <= i < |segs| => PartOf(segs[i], names, values))
  }

  lemma WrittenTwo(a: Piece, b: Piece, rest: seq<Piece>)
    ensures Written([a, b] + rest) == PieceText(a) + PieceText(b) + Written(rest)
  {
    assert ([a, b] + rest)[1..] == [b] + rest;
    assert ([b] + rest)[1..] == rest;
  }

  lemma FilledFirst(segs: seq<Segment>, names: seq<Bytes>, values: seq<Option<Bytes>>)
    requires |names| == |values| && (forall i :: 0 <= i < |values| ==> values[i].Some?) && segs != []
    ensures Written(Simultaneous(Pieces(segs), names, values))
         == [SLASH] + PartOf(segs[0], names, values) + Written(Simultaneous(Pieces(segs[1..]), names, values))
  {
    var rest := Simultaneous(Pieces(segs[1..]), names, values);
    var second := Filled(PieceOf(segs[0]), names, values);
    assert Simultaneous(Pieces(segs), names, values) == [Text([SLASH]), second] + rest;
    WrittenTwo(Text([SLASH]), second, rest);
  }

  lemma {:induction false} FilledIsJoined(segs: seq<Segment>, names: seq<Bytes>, values: seq<Option<Bytes>>)
    requires |names| == |values| && forall i :: 0 <= i < |values| ==> values[i].Some?
    ensures Written(Simultaneous(Pieces(segs), names, values)) == Joined(Parts(segs, names, values))
    decreases |segs|
  {
    if segs != [] {
      FilledIsJoined(segs[1..], names, values);
      FilledFirst(segs, names, values);
      assert Parts(segs, names, values)[1..] == Parts(segs[1..], names, values);
    }
  }

  ghost predicate Splittable(segs: seq<Segment>, names: seq<Bytes>) {
    && (forall i :: 0 <= i < |segs| && segs[i].Fixed? ==> SLASH !in segs[i].bytes)
    && (forall i :: 0 <= i < |segs| && segs[i].Param? ==> segs[i].name in names)
  }

  /** The path splits into its segments again, and each parameter decodes to the value that went in. */
  lemma PathReadsBack(segs: seq<Segment>, names: seq<Bytes>, values: seq<Option<Bytes>>, i: nat)
    requires WellMade(Pieces(segs)) && Supplied(names, values) && NoneCuts(Pieces(segs), names)
    requires Splittable(segs, names) && i < |segs|
    ensures var path := Sequential(Written(Pieces(segs)), names, values);
      && path.Some? && |Split(path.value)| == |segs|
      && (segs[i].Fixed? ==> Split(path.value)[i] == segs[i].bytes)
      && (segs[i].Param? ==> IndexOf(names, segs[i].name).Some?
                             && Decode(Split(path.value)[i]) == values[IndexOf(names, segs[i].name).value])
  {
    SequentialIsSimultaneous(Pieces(segs), names, values);
    FilledIsJoined(segs, names, values);
    var parts := Parts(segs, names, values);
    forall k | 0 <= k < |parts| ensures SLASH !in parts[k] {
      PartIsOneSegment(segs, names, values, k);
    }
    SplitJoined(parts);
    PartIsOneSegment(segs, names, values, i);
  }

  lemma PartIsOneSegment(segs: seq<Segment>, names: seq<Bytes>, values: seq<Option<Bytes>>, k: nat)
    requires Supplied(names, values) && Splittable(segs, names) && k < |segs|
    ensures SLASH !in PartOf(segs[k], names, values)
    ensures segs[k].Param? ==> Decode(PartOf(segs[k], names, values)) == values[IndexOf(names, segs[k].name).value]
  {
    if segs[k].Param? {
      var v := values[IndexOf(names, segs[k].name).value].value;
      DelimiterNotEncoded(v, SLASH);
      EncodeRoundTrip(v);
    }
  }
}
