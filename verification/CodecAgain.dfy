/** Decoding and encoding twice: the same as once, but for an array nothing of which could be kept. */
module CodecAgain {
  import opened Basics
  import opened Schemas
  import opened Codec
  import opened CodecLaws

  /** An element a model array keeps. */
  predicate Readable(s: Spec, name: string, j: Json) {
    j.JObj? && (SchemaOf(s, name).External? ==> FirstKey(SchemaOf(s, name).keys, j, 0).Some?)
  }

  predicate Keeps(s: Spec, kind: Kind, j: Json) {
    match kind case KTexts => j.JStr? case KModels(ref) => Readable(s, ref, j) case _ => true
  }

  /** An array that is never sent empty, not empty, and with no element that can be kept. */
  predicate HollowArray(s: Spec, w: string, kind: Kind, j: Json) {
    && w == OMIT_WHEN_EMPTY && (kind.KTexts? || kind.KModels?) && j.JArr? && j.items != []
    && forall x :: x in j.items ==> !Keeps(s, kind, x)
  }

  /** Somewhere in the object, at any depth the codec walks, there is such an array. */
  predicate HollowField(s: Spec, w: string, kind: Kind, item: Json)
    decreases item, 1
  {
    || HollowArray(s, w, kind, item)
    || (kind.KModel? && Hollow(s, kind.ref, item))
    || (kind.KModels? && item.JArr? && exists x :: x in item.items && Hollow(s, kind.ref, x))
  }

  predicate Hollow(s: Spec, name: string, o: Json)
    decreases o, 0
  {
    && o.JObj? && SchemaOf(s, name).Object?
    && exists w :: w in SchemaOf(s, name).fields && w in o.members && HollowField(s, w, SchemaOf(s, name).fields[w].kind, o.members[w])
  }

  lemma NormalIffReadable(s: Spec, name: string, o: Json)
    ensures Normal(s, name, o).Some? <==> Readable(s, name, o)
    ensures Normal(s, name, o).Some? ==> Normal(s, name, o).value.JObj?
  {
  }

  /** The law for one value. */
  ghost predicate AgainIff(s: Spec, name: string, o: Json) {
    Normal(s, name, o).Some? ==>
      && Normal(s, name, Normal(s, name, o).value).Some?
      && (Normal(s, name, Normal(s, name, o).value) == Normal(s, name, o) <==> !Hollow(s, name, o))
  }

  // ----- Arrays -----

  function NormalOf(s: Spec, ref: string, j: Json): Option<Json> {
    if j.JObj? then Normal(s, ref, j) else None
  }

  function Normals(s: Spec, ref: string, items: seq<Json>): (r: seq<Json>) {
    if items == [] then []
    else
      var last := NormalOf(s, ref, items[|items| - 1]);
      Normals(s, ref, items[..|items| - 1]) + (if last.Some? then [last.value] else [])
  }

  lemma {:induction false} NormalsArePresent(s: Spec, ref: string, items: seq<Json>)
    ensures Present(seq(|items|, i requires 0 <= i < |items| => if items[i].JObj? then Normal(s, ref, items[i]) else None))
         == Normals(s, ref, items)
    decreases |items|
  {
    if items != [] {
      var n := |items| - 1;
      NormalsArePresent(s, ref, items[..n]);
      var xs := seq(n, i requires 0 <= i < n => if items[i].JObj? then Normal(s, ref, items[i]) else None);
      assert xs == seq(|items[..n]|, i requires 0 <= i < |items[..n]| => if items[..n][i].JObj? then Normal(s, ref, items[..n][i]) else None);
      assert seq(|items|, i requires 0 <= i < |items| => if items[i].JObj? then Normal(s, ref, items[i]) else None)
          == xs + [NormalOf(s, ref, items[n])];
      PresentAppends(xs, NormalOf(s, ref, items[n]));
    }
  }

  lemma {:induction false} NoneKeptIff(s: Spec, ref: string, items: seq<Json>)
    ensures Normals(s, ref, items) == [] <==> forall x :: x in items ==> !Readable(s, ref, x)
    decreases |items|
  {
    if items != [] {
      var n := |items| - 1;
      NoneKeptIff(s, ref, items[..n]);
      NormalIffReadable(s, ref, items[n]);
      assert forall x :: x in items <==> x in items[..n] || x == items[n];
    }
  }

  lemma NormalsAppend(s: Spec, ref: string, items: seq<Json>, x: Json)
    ensures Normals(s, ref, items + [x])
      == Normals(s, ref, items) + (if NormalOf(s, ref, x).Some? then [NormalOf(s, ref, x).value] else [])
  {
    assert (items + [x])[..|items|] == items;
  }

  lemma AllOrLast(items: seq<Json>, p: Json -> bool)
    requires items != []
    ensures (forall x :: x in items ==> p(x)) <==> (forall x :: x in items[..|items| - 1] ==> p(x)) && p(items[|items| - 1])
  {
    assert forall x :: x in items <==> x in items[..|items| - 1] || x == items[|items| - 1];
  }

  lemma {:induction false} NormalsAgain(s: Spec, ref: string, items: seq<Json>)
    requires forall x :: x in items ==> AgainIff(s, ref, x)
    ensures var once := Normals(s, ref, items);
      |Normals(s, ref, once)| == |once|
      && (Normals(s, ref, once) == once <==> forall x :: x in items ==> !Hollow(s, ref, x))
    decreases |items|
  {
    if items != [] {
      var n := |items| - 1;
      var rest, last := items[..n], items[n];
      NormalsAgain(s, ref, rest);
      NormalIffReadable(s, ref, last);
      var once := Normals(s, ref, rest);
      AllOrLast(items, x => !Hollow(s, ref, x));
      if NormalOf(s, ref, last).Some? {
        var y := NormalOf(s, ref, last).value;
        assert Normals(s, ref, items) == once + [y];
        NormalsAppend(s, ref, once, y);
        assert AgainIff(s, ref, last);
        var z := Normal(s, ref, y).value;
        assert Normals(s, ref, once + [y]) == Normals(s, ref, once) + [z];
        LastDecides(Normals(s, ref, once), once, z, y);
      } else {
        assert Normals(s, ref, items) == once && !Hollow(s, ref, last);
      }
    }
  }

  lemma LastDecides(a: seq<Json>, b: seq<Json>, x: Json, y: Json)
    requires |a| == |b|
    ensures a + [x] == b + [y] <==> a == b && x == y
  {
    if a + [x] == b + [y] {
      assert a == (a + [x])[..|a|] && b == (b + [y])[..|b|];
      assert x == (a + [x])[|a|] && y == (b + [y])[|b|];
    }
  }

  lemma {:induction false} StringsAgain(items: seq<Json>)
    ensures Strings(Strings(items)) == Strings(items)
    ensures Strings(items) == [] <==> forall x :: x in items ==> !x.JStr?
    decreases |items|
  {
    if items != [] {
      var n := |items| - 1;
      StringsAgain(items[..n]);
      var once := Strings(items[..n]);
      assert forall x :: x in items <==> x in items[..n] || x == items[n];
      if items[n].JStr? {
        assert (once + [items[n]])[..|once|] == once;
        assert Strings(items) == once + [items[n]] && items[n] in items;
      } else {
        assert Strings(items) == once;
      }
    }
  }

  // ----- Members -----

  /** n holds under w exactly what the first pass put there. */
  ghost predicate HoldsNormal(s: Spec, w: string, f: Field, o: Json, n: Json) {
    o.JObj? && n.JObj? && Member(n, w) == NormalField(s, w, f, o)
  }

  predicate HollowMember(s: Spec, w: string, kind: Kind, o: Json)
    requires o.JObj?
  {
    w in o.members && HollowField(s, w, kind, o.members[w])
  }

  lemma TruncTwice(r: real)
    ensures Trunc(Trunc(r)) == Trunc(r)
  {
  }

  lemma ScalarAgain(s: Spec, w: string, f: Field, o: Json, n: Json)
    requires HoldsNormal(s, w, f, o, n) && !f.kind.KModel? && !f.kind.KTexts? && !f.kind.KModels?
    ensures NormalField(s, w, f, n) == NormalField(s, w, f, o) && !HollowMember(s, w, f.kind, o)
  {
    assert Trunc(0.0) == 0.0;
    if f.kind.KLong? && w in o.members && o.members[w].JNum? { TruncTwice(o.members[w].num); }
    if f.kind.KEnum? {
      var values := ValuesOf(s, f.kind.ref);
      assert values != [] ==> values[0] in values;
    }
  }

  lemma TextsAgain(s: Spec, w: string, f: Field, o: Json, n: Json)
    requires HoldsNormal(s, w, f, o, n) && f.kind.KTexts?
    ensures NormalField(s, w, f, n) == NormalField(s, w, f, o) <==> !HollowMember(s, w, f.kind, o)
  {
    if w in o.members && o.members[w].JArr? {
      var items := o.members[w].items;
      StringsAgain(items);
      assert (forall x :: x in items ==> !x.JStr?) <==> (forall x :: x in items ==> !Keeps(s, KTexts, x));
    }
  }

  lemma ModelAgain(s: Spec, w: string, f: Field, o: Json, n: Json)
    requires HoldsNormal(s, w, f, o, n) && f.kind.KModel?
    requires w in o.members ==> AgainIff(s, f.kind.ref, o.members[w])
    ensures NormalField(s, w, f, n) == NormalField(s, w, f, o) <==> !HollowMember(s, w, f.kind, o)
  {
    if w in o.members {
      var ref, item := f.kind.ref, o.members[w];
      NormalIffReadable(s, ref, item);
      assert HollowMember(s, w, f.kind, o) <==> Hollow(s, ref, item);
      if Normal(s, ref, item).Some? {
        assert NormalField(s, w, f, n) == Normal(s, ref, Normal(s, ref, item).value);
      } else {
        assert !Hollow(s, ref, item);
      }
    }
  }

  lemma ModelsFieldIs(s: Spec, w: string, f: Field, o: Json)
    requires o.JObj? && w in o.members && f.kind.KModels?
    ensures NormalField(s, w, f, o) ==
      if !o.members[w].JArr? || (w == OMIT_WHEN_EMPTY && o.members[w].items == []) then None
      else Some(JArr(Normals(s, f.kind.ref, o.members[w].items)))
  {
    if o.members[w].JArr? { NormalsArePresent(s, f.kind.ref, o.members[w].items); }
  }

  lemma ModelsAgain(s: Spec, w: string, f: Field, o: Json, n: Json)
    requires HoldsNormal(s, w, f, o, n) && f.kind.KModels?
    requires w in o.members && o.members[w].JArr? ==> forall x :: x in o.members[w].items ==> AgainIff(s, f.kind.ref, x)
    ensures NormalField(s, w, f, n) == NormalField(s, w, f, o) <==> !HollowMember(s, w, f.kind, o)
  {
    if w in o.members {
      ModelsFieldIs(s, w, f, o);
      if w in n.members {
        ModelsFieldIs(s, w, f, n);
        NormalsAgain(s, f.kind.ref, o.members[w].items);
        NoneKeptIff(s, f.kind.ref, o.members[w].items);
      }
    }
  }

  lemma {:induction false} FieldAgain(s: Spec, w: string, f: Field, o: Json, n: Json)
    requires HoldsNormal(s, w, f, o, n)
    ensures NormalField(s, w, f, n) == NormalField(s, w, f, o) <==> !HollowMember(s, w, f.kind, o)
    decreases o, 0
  {
    match f.kind {
      case KModel(ref) =>
        if w in o.members { CodecAgainIff(s, ref, o.members[w]); }
        ModelAgain(s, w, f, o, n);
      case KTexts => TextsAgain(s, w, f, o, n);
      case KModels(ref) =>
        if w in o.members && o.members[w].JArr? {
          forall x | x in o.members[w].items ensures AgainIff(s, ref, x) {
            CodecAgainIff(s, ref, x);
          }
        }
        ModelsAgain(s, w, f, o, n);
      case _ => ScalarAgain(s, w, f, o, n);
    }
  }

  lemma ObjectAgain(s: Spec, name: string, o: Json)
    requires o.JObj? && SchemaOf(s, name).Object?
    requires forall w :: w in SchemaOf(s, name).fields ==> FieldLaw(s, w, SchemaOf(s, name).fields[w], o, Normal(s, name, o).value)
    ensures AgainIff(s, name, o)
  {
    var fields := SchemaOf(s, name).fields;
    var n := Normal(s, name, o).value;
    var again := Normal(s, name, n).value;
    if w :| w in fields && HollowMember(s, w, fields[w].kind, o) {
      assert FieldLaw(s, w, fields[w], o, n);
      assert Member(again, w) == NormalField(s, w, fields[w], n);
      assert Member(n, w) == NormalField(s, w, fields[w], o);
    } else {
      forall w | w in fields ensures NormalField(s, w, fields[w], n) == NormalField(s, w, fields[w], o) {
        assert FieldLaw(s, w, fields[w], o, n);
      }
      assert again.members == n.members;
    }
  }

  ghost predicate FieldLaw(s: Spec, w: string, f: Field, o: Json, n: Json)
    requires o.JObj?
  {
    n.JObj? && (NormalField(s, w, f, n) == NormalField(s, w, f, o) <==> !HollowMember(s, w, f.kind, o))
  }

  lemma UnionAgain(s: Spec, name: string, o: Json)
    requires o.JObj? && SchemaOf(s, name).Union?
    ensures AgainIff(s, name, o)
  {
    var tag, arms := SchemaOf(s, name).tag, SchemaOf(s, name).arms;
    var once := Declared(tag, arms, o);
    assert tag in o.members <==> tag in once.members;
    assert Declared(tag, arms, once).members == once.members;
  }

  lemma ExternalAgain(s: Spec, name: string, o: Json)
    requires o.JObj? && SchemaOf(s, name).External?
    ensures AgainIff(s, name, o)
  {
    var keys := SchemaOf(s, name).keys;
    var first := FirstKey(keys, o, 0);
    if first.Some? {
      var once := Normal(s, name, o).value;
      assert TextUnder(once, keys[first.value]);
    }
  }

  /**
   * For every schema, cyclic or not, and every JSON value: a second pass through the codec changes
   * nothing exactly when no never-sent-empty array, at any depth, held only what it cannot keep.
   */
  lemma {:induction false} CodecAgainIff(s: Spec, name: string, o: Json)
    ensures AgainIff(s, name, o)
    decreases o, 1
  {
    if o.JObj? {
      match SchemaOf(s, name) {
        case Object(fields) =>
          var n := Normal(s, name, o).value;
          forall w | w in fields ensures FieldLaw(s, w, fields[w], o, n) {
            assert Member(n, w) == NormalField(s, w, fields[w], o);
            FieldAgain(s, w, fields[w], o, n);
          }
          ObjectAgain(s, name, o);
        case Union(_, _) => UnionAgain(s, name, o);
        case External(_) => ExternalAgain(s, name, o);
      }
    }
  }

  /** In the codec's own terms. */
  lemma DecodeEncodeIsIdempotentIff(s: Spec, name: string, o: Json)
    requires AfterCodec(s, name, o).Some?
    ensures AfterCodec(s, name, AfterCodec(s, name, o).value) == AfterCodec(s, name, o) <==> !Hollow(s, name, o)
  {
    BuildsNormal(s, name, o);
    BuildsNormal(s, name, Normal(s, name, o).value);
    CodecAgainIff(s, name, o);
  }

  /** The array that shows it: `[1]` is sent as `[]`, which would then be left out. */
  lemma HollowScopeShrinks() returns (s: Spec, o: Json)
    ensures Hollow(s, "Body", o)
    ensures AfterCodec(s, "Body", o) == Some(JObj(map[OMIT_WHEN_EMPTY := JArr([])]))
    ensures AfterCodec(s, "Body", JObj(map[OMIT_WHEN_EMPTY := JArr([])])) == Some(JObj(map[]))
  {
    s := Spec(map["Body" := Object(map[OMIT_WHEN_EMPTY := Field(KTexts, false)])], map[]);
    o := JObj(map[OMIT_WHEN_EMPTY := JArr([JNum(1.0)])]);
    var empty := JObj(map[OMIT_WHEN_EMPTY := JArr([])]);
    BuildsNormal(s, "Body", o);
    BuildsNormal(s, "Body", empty);
    StringsAgain([JNum(1.0)]);
    var f := Field(KTexts, false);
    assert NormalField(s, OMIT_WHEN_EMPTY, f, o) == Some(JArr([]));
    assert NormalField(s, OMIT_WHEN_EMPTY, f, empty).None?;
    assert Normal(s, "Body", o).value.members == empty.members;
    assert Normal(s, "Body", empty).value.members == map[];
    assert HollowField(s, OMIT_WHEN_EMPTY, KTexts, o.members[OMIT_WHEN_EMPTY]);
  }
}
