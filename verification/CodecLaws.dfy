/** What parse-then-build makes of an object, stated on the JSON alone, and the laws that follow. */
module CodecLaws {
  import opened Basics
  import opened Schemas
  import opened Codec

  // ----- The normal form -----

  function NormalAbsent(s: Spec, w: string, f: Field): Option<Json> {
    match f.kind
    case KLong => if f.required then Some(JNum(0.0)) else None
    case KDouble => if f.required then Some(JNum(0.0)) else None
    case KBool => if w == DEFAULT_TRUE then Some(JBool(true)) else if f.required then Some(JBool(false)) else None
    case KEnum(ref) => if f.required then Some(JStr(ToWire(ValuesOf(s, ref), 0))) else None
    case _ => None
  }

  /** An unknown enum value becomes the empty string. */
  function KnownOrEmpty(values: seq<string>, text: string): string {
    if text in values then text else ""
  }

  function NormalField(s: Spec, w: string, f: Field, o: Json): Option<Json>
    requires o.JObj?
    decreases o, 0
  {
    if w !in o.members then NormalAbsent(s, w, f)
    else
      var item := o.members[w];
      match f.kind
      case KText(explicitNull) => if item.JStr? || (explicitNull && item.JNull?) then Some(item) else None
      case KSecret => if item.JStr? then Some(item) else None
      case KLong => if item.JNum? then Some(JNum(Trunc(item.num))) else NormalAbsent(s, w, f)
      case KDouble => if item.JNum? then Some(item) else NormalAbsent(s, w, f)
      case KBool => if item.JBool? then Some(item) else NormalAbsent(s, w, f)
      case KEnum(ref) => if item.JStr? then Some(JStr(KnownOrEmpty(ValuesOf(s, ref), item.text))) else NormalAbsent(s, w, f)
      case KModel(ref) => if item.JObj? then Normal(s, ref, item) else None
      case KRaw => Some(item)
      case KTexts =>
        if !item.JArr? || (w == OMIT_WHEN_EMPTY && item.items == []) then None else Some(JArr(Strings(item.items)))
      case KModels(ref) =>
        if !item.JArr? || (w == OMIT_WHEN_EMPTY && item.items == []) then None
        else Some(JArr(Present(seq(|item.items|, i requires 0 <= i < |item.items| =>
          if item.items[i].JObj? then Normal(s, ref, item.items[i]) else None))))
  }

  /** An object as the codec leaves it; None for what is no object, or no variant of an external tag. */
  function Normal(s: Spec, name: string, o: Json): Option<Json>
    decreases o, 1
  {
    if !o.JObj? then None
    else match SchemaOf(s, name)
      case Object(fields) =>
        Some(JObj(map w | w in fields && NormalField(s, w, fields[w], o).Some? :: NormalField(s, w, fields[w], o).value))
      case Union(tag, arms) => Some(Declared(tag, arms, o))
      case External(keys) =>
        match FirstKey(keys, o, 0)
        case None => None
        case Some(i) => Some(JObj(map[keys[i] := o.members[keys[i]]]))
  }

  function AfterCodec(s: Spec, name: string, o: Json): Option<Json> {
    match Parse(s, name, o) case None => None case Some(v) => Build(s, name, v)
  }

  // ----- Build after parse is the normal form -----

  lemma {:induction false} PresentAppends<T>(xs: seq<Option<T>>, x: Option<T>)
    ensures Present(xs + [x]) == Present(xs) + (if x.Some? then [x.value] else [])
  {
    assert (xs + [x])[..|xs|] == xs;
  }

  function TextOf(j: Json): Option<string> {
    if j.JStr? then Some(j.text) else None
  }

  lemma {:induction false} TextsKept(items: seq<Json>)
    ensures StringsOf(Present(seq(|items|, i requires 0 <= i < |items| => TextOf(items[i])))) == Strings(items)
    decreases |items|
  {
    var n := |items| - 1;
    if items != [] {
      TextsKept(items[..n]);
      var xs := seq(n, i requires 0 <= i < n => TextOf(items[i]));
      assert xs == seq(|items[..n]|, i requires 0 <= i < |items[..n]| => TextOf(items[..n][i]));
      assert seq(|items|, i requires 0 <= i < |items| => TextOf(items[i])) == xs + [TextOf(items[n])];
      PresentAppends(xs, TextOf(items[n]));
    }
  }

  lemma TextsBuildNormal(s: Spec, w: string, f: Field, o: Json)
    requires o.JObj? && w in o.members && f.kind.KTexts?
    ensures BuildField(s, w, f, ParseField(s, w, f, o)) == NormalField(s, w, f, o)
  {
    var item := o.members[w];
    if item.JArr? {
      TextsKept(item.items);
      assert ParseField(s, w, f, o).texts == seq(|item.items|, i requires 0 <= i < |item.items| => TextOf(item.items[i]));
    }
  }

  lemma ModelsBuildNormal(s: Spec, w: string, f: Field, o: Json)
    requires o.JObj? && w in o.members && f.kind.KModels?
    requires o.members[w].JArr? ==> forall x :: x in o.members[w].items ==> AfterCodec(s, f.kind.ref, x) == Normal(s, f.kind.ref, x)
    ensures BuildField(s, w, f, ParseField(s, w, f, o)) == NormalField(s, w, f, o)
  {
    var item, ref, x := o.members[w], f.kind.ref, ParseField(s, w, f, o);
    if item.JArr? {
      var built := seq(|x.subs|, i requires 0 <= i < |x.subs| => if x.subs[i].Some? then Build(s, ref, x.subs[i].value) else None);
      var normal := seq(|item.items|, i requires 0 <= i < |item.items| =>
        if item.items[i].JObj? then Normal(s, ref, item.items[i]) else None);
      forall i | 0 <= i < |item.items| ensures built[i] == normal[i] {
        assert item.items[i] in item.items;
      }
      assert built == normal;
    }
  }

  lemma {:induction false} FieldBuildsNormal(s: Spec, w: string, f: Field, o: Json)
    requires o.JObj?
    ensures BuildField(s, w, f, ParseField(s, w, f, o)) == NormalField(s, w, f, o)
    decreases o, 0
  {
    if w in o.members {
      var item := o.members[w];
      match f.kind {
        case KTexts => TextsBuildNormal(s, w, f, o);
        case KModels(ref) =>
          if item.JArr? {
            forall x | x in item.items ensures AfterCodec(s, ref, x) == Normal(s, ref, x) {
              BuildsNormal(s, ref, x);
            }
          }
          ModelsBuildNormal(s, w, f, o);
        case KModel(ref) => BuildsNormal(s, ref, item);
        case _ =>
      }
    }
  }

  /** Building what was parsed gives the normal form, for every schema and every JSON value. */
  lemma {:induction false} BuildsNormal(s: Spec, name: string, o: Json)
    ensures AfterCodec(s, name, o) == Normal(s, name, o)
    decreases o, 1
  {
    if o.JObj? {
      match SchemaOf(s, name) {
        case Object(fields) =>
          forall w | w in fields
            ensures BuildField(s, w, fields[w], ParseField(s, w, fields[w], o)) == NormalField(s, w, fields[w], o)
          {
            FieldBuildsNormal(s, w, fields[w], o);
          }
          ObjectBuildsNormal(s, name, o);
        case _ =>
      }
    }
  }

  lemma ObjectBuildsNormal(s: Spec, name: string, o: Json)
    requires o.JObj? && SchemaOf(s, name).Object?
    requires forall w :: w in SchemaOf(s, name).fields ==>
      BuildField(s, w, SchemaOf(s, name).fields[w], ParseField(s, w, SchemaOf(s, name).fields[w], o))
        == NormalField(s, w, SchemaOf(s, name).fields[w], o)
    ensures AfterCodec(s, name, o) == Normal(s, name, o)
  {
    var v := Parse(s, name, o).value;
    var built, normal := Build(s, name, v).value, Normal(s, name, o).value;
    assert built.members == normal.members;
  }
}
