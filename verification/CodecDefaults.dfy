/** What one pass of the codec makes of a member that is absent, of the wrong type, or no value the C type can hold. */
module CodecDefaults {
  import opened Basics
  import opened Schemas
  import opened Codec
  import opened CodecLaws

  /** The member after one pass: parsed, and built again. */
  function AfterField(s: Spec, w: string, f: Field, o: Json): Option<Json>
    requires o.JObj?
  {
    BuildField(s, w, f, ParseField(s, w, f, o))
  }

  /** An absent member stays absent, but a required number comes back as 0, a required flag as false, a required enum as its first value, and `inherit` as true, required or not. */
  lemma AbsentBecomes(s: Spec, w: string, f: Field, o: Json)
    requires o.JObj? && w !in o.members
    ensures AfterField(s, w, f, o) ==
      if f.kind == KBool && w == "inherit" then Some(JBool(true))
      else if f.required && (f.kind == KLong || f.kind == KDouble) then Some(JNum(0.0))
      else if f.required && f.kind == KBool then Some(JBool(false))
      else if f.required && f.kind.KEnum? then Some(JStr(if |ValuesOf(s, f.kind.ref)| > 0 then ValuesOf(s, f.kind.ref)[0] else ""))
      else None
  {
    FieldBuildsNormal(s, w, f, o);
  }

  /** No JSON type that a member of this kind is read from. */
  predicate WrongType(kind: Kind, item: Json) {
    match kind
    case KText(explicitNull) => !item.JStr? && !(explicitNull && item.JNull?)
    case KSecret => !item.JStr?
    case KLong => !item.JNum?
    case KDouble => !item.JNum?
    case KBool => !item.JBool?
    case KEnum(_) => !item.JStr?
    case KModel(_) => !item.JObj?
    case KRaw => false
    case KTexts => !item.JArr?
    case KModels(_) => !item.JArr?
  }

  /** A member of the wrong type is the same as none. */
  lemma MistypedIsAbsent(s: Spec, w: string, f: Field, o: Json)
    requires o.JObj? && w in o.members && WrongType(f.kind, o.members[w])
    ensures AfterField(s, w, f, o) == AfterField(s, w, f, JObj(o.members - {w}))
  {
    FieldBuildsNormal(s, w, f, o);
    FieldBuildsNormal(s, w, f, JObj(o.members - {w}));
  }

  /** A number without its fraction: whole, less than one away, and no further from 0. */
  lemma TruncCutsTowardsZero(r: real) returns (n: int)
    ensures Trunc(r) == n as real
    ensures if r >= 0.0 then 0.0 <= Trunc(r) <= r < Trunc(r) + 1.0 else Trunc(r) - 1.0 < r <= Trunc(r) <= 0.0
  {
    n := if r >= 0.0 then r.Floor else -((-r).Floor);
  }

  /** A whole-number member loses its fraction, and an enum text nobody knows becomes empty. */
  lemma OddValueBecomes(s: Spec, w: string, f: Field, o: Json)
    requires o.JObj? && w in o.members
    ensures f.kind == KLong && o.members[w].JNum? ==> AfterField(s, w, f, o) == Some(JNum(Trunc(o.members[w].num)))
    ensures f.kind.KEnum? && o.members[w].JStr? ==>
      AfterField(s, w, f, o) == Some(if o.members[w].text in ValuesOf(s, f.kind.ref) then o.members[w] else JStr(""))
    ensures f.kind == KTexts && o.members[w].JArr? && (w == "tenant_scope" ==> o.members[w].items != []) ==>
      AfterField(s, w, f, o) == Some(JArr(Strings(o.members[w].items)))
  {
    FieldBuildsNormal(s, w, f, o);
  }

  /** Of an array of strings the elements that are strings are kept, in order. */
  lemma {:induction false} StringsAre(a: seq<Json>, b: seq<Json>, x: Json)
    ensures Strings(a + b) == Strings(a) + Strings(b)
    ensures Strings([x]) == if x.JStr? then [x] else []
    decreases |b|
  {
    assert [x][..0] == [];
    if b == [] {
      assert a + b == a;
    } else {
      assert (a + b)[..|a + b| - 1] == a + b[..|b| - 1];
      StringsAre(a, b[..|b| - 1], x);
    }
  }
}
