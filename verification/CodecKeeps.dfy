/** The round trip: an object of the schema's shape comes out of the codec with every declared member, and nothing else. */
module CodecKeeps {
  import opened Basics
  import opened Schemas
  import opened Codec
  import opened CodecLaws
  import opened CodecAgain

  // ----- The schema as a shape -----

  predicate TypedItem(s: Spec, w: string, kind: Kind, item: Json)
    decreases item, 1
  {
    match kind
    case KText(explicitNull) => item.JStr? || (explicitNull && item.JNull?)
    case KSecret => item.JStr?
    case KLong => item.JNum? && Trunc(item.num) == item.num
    case KDouble => item.JNum?
    case KBool => item.JBool?
    case KEnum(ref) => item.JStr? && item.text in ValuesOf(s, ref)
    case KModel(ref) => Typed(s, ref, item)
    case KRaw => true
    case KTexts => item.JArr? && (w == OMIT_WHEN_EMPTY ==> item.items != []) && forall x :: x in item.items ==> x.JStr?
    case KModels(ref) => item.JArr? && (w == OMIT_WHEN_EMPTY ==> item.items != []) && forall x :: x in item.items ==> Typed(s, ref, x)
  }

  /** Required members are there, but for the one whose absence means true; those that are there fit. */
  predicate Typed(s: Spec, name: string, o: Json)
    decreases o, 0
  {
    o.JObj? && match SchemaOf(s, name)
      case Object(fields) =>
        forall w :: w in fields ==>
          && (w in o.members ==> TypedItem(s, w, fields[w].kind, o.members[w]))
          && (w !in o.members && fields[w].required ==> fields[w].kind == KBool && w == DEFAULT_TRUE)
      case Union(tag, arms) => tag in o.members && o.members[tag].JStr? && o.members[tag].text in arms
      case External(keys) => exists k :: k in keys && k in o.members && o.members[k].JStr?
                                         && forall l :: l in keys && l in o.members ==> l == k
  }

  /** The object without what the schema does not declare, at any depth; an absent `inherit` spelt out. */
  function ProjectItem(s: Spec, kind: Kind, item: Json): Json
    decreases item, 1
  {
    match kind
    case KModel(ref) => Project(s, ref, item)
    case KModels(ref) => if item.JArr? then JArr(seq(|item.items|, i requires 0 <= i < |item.items| => Project(s, ref, item.items[i]))) else item
    case _ => item
  }

  function Project(s: Spec, name: string, o: Json): Json
    decreases o, 0
  {
    if !o.JObj? then o
    else match SchemaOf(s, name)
      case Object(fields) =>
        JObj(map w | w in fields && (w in o.members || (fields[w].kind == KBool && w == DEFAULT_TRUE))
             :: if w in o.members then ProjectItem(s, fields[w].kind, o.members[w]) else JBool(true))
      case Union(tag, arms) => Declared(tag, arms, o)
      case External(keys) => JObj(map w | w in o.members && w in keys :: o.members[w])
  }

  // ----- The codec is the projection -----

  lemma {:induction false} AllTextsKept(items: seq<Json>)
    requires forall x :: x in items ==> x.JStr?
    ensures Strings(items) == items
    decreases |items|
  {
    if items != [] {
      AllTextsKept(items[..|items| - 1]);
      assert items == items[..|items| - 1] + [items[|items| - 1]];
    }
  }

  function Projects(s: Spec, ref: string, items: seq<Json>): (r: seq<Json>)
    ensures |r| == |items| && forall i :: 0 <= i < |items| ==> r[i] == Project(s, ref, items[i])
  {
    seq(|items|, i requires 0 <= i < |items| => Project(s, ref, items[i]))
  }

  lemma {:induction false} AllModelsKept(s: Spec, ref: string, items: seq<Json>)
    requires forall x :: x in items ==> Normal(s, ref, x) == Some(Project(s, ref, x))
    ensures Normals(s, ref, items) == Projects(s, ref, items)
    decreases |items|
  {
    if items != [] {
      var n := |items| - 1;
      AllModelsKept(s, ref, items[..n]);
      assert items[n] in items;
      NormalIffReadable(s, ref, items[n]);
      assert Projects(s, ref, items) == Projects(s, ref, items[..n]) + [Project(s, ref, items[n])];
    }
  }

  lemma ModelsProject(s: Spec, w: string, f: Field, o: Json)
    requires o.JObj? && w in o.members && f.kind.KModels? && TypedItem(s, w, f.kind, o.members[w])
    requires forall x :: x in o.members[w].items ==> Normal(s, f.kind.ref, x) == Some(Project(s, f.kind.ref, x))
    ensures NormalField(s, w, f, o) == Some(ProjectItem(s, f.kind, o.members[w]))
  {
    ModelsFieldIs(s, w, f, o);
    AllModelsKept(s, f.kind.ref, o.members[w].items);
    assert ProjectItem(s, f.kind, o.members[w]).items == Projects(s, f.kind.ref, o.members[w].items);
  }

  lemma {:induction false} ItemProjects(s: Spec, w: string, f: Field, o: Json)
    requires o.JObj? && w in o.members && TypedItem(s, w, f.kind, o.members[w])
    ensures NormalField(s, w, f, o) == Some(ProjectItem(s, f.kind, o.members[w]))
    decreases o, 0
  {
    var item := o.members[w];
    match f.kind {
      case KModel(ref) => TypedProjects(s, ref, item);
      case KModels(ref) =>
        forall x | x in item.items ensures Normal(s, ref, x) == Some(Project(s, ref, x)) {
          TypedProjects(s, ref, x);
        }
        ModelsProject(s, w, f, o);
      case KTexts => AllTextsKept(item.items);
      case _ =>
    }
  }

  lemma ExternalProjects(s: Spec, name: string, o: Json)
    requires Typed(s, name, o) && SchemaOf(s, name).External?
    ensures Normal(s, name, o) == Some(Project(s, name, o))
  {
    var keys := SchemaOf(s, name).keys;
    var k :| k in keys && k in o.members && o.members[k].JStr? && forall l :: l in keys && l in o.members ==> l == k;
    var at :| 0 <= at < |keys| && keys[at] == k;
    assert TextUnder(o, keys[at]);
    assert Project(s, name, o).members == map[k := o.members[k]];
  }

  lemma ObjectProjects(s: Spec, name: string, o: Json)
    requires Typed(s, name, o) && SchemaOf(s, name).Object?
    requires forall w :: w in SchemaOf(s, name).fields && w in o.members ==>
      NormalField(s, w, SchemaOf(s, name).fields[w], o) == Some(ProjectItem(s, SchemaOf(s, name).fields[w].kind, o.members[w]))
    ensures Normal(s, name, o) == Some(Project(s, name, o))
  {
    assert Normal(s, name, o).value.members == Project(s, name, o).members;
  }

  lemma {:induction false} TypedProjects(s: Spec, name: string, o: Json)
    requires Typed(s, name, o)
    ensures Normal(s, name, o) == Some(Project(s, name, o))
    decreases o, 1
  {
    match SchemaOf(s, name) {
      case Object(fields) =>
        forall w | w in fields && w in o.members
          ensures NormalField(s, w, fields[w], o) == Some(ProjectItem(s, fields[w].kind, o.members[w]))
        {
          ItemProjects(s, w, fields[w], o);
        }
        ObjectProjects(s, name, o);
      case Union(_, _) =>
      case External(_) => ExternalProjects(s, name, o);
    }
  }

  /**
   * For every schema, cyclic or not: what is built from a parsed object of the schema's shape is that
   * object without its undeclared members.  Absent stays absent, null stays null where it means
   * something, and an absent `inherit` reads and is sent as true.
   */
  lemma RoundTripKeepsDeclared(s: Spec, name: string, o: Json)
    requires Typed(s, name, o)
    ensures AfterCodec(s, name, o) == Some(Project(s, name, o))
  {
    BuildsNormal(s, name, o);
    TypedProjects(s, name, o);
  }
}
