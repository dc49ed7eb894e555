/**
 * The generated codec, once for every schema: parse, build, and what one after the other makes of a
 * JSON object.  Both recurse on the value, so a cyclic schema is no obstacle.
 */
module Codec {
  import opened Basics
  import opened Schemas

  function Member(o: Json, w: string): Option<Json>
    requires o.JObj?
  {
    if w in o.members then Some(o.members[w]) else None
  }

  // ----- Parse -----

  function ParseField(s: Spec, w: string, f: Field, o: Json): Slot
    requires o.JObj?
    decreases o, 0
  {
    if w !in o.members then AbsentSlot(w, f)
    else
      var item := o.members[w];
      match f.kind
      case KText(explicitNull) =>
        if item.JStr? then Text(Some(item.text), explicitNull) else Text(None, explicitNull && item.JNull?)
      case KSecret => Text(if item.JStr? then Some(item.text) else None, false)
      case KLong => if item.JNum? then Number(Trunc(item.num), !f.required) else Number(0.0, false)
      case KDouble => if item.JNum? then Number(item.num, !f.required) else Number(0.0, false)
      case KBool =>
        if item.JBool? then Flag(item.flag, !f.required) else AbsentSlot(w, f)
      case KEnum(ref) =>
        if item.JStr? then Enum(FromWire(ValuesOf(s, ref), item.text), !f.required) else Enum(0, false)
      case KModel(ref) => Sub(if item.JObj? then Parse(s, ref, item) else None)
      case KRaw => Raw(Some(item))
      case KTexts =>
        if !item.JArr? then Texts(false, [])
        else Texts(true, seq(|item.items|, i requires 0 <= i < |item.items| =>
          if item.items[i].JStr? then Some(item.items[i].text) else None))
      case KModels(ref) =>
        if !item.JArr? then Subs(false, [])
        else Subs(true, seq(|item.items|, i requires 0 <= i < |item.items| =>
          if item.items[i].JObj? then Parse(s, ref, item.items[i]) else None))
  }

  /** What the zeroed struct holds, but for the boolean absence means true for. */
  function AbsentSlot(w: string, f: Field): Slot {
    match f.kind
    case KText(_) => Text(None, false)
    case KSecret => Text(None, false)
    case KLong => Number(0.0, false)
    case KDouble => Number(0.0, false)
    case KBool => if w == DEFAULT_TRUE then Flag(true, !f.required) else Flag(false, false)
    case KEnum(_) => Enum(0, false)
    case KModel(_) => Sub(None)
    case KRaw => Raw(None)
    case KTexts => Texts(false, [])
    case KModels(_) => Subs(false, [])
  }

  /** axiam_mgmt_union_declared(): the tag, and the members of the arm it names. */
  function Declared(tag: string, arms: map<string, set<string>>, o: Json): Json
    requires o.JObj?
  {
    var keep := if tag in o.members && o.members[tag].JStr? && o.members[tag].text in arms
                then arms[o.members[tag].text] else {};
    JObj(map w | w in o.members && (w == tag || w in keep) :: o.members[w])
  }

  predicate TextUnder(o: Json, key: string)
    requires o.JObj?
  {
    key in o.members && o.members[key].JStr?
  }

  /** The first of the keys the object has a string under. */
  function FirstKey(keys: seq<string>, o: Json, from: nat): (r: Option<nat>)
    requires o.JObj? && from <= |keys|
    ensures r.Some? ==> from <= r.value < |keys| && TextUnder(o, keys[r.value])
                        && forall j :: from <= j < r.value ==> !TextUnder(o, keys[j])
    ensures r.None? ==> forall j :: from <= j < |keys| ==> !TextUnder(o, keys[j])
    decreases |keys| - from
  {
    if from == |keys| then None
    else if TextUnder(o, keys[from]) then Some(from)
    else FirstKey(keys, o, from + 1)
  }

  function Parse(s: Spec, name: string, o: Json): Option<Value>
    decreases o, 1
  {
    if !o.JObj? then None
    else match SchemaOf(s, name)
      case Object(fields) => Some(Struct(map w | w in fields :: ParseField(s, w, fields[w], o)))
      case Union(tag, arms) =>
        Some(Arm(if tag in o.members && o.members[tag].JStr? then Some(o.members[tag].text) else None, Some(Declared(tag, arms, o))))
      case External(keys) =>
        match FirstKey(keys, o, 0)
        case None => None
        case Some(i) => Some(Tagged(i, Some(o.members[keys[i]].text)))
  }

  // ----- Build -----

  /** The member a slot puts in a body, if any. */
  function BuildField(s: Spec, w: string, f: Field, x: Slot): Option<Json>
    decreases x, 0
  {
    match (f.kind, x)
    case (KText(explicitNull), Text(text, has)) =>
      if text.Some? then Some(JStr(text.value)) else if explicitNull && has then Some(JNull) else None
    case (KSecret, Text(text, _)) => if text.Some? then Some(JStr(text.value)) else None
    case (KLong, Number(n, has)) => if f.required || has then Some(JNum(n)) else None
    case (KDouble, Number(n, has)) => if f.required || has then Some(JNum(n)) else None
    case (KBool, Flag(b, has)) => if f.required || has then Some(JBool(b)) else None
    case (KEnum(ref), Enum(e, has)) => if f.required || has then Some(JStr(ToWire(ValuesOf(s, ref), e))) else None
    case (KModel(ref), Sub(sub)) => if sub.Some? then Build(s, ref, sub.value) else None
    case (KRaw, Raw(json)) => json
    case (KTexts, Texts(has, texts)) =>
      if !has || (w == OMIT_WHEN_EMPTY && texts == []) then None else Some(JArr(StringsOf(Present(texts))))
    case (KModels(ref), Subs(has, subs)) =>
      if !has || (w == OMIT_WHEN_EMPTY && subs == []) then None
      else Some(JArr(Present(seq(|subs|, i requires 0 <= i < |subs| =>
        if subs[i].Some? then Build(s, ref, subs[i].value) else None))))
    case _ => None
  }

  function StringsOf(texts: seq<string>): seq<Json> {
    seq(|texts|, i requires 0 <= i < |texts| => JStr(texts[i]))
  }

  function Build(s: Spec, name: string, v: Value): Option<Json>
    decreases v, 1
  {
    match (SchemaOf(s, name), v)
    case (Object(fields), Struct(slots)) =>
      Some(JObj(map w | w in fields && w in slots && BuildField(s, w, fields[w], slots[w]).Some?
                    :: BuildField(s, w, fields[w], slots[w]).value))
    case (Union(tag, _), Arm(tagText, raw)) =>
      Some(if raw.Some? then raw.value else JObj(if tagText.Some? then map[tag := JStr(tagText.value)] else map[]))
    case (External(keys), Tagged(key, text)) =>
      if text.None? || keys == [] then None
      else Some(JObj(map[keys[if 0 <= key < |keys| then key else 0] := JStr(text.value)]))
    case _ => None
  }
}
