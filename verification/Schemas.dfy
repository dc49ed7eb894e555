/** Wire schemas as data: what the generator emits a parser, a builder and a free for. */
module Schemas {
  import opened Basics

  /** How one member is carried; a reference names a model or an enum. */
  datatype Kind =
    | KText(explicitNull: bool)
    | KSecret
    | KLong
    | KDouble
    | KBool
    | KEnum(ref: string)
    | KModel(ref: string)
    | KRaw
    | KTexts
    | KModels(ref: string)

  datatype Field = Field(kind: Kind, required: bool)

  /** A plain object, a discriminated union carried as raw JSON, or an externally tagged string. */
  datatype Schema =
    | Object(fields: map<string, Field>)
    | Union(tag: string, arms: map<string, set<string>>)
    | External(keys: seq<string>)

  /** Any graph of models, cycles included. */
  datatype Spec = Spec(models: map<string, Schema>, enums: map<string, seq<string>>)

  function SchemaOf(s: Spec, name: string): Schema {
    if name in s.models then s.models[name] else Object(map[])
  }

  function ValuesOf(s: Spec, enum_: string): seq<string> {
    if enum_ in s.enums then s.enums[enum_] else []
  }

  /** The one array never sent empty, and the one boolean absent means true for. */
  const OMIT_WHEN_EMPTY := "tenant_scope"
  const DEFAULT_TRUE := "inherit"

  // ----- Enum constants: the known values in order, then UNKNOWN -----

  function Unknown(values: seq<string>): int { |values| }

  function FromWire(values: seq<string>, text: string): (e: int)
    ensures 0 <= e <= |values| && (e < |values| ==> values[e] == text) && (e == |values| <==> text !in values)
  {
    FromWireAt(values, text, 0)
  }

  function FromWireAt(values: seq<string>, text: string, from: nat): (e: int)
    requires from <= |values|
    ensures from <= e <= |values| && (e < |values| ==> values[e] == text) && (e == |values| <==> text !in values[from..])
    decreases |values| - from
  {
    if from == |values| then from
    else if values[from] == text then from
    else FromWireAt(values, text, from + 1)
  }

  /** UNKNOWN is spelt "", and anything out of range as the first value. */
  function ToWire(values: seq<string>, e: int): string {
    if e == |values| then "" else if 0 <= e < |values| then values[e] else if |values| > 0 then values[0] else ""
  }

  /** A C cast to long. */
  function Trunc(r: real): real {
    if r >= 0.0 then r.Floor as real else -((-r).Floor as real)
  }

  // ----- The C values -----

  /** A member's content.  A flag is the C `has_` member, or, for an array, that its pointer is set. */
  datatype Slot =
    | Text(text: Option<string>, hasText: bool)
    | Number(n: real, hasNumber: bool)
    | Flag(b: bool, hasFlag: bool)
    | Enum(e: int, hasEnum: bool)
    | Sub(sub: Option<Value>)
    | Raw(json: Option<Json>)
    | Texts(hasTexts: bool, texts: seq<Option<string>>)
    | Subs(hasSubs: bool, subs: seq<Option<Value>>)

  datatype Value =
    | Struct(slots: map<string, Slot>)
    | Arm(tagText: Option<string>, raw: Option<Json>)
    | Tagged(key: int, text: Option<string>)

  function Strings(items: seq<Json>): (r: seq<Json>)
    ensures forall i :: 0 <= i < |r| ==> r[i].JStr?
  {
    if items == [] then []
    else Strings(items[..|items| - 1]) + (if items[|items| - 1].JStr? then [items[|items| - 1]] else [])
  }

  /** What is there, in order. */
  function Present<T>(xs: seq<Option<T>>): seq<T> {
    if xs == [] then []
    else Present(xs[..|xs| - 1]) + (if xs[|xs| - 1].Some? then [xs[|xs| - 1].value] else [])
  }
}
