/** Read, then write back: a body is refused exactly when the server's object held an enum value this client does not know. */
module ReadBack {
  import opened Basics
  import opened Schemas
  import opened Codec
  import opened Unsendable

  predicate UnknownItem(s: Spec, kind: Kind, item: Json)
    decreases item, 1
  {
    match kind
    case KEnum(ref) => item.JStr? && item.text !in ValuesOf(s, ref)
    case KModel(ref) => UnknownIn(s, ref, item)
    case KModels(ref) => item.JArr? && exists i :: 0 <= i < |item.items| && UnknownIn(s, ref, item.items[i])
    case _ => false
  }

  /** An enum member of the object, at any depth, holds a text that is none of the known values. */
  predicate UnknownIn(s: Spec, name: string, o: Json)
    decreases o, 0
  {
    && o.JObj? && name in s.models && s.models[name].Object?
    && exists w :: w in s.models[name].fields && w in o.members && UnknownItem(s, s.models[name].fields[w].kind, o.members[w])
  }

  /** Every enum has at least one value, as every enum of a specification does. */
  ghost predicate EnumsHaveValues(s: Spec) {
    forall n, w :: n in s.models && s.models[n].Object? && w in s.models[n].fields && s.models[n].fields[w].kind.KEnum?
      ==> ValuesOf(s, s.models[n].fields[w].kind.ref) != []
  }

  lemma {:induction false} FieldReadsUnknown(s: Spec, w: string, f: Field, o: Json)
    requires o.JObj? && EnumsHaveValues(s) && (f.kind.KEnum? ==> ValuesOf(s, f.kind.ref) != [])
    ensures HoldsBad(s, f, ParseField(s, w, f, o)) <==> w in o.members && UnknownItem(s, f.kind, o.members[w])
    decreases o, 0
  {
    if w in o.members {
      var item := o.members[w];
      match f.kind {
        case KModel(ref) => if item.JObj? { ObjectReadsUnknown(s, ref, item); }
        case KModels(ref) =>
          if item.JArr? {
            forall i | 0 <= i < |item.items| && item.items[i].JObj?
              ensures Parse(s, ref, item.items[i]).Some? && Bad(s, ref, Parse(s, ref, item.items[i]).value) <==> UnknownIn(s, ref, item.items[i])
            {
              ObjectReadsUnknown(s, ref, item.items[i]);
            }
            ArrayReadsUnknown(s, w, f, o);
          }
        case _ =>
      }
    }
  }

  lemma ArrayReadsUnknown(s: Spec, w: string, f: Field, o: Json)
    requires o.JObj? && w in o.members && f.kind.KModels? && o.members[w].JArr?
    requires forall i :: 0 <= i < |o.members[w].items| && o.members[w].items[i].JObj? ==>
      (Parse(s, f.kind.ref, o.members[w].items[i]).Some? && Bad(s, f.kind.ref, Parse(s, f.kind.ref, o.members[w].items[i]).value)
       <==> UnknownIn(s, f.kind.ref, o.members[w].items[i]))
    ensures HoldsBad(s, f, ParseField(s, w, f, o)) <==> UnknownItem(s, f.kind, o.members[w])
  {
    var ref, items, x := f.kind.ref, o.members[w].items, ParseField(s, w, f, o);
    assert |x.subs| == |items|;
    if i :| 0 <= i < |items| && UnknownIn(s, ref, items[i]) { assert x.subs[i].Some? && Bad(s, ref, x.subs[i].value); }
    if i :| 0 <= i < |x.subs| && x.subs[i].Some? && Bad(s, ref, x.subs[i].value) { assert UnknownIn(s, ref, items[i]); }
  }

  lemma {:induction false} ObjectReadsUnknown(s: Spec, name: string, o: Json)
    requires EnumsHaveValues(s)
    ensures Parse(s, name, o).Some? && Bad(s, name, Parse(s, name, o).value) <==> UnknownIn(s, name, o)
    decreases o, 1
  {
    if o.JObj? && name in s.models && s.models[name].Object? {
      var fields, v := s.models[name].fields, Parse(s, name, o).value;
      forall w | w in fields
        ensures HoldsBad(s, fields[w], v.slots[w]) <==> w in o.members && UnknownItem(s, fields[w].kind, o.members[w])
      {
        FieldReadsUnknown(s, w, fields[w], o);
      }
    }
  }

  /** Parse, change nothing, send: refused exactly when the object read held a value this client has no name for. */
  lemma ReadBackIsRefusedIff(s: Spec, listing: Listing, bodies: seq<string>, reachable: set<string>, bearing: set<string>,
                             name: string, o: Json)
    requires Computed(s, listing, bodies, reachable, bearing) && EnumsHaveValues(s)
    requires (name in s.models && s.models[name].Object? ==> name in reachable) && Parse(s, name, o).Some?
    ensures BadIn(s, listing, bearing, name, Parse(s, name, o).value).Some? <==> UnknownIn(s, name, o)
  {
    UnsendableIffBad(s, listing, bodies, reachable, bearing, name, Parse(s, name, o).value);
    ObjectReadsUnknown(s, name, o);
  }
}
