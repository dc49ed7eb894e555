/** The generated `_unsendable()`: which body would put an enum value on the wire that this client has no name for. */
module Unsendable {
  import opened Basics
  import opened Schemas
  import opened Reach

  /** The order the schema lists its members in. */
  type Listing = map<string, seq<string>>

  ghost predicate Lists(s: Spec, listing: Listing) {
    forall n :: n in s.models && s.models[n].Object? ==> n in listing && forall w :: w in listing[n] <==> w in s.models[n].fields
  }

  predicate IsModel(k: Kind) { k.KModel? || k.KModels? }

  function RefsOf(fields: map<string, Field>, ws: seq<string>): seq<string> {
    if ws == [] then []
    else
      var w := ws[|ws| - 1];
      RefsOf(fields, ws[..|ws| - 1]) + (if w in fields && IsModel(fields[w].kind) then [fields[w].kind.ref] else [])
  }

  lemma {:induction false} RefsAreListed(fields: map<string, Field>, ws: seq<string>, r: string)
    ensures r in RefsOf(fields, ws) <==> exists w :: w in ws && w in fields && IsModel(fields[w].kind) && fields[w].kind.ref == r
    decreases |ws|
  {
    if ws != [] {
      RefsAreListed(fields, ws[..|ws| - 1], r);
      assert forall w :: w in ws <==> w in ws[..|ws| - 1] || w == ws[|ws| - 1];
    }
  }

  /** Plain models and the models their members hold; a union or an external tag holds no C enum. */
  function ModelGraph(s: Spec, listing: Listing): Graph {
    map n | n in s.models && s.models[n].Object? && n in listing :: RefsOf(s.models[n].fields, listing[n])
  }

  predicate HasEnum(fields: map<string, Field>) {
    exists w :: w in fields && fields[w].kind.KEnum?
  }

  function EnumModels(s: Spec): set<string> {
    set n | n in s.models && s.models[n].Object? && HasEnum(s.models[n].fields)
  }

  /** unsendable_models(): of the models a request body can reach, those that can hold an enum. */
  method UnsendableModels(s: Spec, listing: Listing, bodies: seq<string>, sorted: seq<string>) returns (reachable: set<string>, bearing: set<string>)
    requires Lists(s, listing) && forall n :: n in s.models ==> n in sorted
    ensures forall n :: n in reachable <==> Reached(ModelGraph(s, listing), bodies, n)
    ensures forall n :: n in bearing <==> n in reachable && Bears(ModelGraph(s, listing), reachable, EnumModels(s), n)
  {
    reachable := Reachable(ModelGraph(s, listing), bodies);
    bearing := Bearing(ModelGraph(s, listing), reachable, EnumModels(s), sorted);
  }

  // ----- The emitted function -----

  /** The test catches UNKNOWN, which comes last, and, the comparison being unsigned, every value outside the enum. */
  predicate BadEnum(s: Spec, ref: string, f: Field, x: Slot)
    requires x.Enum?
  {
    (f.required || x.hasEnum) && !(0 <= x.e < Unknown(ValuesOf(s, ref)))
  }

  function FirstSome(xs: seq<Option<string>>): (r: Option<string>)
    ensures r.None? <==> forall i :: 0 <= i < |xs| ==> xs[i].None?
    ensures r.Some? ==> r in xs
  {
    if xs == [] then None else if xs[0].Some? then xs[0] else FirstSome(xs[1..])
  }

  function BadMember(s: Spec, listing: Listing, bearing: set<string>, w: string, f: Field, x: Slot): Option<string>
    decreases x, 0
  {
    match (f.kind, x)
    case (KEnum(ref), Enum(_, _)) => if BadEnum(s, ref, f, x) then Some(w) else None
    case (KModel(ref), Sub(sub)) => if ref in bearing && sub.Some? then BadIn(s, listing, bearing, ref, sub.value) else None
    case (KModels(ref), Subs(has, subs)) =>
      if has && ref in bearing
      then FirstSome(seq(|subs|, i requires 0 <= i < |subs| => if subs[i].Some? then BadIn(s, listing, bearing, ref, subs[i].value) else None))
      else None
    case _ => None
  }

  /** `_unsendable(value)`: the wire name of the first member that cannot be sent, or NULL. */
  function BadIn(s: Spec, listing: Listing, bearing: set<string>, name: string, v: Value): Option<string>
    decreases v, 1
  {
    if name !in s.models || !s.models[name].Object? || name !in listing || !v.Struct? then None
    else
      var fields, ws := s.models[name].fields, listing[name];
      FirstSome(seq(|ws|, i requires 0 <= i < |ws| =>
        if ws[i] in fields && ws[i] in v.slots then BadMember(s, listing, bearing, ws[i], fields[ws[i]], v.slots[ws[i]]) else None))
  }

  // ----- What it must find -----

  predicate HoldsBad(s: Spec, f: Field, x: Slot)
    decreases x, 0
  {
    match (f.kind, x)
    case (KEnum(ref), Enum(_, _)) => BadEnum(s, ref, f, x)
    case (KModel(ref), Sub(sub)) => sub.Some? && Bad(s, ref, sub.value)
    case (KModels(ref), Subs(has, subs)) => has && exists i :: 0 <= i < |subs| && subs[i].Some? && Bad(s, ref, subs[i].value)
    case _ => false
  }

  /** An enum member present and out of range, at any depth through models and model arrays. */
  predicate Bad(s: Spec, name: string, v: Value)
    decreases v, 1
  {
    && name in s.models && s.models[name].Object? && v.Struct?
    && exists w :: w in s.models[name].fields && w in v.slots && HoldsBad(s, s.models[name].fields[w], v.slots[w])
  }

  // ----- It finds exactly that -----

  ghost predicate Computed(s: Spec, listing: Listing, bodies: seq<string>, reachable: set<string>, bearing: set<string>) {
    && Lists(s, listing)
    && (forall n :: n in reachable <==> Reached(ModelGraph(s, listing), bodies, n))
    && (forall n :: n in bearing <==> n in reachable && Bears(ModelGraph(s, listing), reachable, EnumModels(s), n))
  }

  lemma EnumBears(s: Spec, listing: Listing, bodies: seq<string>, reachable: set<string>, bearing: set<string>, n: string, w: string)
    requires Computed(s, listing, bodies, reachable, bearing) && n in s.models && s.models[n].Object? && n in reachable
    requires w in s.models[n].fields && s.models[n].fields[w].kind.KEnum?
    ensures n in bearing
  {
    assert Path(ModelGraph(s, listing), [n]);
    assert n in EnumModels(s);
    assert Bears(ModelGraph(s, listing), reachable, EnumModels(s), n);
  }

  lemma RefBears(s: Spec, listing: Listing, bodies: seq<string>, reachable: set<string>, bearing: set<string>, n: string, w: string)
    requires Computed(s, listing, bodies, reachable, bearing) && n in s.models && s.models[n].Object? && n in reachable
    requires w in s.models[n].fields && IsModel(s.models[n].fields[w].kind) && s.models[n].fields[w].kind.ref in bearing
    ensures n in bearing
  {
    RefsAreListed(s.models[n].fields, listing[n], s.models[n].fields[w].kind.ref);
    BearsByStep(ModelGraph(s, listing), reachable, EnumModels(s), n, s.models[n].fields[w].kind.ref);
  }

  /** Reachable and not bearing: no enum here, and nothing bearing below. */
  lemma CleanModel(s: Spec, listing: Listing, bodies: seq<string>, reachable: set<string>, bearing: set<string>, n: string, w: string)
    requires Computed(s, listing, bodies, reachable, bearing)
    requires n in s.models && s.models[n].Object? && n in reachable && n !in bearing && w in s.models[n].fields
    ensures !s.models[n].fields[w].kind.KEnum?
    ensures IsModel(s.models[n].fields[w].kind) ==> s.models[n].fields[w].kind.ref !in bearing
  {
    var kind := s.models[n].fields[w].kind;
    if kind.KEnum? { EnumBears(s, listing, bodies, reachable, bearing, n, w); }
    if IsModel(kind) && kind.ref in bearing { RefBears(s, listing, bodies, reachable, bearing, n, w); }
  }

  /** What a reachable model refers to is reachable, or no plain model. */
  lemma RefReachable(s: Spec, listing: Listing, bodies: seq<string>, reachable: set<string>, bearing: set<string>, n: string, w: string)
    requires Computed(s, listing, bodies, reachable, bearing)
    requires n in s.models && s.models[n].Object? && n in reachable && w in s.models[n].fields && IsModel(s.models[n].fields[w].kind)
    ensures var ref := s.models[n].fields[w].kind.ref; ref in s.models && s.models[ref].Object? ==> ref in reachable
  {
    var ref := s.models[n].fields[w].kind.ref;
    RefsAreListed(s.models[n].fields, listing[n], ref);
    if ref in s.models && s.models[ref].Object? { ReachedGoesOn(ModelGraph(s, listing), bodies, n, ref); }
  }

  lemma {:induction false} CleanValue(s: Spec, listing: Listing, bodies: seq<string>, reachable: set<string>, bearing: set<string>, n: string, v: Value)
    requires Computed(s, listing, bodies, reachable, bearing) && n !in bearing
    requires n in s.models && s.models[n].Object? ==> n in reachable
    ensures !Bad(s, n, v)
    decreases v, 1
  {
    if n in s.models && s.models[n].Object? && v.Struct? {
      forall w | w in s.models[n].fields && w in v.slots ensures !HoldsBad(s, s.models[n].fields[w], v.slots[w]) {
        CleanModel(s, listing, bodies, reachable, bearing, n, w);
        if IsModel(s.models[n].fields[w].kind) {
          RefReachable(s, listing, bodies, reachable, bearing, n, w);
          CleanSlot(s, listing, bodies, reachable, bearing, s.models[n].fields[w], v.slots[w]);
        }
      }
    }
  }

  lemma {:induction false} CleanSlot(s: Spec, listing: Listing, bodies: seq<string>, reachable: set<string>, bearing: set<string>, f: Field, x: Slot)
    requires Computed(s, listing, bodies, reachable, bearing) && IsModel(f.kind) && f.kind.ref !in bearing
    requires f.kind.ref in s.models && s.models[f.kind.ref].Object? ==> f.kind.ref in reachable
    ensures !HoldsBad(s, f, x)
    decreases x, 0
  {
    if f.kind.KModel? && x.Sub? && x.sub.Some? {
      CleanValue(s, listing, bodies, reachable, bearing, f.kind.ref, x.sub.value);
    }
    if f.kind.KModels? && x.Subs? {
      forall i | 0 <= i < |x.subs| && x.subs[i].Some? ensures !Bad(s, f.kind.ref, x.subs[i].value) {
        CleanValue(s, listing, bodies, reachable, bearing, f.kind.ref, x.subs[i].value);
      }
    }
  }

  /** The emitted function and its meaning agree on one member. */
  lemma {:induction false} MemberAgrees(s: Spec, listing: Listing, bodies: seq<string>, reachable: set<string>, bearing: set<string>,
                                        w: string, f: Field, x: Slot)
    requires Computed(s, listing, bodies, reachable, bearing)
    requires IsModel(f.kind) && f.kind.ref in s.models && s.models[f.kind.ref].Object? ==> f.kind.ref in reachable
    ensures BadMember(s, listing, bearing, w, f, x).None? <==> !HoldsBad(s, f, x)
    decreases x, 0
  {
    if IsModel(f.kind) {
      if f.kind.ref !in bearing {
        CleanSlot(s, listing, bodies, reachable, bearing, f, x);
      } else if f.kind.KModel? && x.Sub? && x.sub.Some? {
        UnsendableIffBad(s, listing, bodies, reachable, bearing, f.kind.ref, x.sub.value);
      } else if f.kind.KModels? && x.Subs? {
        forall i | 0 <= i < |x.subs| && x.subs[i].Some?
          ensures BadIn(s, listing, bearing, f.kind.ref, x.subs[i].value).None? <==> !Bad(s, f.kind.ref, x.subs[i].value)
        {
          UnsendableIffBad(s, listing, bodies, reachable, bearing, f.kind.ref, x.subs[i].value);
        }
        ArrayAgrees(s, listing, bearing, w, f, x);
      }
    }
  }

  lemma ArrayAgrees(s: Spec, listing: Listing, bearing: set<string>, w: string, f: Field, x: Slot)
    requires f.kind.KModels? && x.Subs? && f.kind.ref in bearing
    requires forall i :: 0 <= i < |x.subs| && x.subs[i].Some? ==>
      (BadIn(s, listing, bearing, f.kind.ref, x.subs[i].value).None? <==> !Bad(s, f.kind.ref, x.subs[i].value))
    ensures BadMember(s, listing, bearing, w, f, x).None? <==> !HoldsBad(s, f, x)
  {
    var ref := f.kind.ref;
    var found := seq(|x.subs|, i requires 0 <= i < |x.subs| => if x.subs[i].Some? then BadIn(s, listing, bearing, ref, x.subs[i].value) else None);
    assert x.hasSubs ==> BadMember(s, listing, bearing, w, f, x) == FirstSome(found);
    assert forall i :: 0 <= i < |found| ==> (found[i].None? <==> !(x.subs[i].Some? && Bad(s, ref, x.subs[i].value)));
    if i :| 0 <= i < |found| && x.subs[i].Some? && Bad(s, ref, x.subs[i].value) { assert found[i].Some?; }
  }

  ghost predicate MembersAgree(s: Spec, listing: Listing, bearing: set<string>, n: string, v: Value)
    requires n in s.models && s.models[n].Object? && v.Struct?
  {
    forall w :: w in s.models[n].fields && w in v.slots ==>
      (BadMember(s, listing, bearing, w, s.models[n].fields[w], v.slots[w]).None? <==> !HoldsBad(s, s.models[n].fields[w], v.slots[w]))
  }

  lemma StructAgrees(s: Spec, listing: Listing, bearing: set<string>, n: string, v: Value)
    requires Lists(s, listing) && n in s.models && s.models[n].Object? && v.Struct? && MembersAgree(s, listing, bearing, n, v)
    ensures BadIn(s, listing, bearing, n, v).None? <==> !Bad(s, n, v)
  {
    var fields, ws := s.models[n].fields, listing[n];
    var found := seq(|ws|, i requires 0 <= i < |ws| =>
      if ws[i] in fields && ws[i] in v.slots then BadMember(s, listing, bearing, ws[i], fields[ws[i]], v.slots[ws[i]]) else None);
    assert FirstSome(found).None? <==> forall i :: 0 <= i < |found| ==> found[i].None?;
    if w :| w in fields && w in v.slots && HoldsBad(s, fields[w], v.slots[w]) {
      var i :| 0 <= i < |ws| && ws[i] == w;
      assert found[i].Some?;
    } else {
      forall i | 0 <= i < |found| ensures found[i].None? {
        if ws[i] in fields && ws[i] in v.slots { assert !HoldsBad(s, fields[ws[i]], v.slots[ws[i]]); }
      }
    }
    assert BadIn(s, listing, bearing, n, v) == FirstSome(found);
  }

  /**
   * Completeness, for every schema graph and every value: `_unsendable` finds something exactly when
   * some enum member, at any depth through models and model arrays, holds what cannot be sent.
   */
  lemma {:induction false} UnsendableIffBad(s: Spec, listing: Listing, bodies: seq<string>, reachable: set<string>, bearing: set<string>,
                                            n: string, v: Value)
    requires Computed(s, listing, bodies, reachable, bearing)
    requires n in s.models && s.models[n].Object? ==> n in reachable
    ensures BadIn(s, listing, bearing, n, v).None? <==> !Bad(s, n, v)
    decreases v, 1
  {
    if n in s.models && s.models[n].Object? && v.Struct? {
      forall w | w in s.models[n].fields && w in v.slots
        ensures BadMember(s, listing, bearing, w, s.models[n].fields[w], v.slots[w]).None?
                <==> !HoldsBad(s, s.models[n].fields[w], v.slots[w])
      {
        if IsModel(s.models[n].fields[w].kind) { RefReachable(s, listing, bodies, reachable, bearing, n, w); }
        MemberAgrees(s, listing, bodies, reachable, bearing, w, s.models[n].fields[w], v.slots[w]);
      }
      StructAgrees(s, listing, bearing, n, v);
    }
  }
}
