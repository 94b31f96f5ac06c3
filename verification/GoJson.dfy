/** The JSON pass used by the conversions (json.Marshal of one version's struct, json.Unmarshal into the other's): what
    Go's encoder and decoder do with nil, empty, null and omitempty, for any schema. */
module GoJson {
  import opened Wrappers

  const SECOND: nat := 1_000_000_000

  /** The shape of a Go type; Flag, Number and Text also stand for named types over them. */
  datatype Type =
    | Text | Number | Flag | Instant
    | Pointer(elem: Type) | Slice(elem: Type) | Mapping(elem: Type)
    | Struct(fields: seq<Field>)

  datatype Field = Field(name: string, omitEmpty: bool, ty: Type)

  datatype Value =
    | TextOf(text: string) | NumberOf(number: real) | FlagOf(flag: bool)
    | InstantOf(nanos: nat)                 // since the zero time
    | Nil                                   // a nil pointer, slice or map
    | PointerTo(target: Value) | SliceOf(items: seq<Value>) | MapOf(entries: map<string, Value>)
    | StructOf(values: seq<Value>)

  datatype Json =
    | JNull | JText(text: string) | JNumber(number: real) | JFlag(flag: bool) | JSeconds(seconds: nat)
    | JArray(items: seq<Json>) | JObject(members: map<string, Json>)

  /** Field names of a struct are distinct, all the way down. */
  predicate WellFormed(t: Type) {
    match t
    case Pointer(e) => WellFormed(e)
    case Slice(e) => WellFormed(e)
    case Mapping(e) => WellFormed(e)
    case Struct(fs) =>
      && (forall i, j :: 0 <= i < j < |fs| ==> fs[i].name != fs[j].name)
      && (forall i :: 0 <= i < |fs| ==> WellFormed(fs[i].ty))
    case _ => true
  }

  /** v is a value of type t (no clock gives an instant inside the first second of year 1). */
  predicate HasType(t: Type, v: Value) {
    match t
    case Text => v.TextOf?
    case Number => v.NumberOf?
    case Flag => v.FlagOf?
    case Instant => v.InstantOf? && (v.nanos == 0 || v.nanos >= SECOND)
    case Pointer(e) => v.Nil? || (v.PointerTo? && HasType(e, v.target))
    case Slice(e) => v.Nil? || (v.SliceOf? && forall i :: 0 <= i < |v.items| ==> HasType(e, v.items[i]))
    case Mapping(e) => v.Nil? || (v.MapOf? && forall k :: k in v.entries ==> HasType(e, v.entries[k]))
    case Struct(fs) =>
      v.StructOf? && |v.values| == |fs| && forall i :: 0 <= i < |fs| ==> HasType(fs[i].ty, v.values[i])
  }

  function Zero(t: Type): (v: Value)
    ensures HasType(t, v)
  {
    match t
    case Text => TextOf("")
    case Number => NumberOf(0.0)
    case Flag => FlagOf(false)
    case Instant => InstantOf(0)
    case Struct(fs) => StructOf(seq(|fs|, i requires 0 <= i < |fs| => Zero(fs[i].ty)))
    case _ => Nil
  }

  /** What omitempty leaves out: structs and non-nil pointers never. */
  predicate Empty(v: Value) {
    v == TextOf("") || v == NumberOf(0.0) || v == FlagOf(false) || v == Nil || v == SliceOf([]) || v == MapOf(map[])
  }

  predicate Kept(f: Field, v: Value) {
    !(f.omitEmpty && Empty(v))
  }

  // ---------- json.Marshal ----------

  function Encode(t: Type, v: Value): Json
    requires WellFormed(t) && HasType(t, v)
    decreases t
  {
    match t
    case Text => JText(v.text)
    case Number => JNumber(v.number)
    case Flag => JFlag(v.flag)
    case Instant => if v.nanos == 0 then JNull else JSeconds(v.nanos / SECOND)
    case Pointer(e) => if v.Nil? then JNull else Encode(e, v.target)
    case Slice(e) =>
      if v.Nil? then JNull
      else JArray(seq(|v.items|, i requires 0 <= i < |v.items| => Encode(e, v.items[i])))
    case Mapping(e) =>
      if v.Nil? then JNull else JObject(map k | k in v.entries :: Encode(e, v.entries[k]))
    case Struct(fs) => JObject(Members(t, v, |fs|))
  }

  /** The first n fields, in order. */
  function Members(t: Type, v: Value, n: nat): map<string, Json>
    requires WellFormed(t) && HasType(t, v) && t.Struct? && n <= |t.fields|
    decreases t, n
  {
    if n == 0 then map[]
    else
      var before, f, x := Members(t, v, n - 1), t.fields[n - 1], v.values[n - 1];
      if Kept(f, x) then before[f.name := Encode(f.ty, x)] else before
  }

  // ---------- json.Unmarshal into a zero value ----------

  /** Unmarshal meets no kind it cannot store; anywhere, null is accepted. */
  predicate Decodes(t: Type, j: Json) {
    j.JNull? ||
    match t
    case Text => j.JText?
    case Number => j.JNumber?
    case Flag => j.JFlag?
    case Instant => j.JSeconds?
    case Pointer(e) => Decodes(e, j)
    case Slice(e) => j.JArray? && forall i :: 0 <= i < |j.items| ==> Decodes(e, j.items[i])
    case Mapping(e) => j.JObject? && forall k :: k in j.members ==> Decodes(e, j.members[k])
    case Struct(fs) =>
      j.JObject? && forall i :: 0 <= i < |fs| && fs[i].name in j.members ==> Decodes(fs[i].ty, j.members[fs[i].name])
  }

  function Decode(t: Type, j: Json): Value
    requires Decodes(t, j)
    decreases t
  {
    if j.JNull? then Zero(t)                 // null leaves the target as it is
    else
      match t
      case Text => TextOf(j.text)
      case Number => NumberOf(j.number)
      case Flag => FlagOf(j.flag)
      case Instant => InstantOf(j.seconds * SECOND)
      case Pointer(e) => PointerTo(Decode(e, j))
      case Slice(e) => SliceOf(seq(|j.items|, i requires 0 <= i < |j.items| => Decode(e, j.items[i])))
      case Mapping(e) => MapOf(map k | k in j.members :: Decode(e, j.members[k]))
      case Struct(fs) =>
        StructOf(seq(|fs|, i requires 0 <= i < |fs| =>
          if fs[i].name in j.members then Decode(fs[i].ty, j.members[fs[i].name]) else Zero(fs[i].ty)))
  }

  // ---------- What the pass does, without JSON ----------

  /** Values whose JSON is null: nil, the zero instant, and pointers to such. */
  predicate Nullish(t: Type, v: Value)
    requires HasType(t, v)
  {
    match t
    case Instant => v.nanos == 0
    case Pointer(e) => v.Nil? || Nullish(e, v.target)
    case Slice(_) => v.Nil?
    case Mapping(_) => v.Nil?
    case _ => false
  }

  /** The value that comes out of the pass. */
  function Canon(t: Type, v: Value): Value
    requires HasType(t, v)
    decreases t
  {
    match t
    case Instant => InstantOf(v.nanos / SECOND * SECOND)
    case Pointer(e) => if Nullish(t, v) then Nil else PointerTo(Canon(e, v.target))
    case Slice(e) =>
      if v.Nil? then Nil else SliceOf(seq(|v.items|, i requires 0 <= i < |v.items| => Canon(e, v.items[i])))
    case Mapping(e) => if v.Nil? then Nil else MapOf(map k | k in v.entries :: Canon(e, v.entries[k]))
    case Struct(fs) =>
      StructOf(seq(|fs|, i requires 0 <= i < |fs| =>
        if Kept(fs[i], v.values[i]) then Canon(fs[i].ty, v.values[i]) else Zero(fs[i].ty)))
    case _ => v
  }

  function Items(v: Value): seq<Value> {
    if v.SliceOf? then v.items else []
  }

  function Entries(v: Value): map<string, Value> {
    if v.MapOf? then v.entries else map[]
  }

  /** Equal except that nil and empty slices, and nil and empty maps, are not told apart. */
  predicate Same(t: Type, v: Value, w: Value)
    requires HasType(t, v) && HasType(t, w)
    decreases t
  {
    match t
    case Pointer(e) => (v.Nil? && w.Nil?) || (v.PointerTo? && w.PointerTo? && Same(e, v.target, w.target))
    case Slice(e) =>
      |Items(v)| == |Items(w)| && forall i :: 0 <= i < |Items(v)| ==> Same(e, Items(v)[i], Items(w)[i])
    case Mapping(e) =>
      Entries(v).Keys == Entries(w).Keys && forall k :: k in Entries(v) ==> Same(e, Entries(v)[k], Entries(w)[k])
    case Struct(fs) => forall i :: 0 <= i < |fs| ==> Same(fs[i].ty, v.values[i], w.values[i])
    case _ => v == w
  }

  /** What the pass cannot carry: a pointer to something that encodes as null, and parts of a second. */
  predicate Lossless(t: Type, v: Value)
    requires HasType(t, v)
    decreases t
  {
    match t
    case Instant => v.nanos % SECOND == 0
    case Pointer(e) => v.Nil? || (!Nullish(e, v.target) && Lossless(e, v.target))
    case Slice(e) => v.Nil? || forall i :: 0 <= i < |v.items| ==> Lossless(e, v.items[i])
    case Mapping(e) => v.Nil? || forall k :: k in v.entries ==> Lossless(e, v.entries[k])
    case Struct(fs) => forall i :: 0 <= i < |fs| ==> Lossless(fs[i].ty, v.values[i])
    case _ => true
  }

  // ---------- Decode after Encode ----------

  lemma {:induction false} EncodesToNull(t: Type, v: Value)
    requires WellFormed(t) && HasType(t, v)
    ensures Encode(t, v) == JNull <==> Nullish(t, v)
    decreases t
  {
    if t.Pointer? && v.PointerTo? { EncodesToNull(t.elem, v.target); }
  }

  lemma {:induction false} CanonHasType(t: Type, v: Value)
    requires HasType(t, v)
    ensures HasType(t, Canon(t, v))
    decreases t
  {
    match t
    case Pointer(e) => if v.PointerTo? { CanonHasType(e, v.target); }
    case Slice(e) => if v.SliceOf? { forall i | 0 <= i < |v.items| { CanonHasType(e, v.items[i]); } }
    case Mapping(e) => if v.MapOf? { forall k | k in v.entries { CanonHasType(e, v.entries[k]); } }
    case Struct(fs) => forall i | 0 <= i < |fs| { CanonHasType(fs[i].ty, v.values[i]); }
    case _ =>
  }

  /** The members of an encoded struct: exactly the kept fields, each under its own name. */
  lemma {:induction false} MembersExactly(t: Type, v: Value, n: nat, i: nat)
    requires WellFormed(t) && HasType(t, v) && t.Struct? && n <= |t.fields| && i < |t.fields|
    ensures t.fields[i].name in Members(t, v, n) <==> i < n && Kept(t.fields[i], v.values[i])
    ensures i < n && Kept(t.fields[i], v.values[i]) ==>
              Members(t, v, n)[t.fields[i].name] == Encode(t.fields[i].ty, v.values[i])
    decreases n
  {
    if n != 0 {
      MembersExactly(t, v, n - 1, i);
      if i != n - 1 { assert t.fields[i].name != t.fields[n - 1].name; }
    }
  }

  /** The pass never fails, and what comes out is the canonical form of what went in. */
  lemma {:induction false} DecodeEncode(t: Type, v: Value)
    requires WellFormed(t) && HasType(t, v)
    ensures Decodes(t, Encode(t, v)) && Decode(t, Encode(t, v)) == Canon(t, v)
    decreases t
  {
    match t
    case Pointer(e) =>
      EncodesToNull(t, v);
      if v.PointerTo? { DecodeEncode(e, v.target); }
    case Slice(_) => SliceDecodes(t, v);
    case Mapping(_) => MappingDecodes(t, v);
    case Struct(_) => StructDecodes(t, v);
    case _ =>
  }

  lemma {:induction false} SliceDecodes(t: Type, v: Value)
    requires WellFormed(t) && HasType(t, v) && t.Slice?
    ensures Decodes(t, Encode(t, v)) && Decode(t, Encode(t, v)) == Canon(t, v)
    decreases t, 0
  {
    var e := t.elem;
    if v.SliceOf? {
      forall i | 0 <= i < |v.items|
        ensures Decodes(e, Encode(e, v.items[i])) && Decode(e, Encode(e, v.items[i])) == Canon(e, v.items[i])
      {
        DecodeEncode(e, v.items[i]);
      }
    }
  }

  lemma {:induction false} MappingDecodes(t: Type, v: Value)
    requires WellFormed(t) && HasType(t, v) && t.Mapping?
    ensures Decodes(t, Encode(t, v)) && Decode(t, Encode(t, v)) == Canon(t, v)
    decreases t, 0
  {
    var e := t.elem;
    if v.MapOf? {
      forall k | k in v.entries
        ensures Decodes(e, Encode(e, v.entries[k])) && Decode(e, Encode(e, v.entries[k])) == Canon(e, v.entries[k])
      {
        DecodeEncode(e, v.entries[k]);
      }
    }
  }

  lemma {:induction false} StructDecodes(t: Type, v: Value)
    requires WellFormed(t) && HasType(t, v) && t.Struct?
    ensures Decodes(t, Encode(t, v)) && Decode(t, Encode(t, v)) == Canon(t, v)
    decreases t, 0
  {
    var fs, j := t.fields, Encode(t, v);
    forall i | 0 <= i < |fs|
      ensures fs[i].name in j.members <==> Kept(fs[i], v.values[i])
      ensures fs[i].name in j.members ==> Decodes(fs[i].ty, j.members[fs[i].name])
                                          && Decode(fs[i].ty, j.members[fs[i].name]) == Canon(fs[i].ty, v.values[i])
    {
      MembersExactly(t, v, |fs|, i);
      DecodeEncode(fs[i].ty, v.values[i]);
    }
  }

  // ---------- What survives ----------

  lemma {:induction false} SameIsReflexive(t: Type, v: Value)
    requires HasType(t, v)
    ensures Same(t, v, v)
    decreases t
  {
    match t
    case Pointer(e) => if v.PointerTo? { SameIsReflexive(e, v.target); }
    case Slice(e) => if v.SliceOf? { forall i | 0 <= i < |v.items| { SameIsReflexive(e, v.items[i]); } }
    case Mapping(e) => if v.MapOf? { forall k | k in v.entries { SameIsReflexive(e, v.entries[k]); } }
    case Struct(fs) => forall i | 0 <= i < |fs| { SameIsReflexive(fs[i].ty, v.values[i]); }
    case _ =>
  }

  lemma EmptyIsSameAsZero(t: Type, v: Value)
    requires HasType(t, v) && Empty(v)
    ensures Same(t, v, Zero(t)) && Lossless(t, v)
  {}

  /** The pass is the identity, up to nil and empty, exactly on the lossless values. */
  lemma {:induction false} PassKeepsExactly(t: Type, v: Value)
    requires HasType(t, v)
    ensures HasType(t, Canon(t, v))
    ensures Same(t, v, Canon(t, v)) <==> Lossless(t, v)
    decreases t
  {
    CanonHasType(t, v);
    match t
    case Pointer(e) => if v.PointerTo? { PassKeepsExactly(e, v.target); }
    case Slice(e) =>
      if v.SliceOf? {
        forall i | 0 <= i < |v.items|
          ensures HasType(e, Canon(e, v.items[i]))
          ensures Same(e, v.items[i], Canon(e, v.items[i])) <==> Lossless(e, v.items[i])
        {
          PassKeepsExactly(e, v.items[i]);
        }
        if Same(t, v, Canon(t, v)) {
          forall i | 0 <= i < |v.items| ensures Lossless(e, v.items[i]) {
            assert Same(e, Items(v)[i], Items(Canon(t, v))[i]);
          }
        }
      }
    case Mapping(e) =>
      if v.MapOf? {
        forall k | k in v.entries
          ensures HasType(e, Canon(e, v.entries[k]))
          ensures Same(e, v.entries[k], Canon(e, v.entries[k])) <==> Lossless(e, v.entries[k])
        {
          PassKeepsExactly(e, v.entries[k]);
        }
      }
    case Struct(fs) =>
      forall i | 0 <= i < |fs|
        ensures Same(fs[i].ty, v.values[i], Canon(t, v).values[i]) <==> Lossless(fs[i].ty, v.values[i])
      {
        PassKeepsExactly(fs[i].ty, v.values[i]);
        if !Kept(fs[i], v.values[i]) { EmptyIsSameAsZero(fs[i].ty, v.values[i]); }
      }
    case _ =>
  }

  lemma {:induction false} CanonKeepsNullish(t: Type, v: Value)
    requires HasType(t, v) && HasType(t, Canon(t, v))
    ensures Nullish(t, Canon(t, v)) <==> Nullish(t, v)
    decreases t
  {
    if t.Pointer? && v.PointerTo? {
      CanonHasType(t.elem, v.target);
      CanonKeepsNullish(t.elem, v.target);
    }
  }

  lemma {:induction false} CanonOfZero(t: Type)
    ensures Canon(t, Zero(t)) == Zero(t)
    decreases t
  {
    if t.Struct? {
      forall i | 0 <= i < |t.fields| { CanonOfZero(t.fields[i].ty); }
    }
  }

  /** A struct's field that came out of the pass comes out of it again. */
  lemma {:induction false} FieldSettles(f: Field, x: Value)
    requires HasType(f.ty, x) && HasType(f.ty, Canon(f.ty, x))
    requires Canon(f.ty, Canon(f.ty, x)) == Canon(f.ty, x)
    ensures var y := if Kept(f, x) then Canon(f.ty, x) else Zero(f.ty);
            (if Kept(f, y) then Canon(f.ty, y) else Zero(f.ty)) == y
  {
    CanonOfZero(f.ty);
    if Kept(f, x) && Empty(Canon(f.ty, x)) { EmptyCanonIsZero(f.ty, x); }
  }

  lemma {:induction false} EmptyCanonIsZero(t: Type, v: Value)
    requires HasType(t, v)
    ensures Empty(Canon(t, v)) && !Empty(v) ==> Canon(t, v) == Zero(t)
  {
    if t.Mapping? && v.MapOf? { assert Canon(t, v).entries.Keys == v.entries.Keys; }
  }

  /** A second pass changes nothing at all: what was lost is lost the first time. */
  lemma {:induction false} CanonIsIdempotent(t: Type, v: Value)
    requires HasType(t, v)
    ensures HasType(t, Canon(t, v)) && Canon(t, Canon(t, v)) == Canon(t, v)
    decreases t
  {
    CanonHasType(t, v);
    CanonKeepsNullish(t, v);
    match t
    case Pointer(e) => if v.PointerTo? { CanonIsIdempotent(e, v.target); }
    case Slice(e) =>
      if v.SliceOf? {
        forall i | 0 <= i < |v.items|
          ensures HasType(e, Canon(e, v.items[i])) && Canon(e, Canon(e, v.items[i])) == Canon(e, v.items[i])
        {
          CanonIsIdempotent(e, v.items[i]);
        }
      }
    case Mapping(e) =>
      if v.MapOf? {
        forall k | k in v.entries
          ensures HasType(e, Canon(e, v.entries[k])) && Canon(e, Canon(e, v.entries[k])) == Canon(e, v.entries[k])
        {
          CanonIsIdempotent(e, v.entries[k]);
        }
      }
    case Struct(fs) =>
      var c := Canon(t, v);
      forall i | 0 <= i < |fs|
        ensures (if Kept(fs[i], c.values[i]) then Canon(fs[i].ty, c.values[i]) else Zero(fs[i].ty)) == c.values[i]
      {
        CanonIsIdempotent(fs[i].ty, v.values[i]);
        FieldSettles(fs[i], v.values[i]);
      }
    case _ =>
  }

  /** What one field's value x becomes. */
  predicate ComesOut(f: Field, x: Value, y: Value) {
    && (f.ty.Slice? && x == SliceOf([]) ==> y == if f.omitEmpty then Nil else SliceOf([]))
    && (f.ty.Mapping? && x == MapOf(map[]) ==> y == if f.omitEmpty then Nil else MapOf(map[]))
    && (x == PointerTo(Nil) || x == Nil ==> y == Nil)
    && (x.InstantOf? ==> y.InstantOf? && x.nanos - SECOND < y.nanos <= x.nanos && y.nanos % SECOND == 0)
    && (x.TextOf? || x.NumberOf? || x.FlagOf? ==> y == x)
  }

  lemma {:induction false} FieldComesOut(f: Field, x: Value)
    requires HasType(f.ty, x)
    ensures ComesOut(f, x, if Kept(f, x) then Canon(f.ty, x) else Zero(f.ty))
  {
    if f.ty.Pointer? && x == PointerTo(Nil) { assert Nullish(f.ty.elem, Nil); }
  }

  /** What the pass makes of the values it does not keep apart: an empty slice or map comes out nil under omitempty, and
      only then; a pointer to something null comes out nil; an instant loses its parts of a second. */
  lemma {:induction false} WhatComesOut(t: Type, v: Value, i: nat)
    requires WellFormed(t) && HasType(t, v) && t.Struct? && i < |t.fields|
    ensures ConvertJSON(t, v).StructOf? && |ConvertJSON(t, v).values| == |t.fields|
    ensures ComesOut(t.fields[i], v.values[i], ConvertJSON(t, v).values[i])
  {
    FieldComesOut(t.fields[i], v.values[i]);
  }

  // ---------- Types that lose nothing ----------

  /** No pointer to a pointer, slice, map or instant, and no instant, anywhere in the type. */
  predicate Plain(t: Type) {
    match t
    case Instant => false
    case Pointer(e) => !(e.Pointer? || e.Slice? || e.Mapping?) && Plain(e)
    case Slice(e) => Plain(e)
    case Mapping(e) => Plain(e)
    case Struct(fs) => forall i :: 0 <= i < |fs| ==> Plain(fs[i].ty)
    case _ => true
  }

  lemma {:induction false} PlainLosesNothing(t: Type, v: Value)
    requires HasType(t, v) && Plain(t)
    ensures Lossless(t, v)
    decreases t
  {
    match t
    case Pointer(e) => if v.PointerTo? { PlainLosesNothing(e, v.target); }
    case Slice(e) => if v.SliceOf? { forall i | 0 <= i < |v.items| { PlainLosesNothing(e, v.items[i]); } }
    case Mapping(e) => if v.MapOf? { forall k | k in v.entries { PlainLosesNothing(e, v.entries[k]); } }
    case Struct(fs) => forall i | 0 <= i < |fs| { PlainLosesNothing(fs[i].ty, v.values[i]); }
    case _ =>
  }

  // ---------- Optional parts, as the conversions hold them behind pointers ----------

  ghost predicate TypedOption(t: Type, v: Option<Value>) {
    v.Some? ==> HasType(t, v.value)
  }

  /** convertJSON into a zero value. */
  function ConvertJSON(t: Type, v: Value): (w: Value)
    requires WellFormed(t) && HasType(t, v)
    ensures w == Canon(t, v) && HasType(t, w)
  {
    DecodeEncode(t, v);
    CanonHasType(t, v);
    Decode(t, Encode(t, v))
  }

  function ConvertOption(t: Type, v: Option<Value>): Option<Value>
    requires WellFormed(t) && TypedOption(t, v)
  {
    if v.None? then None else Some(ConvertJSON(t, v.value))
  }

  ghost predicate SameOption(t: Type, v: Option<Value>, w: Option<Value>)
    requires TypedOption(t, v) && TypedOption(t, w)
  {
    v.Some? == w.Some? && (v.Some? ==> Same(t, v.value, w.value))
  }

  ghost predicate LosslessOption(t: Type, v: Option<Value>)
    requires TypedOption(t, v)
  {
    v.Some? ==> Lossless(t, v.value)
  }

  lemma {:induction false} OptionTwice(t: Type, v: Option<Value>)
    requires WellFormed(t) && TypedOption(t, v)
    ensures TypedOption(t, ConvertOption(t, v))
    ensures ConvertOption(t, ConvertOption(t, v)) == ConvertOption(t, v)
    ensures SameOption(t, v, ConvertOption(t, v)) <==> LosslessOption(t, v)
  {
    if v.Some? {
      CanonIsIdempotent(t, v.value);
      PassKeepsExactly(t, v.value);
    }
  }
}
