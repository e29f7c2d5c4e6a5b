/**
 The omit-empty codec every generated message class carries: `to_dict` leaves out a field that holds
 its default, `from_dict` fills a missing field with it and passes over keys it does not know.

 `Py` is whatever a Python variable may hold here, so both directions are modelled on every value,
 well-typed or not; the round trip is proved for the well-typed ones, nested to any depth.
 */
module MessageCodec {

  datatype Py =
    | Null | Int(n: int) | Float(x: real) | Str(s: string) | Bool(b: bool)
    | Dict(entries: map<string, Py>) | List(items: seq<Py>)
    | Obj(cls: string, vals: seq<Py>)

  /** The contract's field types; timestamps, enums and both unsigned types are ints in Python. */
  datatype Type = StringType | DoubleType | IntType | BoolType | MapType | Repeated(cls: string)

  datatype Field = Field(name: string, ty: Type)

  /** The generated classes with their fields in order. */
  type Schema = map<string, seq<Field>>

  function FieldsOf(s: Schema, cls: string): seq<Field> {
    if cls in s then s[cls] else []
  }

  function Default(t: Type): Py {
    match t
    case StringType => Str("")
    case DoubleType => Float(0.0)
    case IntType => Int(0)
    case BoolType => Bool(false)
    case MapType => Dict(map[])
    case Repeated(_) => List([])
  }

  /** `v in (None, 0, 0.0, '', False) or (isinstance(v, (dict, list)) and not v)`. */
  predicate Omitted(v: Py) {
    v == Null || v == Int(0) || v == Float(0.0) || v == Str("") || v == Bool(false) ||
    (v.Dict? && v.entries == map[]) || v == List([])
  }

  // ------------------------------------------------------------------- encoding

  /** `to_dict` of an object, as the dictionary it returns. */
  function ToDict(s: Schema, o: Py): map<string, Py>
    requires o.Obj?
    decreases o, 1, 0
  {
    EncodeFields(s, o, if |o.vals| < |FieldsOf(s, o.cls)| then |o.vals| else |FieldsOf(s, o.cls)|)
  }

  /** The dictionary after the first n fields. */
  function EncodeFields(s: Schema, o: Py, n: nat): map<string, Py>
    requires o.Obj? && n <= |o.vals| && n <= |FieldsOf(s, o.cls)|
    decreases o, 0, n
  {
    if n == 0 then map[]
    else
      var out, v := EncodeFields(s, o, n - 1), o.vals[n - 1];
      if Omitted(v) then out else out[FieldsOf(s, o.cls)[n - 1].name := EncodeValue(s, v)]
  }

  function EncodeValue(s: Schema, v: Py): Py
    decreases v, 2, 0
  {
    match v
    case List(items) => List(EncodeItems(s, items))
    case Obj(_, _) => Dict(ToDict(s, v))
    case _ => v
  }

  function EncodeItems(s: Schema, items: seq<Py>): (r: seq<Py>)
    ensures |r| == |items|
    ensures forall i :: 0 <= i < |items| ==> r[i] == EncodeItem(s, items[i])
    decreases items, 0, 0
  {
    if items == [] then [] else EncodeItems(s, items[..|items| - 1]) + [EncodeItem(s, items[|items| - 1])]
  }

  function EncodeItem(s: Schema, v: Py): Py
    decreases v, 2, 0
  {
    if v.Obj? then Dict(ToDict(s, v)) else v
  }

  // ------------------------------------------------------------------- decoding

  /** `from_dict` of a class on a dictionary. */
  function FromDict(s: Schema, cls: string, w: Py): Py
    requires w.Dict?
    decreases w, 1, 0
  {
    Obj(cls, DecodeFields(s, cls, w, |FieldsOf(s, cls)|))
  }

  /** The values of the first n fields: what the dictionary gives, and defaults for the rest. */
  function DecodeFields(s: Schema, cls: string, w: Py, n: nat): (r: seq<Py>)
    requires w.Dict? && n <= |FieldsOf(s, cls)|
    ensures |r| == n
    decreases w, 0, n
  {
    if n == 0 then []
    else
      var f := FieldsOf(s, cls)[n - 1];
      DecodeFields(s, cls, w, n - 1) +
      [if f.name in w.entries then DecodeValue(s, f.ty, w.entries[f.name]) else Default(f.ty)]
  }

  function DecodeValue(s: Schema, t: Type, v: Py): Py
    decreases v, 2, 0
  {
    if t.Repeated? && v.List? then List(DecodeItems(s, t.cls, v.items)) else v
  }

  function DecodeItems(s: Schema, cls: string, items: seq<Py>): (r: seq<Py>)
    ensures |r| == |items|
    ensures forall i :: 0 <= i < |items| ==> r[i] == DecodeItem(s, cls, items[i])
    decreases items, 0, 0
  {
    if items == [] then [] else DecodeItems(s, cls, items[..|items| - 1]) + [DecodeItem(s, cls, items[|items| - 1])]
  }

  function DecodeItem(s: Schema, cls: string, v: Py): Py
    decreases v, 2, 0
  {
    if v.Dict? then FromDict(s, cls, v) else v
  }

  // ------------------------------------------------------------ the loops themselves

  /** `to_dict`: the dictionary filled field by field. */
  method Encode(s: Schema, o: Py) returns (out: map<string, Py>)
    requires o.Obj?
    ensures out == ToDict(s, o)
    decreases o, 1, 0
  {
    out := map[];
    var fields := FieldsOf(s, o.cls);
    var count := if |o.vals| < |fields| then |o.vals| else |fields|;
    for n := 0 to count
      invariant out == EncodeFields(s, o, n)
    {
      var v := o.vals[n];
      if Omitted(v) { continue; }
      if v.List? {
        var items: seq<Py> := [];
        for i := 0 to |v.items|
          invariant items == EncodeItems(s, v.items[..i])
        {
          assert v.items[..i + 1][..i] == v.items[..i];
          var item := v.items[i];
          if item.Obj? {
            var inner := Encode(s, item);
            item := Dict(inner);
          }
          items := items + [item];
        }
        assert v.items[..|v.items|] == v.items;
        out := out[fields[n].name := List(items)];
      } else if v.Obj? {
        var inner := Encode(s, v);
        out := out[fields[n].name := Dict(inner)];
      } else {
        out := out[fields[n].name := v];
      }
    }
  }

  /** `from_dict`: the keyword arguments filled field by field, then the constructor's defaults. */
  method Decode(s: Schema, cls: string, w: Py) returns (o: Py)
    requires w.Dict?
    ensures o == FromDict(s, cls, w)
    decreases w, 1, 0
  {
    var fields := FieldsOf(s, cls);
    var vals: seq<Py> := [];
    for n := 0 to |fields|
      invariant vals == DecodeFields(s, cls, w, n)
    {
      var f := fields[n];
      if f.name !in w.entries {
        vals := vals + [Default(f.ty)];
        continue;
      }
      var v := w.entries[f.name];
      if f.ty.Repeated? && v.List? {
        var items: seq<Py> := [];
        for i := 0 to |v.items|
          invariant items == DecodeItems(s, f.ty.cls, v.items[..i])
        {
          assert v.items[..i + 1][..i] == v.items[..i];
          var item := v.items[i];
          if item.Dict? { item := Decode(s, f.ty.cls, item); }
          items := items + [item];
        }
        assert v.items[..|v.items|] == v.items;
        v := List(items);
      }
      vals := vals + [v];
    }
    o := Obj(cls, vals);
  }

  // ------------------------------------------------------------------ well-typed

  /** No class has two fields of one name. */
  ghost predicate NamesDiffer(s: Schema) {
    forall cls, i, j :: cls in s && 0 <= i < j < |s[cls]| ==> s[cls][i].name != s[cls][j].name
  }

  ghost predicate HasType(s: Schema, v: Py, t: Type)
    decreases v, 1
  {
    match t
    case StringType => v.Str?
    case DoubleType => v.Float?
    case IntType => v.Int?
    case BoolType => v.Bool?
    case MapType => v.Dict? && forall k :: k in v.entries ==> v.entries[k].Str?
    case Repeated(cls) => v.List? && forall i :: 0 <= i < |v.items| ==>
      v.items[i].Obj? && v.items[i].cls == cls && WellTyped(s, v.items[i])
  }

  /** A message: an object of a class of the contract, each field a value of its type, all the way down. */
  ghost predicate WellTyped(s: Schema, o: Py)
    decreases o, 0
  {
    o.Obj? && o.cls in s && |o.vals| == |s[o.cls]| &&
    forall i :: 0 <= i < |o.vals| ==> HasType(s, o.vals[i], s[o.cls][i].ty)
  }

  /** A well-typed value is left out exactly when it is its type's default. */
  lemma OmittedIsDefault(s: Schema, v: Py, t: Type)
    requires HasType(s, v, t)
    ensures Omitted(v) <==> v == Default(t)
  {
  }

  /** What encoding the first n fields leaves under the k-th one's name. */
  lemma {:induction false} EncodedField(s: Schema, o: Py, n: nat, k: nat)
    requires NamesDiffer(s) && o.Obj? && o.cls in s && k < n <= |o.vals| == |s[o.cls]|
    ensures var out, name := EncodeFields(s, o, n), s[o.cls][k].name;
            (name in out <==> !Omitted(o.vals[k])) && (name in out ==> out[name] == EncodeValue(s, o.vals[k]))
  {
    if k < n - 1 {
      EncodedField(s, o, n - 1, k);
    } else {
      OnlyEarlierNames(s, o, n - 1, k);
    }
  }

  lemma {:induction false} OnlyEarlierNames(s: Schema, o: Py, n: nat, k: nat)
    requires NamesDiffer(s) && o.Obj? && o.cls in s && n <= k < |o.vals| == |s[o.cls]|
    ensures s[o.cls][k].name !in EncodeFields(s, o, n)
  {
    if n > 0 { OnlyEarlierNames(s, o, n - 1, k); }
  }

  lemma {:induction false} DecodedField(s: Schema, cls: string, w: Py, n: nat, k: nat)
    requires w.Dict? && k < n <= |FieldsOf(s, cls)|
    ensures var f := FieldsOf(s, cls)[k];
            DecodeFields(s, cls, w, n)[k] == if f.name in w.entries then DecodeValue(s, f.ty, w.entries[f.name])
              else Default(f.ty)
  {
    if k < n - 1 { DecodedField(s, cls, w, n - 1, k); }
  }

  // ------------------------------------------------------------- what stands under a key

  /** The encoding has no keys but names of fields. */
  lemma {:induction false} OnlyFieldsAreKeys(s: Schema, o: Py, n: nat, key: string)
    requires o.Obj? && n <= |o.vals| && n <= |FieldsOf(s, o.cls)| && key in EncodeFields(s, o, n)
    ensures exists k :: 0 <= k < n && FieldsOf(s, o.cls)[k].name == key
  {
    if key in EncodeFields(s, o, n - 1) { OnlyFieldsAreKeys(s, o, n - 1, key); }
  }

  /**
   Under a field's name stands its value as it is, or, for a list of messages, the list of their encodings, in
   order.
   */
  lemma EachKeyHoldsItsField(s: Schema, o: Py, k: nat)
    requires NamesDiffer(s) && WellTyped(s, o) && k < |o.vals| && s[o.cls][k].name in ToDict(s, o)
    ensures var v, w := o.vals[k], ToDict(s, o)[s[o.cls][k].name];
            && (!v.List? ==> w == v)
            && (v.List? ==> w.List? && |w.items| == |v.items|)
            && (v.List? ==> forall i :: 0 <= i < |v.items| ==>
                  v.items[i].Obj? && w.items[i] == Dict(ToDict(s, v.items[i])))
  {
    EncodedField(s, o, |o.vals|, k);
    assert HasType(s, o.vals[k], s[o.cls][k].ty);
  }

  /**
   A decoded field is what stands under its name, its type's default where nothing does, or, for a repeated
   field with a list there, the list of its items, each dictionary among them decoded.
   */
  lemma EachFieldTakesItsKey(s: Schema, cls: string, w: Py, k: nat)
    requires w.Dict? && cls in s && k < |s[cls]|
    ensures FromDict(s, cls, w).cls == cls && |FromDict(s, cls, w).vals| == |s[cls]|
    ensures var f, v := s[cls][k], FromDict(s, cls, w).vals[k];
            if f.name !in w.entries then v == Default(f.ty)
            else
              var x := w.entries[f.name];
              if f.ty.Repeated? && x.List? then
                && v.List? && |v.items| == |x.items|
                && forall i :: 0 <= i < |x.items| ==>
                     v.items[i] == if x.items[i].Dict? then FromDict(s, f.ty.cls, x.items[i]) else x.items[i]
              else v == x
  {
    DecodedField(s, cls, w, |s[cls]|, k);
  }

  // -------------------------------------------------------------------- the laws

  /** A key is present exactly when its field differs from the default. */
  lemma PresentExactlyWhenSet(s: Schema, o: Py, k: nat)
    requires NamesDiffer(s) && WellTyped(s, o) && k < |o.vals|
    ensures s[o.cls][k].name in ToDict(s, o) <==> o.vals[k] != Default(s[o.cls][k].ty)
  {
    EncodedField(s, o, |o.vals|, k);
    OmittedIsDefault(s, o.vals[k], s[o.cls][k].ty);
  }

  lemma {:induction false} ValueRoundTrip(s: Schema, v: Py, t: Type)
    requires NamesDiffer(s) && HasType(s, v, t)
    ensures DecodeValue(s, t, EncodeValue(s, v)) == v
    decreases v, 1
  {
    if t.Repeated? {
      var back := DecodeItems(s, t.cls, EncodeItems(s, v.items));
      forall i | 0 <= i < |v.items| ensures back[i] == v.items[i] {
        RoundTrip(s, v.items[i]);
      }
      assert back == v.items;
    }
  }

  /** `from_dict(to_dict(m)) == m`, for every well-typed message. */
  lemma {:induction false} RoundTrip(s: Schema, o: Py)
    requires NamesDiffer(s) && WellTyped(s, o)
    ensures FromDict(s, o.cls, Dict(ToDict(s, o))) == o
    decreases o, 0
  {
    var w, n := Dict(ToDict(s, o)), |o.vals|;
    var back := DecodeFields(s, o.cls, w, n);
    forall k | 0 <= k < n ensures back[k] == o.vals[k] {
      EncodedField(s, o, n, k);
      DecodedField(s, o.cls, w, n, k);
      OmittedIsDefault(s, o.vals[k], s[o.cls][k].ty);
      ValueRoundTrip(s, o.vals[k], s[o.cls][k].ty);
    }
    assert back == o.vals;
  }

  /** Two messages of a class with one encoding are one message. */
  lemma EncodingIsInjective(s: Schema, a: Py, b: Py)
    requires NamesDiffer(s) && WellTyped(s, a) && WellTyped(s, b) && a.cls == b.cls && ToDict(s, a) == ToDict(s, b)
    ensures a == b
  {
    RoundTrip(s, a);
    RoundTrip(s, b);
  }

  /** `w'` is `w` with keys unknown to the class added, here and in every nested message. */
  ghost predicate Extends(s: Schema, cls: string, w: Py, w': Py)
    requires w.Dict?
    decreases w, 0
  {
    w'.Dict? && forall k :: 0 <= k < |FieldsOf(s, cls)| ==>
      var f := FieldsOf(s, cls)[k];
      (f.name in w.entries <==> f.name in w'.entries) &&
      (f.name in w.entries ==> ExtendsValue(s, f.ty, w.entries[f.name], w'.entries[f.name]))
  }

  ghost predicate ExtendsValue(s: Schema, t: Type, v: Py, v': Py)
    decreases v, 1
  {
    if t.Repeated? && v.List? then
      v'.List? && |v'.items| == |v.items| &&
      forall i :: 0 <= i < |v.items| ==>
        if v.items[i].Dict? then Extends(s, t.cls, v.items[i], v'.items[i]) else v'.items[i] == v.items[i]
    else v' == v
  }

  /** Unknown keys, anywhere a message is expected, do not change what is decoded. */
  lemma {:induction false} UnknownKeysDoNotMatter(s: Schema, cls: string, w: Py, w': Py)
    requires w.Dict? && Extends(s, cls, w, w')
    ensures FromDict(s, cls, w') == FromDict(s, cls, w)
    decreases w, 0
  {
    var n := |FieldsOf(s, cls)|;
    var a, b := DecodeFields(s, cls, w, n), DecodeFields(s, cls, w', n);
    forall k | 0 <= k < n ensures a[k] == b[k] {
      var f := FieldsOf(s, cls)[k];
      DecodedField(s, cls, w, n, k);
      DecodedField(s, cls, w', n, k);
      if f.name in w.entries { UnknownKeysInValue(s, f.ty, w.entries[f.name], w'.entries[f.name]); }
    }
    assert a == b;
  }

  lemma {:induction false} UnknownKeysInValue(s: Schema, t: Type, v: Py, v': Py)
    requires ExtendsValue(s, t, v, v')
    ensures DecodeValue(s, t, v') == DecodeValue(s, t, v)
    decreases v, 1
  {
    if t.Repeated? && v.List? {
      var a, b := DecodeItems(s, t.cls, v.items), DecodeItems(s, t.cls, v'.items);
      forall i | 0 <= i < |v.items| ensures a[i] == b[i] {
        if v.items[i].Dict? { UnknownKeysDoNotMatter(s, t.cls, v.items[i], v'.items[i]); }
      }
      assert a == b;
    }
  }

  /** So a message survives a peer that adds keys of its own to it. */
  lemma ForwardCompatible(s: Schema, o: Py, w: Py)
    requires NamesDiffer(s) && WellTyped(s, o) && Extends(s, o.cls, Dict(ToDict(s, o)), w)
    ensures FromDict(s, o.cls, w) == o
  {
    RoundTrip(s, o);
    UnknownKeysDoNotMatter(s, o.cls, Dict(ToDict(s, o)), w);
  }
}
