/** Derived JSON encoding of records, at the level of JSON trees: what `#[serde(default,
    skip_serializing_if = …)]` structs write and read. A JSON object is a map, as in
    `serde_json::Value` (keys sorted, no duplicates). */
module Serde {
  import opened Lists

  datatype Json =
    | Null
    | Flag(b: bool)
    | Int(i: int)
    | Float(digits: string)
    | Str(s: string)
    | Arr(items: seq<Json>)
    | Obj(fields: map<string, Json>)

  /** The Rust types the envelopes are made of. */
  datatype Shape =
    | TStr
    | TBool
    | TUint(max: nat)
    | TAny
    | TEnum(labels: seq<string>)
    | TList(elem: Shape)
    | TDict(elem: Shape)
    | TOpt(elem: Shape)
    | TStruct(fields: seq<Field>)

  /** How a field is written and what a missing one means: an error; a default that is always
      written back; or the empty value, which is omitted. */
  datatype Rule = Required | Written(default: Val) | OmitEmpty

  datatype Field = Field(name: string, shape: Shape, rule: Rule)

  datatype Val =
    | VStr(s: string)
    | VBool(b: bool)
    | VUint(n: nat)
    | VAny(j: Json)
    | VEnum(tag: string)
    | VList(items: seq<Val>)
    | VDict(entries: map<string, Val>)
    | VNone
    | VSome(some: Val)
    | VStruct(vals: seq<Val>)

  // ------------------------------------------------------------------ shapes

  predicate DistinctNames(fs: seq<Field>) {
    forall i, j :: 0 <= i < j < |fs| ==> fs[i].name != fs[j].name
  }

  /** Shapes whose empty value is their default, so that it may be omitted. */
  predicate Emptyable(s: Shape) {
    match s
    case TStr => true
    case TBool => true
    case TUint(_) => false
    case TAny => false
    case TEnum(labels) => labels != []
    case TList(_) => true
    case TDict(_) => true
    case TOpt(_) => true
    case TStruct(fs) => forall i :: 0 <= i < |fs| ==> fs[i].rule == OmitEmpty && Emptyable(fs[i].shape)
  }

  predicate WellFormed(s: Shape) {
    match s
    case TStr => true
    case TBool => true
    case TUint(_) => true
    case TAny => true
    case TEnum(_) => true
    case TList(e) => WellFormed(e)
    case TDict(e) => WellFormed(e)
    case TOpt(e) => WellFormed(e) && !e.TOpt?
    case TStruct(fs) => DistinctNames(fs) && forall i :: 0 <= i < |fs| ==> FieldWellFormed(fs[i])
  }

  predicate FieldWellFormed(f: Field) {
    && WellFormed(f.shape)
    && (f.rule.Written? ==> Faithful(f.shape, f.rule.default))
    && (f.rule == OmitEmpty ==> Emptyable(f.shape))
  }

  /** `v` is a value of the type `s`. */
  predicate HasShape(s: Shape, v: Val) {
    match s
    case TStr => v.VStr?
    case TBool => v.VBool?
    case TUint(max) => v.VUint? && v.n <= max
    case TAny => v.VAny?
    case TEnum(labels) => v.VEnum? && v.tag in labels
    case TList(e) => v.VList? && forall i :: 0 <= i < |v.items| ==> HasShape(e, v.items[i])
    case TDict(e) => v.VDict? && forall k :: k in v.entries ==> HasShape(e, v.entries[k])
    case TOpt(e) => v == VNone || (v.VSome? && HasShape(e, v.some))
    case TStruct(fs) => v.VStruct? && |v.vals| == |fs| && forall i :: 0 <= i < |fs| ==> HasShape(fs[i].shape, v.vals[i])
  }

  /** A value in which no present option holds the JSON `null`. */
  predicate NoSomeNull(s: Shape, v: Val)
    requires HasShape(s, v)
  {
    match s
    case TStr => true
    case TBool => true
    case TUint(_) => true
    case TAny => true
    case TEnum(_) => true
    case TList(e) => forall i :: 0 <= i < |v.items| ==> NoSomeNull(e, v.items[i])
    case TDict(e) => forall k :: k in v.entries ==> NoSomeNull(e, v.entries[k])
    case TOpt(e) => v.VSome? ==> v.some != VAny(Null) && NoSomeNull(e, v.some)
    case TStruct(fs) => forall i :: 0 <= i < |fs| ==> NoSomeNull(fs[i].shape, v.vals[i])
  }

  predicate Faithful(s: Shape, v: Val) {
    HasShape(s, v) && NoSomeNull(s, v)
  }

  // ------------------------------------------------------------------ empty values

  function Default(s: Shape): Val
    requires Emptyable(s)
  {
    match s
    case TStr => VStr("")
    case TBool => VBool(false)
    case TEnum(labels) => VEnum(labels[0])
    case TList(_) => VList([])
    case TDict(_) => VDict(map[])
    case TOpt(_) => VNone
    case TStruct(fs) => VStruct(seq(|fs|, i requires 0 <= i < |fs| => Default(fs[i].shape)))
  }

  /** The `skip_serializing_if` predicate of a shape: a record is empty when all its fields
      are. */
  predicate IsEmpty(s: Shape, v: Val)
    requires Emptyable(s) && HasShape(s, v)
  {
    match s
    case TStr => v.s == ""
    case TBool => !v.b
    case TEnum(labels) => v.tag == labels[0]
    case TList(_) => v.items == []
    case TDict(_) => v.entries == map[]
    case TOpt(_) => v == VNone
    case TStruct(fs) => forall i :: 0 <= i < |fs| ==> IsEmpty(fs[i].shape, v.vals[i])
  }

  lemma {:induction false} DefaultFaithful(s: Shape)
    requires Emptyable(s)
    ensures Faithful(s, Default(s))
  {
    if s.TStruct? {
      forall i | 0 <= i < |s.fields| ensures Faithful(s.fields[i].shape, Default(s.fields[i].shape)) {
        DefaultFaithful(s.fields[i].shape);
      }
    }
  }

  /** Each omit predicate holds exactly at the default value. */
  lemma {:induction false} EmptyIffDefault(s: Shape, v: Val)
    requires Emptyable(s) && HasShape(s, v)
    ensures IsEmpty(s, v) <==> v == Default(s)
  {
    if s.TStruct? {
      var fs := s.fields;
      forall i | 0 <= i < |fs| ensures IsEmpty(fs[i].shape, v.vals[i]) <==> v.vals[i] == Default(fs[i].shape) {
        EmptyIffDefault(fs[i].shape, v.vals[i]);
      }
      if IsEmpty(s, v) {
        assert v.vals == Default(s).vals;
      }
    }
  }

  // ------------------------------------------------------------------ writing

  predicate Kept(f: Field, v: Val)
    requires FieldWellFormed(f) && HasShape(f.shape, v)
  {
    f.rule == OmitEmpty ==> !IsEmpty(f.shape, v)
  }

  /** `serde_json::to_value`. */
  function Write(s: Shape, v: Val): Json
    requires WellFormed(s) && HasShape(s, v)
    decreases s
  {
    match s
    case TStr => Str(v.s)
    case TBool => Flag(v.b)
    case TUint(_) => Int(v.n)
    case TAny => v.j
    case TEnum(_) => Str(v.tag)
    case TList(e) => Arr(seq(|v.items|, i requires 0 <= i < |v.items| => Write(e, v.items[i])))
    case TDict(e) => Obj(map k | k in v.entries :: Write(e, v.entries[k]))
    case TOpt(e) => if v == VNone then Null else Write(e, v.some)
    case TStruct(fs) => Obj(WriteFields(s, v, |fs|))
  }

  /** The first `k` fields of a record. */
  function WriteFields(s: Shape, v: Val, k: nat): map<string, Json>
    requires s.TStruct? && WellFormed(s) && HasShape(s, v) && k <= |s.fields|
    decreases s, k
  {
    if k == 0 then map[]
    else
      var f, m := s.fields[k - 1], WriteFields(s, v, k - 1);
      if Kept(f, v.vals[k - 1]) then m[f.name := Write(f.shape, v.vals[k - 1])] else m
  }

  // ------------------------------------------------------------------ reading

  /** `serde_json::from_value`; unknown keys are ignored. */
  function Read(s: Shape, j: Json): Option<Val>
    requires WellFormed(s)
    decreases s
  {
    match s
    case TStr => if j.Str? then Some(VStr(j.s)) else None
    case TBool => if j.Flag? then Some(VBool(j.b)) else None
    case TUint(max) => if j.Int? && 0 <= j.i <= max then Some(VUint(j.i)) else None
    case TAny => Some(VAny(j))
    case TEnum(labels) => if j.Str? && j.s in labels then Some(VEnum(j.s)) else None
    case TList(e) =>
      if j.Arr? && forall i :: 0 <= i < |j.items| ==> Read(e, j.items[i]).Some? then
        Some(VList(seq(|j.items|, i requires 0 <= i < |j.items| => Read(e, j.items[i]).value)))
      else None
    case TDict(e) =>
      if j.Obj? && forall k :: k in j.fields ==> Read(e, j.fields[k]).Some? then
        Some(VDict(map k | k in j.fields :: Read(e, j.fields[k]).value))
      else None
    case TOpt(e) =>
      if j == Null then Some(VNone)
      else (match Read(e, j)
        case None => None
        case Some(x) => Some(VSome(x)))
    case TStruct(fs) =>
      if j.Obj? && forall i :: 0 <= i < |fs| ==> ReadField(fs[i], j.fields).Some? then
        Some(VStruct(seq(|fs|, i requires 0 <= i < |fs| => ReadField(fs[i], j.fields).value)))
      else None
  }

  function ReadField(f: Field, m: map<string, Json>): Option<Val>
    requires FieldWellFormed(f)
    decreases f
  {
    if f.name in m then Read(f.shape, m[f.name])
    else match f.rule
      case Required => None
      case Written(d) => Some(d)
      case OmitEmpty => Some(Default(f.shape))
  }

  // ------------------------------------------------------------------ laws

  lemma {:induction false} FieldAmong(s: Shape, v: Val, i: nat, k: nat)
    requires s.TStruct? && WellFormed(s) && HasShape(s, v) && i < |s.fields| && k <= |s.fields|
    ensures var m, f := WriteFields(s, v, k), s.fields[i];
      && (f.name in m <==> i < k && Kept(f, v.vals[i]))
      && (f.name in m ==> m[f.name] == Write(f.shape, v.vals[i]))
    decreases k
  {
    if k > 0 {
      FieldAmong(s, v, i, k - 1);
      var fs := s.fields;
      assert i < k - 1 ==> fs[i].name != fs[k - 1].name;
      assert k - 1 < i ==> fs[k - 1].name != fs[i].name;
    }
  }

  /** A written record holds exactly the fields that are not omitted. */
  lemma FieldWritten(s: Shape, v: Val, i: nat)
    requires s.TStruct? && WellFormed(s) && HasShape(s, v) && i < |s.fields|
    ensures var m, f := Write(s, v).fields, s.fields[i];
      && (f.name in m <==> Kept(f, v.vals[i]))
      && (f.name in m ==> m[f.name] == Write(f.shape, v.vals[i]))
  {
    FieldAmong(s, v, i, |s.fields|);
  }

  /** A written record holds no key but its fields'. */
  lemma {:induction false} KeysAreFields(s: Shape, v: Val, k: nat, key: string)
    requires s.TStruct? && WellFormed(s) && HasShape(s, v) && k <= |s.fields| && key in WriteFields(s, v, k)
    ensures exists i :: 0 <= i < |s.fields| && s.fields[i].name == key
    decreases k
  {
    if k > 0 && key != s.fields[k - 1].name { KeysAreFields(s, v, k - 1, key); }
  }

  /** Only an option can be written as `null`, or a raw JSON value. */
  lemma WrittenNull(s: Shape, v: Val)
    requires WellFormed(s) && HasShape(s, v) && Write(s, v) == Null
    ensures s.TOpt? || v == VAny(Null)
  {
  }

  /** What was written is read back, unless a present option holds `null`. */
  lemma {:induction false} ReadWrite(s: Shape, v: Val)
    requires WellFormed(s) && Faithful(s, v)
    ensures Read(s, Write(s, v)) == Some(v)
    decreases s
  {
    match s
    case TStr =>
    case TBool =>
    case TUint(_) =>
    case TAny =>
    case TEnum(_) =>
    case TList(e) => ReadWriteList(s, v);
    case TDict(e) => ReadWriteDict(s, v);
    case TOpt(e) =>
      if v.VSome? {
        ReadWrite(e, v.some);
        if Write(e, v.some) == Null { WrittenNull(e, v.some); }
      }
    case TStruct(fs) => ReadWriteStruct(s, v);
  }

  lemma {:induction false} ReadWriteList(s: Shape, v: Val)
    requires s.TList? && WellFormed(s) && Faithful(s, v)
    ensures Read(s, Write(s, v)) == Some(v)
    decreases s, 0
  {
    var j := Write(s, v);
    forall i | 0 <= i < |v.items| ensures Read(s.elem, j.items[i]) == Some(v.items[i]) {
      ReadWrite(s.elem, v.items[i]);
    }
    assert Read(s, j).value.items == v.items;
  }

  lemma {:induction false} ReadWriteDict(s: Shape, v: Val)
    requires s.TDict? && WellFormed(s) && Faithful(s, v)
    ensures Read(s, Write(s, v)) == Some(v)
    decreases s, 0
  {
    var j := Write(s, v);
    forall k | k in v.entries ensures Read(s.elem, j.fields[k]) == Some(v.entries[k]) {
      ReadWrite(s.elem, v.entries[k]);
    }
    assert Read(s, j).value.entries == v.entries;
  }

  lemma {:induction false} ReadWriteStruct(s: Shape, v: Val)
    requires s.TStruct? && WellFormed(s) && Faithful(s, v)
    ensures Read(s, Write(s, v)) == Some(v)
    decreases s, 0
  {
    var j := Write(s, v);
    forall i | 0 <= i < |s.fields| ensures ReadField(s.fields[i], j.fields) == Some(v.vals[i]) {
      var f := s.fields[i];
      FieldWritten(s, v, i);
      ReadWrite(f.shape, v.vals[i]);
      if f.rule == OmitEmpty { EmptyIffDefault(f.shape, v.vals[i]); }
    }
    assert Read(s, j).value.vals == v.vals;
  }

  /** What a reader accepts is well typed and holds no present `null`. */
  lemma {:induction false} ReadFaithful(s: Shape, j: Json)
    requires WellFormed(s) && Read(s, j).Some?
    ensures Faithful(s, Read(s, j).value)
    decreases s
  {
    match s
    case TStr =>
    case TBool =>
    case TUint(_) =>
    case TAny =>
    case TEnum(_) =>
    case TList(e) =>
      forall i | 0 <= i < |j.items| ensures Faithful(e, Read(e, j.items[i]).value) {
        ReadFaithful(e, j.items[i]);
      }
    case TDict(e) =>
      forall k | k in j.fields ensures Faithful(e, Read(e, j.fields[k]).value) {
        ReadFaithful(e, j.fields[k]);
      }
    case TOpt(e) =>
      if j != Null { ReadFaithful(e, j); }
    case TStruct(fs) =>
      forall i | 0 <= i < |fs| ensures Faithful(fs[i].shape, ReadField(fs[i], j.fields).value) {
        ReadFieldFaithful(fs[i], j.fields);
      }
  }

  lemma {:induction false} ReadFieldFaithful(f: Field, m: map<string, Json>)
    requires FieldWellFormed(f) && ReadField(f, m).Some?
    ensures Faithful(f.shape, ReadField(f, m).value)
    decreases f
  {
    if f.name in m {
      ReadFaithful(f.shape, m[f.name]);
    } else if f.rule == OmitEmpty {
      DefaultFaithful(f.shape);
    }
  }

  /** The round trip holds exactly for the values in which no present option holds `null`. */
  lemma RoundTripIff(s: Shape, v: Val)
    requires WellFormed(s) && HasShape(s, v)
    ensures Read(s, Write(s, v)) == Some(v) <==> NoSomeNull(s, v)
  {
    if NoSomeNull(s, v) {
      ReadWrite(s, v);
    }
    if Read(s, Write(s, v)) == Some(v) {
      ReadFaithful(s, Write(s, v));
    }
  }

  /** Writing is injective on the values a reader can produce. */
  lemma WriteInjective(s: Shape, v: Val, w: Val)
    requires WellFormed(s) && Faithful(s, v) && Faithful(s, w) && Write(s, v) == Write(s, w)
    ensures v == w
  {
    ReadWrite(s, v);
    ReadWrite(s, w);
  }

  // ------------------------------------------------------------------ records in parts

  lemma JoinFields(fs: seq<Field>, vs: seq<Val>, gs: seq<Field>, ws: seq<Val>)
    requires HasShape(TStruct(fs), VStruct(vs)) && HasShape(TStruct(gs), VStruct(ws))
    ensures HasShape(TStruct(fs + gs), VStruct(vs + ws))
    ensures NoSomeNull(TStruct(fs + gs), VStruct(vs + ws)) <==>
              NoSomeNull(TStruct(fs), VStruct(vs)) && NoSomeNull(TStruct(gs), VStruct(ws))
  {
    var hs, xs := fs + gs, vs + ws;
    forall i | 0 <= i < |hs| ensures HasShape(hs[i].shape, xs[i]) {
      if i < |fs| {
        assert HasShape(fs[i].shape, vs[i]);
      } else {
        assert HasShape(gs[i - |fs|].shape, ws[i - |fs|]);
      }
    }
    if NoSomeNull(TStruct(hs), VStruct(xs)) {
      forall i | 0 <= i < |fs| ensures NoSomeNull(fs[i].shape, vs[i]) {
        assert NoSomeNull(hs[i].shape, xs[i]);
      }
      forall i | 0 <= i < |gs| ensures NoSomeNull(gs[i].shape, ws[i]) {
        assert NoSomeNull(hs[|fs| + i].shape, xs[|fs| + i]);
      }
    }
  }

  lemma FaithfulField(s: Shape, v: Val, i: nat)
    requires s.TStruct? && Faithful(s, v) && i < |s.fields|
    ensures Faithful(s.fields[i].shape, v.vals[i])
  {
  }

  lemma OneField(f: Field, v: Val)
    requires HasShape(f.shape, v)
    ensures HasShape(TStruct([f]), VStruct([v]))
    ensures NoSomeNull(TStruct([f]), VStruct([v])) <==> NoSomeNull(f.shape, v)
  {
    if NoSomeNull(TStruct([f]), VStruct([v])) {
      assert NoSomeNull([f][0].shape, [v][0]);
    }
  }

  lemma FourFields(f: Field, g: Field, h: Field, k: Field, v: Val, w: Val, x: Val, y: Val)
    requires Faithful(f.shape, v) && Faithful(g.shape, w) && Faithful(h.shape, x) && Faithful(k.shape, y)
    ensures Faithful(TStruct([f, g, h, k]), VStruct([v, w, x, y]))
  {
  }
}
