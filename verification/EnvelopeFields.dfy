/** The reader accepts exactly the documents whose places hold the envelope's fields, and the
    writer fills exactly the places of the fields that are not empty. */
module EnvelopeFields {
  import opened Lists
  import opened Serde
  import opened EnvelopeTypes
  import opened EnvelopeCodec
  import opened Envelope
  import opened TreeRefs
  import opened Workflow
  import opened EnvelopePlaces

  // ------------------------------------------------------------------ places of a shape

  /** The document `j` is the value: as it was written, or as it is read. */
  ghost predicate Holds(written: bool, s: Shape, j: Json, v: Val) {
    WellFormed(s) && HasShape(s, v) && if written then j == Write(s, v) else Read(s, j) == Some(v)
  }

  /** The same for a place that is left out when empty. */
  ghost predicate Placed(written: bool, s: Shape, o: Option<Json>, v: Val) {
    && WellFormed(s) && Emptyable(s) && HasShape(s, v)
    && match o
       case None => v == Default(s)
       case Some(j) => Holds(written, s, j, v) && (written ==> v != Default(s))
  }

  ghost predicate FieldPlaced(written: bool, f: Field, o: Option<Json>, v: Val) {
    match f.rule
    case OmitEmpty => Placed(written, f.shape, o, v)
    case Required => o.Some? && Holds(written, f.shape, o.value, v)
    case Written(d) =>
      if o.Some? then Holds(written, f.shape, o.value, v)
      else !written && v == d && WellFormed(f.shape) && HasShape(f.shape, v)
  }

  ghost predicate FieldsPlaced(written: bool, s: Shape, o: Option<Json>, v: Val)
    requires s.TStruct? && HasShape(s, v)
  {
    RangePlaced(written, s.fields, o, v.vals, 0, |s.fields|)
  }

  lemma FieldRead(f: Field, j: Json, v: Val)
    requires FieldWellFormed(f) && HasShape(f.shape, v) && j.Obj?
    ensures ReadField(f, j.fields) == Some(v) <==> FieldPlaced(false, f, Child(Some(j), f.name), v)
  {
  }

  lemma FieldWrote(s: Shape, v: Val, i: nat)
    requires s.TStruct? && WellFormed(s) && HasShape(s, v) && i < |s.fields|
    ensures FieldPlaced(true, s.fields[i], Child(Some(Write(s, v)), s.fields[i].name), v.vals[i])
  {
    var f := s.fields[i];
    FieldWritten(s, v, i);
    assert FieldWellFormed(f);
    if f.rule == OmitEmpty { KeptUnlessDefault(f, v.vals[i]); }
  }

  lemma RecordRead(s: Shape, j: Json, v: Val)
    requires s.TStruct? && WellFormed(s) && HasShape(s, v)
    ensures Holds(false, s, j, v) <==> j.Obj? && FieldsPlaced(false, s, Some(j), v)
  {
    if j.Obj? {
      forall i | 0 <= i < |s.fields|
        ensures ReadField(s.fields[i], j.fields) == Some(v.vals[i]) <==>
          FieldPlaced(false, s.fields[i], Child(Some(j), s.fields[i].name), v.vals[i])
      {
        assert FieldWellFormed(s.fields[i]);
        FieldRead(s.fields[i], j, v.vals[i]);
      }
      if FieldsPlaced(false, s, Some(j), v) {
        assert Read(s, j).value.vals == v.vals;
      }
    }
  }

  lemma RecordHolds(written: bool, s: Shape, j: Json, v: Val)
    requires s.TStruct? && WellFormed(s) && HasShape(s, v)
    ensures Holds(written, s, j, v) ==> j.Obj? && FieldsPlaced(written, s, Some(j), v)
    ensures !written && j.Obj? && FieldsPlaced(written, s, Some(j), v) ==> Holds(written, s, j, v)
  {
    if !written {
      RecordRead(s, j, v);
    } else if Holds(written, s, j, v) {
      forall i | 0 <= i < |s.fields| ensures FieldPlaced(written, s.fields[i], Child(Some(j), s.fields[i].name), v.vals[i]) {
        FieldWrote(s, v, i);
      }
    }
  }

  lemma RecordAbsent(written: bool, s: Shape, v: Val)
    requires s.TStruct? && WellFormed(s) && Emptyable(s) && HasShape(s, v)
    ensures v == Default(s) <==> FieldsPlaced(written, s, None, v)
  {
    var d := Default(s);
    forall i | 0 <= i < |s.fields|
      ensures FieldPlaced(written, s.fields[i], Child(None, s.fields[i].name), v.vals[i]) <==> v.vals[i] == d.vals[i]
    {
      assert FieldWellFormed(s.fields[i]);
    }
    if FieldsPlaced(written, s, None, v) {
      assert v.vals == d.vals;
    }
  }

  lemma RecordPlaced(written: bool, s: Shape, o: Option<Json>, v: Val, empty: bool)
    requires s.TStruct? && WellFormed(s) && Emptyable(s) && HasShape(s, v) && (empty <==> v == Default(s))
    ensures Placed(written, s, o, v) ==> ObjectAt(written, o, empty) && FieldsPlaced(written, s, o, v)
    ensures !written && ObjectAt(written, o, empty) && FieldsPlaced(written, s, o, v) ==> Placed(written, s, o, v)
  {
    match o
    case None => RecordAbsent(written, s, v);
    case Some(j) => RecordHolds(written, s, j, v);
  }

  /** A stretch of the fields of a record. */
  ghost predicate RangePlaced(written: bool, fs: seq<Field>, o: Option<Json>, vs: seq<Val>, a: nat, b: nat)
    requires a <= b <= |fs| == |vs|
  {
    forall i :: a <= i < b ==> FieldPlaced(written, fs[i], Child(o, fs[i].name), vs[i])
  }

  lemma RangeSplit(written: bool, fs: seq<Field>, o: Option<Json>, vs: seq<Val>, a: nat, m: nat, b: nat)
    requires a <= m <= b <= |fs| == |vs|
    ensures RangePlaced(written, fs, o, vs, a, b) <==> RangePlaced(written, fs, o, vs, a, m) && RangePlaced(written, fs, o, vs, m, b)
  {
  }

  // A few fields, one by one.

  lemma OnePlaced(written: bool, fs: seq<Field>, o: Option<Json>, vs: seq<Val>, a: nat)
    requires a + 1 <= |fs| == |vs|
    ensures RangePlaced(written, fs, o, vs, a, a + 1) <==>
      && FieldPlaced(written, fs[a], Child(o, fs[a].name), vs[a])
  {
  }

  lemma TwoPlaced(written: bool, fs: seq<Field>, o: Option<Json>, vs: seq<Val>, a: nat)
    requires a + 2 <= |fs| == |vs|
    ensures RangePlaced(written, fs, o, vs, a, a + 2) <==>
      && FieldPlaced(written, fs[a], Child(o, fs[a].name), vs[a])
      && FieldPlaced(written, fs[a + 1], Child(o, fs[a + 1].name), vs[a + 1])
  {
  }

  lemma ThreePlaced(written: bool, fs: seq<Field>, o: Option<Json>, vs: seq<Val>, a: nat)
    requires a + 3 <= |fs| == |vs|
    ensures RangePlaced(written, fs, o, vs, a, a + 3) <==>
      && FieldPlaced(written, fs[a], Child(o, fs[a].name), vs[a])
      && FieldPlaced(written, fs[a + 1], Child(o, fs[a + 1].name), vs[a + 1])
      && FieldPlaced(written, fs[a + 2], Child(o, fs[a + 2].name), vs[a + 2])
  {
  }

  lemma FourPlaced(written: bool, fs: seq<Field>, o: Option<Json>, vs: seq<Val>, a: nat)
    requires a + 4 <= |fs| == |vs|
    ensures RangePlaced(written, fs, o, vs, a, a + 4) <==>
      && FieldPlaced(written, fs[a], Child(o, fs[a].name), vs[a])
      && FieldPlaced(written, fs[a + 1], Child(o, fs[a + 1].name), vs[a + 1])
      && FieldPlaced(written, fs[a + 2], Child(o, fs[a + 2].name), vs[a + 2])
      && FieldPlaced(written, fs[a + 3], Child(o, fs[a + 3].name), vs[a + 3])
  {
  }

  lemma FivePlaced(written: bool, fs: seq<Field>, o: Option<Json>, vs: seq<Val>, a: nat)
    requires a + 5 <= |fs| == |vs|
    ensures RangePlaced(written, fs, o, vs, a, a + 5) <==>
      && FieldPlaced(written, fs[a], Child(o, fs[a].name), vs[a])
      && FieldPlaced(written, fs[a + 1], Child(o, fs[a + 1].name), vs[a + 1])
      && FieldPlaced(written, fs[a + 2], Child(o, fs[a + 2].name), vs[a + 2])
      && FieldPlaced(written, fs[a + 3], Child(o, fs[a + 3].name), vs[a + 3])
      && FieldPlaced(written, fs[a + 4], Child(o, fs[a + 4].name), vs[a + 4])
  {
  }

  /** The fields of a part of a record. */
  ghost predicate PartPlaced(written: bool, fs: seq<Field>, o: Option<Json>, vs: seq<Val>) {
    |fs| == |vs| && RangePlaced(written, fs, o, vs, 0, |fs|)
  }

  ghost predicate AllPairs<T, U>(p: (T, U) -> bool, xs: seq<T>, ys: seq<U>) {
    |xs| == |ys| && forall i :: 0 <= i < |xs| ==> p(xs[i], ys[i])
  }

  lemma AllPairsConcat<T, U>(p: (T, U) -> bool, xs: seq<T>, xs': seq<T>, ys: seq<U>, ys': seq<U>)
    requires |xs| == |ys|
    ensures AllPairs(p, xs + xs', ys + ys') <==> AllPairs(p, xs, ys) && AllPairs(p, xs', ys')
  {
    var us, vs := xs + xs', ys + ys';
    if AllPairs(p, us, vs) {
      forall i | 0 <= i < |xs| ensures p(xs[i], ys[i]) { assert p(us[i], vs[i]); }
      forall i | 0 <= i < |xs'| ensures p(xs'[i], ys'[i]) { assert p(us[|xs| + i], vs[|xs| + i]); }
    }
  }

  lemma PartsPlaced(written: bool, fs: seq<Field>, gs: seq<Field>, o: Option<Json>, vs: seq<Val>, ws: seq<Val>)
    requires |fs| == |vs|
    ensures PartPlaced(written, fs + gs, o, vs + ws) <==> PartPlaced(written, fs, o, vs) && PartPlaced(written, gs, o, ws)
  {
    var p := (f: Field, v: Val) => FieldPlaced(written, f, Child(o, f.name), v);
    PartIsPairs(written, fs, o, vs, p);
    PartIsPairs(written, gs, o, ws, p);
    PartIsPairs(written, fs + gs, o, vs + ws, p);
    AllPairsConcat(p, fs, gs, vs, ws);
  }

  lemma PartIsPairs(written: bool, fs: seq<Field>, o: Option<Json>, vs: seq<Val>, p: (Field, Val) -> bool)
    requires forall f, v :: p(f, v) <==> FieldPlaced(written, f, Child(o, f.name), v)
    ensures PartPlaced(written, fs, o, vs) <==> AllPairs(p, fs, vs)
  {
    if |fs| == |vs| {
      forall i | 0 <= i < |fs| ensures p(fs[i], vs[i]) <==> FieldPlaced(written, fs[i], Child(o, fs[i].name), vs[i]) {
      }
    }
  }

  lemma LastPlaced(written: bool, f: Field, o: Option<Json>, v: Val)
    ensures PartPlaced(written, [f], o, [v]) <==> FieldPlaced(written, f, Child(o, f.name), v)
  {
    OnePlaced(written, [f], o, [v], 0);
  }

  // ------------------------------------------------------------------ plain fields

  lemma TextHolds(written: bool, j: Json, s: string)
    ensures Holds(written, TStr, j, VStr(s)) <==> j == Str(s)
  {
  }

  lemma TextPlaced(written: bool, o: Option<Json>, s: string)
    ensures Placed(written, TStr, o, VStr(s)) <==> TextAt(written, o, s)
  {
    if o.Some? { TextHolds(written, o.value, s); }
  }

  lemma FlagPlaced(written: bool, o: Option<Json>, b: bool)
    ensures Placed(written, TBool, o, VBool(b)) <==> FlagAt(written, o, b)
  {
  }

  /** An option is left out, or `null` when read, or its value. */
  lemma OptionPlaced(written: bool, e: Shape, o: Option<Json>, v: Val)
    requires WellFormed(TOpt(e)) && HasShape(TOpt(e), v)
    ensures Placed(written, TOpt(e), o, v) <==>
      match o
      case None => v == VNone
      case Some(j) =>
        if j == Null && !written then v == VNone else v.VSome? && Holds(written, e, j, v.some)
  {
    if o.Some? && v.VSome? {
      assert written ==> Write(TOpt(e), v) == Write(e, v.some);
    }
  }

  lemma CountPlaced(written: bool, max: nat, o: Option<Json>, n: Option<nat>)
    requires n.Some? ==> n.value <= max
    ensures Placed(written, TOpt(TUint(max)), o, OptTo(n, x => VUint(x))) <==> CountAt(written, o, n)
  {
    var v := OptTo(n, x => VUint(x));
    assert HasShape(TOpt(TUint(max)), v);
    OptionPlaced(written, TUint(max), o, v);
    if o.Some? && n.Some? {
      assert Holds(written, TUint(max), o.value, VUint(n.value)) <==> o.value == Int(n.value);
    }
  }

  lemma RawPlaced(written: bool, o: Option<Json>, r: Option<Json>)
    ensures Placed(written, TOpt(TAny), o, OptTo(r, x => VAny(x))) <==> RawAt(written, o, r)
  {
    var v := OptTo(r, x => VAny(x));
    assert HasShape(TOpt(TAny), v);
    OptionPlaced(written, TAny, o, v);
    if o.Some? && r.Some? {
      assert Holds(written, TAny, o.value, VAny(r.value)) <==> o.value == r.value;
    }
  }

  /** A document holds a value exactly when it holds the part: in one direction for any
      document, in both for one to be read. */
  ghost predicate ItemsAgree<T(!new)>(written: bool, s: Shape, to: T -> Val, item: (bool, Json, T) -> bool) {
    && WellFormed(s) && (forall x: T :: HasShape(s, to(x)))
    && (forall j, x: T :: Holds(written, s, j, to(x)) ==> item(written, j, x))
    && (!written ==> forall j, x: T :: item(written, j, x) ==> Holds(written, s, j, to(x)))
  }

  lemma ListHolds<T(!new)>(written: bool, s: Shape, j: Json, xs: seq<T>, to: T -> Val)
    requires WellFormed(s) && forall x: T :: HasShape(s, to(x))
    ensures Holds(written, TList(s), j, ListTo(xs, to)) <==>
      j.Arr? && |j.items| == |xs| && forall i :: 0 <= i < |xs| ==> Holds(written, s, j.items[i], to(xs[i]))
  {
    var v := ListTo(xs, to);
    assert HasShape(TList(s), v);
    if Holds(written, TList(s), j, v) {
      assert |v.items| == |xs|;
      if !written { assert |Read(TList(s), j).value.items| == |j.items|; }
      forall i | 0 <= i < |xs| ensures Holds(written, s, j.items[i], to(xs[i])) {
        assert v.items[i] == to(xs[i]);
        if !written { assert Read(TList(s), j).value.items[i] == v.items[i]; }
      }
    }
    if j.Arr? && |j.items| == |xs| && forall i :: 0 <= i < |xs| ==> Holds(written, s, j.items[i], to(xs[i])) {
      if written {
        assert j.items == Write(TList(s), v).items;
      } else {
        assert Read(TList(s), j).value.items == v.items;
      }
    }
  }

  lemma ListPlaced<T(!new)>(written: bool, s: Shape, o: Option<Json>, xs: seq<T>, to: T -> Val, item: (bool, Json, T) -> bool)
    requires ItemsAgree(written, s, to, item)
    ensures Placed(written, TList(s), o, ListTo(xs, to)) ==> ListAt(written, o, xs, item)
    ensures !written && ListAt(written, o, xs, item) ==> Placed(written, TList(s), o, ListTo(xs, to))
  {
    EmptyList(xs, to);
    if o.Some? { ListHolds(written, s, o.value, xs, to); }
  }

  lemma DictValue<T(!new)>(s: Shape, m: map<string, T>, to: T -> Val)
    requires WellFormed(s) && forall x: T :: HasShape(s, to(x))
    ensures var v := DictTo(m, to);
      HasShape(TDict(s), v) && v.entries.Keys == m.Keys && forall k :: k in m ==> v.entries[k] == to(m[k])
  {
  }

  lemma DictWrote<T(!new)>(s: Shape, j: Json, m: map<string, T>, to: T -> Val)
    requires WellFormed(s) && forall x: T :: HasShape(s, to(x))
    ensures Holds(true, TDict(s), j, DictTo(m, to)) ==>
      j.Obj? && j.fields.Keys == m.Keys && forall k :: k in m ==> Holds(true, s, j.fields[k], to(m[k]))
  {
    DictValue(s, m, to);
  }

  lemma DictReads<T(!new)>(s: Shape, j: Json, m: map<string, T>, to: T -> Val)
    requires WellFormed(s) && forall x: T :: HasShape(s, to(x))
    ensures Holds(false, TDict(s), j, DictTo(m, to)) ==>
      j.Obj? && j.fields.Keys == m.Keys && forall k :: k in m ==> Holds(false, s, j.fields[k], to(m[k]))
  {
    var v := DictTo(m, to);
    DictValue(s, m, to);
    if Holds(false, TDict(s), j, v) {
      assert Read(TDict(s), j).value.entries.Keys == j.fields.Keys;
      forall k | k in m ensures Holds(false, s, j.fields[k], to(m[k])) {
        assert Read(TDict(s), j).value.entries[k] == v.entries[k];
      }
    }
  }

  lemma EntriesRead(s: Shape, j: Json, entries: map<string, Val>)
    requires WellFormed(s) && j.Obj? && j.fields.Keys == entries.Keys
    requires forall k :: k in j.fields ==> Read(s, j.fields[k]) == Some(entries[k])
    ensures Read(TDict(s), j) == Some(VDict(entries))
  {
    assert Read(TDict(s), j).value.entries == entries;
  }

  lemma DictIsRead<T(!new)>(s: Shape, j: Json, m: map<string, T>, to: T -> Val)
    requires WellFormed(s) && forall x: T :: HasShape(s, to(x))
    requires j.Obj? && j.fields.Keys == m.Keys && forall k :: k in m ==> Holds(false, s, j.fields[k], to(m[k]))
    ensures Holds(false, TDict(s), j, DictTo(m, to))
  {
    var v := DictTo(m, to);
    DictValue(s, m, to);
    forall k | k in j.fields ensures Read(s, j.fields[k]) == Some(v.entries[k]) {
      assert Holds(false, s, j.fields[k], to(m[k]));
    }
    EntriesRead(s, j, v.entries);
  }

  lemma DictPlaced<T(!new)>(written: bool, s: Shape, o: Option<Json>, m: map<string, T>, to: T -> Val, item: (bool, Json, T) -> bool)
    requires ItemsAgree(written, s, to, item)
    ensures Placed(written, TDict(s), o, DictTo(m, to)) ==> DictAt(written, o, m, item)
    ensures !written && DictAt(written, o, m, item) ==> Placed(written, TDict(s), o, DictTo(m, to))
  {
    DictValue(s, m, to);
    if o.Some? {
      DictWrote(s, o.value, m, to);
      DictReads(s, o.value, m, to);
      if !written && DictAt(written, o, m, item) { DictIsRead(s, o.value, m, to); }
    }
  }

  lemma TextsPlaced(written: bool, o: Option<Json>, xs: seq<string>)
    ensures Placed(written, STRINGS, o, Strings(xs)) ==> TextsAt(written, o, xs)
    ensures !written && TextsAt(written, o, xs) ==> Placed(written, STRINGS, o, Strings(xs))
  {
    ListPlaced(written, TStr, o, xs, (x: string) => VStr(x), TextIn);
    assert Strings(xs) == ListTo(xs, (x: string) => VStr(x));
  }

  lemma PairsPlaced(written: bool, o: Option<Json>, m: map<string, string>)
    ensures Placed(written, PAIRS, o, Pairs(m)) ==> PairsAt(written, o, m)
    ensures !written && PairsAt(written, o, m) ==> Placed(written, PAIRS, o, Pairs(m))
  {
    DictPlaced(written, TStr, o, m, (x: string) => VStr(x), TextIn);
    assert Pairs(m) == DictTo(m, (x: string) => VStr(x));
  }

  lemma RequiredPlaced(written: bool, name: string, o: Option<Json>, s: string)
    ensures FieldPlaced(written, Field(name, TStr, Required), o, VStr(s)) <==> RequiredText(o, s)
  {
    if o.Some? { TextHolds(written, o.value, s); }
  }

  // ------------------------------------------------------------------ references

  lemma ContextRefReady(x: ContextRef)
    ensures WellFormed(CONTEXT_REF) && HasShape(CONTEXT_REF, ContextRefTo(x))
  {
    RefShapes();
    ContextRefCodec();
    assert Fits(CONTEXT_REF, ContextRefTo, ContextRefFrom, x);
  }

  lemma ContextRefItem(written: bool, j: Json, x: ContextRef)
    ensures Holds(written, CONTEXT_REF, j, ContextRefTo(x)) ==> ContextRefIn(written, j, x)
    ensures !written && ContextRefIn(written, j, x) ==> Holds(written, CONTEXT_REF, j, ContextRefTo(x))
  {
    var o := Some(j);
    ContextRefReady(x);
    RecordHolds(written, CONTEXT_REF, j, ContextRefTo(x));
    ThreePlaced(written, CONTEXT_REF.fields, o, ContextRefTo(x).vals, 0);
    RequiredPlaced(written, "name", Child(o, "name"), x.name);
    RequiredPlaced(written, "content_ref", Child(o, "content_ref"), x.contentRef);
    TextPlaced(written, Child(o, "media_type"), x.mediaType);
  }

  lemma ContextRefItems(written: bool)
    ensures ItemsAgree(written, CONTEXT_REF, ContextRefTo, ContextRefIn)
  {
    RefShapes();
    forall x: ContextRef ensures HasShape(CONTEXT_REF, ContextRefTo(x)) {
      ContextRefReady(x);
    }
    forall j, x: ContextRef
      ensures Holds(written, CONTEXT_REF, j, ContextRefTo(x)) ==> ContextRefIn(written, j, x)
      ensures !written && ContextRefIn(written, j, x) ==> Holds(written, CONTEXT_REF, j, ContextRefTo(x))
    {
      ContextRefItem(written, j, x);
    }
  }

  lemma ToolRefReady(x: ToolRef)
    ensures WellFormed(TOOL_REF) && HasShape(TOOL_REF, ToolRefTo(x))
  {
    RefShapes();
    ToolRefCodec();
    assert Fits(TOOL_REF, ToolRefTo, ToolRefFrom, x);
  }

  lemma ToolRefItem(written: bool, j: Json, x: ToolRef)
    ensures Holds(written, TOOL_REF, j, ToolRefTo(x)) ==> ToolRefIn(written, j, x)
    ensures !written && ToolRefIn(written, j, x) ==> Holds(written, TOOL_REF, j, ToolRefTo(x))
  {
    var o := Some(j);
    ToolRefReady(x);
    RecordHolds(written, TOOL_REF, j, ToolRefTo(x));
    TwoPlaced(written, TOOL_REF.fields, o, ToolRefTo(x).vals, 0);
    RequiredPlaced(written, "tool_id", Child(o, "tool_id"), x.toolId);
    RequiredPlaced(written, "tool_version", Child(o, "tool_version"), x.toolVersion);
  }

  lemma ToolRefItems(written: bool)
    ensures ItemsAgree(written, TOOL_REF, ToolRefTo, ToolRefIn)
  {
    RefShapes();
    forall x: ToolRef ensures HasShape(TOOL_REF, ToolRefTo(x)) {
      ToolRefReady(x);
    }
    forall j, x: ToolRef
      ensures Holds(written, TOOL_REF, j, ToolRefTo(x)) ==> ToolRefIn(written, j, x)
      ensures !written && ToolRefIn(written, j, x) ==> Holds(written, TOOL_REF, j, ToolRefTo(x))
    {
      ToolRefItem(written, j, x);
    }
  }

  lemma ConnectionRefReady(x: ConnectionRef)
    ensures WellFormed(CONNECTION_REF) && HasShape(CONNECTION_REF, ConnectionRefTo(x))
  {
    RefShapes();
    ConnectionRefCodec();
    assert Fits(CONNECTION_REF, ConnectionRefTo, ConnectionRefFrom, x);
  }

  lemma ConnectionRefItem(written: bool, j: Json, x: ConnectionRef)
    ensures Holds(written, CONNECTION_REF, j, ConnectionRefTo(x)) ==> ConnectionRefIn(written, j, x)
    ensures !written && ConnectionRefIn(written, j, x) ==> Holds(written, CONNECTION_REF, j, ConnectionRefTo(x))
  {
    var o := Some(j);
    ConnectionRefReady(x);
    RecordHolds(written, CONNECTION_REF, j, ConnectionRefTo(x));
    TwoPlaced(written, CONNECTION_REF.fields, o, ConnectionRefTo(x).vals, 0);
    RequiredPlaced(written, "descriptor", Child(o, "descriptor"), x.descriptor);
    TextPlaced(written, Child(o, "credential_ref"), x.credentialRef);
  }

  lemma ConnectionRefItems(written: bool)
    ensures ItemsAgree(written, CONNECTION_REF, ConnectionRefTo, ConnectionRefIn)
  {
    RefShapes();
    forall x: ConnectionRef ensures HasShape(CONNECTION_REF, ConnectionRefTo(x)) {
      ConnectionRefReady(x);
    }
    forall j, x: ConnectionRef
      ensures Holds(written, CONNECTION_REF, j, ConnectionRefTo(x)) ==> ConnectionRefIn(written, j, x)
      ensures !written && ConnectionRefIn(written, j, x) ==> Holds(written, CONNECTION_REF, j, ConnectionRefTo(x))
    {
      ConnectionRefItem(written, j, x);
    }
  }

  lemma DatasetRefReady(x: DatasetRef)
    ensures WellFormed(DATASET_REF) && HasShape(DATASET_REF, DatasetRefTo(x))
  {
    MoreRefShapes();
    DatasetRefCodec();
    assert Fits(DATASET_REF, DatasetRefTo, DatasetRefFrom, x);
  }

  lemma DatasetRefItem(written: bool, j: Json, x: DatasetRef)
    ensures Holds(written, DATASET_REF, j, DatasetRefTo(x)) ==> DatasetRefIn(written, j, x)
    ensures !written && DatasetRefIn(written, j, x) ==> Holds(written, DATASET_REF, j, DatasetRefTo(x))
  {
    var o := Some(j);
    DatasetRefReady(x);
    RecordHolds(written, DATASET_REF, j, DatasetRefTo(x));
    TwoPlaced(written, DATASET_REF.fields, o, DatasetRefTo(x).vals, 0);
    RequiredPlaced(written, "dataset_ref", Child(o, "dataset_ref"), x.datasetRef);
    TextsPlaced(written, Child(o, "cas_refs"), x.casRefs);
  }

  lemma DatasetRefItems(written: bool)
    ensures ItemsAgree(written, DATASET_REF, DatasetRefTo, DatasetRefIn)
  {
    MoreRefShapes();
    forall x: DatasetRef ensures HasShape(DATASET_REF, DatasetRefTo(x)) {
      DatasetRefReady(x);
    }
    forall j, x: DatasetRef
      ensures Holds(written, DATASET_REF, j, DatasetRefTo(x)) ==> DatasetRefIn(written, j, x)
      ensures !written && DatasetRefIn(written, j, x) ==> Holds(written, DATASET_REF, j, DatasetRefTo(x))
    {
      DatasetRefItem(written, j, x);
    }
  }

  lemma ArtifactRefReady(x: ArtifactRef)
    ensures WellFormed(ARTIFACT_REF) && HasShape(ARTIFACT_REF, ArtifactRefTo(x))
  {
    MoreRefShapes();
    ArtifactRefCodec();
    assert Fits(ARTIFACT_REF, ArtifactRefTo, ArtifactRefFrom, x);
  }

  lemma ArtifactRefItem(written: bool, j: Json, x: ArtifactRef)
    ensures Holds(written, ARTIFACT_REF, j, ArtifactRefTo(x)) ==> ArtifactRefIn(written, j, x)
    ensures !written && ArtifactRefIn(written, j, x) ==> Holds(written, ARTIFACT_REF, j, ArtifactRefTo(x))
  {
    var o := Some(j);
    ArtifactRefReady(x);
    RecordHolds(written, ARTIFACT_REF, j, ArtifactRefTo(x));
    TwoPlaced(written, ARTIFACT_REF.fields, o, ArtifactRefTo(x).vals, 0);
    RequiredPlaced(written, "name", Child(o, "name"), x.name);
    RequiredPlaced(written, "content_ref", Child(o, "content_ref"), x.contentRef);
  }

  lemma ArtifactRefItems(written: bool)
    ensures ItemsAgree(written, ARTIFACT_REF, ArtifactRefTo, ArtifactRefIn)
  {
    MoreRefShapes();
    forall x: ArtifactRef ensures HasShape(ARTIFACT_REF, ArtifactRefTo(x)) {
      ArtifactRefReady(x);
    }
    forall j, x: ArtifactRef
      ensures Holds(written, ARTIFACT_REF, j, ArtifactRefTo(x)) ==> ArtifactRefIn(written, j, x)
      ensures !written && ArtifactRefIn(written, j, x) ==> Holds(written, ARTIFACT_REF, j, ArtifactRefTo(x))
    {
      ArtifactRefItem(written, j, x);
    }
  }

  lemma SkillRefReady(x: SkillRef)
    ensures WellFormed(SKILL_REF) && HasShape(SKILL_REF, SkillRefTo(x))
  {
    MoreRefShapes();
    SkillRefCodec();
    assert Fits(SKILL_REF, SkillRefTo, SkillRefFrom, x);
  }

  lemma SkillRefItem(written: bool, j: Json, x: SkillRef)
    ensures Holds(written, SKILL_REF, j, SkillRefTo(x)) ==> SkillRefIn(written, j, x)
    ensures !written && SkillRefIn(written, j, x) ==> Holds(written, SKILL_REF, j, SkillRefTo(x))
  {
    var o := Some(j);
    SkillRefReady(x);
    RecordHolds(written, SKILL_REF, j, SkillRefTo(x));
    ThreePlaced(written, SKILL_REF.fields, o, SkillRefTo(x).vals, 0);
    RequiredPlaced(written, "name", Child(o, "name"), x.name);
    RequiredPlaced(written, "instructions_ref", Child(o, "instructions_ref"), x.instructionsRef);
    PairsPlaced(written, Child(o, "tools"), x.tools);
  }

  lemma SkillRefItems(written: bool)
    ensures ItemsAgree(written, SKILL_REF, SkillRefTo, SkillRefIn)
  {
    MoreRefShapes();
    forall x: SkillRef ensures HasShape(SKILL_REF, SkillRefTo(x)) {
      SkillRefReady(x);
    }
    forall j, x: SkillRef
      ensures Holds(written, SKILL_REF, j, SkillRefTo(x)) ==> SkillRefIn(written, j, x)
      ensures !written && SkillRefIn(written, j, x) ==> Holds(written, SKILL_REF, j, SkillRefTo(x))
    {
      SkillRefItem(written, j, x);
    }
  }

  lemma AppRefReady(x: AppRef)
    ensures WellFormed(APP_REF) && HasShape(APP_REF, AppRefTo(x))
  {
    MoreRefShapes();
    AppRefCodec();
    assert Fits(APP_REF, AppRefTo, AppRefFrom, x);
  }

  lemma AppRefItem(written: bool, j: Json, x: AppRef)
    ensures Holds(written, APP_REF, j, AppRefTo(x)) ==> AppRefIn(written, j, x)
    ensures !written && AppRefIn(written, j, x) ==> Holds(written, APP_REF, j, AppRefTo(x))
  {
    var o := Some(j);
    AppRefReady(x);
    RecordHolds(written, APP_REF, j, AppRefTo(x));
    OnePlaced(written, APP_REF.fields, o, AppRefTo(x).vals, 0);
    RequiredPlaced(written, "handle", Child(o, "handle"), x.handle);
  }

  lemma AppRefItems(written: bool)
    ensures ItemsAgree(written, APP_REF, AppRefTo, AppRefIn)
  {
    MoreRefShapes();
    forall x: AppRef ensures HasShape(APP_REF, AppRefTo(x)) {
      AppRefReady(x);
    }
    forall j, x: AppRef
      ensures Holds(written, APP_REF, j, AppRefTo(x)) ==> AppRefIn(written, j, x)
      ensures !written && AppRefIn(written, j, x) ==> Holds(written, APP_REF, j, AppRefTo(x))
    {
      AppRefItem(written, j, x);
    }
  }

  /** Rail `i` at its key. */
  predicate RailAt(written: bool, o: Option<Json>, x: References, i: nat) {
    if i == 0 then ListAt(written, Child(o, "context"), x.context, ContextRefIn)
    else if i == 1 then ListAt(written, Child(o, "tools"), x.tools, ToolRefIn)
    else if i == 2 then ListAt(written, Child(o, "connections"), x.connections, ConnectionRefIn)
    else if i == 3 then ListAt(written, Child(o, "datasets"), x.datasets, DatasetRefIn)
    else if i == 4 then ListAt(written, Child(o, "prompts"), x.prompts, ArtifactRefIn)
    else if i == 5 then ListAt(written, Child(o, "rules"), x.rules, ArtifactRefIn)
    else if i == 6 then ListAt(written, Child(o, "skills"), x.skills, SkillRefIn)
    else if i == 7 then ListAt(written, Child(o, "memory"), x.memory, ArtifactRefIn)
    else ListAt(written, Child(o, "apps"), x.apps, AppRefIn)
  }

  ghost predicate RailAgrees(written: bool, o: Option<Json>, x: References, i: nat)
    requires i < |REFERENCES.fields| == |ReferencesTo(x).vals|
  {
    var placed := FieldPlaced(written, REFERENCES.fields[i], Child(o, REFERENCES.fields[i].name), ReferencesTo(x).vals[i]);
    (placed ==> RailAt(written, o, x, i)) && (!written && RailAt(written, o, x, i) ==> placed)
  }

  lemma ContextRail(written: bool, o: Option<Json>, x: References)
    ensures RailAgrees(written, o, x, 0)
  {
    ContextRefItems(written);
    ListPlaced(written, CONTEXT_REF, Child(o, "context"), x.context, ContextRefTo, ContextRefIn);
    assert REFERENCES.fields[0] == Field("context", TList(CONTEXT_REF), OmitEmpty);
  }

  lemma ToolsRail(written: bool, o: Option<Json>, x: References)
    ensures RailAgrees(written, o, x, 1)
  {
    ToolRefItems(written);
    ListPlaced(written, TOOL_REF, Child(o, "tools"), x.tools, ToolRefTo, ToolRefIn);
    assert REFERENCES.fields[1] == Field("tools", TList(TOOL_REF), OmitEmpty);
  }

  lemma ConnectionsRail(written: bool, o: Option<Json>, x: References)
    ensures RailAgrees(written, o, x, 2)
  {
    ConnectionRefItems(written);
    ListPlaced(written, CONNECTION_REF, Child(o, "connections"), x.connections, ConnectionRefTo, ConnectionRefIn);
    assert REFERENCES.fields[2] == Field("connections", TList(CONNECTION_REF), OmitEmpty);
  }

  lemma DatasetsRail(written: bool, o: Option<Json>, x: References)
    ensures RailAgrees(written, o, x, 3)
  {
    DatasetRefItems(written);
    ListPlaced(written, DATASET_REF, Child(o, "datasets"), x.datasets, DatasetRefTo, DatasetRefIn);
    assert REFERENCES.fields[3] == Field("datasets", TList(DATASET_REF), OmitEmpty);
  }

  lemma PromptsRail(written: bool, o: Option<Json>, x: References)
    ensures RailAgrees(written, o, x, 4)
  {
    ArtifactRefItems(written);
    ListPlaced(written, ARTIFACT_REF, Child(o, "prompts"), x.prompts, ArtifactRefTo, ArtifactRefIn);
    assert REFERENCES.fields[4] == Field("prompts", TList(ARTIFACT_REF), OmitEmpty);
  }

  lemma RulesRail(written: bool, o: Option<Json>, x: References)
    ensures RailAgrees(written, o, x, 5)
  {
    ArtifactRefItems(written);
    ListPlaced(written, ARTIFACT_REF, Child(o, "rules"), x.rules, ArtifactRefTo, ArtifactRefIn);
    assert REFERENCES.fields[5] == Field("rules", TList(ARTIFACT_REF), OmitEmpty);
  }

  lemma SkillsRail(written: bool, o: Option<Json>, x: References)
    ensures RailAgrees(written, o, x, 6)
  {
    SkillRefItems(written);
    ListPlaced(written, SKILL_REF, Child(o, "skills"), x.skills, SkillRefTo, SkillRefIn);
    assert REFERENCES.fields[6] == Field("skills", TList(SKILL_REF), OmitEmpty);
  }

  lemma MemoryRail(written: bool, o: Option<Json>, x: References)
    ensures RailAgrees(written, o, x, 7)
  {
    ArtifactRefItems(written);
    ListPlaced(written, ARTIFACT_REF, Child(o, "memory"), x.memory, ArtifactRefTo, ArtifactRefIn);
    assert REFERENCES.fields[7] == Field("memory", TList(ARTIFACT_REF), OmitEmpty);
  }

  lemma AppsRail(written: bool, o: Option<Json>, x: References)
    ensures RailAgrees(written, o, x, 8)
  {
    AppRefItems(written);
    ListPlaced(written, APP_REF, Child(o, "apps"), x.apps, AppRefTo, AppRefIn);
    assert REFERENCES.fields[8] == Field("apps", TList(APP_REF), OmitEmpty);
  }

  lemma RailsAgree(written: bool, o: Option<Json>, x: References, i: nat)
    requires i < |REFERENCES.fields|
    ensures |REFERENCES.fields| == 9 && |ReferencesTo(x).vals| == 9 && RailAgrees(written, o, x, i)
  {
    match i
    case 0 => ContextRail(written, o, x);
    case 1 => ToolsRail(written, o, x);
    case 2 => ConnectionsRail(written, o, x);
    case 3 => DatasetsRail(written, o, x);
    case 4 => PromptsRail(written, o, x);
    case 5 => RulesRail(written, o, x);
    case 6 => SkillsRail(written, o, x);
    case 7 => MemoryRail(written, o, x);
    case _ => AppsRail(written, o, x);
  }

  lemma RailCount(x: References)
    ensures |REFERENCES.fields| == 9 && |ReferencesTo(x).vals| == 9
  {
  }

  lemma RailsPlaced(written: bool, o: Option<Json>, x: References)
    ensures |REFERENCES.fields| == 9 && |ReferencesTo(x).vals| == 9
    ensures var placed := RangePlaced(written, REFERENCES.fields, o, ReferencesTo(x).vals, 0, 9);
      var at := forall i :: 0 <= i < 9 ==> RailAt(written, o, x, i);
      (placed ==> at) && (!written && at ==> placed)
  {
    RailCount(x);
    var fs, vs := REFERENCES.fields, ReferencesTo(x).vals;
    if RangePlaced(written, fs, o, vs, 0, 9) {
      forall i | 0 <= i < 9 ensures RailAt(written, o, x, i) {
        assert FieldPlaced(written, fs[i], Child(o, fs[i].name), vs[i]);
        RailsAgree(written, o, x, i);
      }
    }
    if !written && forall i :: 0 <= i < 9 ==> RailAt(written, o, x, i) {
      forall i | 0 <= i < 9 ensures FieldPlaced(written, fs[i], Child(o, fs[i].name), vs[i]) {
        assert RailAt(written, o, x, i);
        RailsAgree(written, o, x, i);
      }
    }
  }

  lemma NineRails(written: bool, o: Option<Json>, x: References)
    ensures ReferencesAt(written, o, x) <==> ObjectAt(written, o, x.IsEmpty()) && forall i :: 0 <= i < 9 ==> RailAt(written, o, x, i)
  {
    assert RailAt(written, o, x, 0) <==> ListAt(written, Child(o, "context"), x.context, ContextRefIn);
    assert RailAt(written, o, x, 1) <==> ListAt(written, Child(o, "tools"), x.tools, ToolRefIn);
    assert RailAt(written, o, x, 2) <==> ListAt(written, Child(o, "connections"), x.connections, ConnectionRefIn);
    assert RailAt(written, o, x, 3) <==> ListAt(written, Child(o, "datasets"), x.datasets, DatasetRefIn);
    assert RailAt(written, o, x, 4) <==> ListAt(written, Child(o, "prompts"), x.prompts, ArtifactRefIn);
    assert RailAt(written, o, x, 5) <==> ListAt(written, Child(o, "rules"), x.rules, ArtifactRefIn);
    assert RailAt(written, o, x, 6) <==> ListAt(written, Child(o, "skills"), x.skills, SkillRefIn);
    assert RailAt(written, o, x, 7) <==> ListAt(written, Child(o, "memory"), x.memory, ArtifactRefIn);
    assert RailAt(written, o, x, 8) <==> ListAt(written, Child(o, "apps"), x.apps, AppRefIn);
  }

  lemma ReferencesPlaced(written: bool, o: Option<Json>, x: References)
    ensures Placed(written, REFERENCES, o, ReferencesTo(x)) ==> ReferencesAt(written, o, x)
    ensures !written && ReferencesAt(written, o, x) ==> Placed(written, REFERENCES, o, ReferencesTo(x))
  {
    ReferencesShape();
    ReferencesFits(x);
    ReferencesEmpty(x);
    RecordPlaced(written, REFERENCES, o, ReferencesTo(x), x.IsEmpty());
    RailsPlaced(written, o, x);
    NineRails(written, o, x);
  }

  // ------------------------------------------------------------------ steering and replay

  lemma ModelPlaced(written: bool, o: Option<Json>, x: ModelSteering)
    ensures Placed(written, MODEL_STEERING, o, ModelTo(x)) ==> ModelAt(written, o, x)
    ensures !written && ModelAt(written, o, x) ==> Placed(written, MODEL_STEERING, o, ModelTo(x))
  {
    ModelShape();
    ModelFits(x);
    ModelEmpty(x);
    RecordPlaced(written, MODEL_STEERING, o, ModelTo(x), x.IsEmpty());
    TwoPlaced(written, MODEL_STEERING.fields, o, ModelTo(x).vals, 0);
    TextPlaced(written, Child(o, "model_route"), x.modelRoute);
    PairsPlaced(written, Child(o, "free_params"), x.freeParams);
  }

  lemma ReachPlaced(written: bool, o: Option<Json>, r: Reach)
    ensures Placed(written, REACH, o, ReachTo(r)) <==> ReachAt(written, o, r)
  {
    ReachFits(r);
  }

  predicate ToolsFieldAt(written: bool, o: Option<Json>, x: ToolsSteering, i: nat) {
    if i == 0 then PairsAt(written, Child(o, "requested_grants"), x.requestedGrants)
    else if i == 1 then TextsAt(written, Child(o, "net_scope"), x.netScope)
    else if i == 2 then TextsAt(written, Child(o, "fs_scope"), x.fsScope)
    else ReachAt(written, Child(o, "reach"), x.reach)
  }

  ghost predicate ToolsAgrees(written: bool, o: Option<Json>, x: ToolsSteering, i: nat)
    requires i < |TOOLS_STEERING.fields| == |ToolsTo(x).vals|
  {
    var placed := FieldPlaced(written, TOOLS_STEERING.fields[i], Child(o, TOOLS_STEERING.fields[i].name), ToolsTo(x).vals[i]);
    (placed ==> ToolsFieldAt(written, o, x, i)) && (!written && ToolsFieldAt(written, o, x, i) ==> placed)
  }

  lemma ToolsTable(written: bool, o: Option<Json>, x: ToolsSteering, i: nat)
    requires i < 4
    ensures |TOOLS_STEERING.fields| == 4 && |ToolsTo(x).vals| == 4 && ToolsAgrees(written, o, x, i)
  {
    match i
    case 0 => PairsPlaced(written, Child(o, "requested_grants"), x.requestedGrants);
    case 1 => TextsPlaced(written, Child(o, "net_scope"), x.netScope);
    case 2 => TextsPlaced(written, Child(o, "fs_scope"), x.fsScope);
    case _ => ReachPlaced(written, Child(o, "reach"), x.reach);
  }

  lemma ToolsFieldsPlaced(written: bool, o: Option<Json>, x: ToolsSteering)
    ensures |TOOLS_STEERING.fields| == 4 && |ToolsTo(x).vals| == 4
    ensures var placed := RangePlaced(written, TOOLS_STEERING.fields, o, ToolsTo(x).vals, 0, 4);
      var at := forall i :: 0 <= i < 4 ==> ToolsFieldAt(written, o, x, i);
      (placed ==> at) && (!written && at ==> placed)
  {
    ToolsTable(written, o, x, 0);
    var fs, vs := TOOLS_STEERING.fields, ToolsTo(x).vals;
    if RangePlaced(written, fs, o, vs, 0, 4) {
      forall i | 0 <= i < 4 ensures ToolsFieldAt(written, o, x, i) {
        assert FieldPlaced(written, fs[i], Child(o, fs[i].name), vs[i]);
        ToolsTable(written, o, x, i);
      }
    }
    if !written && forall i :: 0 <= i < 4 ==> ToolsFieldAt(written, o, x, i) {
      forall i | 0 <= i < 4 ensures FieldPlaced(written, fs[i], Child(o, fs[i].name), vs[i]) {
        assert ToolsFieldAt(written, o, x, i);
        ToolsTable(written, o, x, i);
      }
    }
  }

  lemma ToolsAtFields(written: bool, o: Option<Json>, x: ToolsSteering)
    ensures ToolsAt(written, o, x) <==> ObjectAt(written, o, x.IsEmpty()) && forall i :: 0 <= i < 4 ==> ToolsFieldAt(written, o, x, i)
  {
    assert ToolsFieldAt(written, o, x, 0) <==> PairsAt(written, Child(o, "requested_grants"), x.requestedGrants);
    assert ToolsFieldAt(written, o, x, 1) <==> TextsAt(written, Child(o, "net_scope"), x.netScope);
    assert ToolsFieldAt(written, o, x, 2) <==> TextsAt(written, Child(o, "fs_scope"), x.fsScope);
    assert ToolsFieldAt(written, o, x, 3) <==> ReachAt(written, Child(o, "reach"), x.reach);
  }

  lemma ToolsPlaced(written: bool, o: Option<Json>, x: ToolsSteering)
    ensures Placed(written, TOOLS_STEERING, o, ToolsTo(x)) ==> ToolsAt(written, o, x)
    ensures !written && ToolsAt(written, o, x) ==> Placed(written, TOOLS_STEERING, o, ToolsTo(x))
  {
    ToolsShape();
    ToolsFits(x);
    ToolsEmpty(x);
    RecordPlaced(written, TOOLS_STEERING, o, ToolsTo(x), x.IsEmpty());
    ToolsFieldsPlaced(written, o, x);
    ToolsAtFields(written, o, x);
  }

  lemma ContextPlaced(written: bool, o: Option<Json>, x: ContextSteering)
    ensures Placed(written, CONTEXT_STEERING, o, ContextTo(x)) ==> ContextAt(written, o, x)
    ensures !written && ContextAt(written, o, x) ==> Placed(written, CONTEXT_STEERING, o, ContextTo(x))
  {
    ContextShape();
    ContextFits(x);
    ContextEmpty(x);
    RecordPlaced(written, CONTEXT_STEERING, o, ContextTo(x), x.IsEmpty());
    ThreePlaced(written, CONTEXT_STEERING.fields, o, ContextTo(x).vals, 0);
    TextsPlaced(written, Child(o, "context_refs"), x.contextRefs);
    TextsPlaced(written, Child(o, "bundle_handles"), x.bundleHandles);
    TextsPlaced(written, Child(o, "dataset_refs"), x.datasetRefs);
  }

  predicate GuardsFieldAt(written: bool, o: Option<Json>, x: Guards, i: nat) {
    if i == 0 then CountAt(written, Child(o, "max_turns"), x.maxTurns)
    else if i == 1 then CountAt(written, Child(o, "max_tool_calls"), x.maxToolCalls)
    else if i == 2 then FlagAt(written, Child(o, "tls_required"), x.tlsRequired)
    else if i == 3 then TextsAt(written, Child(o, "secret_scope"), x.secretScope)
    else CountAt(written, Child(o, "cost_ceiling"), x.costCeiling)
  }

  ghost predicate GuardsAgrees(written: bool, o: Option<Json>, x: Guards, i: nat)
    requires i < |GUARDS.fields| == |GuardsTo(x).vals|
  {
    var placed := FieldPlaced(written, GUARDS.fields[i], Child(o, GUARDS.fields[i].name), GuardsTo(x).vals[i]);
    (placed ==> GuardsFieldAt(written, o, x, i)) && (!written && GuardsFieldAt(written, o, x, i) ==> placed)
  }

  lemma GuardsTable(written: bool, o: Option<Json>, x: Guards, i: nat)
    requires i < 5
    ensures |GUARDS.fields| == 5 && |GuardsTo(x).vals| == 5 && GuardsAgrees(written, o, x, i)
  {
    match i
    case 0 => CountPlaced(written, MAX_U32, Child(o, "max_turns"), x.maxTurns);
    case 1 => CountPlaced(written, MAX_U32, Child(o, "max_tool_calls"), x.maxToolCalls);
    case 2 => FlagPlaced(written, Child(o, "tls_required"), x.tlsRequired);
    case 3 => TextsPlaced(written, Child(o, "secret_scope"), x.secretScope);
    case _ => CountPlaced(written, MAX_U64, Child(o, "cost_ceiling"), x.costCeiling);
  }

  lemma GuardsFieldsPlaced(written: bool, o: Option<Json>, x: Guards)
    ensures |GUARDS.fields| == 5 && |GuardsTo(x).vals| == 5
    ensures var placed := RangePlaced(written, GUARDS.fields, o, GuardsTo(x).vals, 0, 5);
      var at := forall i :: 0 <= i < 5 ==> GuardsFieldAt(written, o, x, i);
      (placed ==> at) && (!written && at ==> placed)
  {
    GuardsTable(written, o, x, 0);
    var fs, vs := GUARDS.fields, GuardsTo(x).vals;
    if RangePlaced(written, fs, o, vs, 0, 5) {
      forall i | 0 <= i < 5 ensures GuardsFieldAt(written, o, x, i) {
        assert FieldPlaced(written, fs[i], Child(o, fs[i].name), vs[i]);
        GuardsTable(written, o, x, i);
      }
    }
    if !written && forall i :: 0 <= i < 5 ==> GuardsFieldAt(written, o, x, i) {
      forall i | 0 <= i < 5 ensures FieldPlaced(written, fs[i], Child(o, fs[i].name), vs[i]) {
        assert GuardsFieldAt(written, o, x, i);
        GuardsTable(written, o, x, i);
      }
    }
  }

  lemma GuardsAtFields(written: bool, o: Option<Json>, x: Guards)
    ensures GuardsAt(written, o, x) <==> ObjectAt(written, o, x.IsEmpty()) && forall i :: 0 <= i < 5 ==> GuardsFieldAt(written, o, x, i)
  {
    assert GuardsFieldAt(written, o, x, 0) <==> CountAt(written, Child(o, "max_turns"), x.maxTurns);
    assert GuardsFieldAt(written, o, x, 1) <==> CountAt(written, Child(o, "max_tool_calls"), x.maxToolCalls);
    assert GuardsFieldAt(written, o, x, 2) <==> FlagAt(written, Child(o, "tls_required"), x.tlsRequired);
    assert GuardsFieldAt(written, o, x, 3) <==> TextsAt(written, Child(o, "secret_scope"), x.secretScope);
    assert GuardsFieldAt(written, o, x, 4) <==> CountAt(written, Child(o, "cost_ceiling"), x.costCeiling);
  }

  lemma GuardsPlaced(written: bool, o: Option<Json>, x: Guards)
    ensures Placed(written, GUARDS, o, GuardsTo(x)) ==> GuardsAt(written, o, x)
    ensures !written && GuardsAt(written, o, x) ==> Placed(written, GUARDS, o, GuardsTo(x))
  {
    GuardsShape();
    GuardsFits(x);
    GuardsEmpty(x);
    RecordPlaced(written, GUARDS, o, GuardsTo(x), x.IsEmpty());
    GuardsFieldsPlaced(written, o, x);
    GuardsAtFields(written, o, x);
  }

  predicate SteeringFieldAt(written: bool, o: Option<Json>, x: SteeringConfig, i: nat) {
    if i == 0 then ModelAt(written, Child(o, "model"), x.model)
    else if i == 1 then ToolsAt(written, Child(o, "tools"), x.tools)
    else if i == 2 then ContextAt(written, Child(o, "context"), x.context)
    else GuardsAt(written, Child(o, "guards"), x.guards)
  }

  ghost predicate SteeringAgrees(written: bool, o: Option<Json>, x: SteeringConfig, i: nat)
    requires i < |STEERING.fields| == |SteeringTo(x).vals|
  {
    var placed := FieldPlaced(written, STEERING.fields[i], Child(o, STEERING.fields[i].name), SteeringTo(x).vals[i]);
    (placed ==> SteeringFieldAt(written, o, x, i)) && (!written && SteeringFieldAt(written, o, x, i) ==> placed)
  }

  lemma SteeringTable(written: bool, o: Option<Json>, x: SteeringConfig, i: nat)
    requires i < 4
    ensures |STEERING.fields| == 4 && |SteeringTo(x).vals| == 4 && SteeringAgrees(written, o, x, i)
  {
    match i
    case 0 => ModelPlaced(written, Child(o, "model"), x.model);
    case 1 => ToolsPlaced(written, Child(o, "tools"), x.tools);
    case 2 => ContextPlaced(written, Child(o, "context"), x.context);
    case _ => GuardsPlaced(written, Child(o, "guards"), x.guards);
  }

  lemma SteeringFieldsPlaced(written: bool, o: Option<Json>, x: SteeringConfig)
    ensures |STEERING.fields| == 4 && |SteeringTo(x).vals| == 4
    ensures var placed := RangePlaced(written, STEERING.fields, o, SteeringTo(x).vals, 0, 4);
      var at := forall i :: 0 <= i < 4 ==> SteeringFieldAt(written, o, x, i);
      (placed ==> at) && (!written && at ==> placed)
  {
    SteeringTable(written, o, x, 0);
    var fs, vs := STEERING.fields, SteeringTo(x).vals;
    if RangePlaced(written, fs, o, vs, 0, 4) {
      forall i | 0 <= i < 4 ensures SteeringFieldAt(written, o, x, i) {
        assert FieldPlaced(written, fs[i], Child(o, fs[i].name), vs[i]);
        SteeringTable(written, o, x, i);
      }
    }
    if !written && forall i :: 0 <= i < 4 ==> SteeringFieldAt(written, o, x, i) {
      forall i | 0 <= i < 4 ensures FieldPlaced(written, fs[i], Child(o, fs[i].name), vs[i]) {
        assert SteeringFieldAt(written, o, x, i);
        SteeringTable(written, o, x, i);
      }
    }
  }

  lemma SteeringAtFields(written: bool, o: Option<Json>, x: SteeringConfig)
    ensures SteeringAt(written, o, x) <==> ObjectAt(written, o, x.IsEmpty()) && forall i :: 0 <= i < 4 ==> SteeringFieldAt(written, o, x, i)
  {
    assert SteeringFieldAt(written, o, x, 0) <==> ModelAt(written, Child(o, "model"), x.model);
    assert SteeringFieldAt(written, o, x, 1) <==> ToolsAt(written, Child(o, "tools"), x.tools);
    assert SteeringFieldAt(written, o, x, 2) <==> ContextAt(written, Child(o, "context"), x.context);
    assert SteeringFieldAt(written, o, x, 3) <==> GuardsAt(written, Child(o, "guards"), x.guards);
  }

  lemma SteeringPlaced(written: bool, o: Option<Json>, x: SteeringConfig)
    ensures Placed(written, STEERING, o, SteeringTo(x)) ==> SteeringAt(written, o, x)
    ensures !written && SteeringAt(written, o, x) ==> Placed(written, STEERING, o, SteeringTo(x))
  {
    SteeringShape();
    SteeringFits(x);
    SteeringEmpty(x);
    RecordPlaced(written, STEERING, o, SteeringTo(x), x.IsEmpty());
    SteeringFieldsPlaced(written, o, x);
    SteeringAtFields(written, o, x);
  }

  lemma ModeItems(written: bool)
    ensures ItemsAgree(written, TEnum(["frozen", "re_run"]), ModeTo, ModeIn)
  {
    assert "frozen" != "re_run";
  }

  lemma ReplayPlaced(written: bool, o: Option<Json>, x: Replay)
    ensures Placed(written, REPLAY, o, ReplayTo(x)) ==> ReplayAt(written, o, x)
    ensures !written && ReplayAt(written, o, x) ==> Placed(written, REPLAY, o, ReplayTo(x))
  {
    ReplayShape();
    ReplayFits(x);
    ReplayEmpty(x);
    RecordPlaced(written, REPLAY, o, ReplayTo(x), x.IsEmpty());
    OnePlaced(written, REPLAY.fields, o, ReplayTo(x).vals, 0);
    ModeItems(written);
    DictPlaced(written, TEnum(["frozen", "re_run"]), Child(o, "per_step"), x.perStep, ModeTo, ModeIn);
  }

  // ------------------------------------------------------------------ the envelopes

  lemma FrameworkPlaced(written: bool, o: Option<Json>, f: HostedFramework)
    ensures FieldPlaced(written, HOSTED.fields[0], o, FrameworkTo(f)) <==> FrameworkAt(written, o, f)
  {
    FrameworkFits(f);
    assert HOSTED.fields[0] == Field("framework", TEnum(["auto", "vite_react", "next_js", "svelte"]), Written(VEnum("auto")));
    assert FrameworkTo(f) == VEnum(FrameworkText(f));
    assert FrameworkText(f) == "auto" <==> f == Auto;
  }

  lemma HostedItem(written: bool, j: Json, h: HostedConfig)
    ensures Holds(written, HOSTED, j, HostedTo(h)) ==> HostedIn(written, j, h)
    ensures !written && HostedIn(written, j, h) ==> Holds(written, HOSTED, j, HostedTo(h))
  {
    var o := Some(j);
    HostedShape();
    HostedCodec(h);
    RecordHolds(written, HOSTED, j, HostedTo(h));
    FivePlaced(written, HOSTED.fields, o, HostedTo(h).vals, 0);
    FrameworkPlaced(written, Child(o, "framework"), h.framework);
    TextPlaced(written, Child(o, "install_cmd"), h.installCmd);
    TextPlaced(written, Child(o, "dev_cmd"), h.devCmd);
    TextPlaced(written, Child(o, "serve_mode"), h.serveMode);
    TextPlaced(written, Child(o, "build_cmd"), h.buildCmd);
  }

  lemma HostedPlaced(written: bool, o: Option<Json>, h: Option<HostedConfig>)
    ensures Placed(written, TOpt(HOSTED), o, OptTo(h, HostedTo)) ==> HostedAt(written, o, h)
    ensures !written && HostedAt(written, o, h) ==> Placed(written, TOpt(HOSTED), o, OptTo(h, HostedTo))
  {
    HostedShape();
    OptHostedFits(h);
    OptionPlaced(written, HOSTED, o, OptTo(h, HostedTo));
    if o.Some? && h.Some? { HostedItem(written, o.value, h.value); }
  }

  lemma VersionPlaced(written: bool, o: Option<Json>, version: string)
    ensures FieldPlaced(written, Field("version", TStr, Written(VStr("1"))), o, VStr(version)) <==> VersionAt(written, o, version)
  {
    if o.Some? { TextHolds(written, o.value, version); }
  }

  lemma NamesPlaced(written: bool, j: Json, vs: seq<Val>, schema: string, name: string, version: string, description: string)
    requires |vs| == 7 && vs[0] == VStr(schema) && vs[1] == VStr(name) && vs[2] == VStr(version) && vs[3] == VStr(description)
    ensures RangePlaced(written, HEAD, Some(j), vs, 0, 4) <==>
      && RequiredText(Child(Some(j), "schema"), schema) && RequiredText(Child(Some(j), "name"), name)
      && VersionAt(written, Child(Some(j), "version"), version) && TextAt(written, Child(Some(j), "description"), description)
  {
    var o := Some(j);
    FourPlaced(written, HEAD, o, vs, 0);
    RequiredPlaced(written, "schema", Child(o, "schema"), schema);
    RequiredPlaced(written, "name", Child(o, "name"), name);
    VersionPlaced(written, Child(o, "version"), version);
    TextPlaced(written, Child(o, "description"), description);
  }

  lemma NotesPlaced(written: bool, j: Json, vs: seq<Val>, delivers: string, tags: seq<string>, inputSchema: Option<Json>)
    requires |vs| == 7 && vs[4] == VStr(delivers) && vs[5] == Strings(tags) && vs[6] == OptTo(inputSchema, x => VAny(x))
    ensures var placed := RangePlaced(written, HEAD, Some(j), vs, 4, 7);
      var at := && TextAt(written, Child(Some(j), "delivers"), delivers) && TextsAt(written, Child(Some(j), "tags"), tags)
                && RawAt(written, Child(Some(j), "input_schema"), inputSchema);
      (placed ==> at) && (!written && at ==> placed)
  {
    var o := Some(j);
    ThreePlaced(written, HEAD, o, vs, 4);
    TextPlaced(written, Child(o, "delivers"), delivers);
    TextsPlaced(written, Child(o, "tags"), tags);
    RawPlaced(written, Child(o, "input_schema"), inputSchema);
  }

  lemma HeadPlaces(written: bool, j: Json, schema: string, name: string, version: string, description: string,
                   delivers: string, tags: seq<string>, inputSchema: Option<Json>)
    ensures var vs := HeadTo(schema, name, version, description, delivers, tags, inputSchema);
      && (PartPlaced(written, HEAD, Some(j), vs) ==> HeadIn(written, j, schema, name, version, description, delivers, tags, inputSchema))
      && (!written && HeadIn(written, j, schema, name, version, description, delivers, tags, inputSchema) ==> PartPlaced(written, HEAD, Some(j), vs))
  {
    var vs := HeadTo(schema, name, version, description, delivers, tags, inputSchema);
    RangeSplit(written, HEAD, Some(j), vs, 0, 4, 7);
    NamesPlaced(written, j, vs, schema, name, version, description);
    NotesPlaced(written, j, vs, delivers, tags, inputSchema);
  }

  lemma ReferencesField(written: bool, o: Option<Json>, x: References)
    ensures FieldPlaced(written, RAIL[0], o, ReferencesTo(x)) ==> ReferencesAt(written, o, x)
    ensures !written && ReferencesAt(written, o, x) ==> FieldPlaced(written, RAIL[0], o, ReferencesTo(x))
  {
    ReferencesPlaced(written, o, x);
  }

  lemma SteeringField(written: bool, o: Option<Json>, x: SteeringConfig)
    ensures FieldPlaced(written, RAIL[1], o, SteeringTo(x)) ==> SteeringAt(written, o, x)
    ensures !written && SteeringAt(written, o, x) ==> FieldPlaced(written, RAIL[1], o, SteeringTo(x))
  {
    SteeringPlaced(written, o, x);
  }

  lemma ReplayField(written: bool, o: Option<Json>, x: Replay)
    ensures FieldPlaced(written, RAIL[2], o, ReplayTo(x)) ==> ReplayAt(written, o, x)
    ensures !written && ReplayAt(written, o, x) ==> FieldPlaced(written, RAIL[2], o, ReplayTo(x))
  {
    ReplayPlaced(written, o, x);
  }

  lemma BranchField(written: bool, o: Option<Json>, s: string)
    ensures FieldPlaced(written, RAIL[3], o, VStr(s)) <==> TextAt(written, o, s)
  {
    TextPlaced(written, o, s);
  }

  lemma RailKeys()
    ensures |RAIL| == 4 && RAIL[0].name == "references" && RAIL[1].name == "steering_config" && RAIL[2].name == "replay" && RAIL[3].name == "branch_handle"
  {
  }

  lemma RailPlaces(written: bool, j: Json, references: References, steering: SteeringConfig, replay: Replay, branchHandle: string)
    ensures var vs := RailTo(references, steering, replay, branchHandle);
      && (PartPlaced(written, RAIL, Some(j), vs) ==> RailIn(written, j, references, steering, replay, branchHandle))
      && (!written && RailIn(written, j, references, steering, replay, branchHandle) ==> PartPlaced(written, RAIL, Some(j), vs))
  {
    var o, vs := Some(j), RailTo(references, steering, replay, branchHandle);
    RailKeys();
    FourPlaced(written, RAIL, o, vs, 0);
    ReferencesField(written, Child(o, "references"), references);
    SteeringField(written, Child(o, "steering_config"), steering);
    ReplayField(written, Child(o, "replay"), replay);
    BranchField(written, Child(o, "branch_handle"), branchHandle);
  }

  const LANE := [Field("blueprint", TOpt(TAny), OmitEmpty), Field("hosted", TOpt(HOSTED), OmitEmpty)]
  const MODE := Field("mode", TStr, OmitEmpty)
  const PLAN := Field("blueprint", TAny, Required)

  lemma LanePlaces(written: bool, j: Json, blueprint: Option<Json>, hosted: Option<HostedConfig>)
    ensures var vs := [OptTo(blueprint, x => VAny(x)), OptTo(hosted, HostedTo)];
      var placed := RawAt(written, Child(Some(j), "blueprint"), blueprint) && HostedAt(written, Child(Some(j), "hosted"), hosted);
      && (PartPlaced(written, LANE, Some(j), vs) ==> placed)
      && (!written && placed ==> PartPlaced(written, LANE, Some(j), vs))
  {
    RawPlaced(written, Child(Some(j), "blueprint"), blueprint);
    HostedPlaced(written, Child(Some(j), "hosted"), hosted);
    TwoPlaced(written, LANE, Some(j), [OptTo(blueprint, x => VAny(x)), OptTo(hosted, HostedTo)], 0);
  }

  /** The fields of an App envelope, part by part. */
  lemma AppParts(written: bool, j: Json, head: seq<Val>, lane: seq<Val>, rail: seq<Val>, mode: Val)
    requires |head| == 7 && |lane| == 2 && |rail| == 4
    ensures PartPlaced(written, APP.fields, Some(j), head + lane + rail + [mode]) <==>
      && PartPlaced(written, HEAD, Some(j), head) && PartPlaced(written, LANE, Some(j), lane)
      && PartPlaced(written, RAIL, Some(j), rail) && Placed(written, TStr, Child(Some(j), "mode"), mode)
  {
    var o := Some(j);
    assert APP.fields == HEAD + LANE + RAIL + [MODE];
    PartsPlaced(written, HEAD + LANE + RAIL, [MODE], o, head + lane + rail, [mode]);
    PartsPlaced(written, HEAD + LANE, RAIL, o, head + lane, rail);
    PartsPlaced(written, HEAD, LANE, o, head, lane);
    LastPlaced(written, MODE, o, mode);
  }

  lemma AppHolds(written: bool, j: Json, e: AppEnvelope)
    ensures Holds(written, APP, j, AppTo(e)) ==> AppIn(written, j, e)
    ensures !written && AppIn(written, j, e) ==> Holds(written, APP, j, AppTo(e))
  {
    AppShape();
    AppFits(e);
    RecordHolds(written, APP, j, AppTo(e));
    AppParts(written, j, HeadTo(e.schema, e.name, e.version, e.description, e.delivers, e.tags, e.inputSchema),
             [OptTo(e.blueprint, x => VAny(x)), OptTo(e.hosted, HostedTo)],
             RailTo(e.references, e.steering, e.replay, e.branchHandle), VStr(e.mode));
    HeadPlaces(written, j, e.schema, e.name, e.version, e.description, e.delivers, e.tags, e.inputSchema);
    LanePlaces(written, j, e.blueprint, e.hosted);
    RailPlaces(written, j, e.references, e.steering, e.replay, e.branchHandle);
    TextPlaced(written, Child(Some(j), "mode"), e.mode);
  }

  lemma PlanPlaced(written: bool, o: Option<Json>, b: Json)
    ensures FieldPlaced(written, PLAN, o, VAny(b)) <==> o == Some(b)
  {
  }

  lemma WorkflowParts(written: bool, j: Json, head: seq<Val>, plan: Val, rail: seq<Val>)
    requires |head| == 7 && |rail| == 4
    ensures PartPlaced(written, WORKFLOW.fields, Some(j), head + [plan] + rail) <==>
      && PartPlaced(written, HEAD, Some(j), head) && FieldPlaced(written, PLAN, Child(Some(j), "blueprint"), plan)
      && PartPlaced(written, RAIL, Some(j), rail)
  {
    var o := Some(j);
    assert WORKFLOW.fields == HEAD + [PLAN] + RAIL;
    PartsPlaced(written, HEAD + [PLAN], RAIL, o, head + [plan], rail);
    PartsPlaced(written, HEAD, [PLAN], o, head, [plan]);
    LastPlaced(written, PLAN, o, plan);
  }

  lemma WorkflowHolds(written: bool, j: Json, w: WorkflowEnvelope)
    ensures Holds(written, WORKFLOW, j, WorkflowTo(w)) ==> WorkflowIn(written, j, w)
    ensures !written && WorkflowIn(written, j, w) ==> Holds(written, WORKFLOW, j, WorkflowTo(w))
  {
    WorkflowShape();
    WorkflowFits(w);
    RecordHolds(written, WORKFLOW, j, WorkflowTo(w));
    WorkflowParts(written, j, HeadTo(w.schema, w.name, w.version, w.description, w.delivers, w.tags, w.inputSchema),
                  VAny(w.blueprint), RailTo(w.references, w.steering, w.replay, w.branchHandle));
    HeadPlaces(written, j, w.schema, w.name, w.version, w.description, w.delivers, w.tags, w.inputSchema);
    RailPlaces(written, j, w.references, w.steering, w.replay, w.branchHandle);
    PlanPlaced(written, Child(Some(j), "blueprint"), w.blueprint);
  }

  // ------------------------------------------------------------------ reading loses nothing

  lemma TextUndo(v: Val)
    requires HasShape(TStr, v)
    ensures VStr(Text(v)) == v
  {
  }

  lemma ListUndo<T>(s: Shape, v: Val, to: T -> Val, from: Val -> T)
    requires HasShape(TList(s), v) && forall x :: HasShape(s, x) ==> to(from(x)) == x
    ensures ListTo(ListFrom(v, from), to) == v
  {
    assert ListTo(ListFrom(v, from), to).items == v.items;
  }

  lemma DictUndo<T>(s: Shape, v: Val, to: T -> Val, from: Val -> T)
    requires HasShape(TDict(s), v) && forall x :: HasShape(s, x) ==> to(from(x)) == x
    ensures DictTo(DictFrom(v, from), to) == v
  {
    assert DictTo(DictFrom(v, from), to).entries == v.entries;
  }

  lemma TextsUndo(v: Val)
    requires HasShape(STRINGS, v)
    ensures Strings(ToStrings(v)) == v
  {
    assert Strings(ToStrings(v)).items == v.items;
  }

  lemma PairsUndo(v: Val)
    requires HasShape(PAIRS, v)
    ensures Pairs(ToPairs(v)) == v
  {
    assert Pairs(ToPairs(v)).entries == v.entries;
  }

  lemma ContextRefUndo(v: Val)
    requires HasShape(CONTEXT_REF, v)
    ensures ContextRefTo(ContextRefFrom(v)) == v
  {
    assert HasShape(CONTEXT_REF.fields[0].shape, v.vals[0]); assert HasShape(CONTEXT_REF.fields[1].shape, v.vals[1]); assert HasShape(CONTEXT_REF.fields[2].shape, v.vals[2]);
    TextUndo(v.vals[0]);
    TextUndo(v.vals[1]);
    TextUndo(v.vals[2]);
    assert ContextRefTo(ContextRefFrom(v)).vals == v.vals;
  }

  lemma ToolRefUndo(v: Val)
    requires HasShape(TOOL_REF, v)
    ensures ToolRefTo(ToolRefFrom(v)) == v
  {
    assert HasShape(TOOL_REF.fields[0].shape, v.vals[0]); assert HasShape(TOOL_REF.fields[1].shape, v.vals[1]);
    TextUndo(v.vals[0]);
    TextUndo(v.vals[1]);
    assert ToolRefTo(ToolRefFrom(v)).vals == v.vals;
  }

  lemma ConnectionRefUndo(v: Val)
    requires HasShape(CONNECTION_REF, v)
    ensures ConnectionRefTo(ConnectionRefFrom(v)) == v
  {
    assert HasShape(CONNECTION_REF.fields[0].shape, v.vals[0]); assert HasShape(CONNECTION_REF.fields[1].shape, v.vals[1]);
    TextUndo(v.vals[0]);
    TextUndo(v.vals[1]);
    assert ConnectionRefTo(ConnectionRefFrom(v)).vals == v.vals;
  }

  lemma DatasetRefUndo(v: Val)
    requires HasShape(DATASET_REF, v)
    ensures DatasetRefTo(DatasetRefFrom(v)) == v
  {
    assert HasShape(DATASET_REF.fields[0].shape, v.vals[0]); assert HasShape(DATASET_REF.fields[1].shape, v.vals[1]);
    TextUndo(v.vals[0]);
    TextsUndo(v.vals[1]);
    assert DatasetRefTo(DatasetRefFrom(v)).vals == v.vals;
  }

  lemma ArtifactRefUndo(v: Val)
    requires HasShape(ARTIFACT_REF, v)
    ensures ArtifactRefTo(ArtifactRefFrom(v)) == v
  {
    assert HasShape(ARTIFACT_REF.fields[0].shape, v.vals[0]); assert HasShape(ARTIFACT_REF.fields[1].shape, v.vals[1]);
    TextUndo(v.vals[0]);
    TextUndo(v.vals[1]);
    assert ArtifactRefTo(ArtifactRefFrom(v)).vals == v.vals;
  }

  lemma SkillRefUndo(v: Val)
    requires HasShape(SKILL_REF, v)
    ensures SkillRefTo(SkillRefFrom(v)) == v
  {
    assert HasShape(SKILL_REF.fields[0].shape, v.vals[0]); assert HasShape(SKILL_REF.fields[1].shape, v.vals[1]); assert HasShape(SKILL_REF.fields[2].shape, v.vals[2]);
    TextUndo(v.vals[0]);
    TextUndo(v.vals[1]);
    PairsUndo(v.vals[2]);
    assert SkillRefTo(SkillRefFrom(v)).vals == v.vals;
  }

  lemma AppRefUndo(v: Val)
    requires HasShape(APP_REF, v)
    ensures AppRefTo(AppRefFrom(v)) == v
  {
    assert HasShape(APP_REF.fields[0].shape, v.vals[0]);
    TextUndo(v.vals[0]);
    assert AppRefTo(AppRefFrom(v)).vals == v.vals;
  }

  lemma ContextRefsUndo(v: Val)
    requires HasShape(TList(CONTEXT_REF), v)
    ensures ListTo(ListFrom(v, ContextRefFrom), ContextRefTo) == v
  {
    forall x | HasShape(CONTEXT_REF, x) ensures ContextRefTo(ContextRefFrom(x)) == x {
      ContextRefUndo(x);
    }
    ListUndo(CONTEXT_REF, v, ContextRefTo, ContextRefFrom);
  }

  lemma ToolRefsUndo(v: Val)
    requires HasShape(TList(TOOL_REF), v)
    ensures ListTo(ListFrom(v, ToolRefFrom), ToolRefTo) == v
  {
    forall x | HasShape(TOOL_REF, x) ensures ToolRefTo(ToolRefFrom(x)) == x {
      ToolRefUndo(x);
    }
    ListUndo(TOOL_REF, v, ToolRefTo, ToolRefFrom);
  }

  lemma ConnectionRefsUndo(v: Val)
    requires HasShape(TList(CONNECTION_REF), v)
    ensures ListTo(ListFrom(v, ConnectionRefFrom), ConnectionRefTo) == v
  {
    forall x | HasShape(CONNECTION_REF, x) ensures ConnectionRefTo(ConnectionRefFrom(x)) == x {
      ConnectionRefUndo(x);
    }
    ListUndo(CONNECTION_REF, v, ConnectionRefTo, ConnectionRefFrom);
  }

  lemma DatasetRefsUndo(v: Val)
    requires HasShape(TList(DATASET_REF), v)
    ensures ListTo(ListFrom(v, DatasetRefFrom), DatasetRefTo) == v
  {
    forall x | HasShape(DATASET_REF, x) ensures DatasetRefTo(DatasetRefFrom(x)) == x {
      DatasetRefUndo(x);
    }
    ListUndo(DATASET_REF, v, DatasetRefTo, DatasetRefFrom);
  }

  lemma ArtifactRefsUndo(v: Val)
    requires HasShape(TList(ARTIFACT_REF), v)
    ensures ListTo(ListFrom(v, ArtifactRefFrom), ArtifactRefTo) == v
  {
    forall x | HasShape(ARTIFACT_REF, x) ensures ArtifactRefTo(ArtifactRefFrom(x)) == x {
      ArtifactRefUndo(x);
    }
    ListUndo(ARTIFACT_REF, v, ArtifactRefTo, ArtifactRefFrom);
  }

  lemma SkillRefsUndo(v: Val)
    requires HasShape(TList(SKILL_REF), v)
    ensures ListTo(ListFrom(v, SkillRefFrom), SkillRefTo) == v
  {
    forall x | HasShape(SKILL_REF, x) ensures SkillRefTo(SkillRefFrom(x)) == x {
      SkillRefUndo(x);
    }
    ListUndo(SKILL_REF, v, SkillRefTo, SkillRefFrom);
  }

  lemma AppRefsUndo(v: Val)
    requires HasShape(TList(APP_REF), v)
    ensures ListTo(ListFrom(v, AppRefFrom), AppRefTo) == v
  {
    forall x | HasShape(APP_REF, x) ensures AppRefTo(AppRefFrom(x)) == x {
      AppRefUndo(x);
    }
    ListUndo(APP_REF, v, AppRefTo, AppRefFrom);
  }

  lemma ShapeAt(s: Shape, v: Val, i: nat)
    requires s.TStruct? && HasShape(s, v) && i < |s.fields|
    ensures v.VStruct? && |v.vals| == |s.fields| && HasShape(s.fields[i].shape, v.vals[i])
  {
  }

  lemma FirstRailShapes()
    ensures |REFERENCES.fields| == 9
    ensures REFERENCES.fields[0].shape == TList(CONTEXT_REF) && REFERENCES.fields[1].shape == TList(TOOL_REF)
    ensures REFERENCES.fields[2].shape == TList(CONNECTION_REF) && REFERENCES.fields[3].shape == TList(DATASET_REF)
    ensures REFERENCES.fields[4].shape == TList(ARTIFACT_REF)
  {
  }

  lemma LastRailShapes()
    ensures |REFERENCES.fields| == 9
    ensures REFERENCES.fields[5].shape == TList(ARTIFACT_REF) && REFERENCES.fields[6].shape == TList(SKILL_REF)
    ensures REFERENCES.fields[7].shape == TList(ARTIFACT_REF) && REFERENCES.fields[8].shape == TList(APP_REF)
  {
  }

  lemma FirstRailsUndo(v: Val)
    requires HasShape(REFERENCES, v)
    ensures v.VStruct? && |v.vals| == 9
    ensures ListTo(ListFrom(v.vals[0], ContextRefFrom), ContextRefTo) == v.vals[0]
    ensures ListTo(ListFrom(v.vals[1], ToolRefFrom), ToolRefTo) == v.vals[1]
    ensures ListTo(ListFrom(v.vals[2], ConnectionRefFrom), ConnectionRefTo) == v.vals[2]
    ensures ListTo(ListFrom(v.vals[3], DatasetRefFrom), DatasetRefTo) == v.vals[3]
    ensures ListTo(ListFrom(v.vals[4], ArtifactRefFrom), ArtifactRefTo) == v.vals[4]
  {
    FirstRailShapes();
    ShapeAt(REFERENCES, v, 0); ContextRefsUndo(v.vals[0]);
    ShapeAt(REFERENCES, v, 1); ToolRefsUndo(v.vals[1]);
    ShapeAt(REFERENCES, v, 2); ConnectionRefsUndo(v.vals[2]);
    ShapeAt(REFERENCES, v, 3); DatasetRefsUndo(v.vals[3]);
    ShapeAt(REFERENCES, v, 4); ArtifactRefsUndo(v.vals[4]);
  }

  lemma LastRailsUndo(v: Val)
    requires HasShape(REFERENCES, v)
    ensures v.VStruct? && |v.vals| == 9
    ensures ListTo(ListFrom(v.vals[5], ArtifactRefFrom), ArtifactRefTo) == v.vals[5]
    ensures ListTo(ListFrom(v.vals[6], SkillRefFrom), SkillRefTo) == v.vals[6]
    ensures ListTo(ListFrom(v.vals[7], ArtifactRefFrom), ArtifactRefTo) == v.vals[7]
    ensures ListTo(ListFrom(v.vals[8], AppRefFrom), AppRefTo) == v.vals[8]
  {
    LastRailShapes();
    ShapeAt(REFERENCES, v, 5); ArtifactRefsUndo(v.vals[5]);
    ShapeAt(REFERENCES, v, 6); SkillRefsUndo(v.vals[6]);
    ShapeAt(REFERENCES, v, 7); ArtifactRefsUndo(v.vals[7]);
    ShapeAt(REFERENCES, v, 8); AppRefsUndo(v.vals[8]);
  }

  lemma AllRailsUndo(v: Val)
    requires v.VStruct? && |v.vals| == 9
    requires ListTo(ListFrom(v.vals[0], ContextRefFrom), ContextRefTo) == v.vals[0]
    requires ListTo(ListFrom(v.vals[1], ToolRefFrom), ToolRefTo) == v.vals[1]
    requires ListTo(ListFrom(v.vals[2], ConnectionRefFrom), ConnectionRefTo) == v.vals[2]
    requires ListTo(ListFrom(v.vals[3], DatasetRefFrom), DatasetRefTo) == v.vals[3]
    requires ListTo(ListFrom(v.vals[4], ArtifactRefFrom), ArtifactRefTo) == v.vals[4]
    requires ListTo(ListFrom(v.vals[5], ArtifactRefFrom), ArtifactRefTo) == v.vals[5]
    requires ListTo(ListFrom(v.vals[6], SkillRefFrom), SkillRefTo) == v.vals[6]
    requires ListTo(ListFrom(v.vals[7], ArtifactRefFrom), ArtifactRefTo) == v.vals[7]
    requires ListTo(ListFrom(v.vals[8], AppRefFrom), AppRefTo) == v.vals[8]
    ensures ReferencesTo(ReferencesFrom(v)) == v
  {
    assert ReferencesTo(ReferencesFrom(v)).vals == v.vals;
  }

  lemma ReferencesUndo(v: Val)
    requires HasShape(REFERENCES, v)
    ensures ReferencesTo(ReferencesFrom(v)) == v
  {
    FirstRailsUndo(v);
    LastRailsUndo(v);
    AllRailsUndo(v);
  }

  lemma ReachUndo(v: Val)
    requires HasShape(REACH, v)
    ensures ReachTo(ReachFrom(v)) == v
  {
  }

  lemma CountUndo(v: Val)
    ensures HasShape(TOpt(TUint(MAX_U32)), v) ==> OptTo(OptFrom(v, Uint32), (x: U32) => VUint(x)) == v
    ensures HasShape(TOpt(TUint(MAX_U64)), v) ==> OptTo(OptFrom(v, Uint64), (x: U64) => VUint(x)) == v
  {
    if HasShape(TOpt(TUint(MAX_U32)), v) && v.VSome? { assert HasShape(TUint(MAX_U32), v.some); }
    if HasShape(TOpt(TUint(MAX_U64)), v) && v.VSome? { assert HasShape(TUint(MAX_U64), v.some); }
  }

  lemma ModelUndo(v: Val)
    requires HasShape(MODEL_STEERING, v)
    ensures ModelTo(ModelFrom(v)) == v
  {
    assert HasShape(MODEL_STEERING.fields[0].shape, v.vals[0]); assert HasShape(MODEL_STEERING.fields[1].shape, v.vals[1]);
    TextUndo(v.vals[0]);
    PairsUndo(v.vals[1]);
    assert ModelTo(ModelFrom(v)).vals == v.vals;
  }

  lemma ToolsUndo(v: Val)
    requires HasShape(TOOLS_STEERING, v)
    ensures ToolsTo(ToolsFrom(v)) == v
  {
    assert HasShape(TOOLS_STEERING.fields[0].shape, v.vals[0]); assert HasShape(TOOLS_STEERING.fields[1].shape, v.vals[1]); assert HasShape(TOOLS_STEERING.fields[2].shape, v.vals[2]); assert HasShape(TOOLS_STEERING.fields[3].shape, v.vals[3]);
    PairsUndo(v.vals[0]);
    TextsUndo(v.vals[1]);
    TextsUndo(v.vals[2]);
    ReachUndo(v.vals[3]);
    assert ToolsTo(ToolsFrom(v)).vals == v.vals;
  }

  lemma ContextUndo(v: Val)
    requires HasShape(CONTEXT_STEERING, v)
    ensures ContextTo(ContextFrom(v)) == v
  {
    assert HasShape(CONTEXT_STEERING.fields[0].shape, v.vals[0]); assert HasShape(CONTEXT_STEERING.fields[1].shape, v.vals[1]); assert HasShape(CONTEXT_STEERING.fields[2].shape, v.vals[2]);
    TextsUndo(v.vals[0]);
    TextsUndo(v.vals[1]);
    TextsUndo(v.vals[2]);
    assert ContextTo(ContextFrom(v)).vals == v.vals;
  }

  lemma GuardsVals(v: Val)
    requires HasShape(GUARDS, v)
    ensures v.VStruct? && |v.vals| == 5
    ensures HasShape(TOpt(TUint(MAX_U32)), v.vals[0]) && HasShape(TOpt(TUint(MAX_U32)), v.vals[1])
    ensures HasShape(TBool, v.vals[2]) && HasShape(STRINGS, v.vals[3]) && HasShape(TOpt(TUint(MAX_U64)), v.vals[4])
  {
    assert forall i :: 0 <= i < 5 ==> HasShape(GUARDS.fields[i].shape, v.vals[i]);
  }

  lemma GuardsUndo(v: Val)
    requires HasShape(GUARDS, v)
    ensures GuardsTo(GuardsFrom(v)) == v
  {
    GuardsVals(v);
    CountUndo(v.vals[0]);
    CountUndo(v.vals[1]);
    TextsUndo(v.vals[3]);
    CountUndo(v.vals[4]);
  }

  lemma SteeringVals(v: Val)
    requires HasShape(STEERING, v)
    ensures v.VStruct? && |v.vals| == 4
    ensures HasShape(MODEL_STEERING, v.vals[0]) && HasShape(TOOLS_STEERING, v.vals[1])
    ensures HasShape(CONTEXT_STEERING, v.vals[2]) && HasShape(GUARDS, v.vals[3])
  {
    SteeringFields();
    assert forall i :: 0 <= i < 4 ==> HasShape(STEERING.fields[i].shape, v.vals[i]);
  }

  lemma AxesUndo(v: Val)
    requires v.VStruct? && |v.vals| == 4
    requires ModelTo(ModelFrom(v.vals[0])) == v.vals[0] && ToolsTo(ToolsFrom(v.vals[1])) == v.vals[1]
    requires ContextTo(ContextFrom(v.vals[2])) == v.vals[2] && GuardsTo(GuardsFrom(v.vals[3])) == v.vals[3]
    ensures SteeringTo(SteeringFrom(v)) == v
  {
    assert [v.vals[0], v.vals[1], v.vals[2], v.vals[3]] == v.vals;
  }

  lemma SteeringUndo(v: Val)
    requires HasShape(STEERING, v)
    ensures SteeringTo(SteeringFrom(v)) == v
  {
    SteeringVals(v);
    ModelUndo(v.vals[0]);
    ToolsUndo(v.vals[1]);
    ContextUndo(v.vals[2]);
    GuardsUndo(v.vals[3]);
    AxesUndo(v);
  }

  lemma ModeUndo(v: Val)
    requires HasShape(TEnum(["frozen", "re_run"]), v)
    ensures ModeTo(ModeFrom(v)) == v
  {
  }

  lemma ModesUndo(v: Val)
    requires HasShape(TDict(TEnum(["frozen", "re_run"])), v)
    ensures DictTo(DictFrom(v, ModeFrom), ModeTo) == v
  {
    forall x | HasShape(TEnum(["frozen", "re_run"]), x) ensures ModeTo(ModeFrom(x)) == x {
      ModeUndo(x);
    }
    DictUndo(TEnum(["frozen", "re_run"]), v, ModeTo, ModeFrom);
  }

  lemma ReplayUndo(v: Val)
    requires HasShape(REPLAY, v)
    ensures ReplayTo(ReplayFrom(v)) == v
  {
    assert HasShape(REPLAY.fields[0].shape, v.vals[0]);
    ModesUndo(v.vals[0]);
    assert ReplayTo(ReplayFrom(v)).vals == v.vals;
  }

  lemma FrameworkUndo(v: Val)
    requires HasShape(TEnum(["auto", "vite_react", "next_js", "svelte"]), v)
    ensures FrameworkTo(FrameworkFrom(v)) == v
  {
    assert v.tag in ["auto", "vite_react", "next_js", "svelte"];
  }

  lemma HostedUndo(v: Val)
    requires HasShape(HOSTED, v)
    ensures HostedTo(HostedFrom(v)) == v
  {
    assert HasShape(HOSTED.fields[0].shape, v.vals[0]); assert HasShape(HOSTED.fields[1].shape, v.vals[1]); assert HasShape(HOSTED.fields[2].shape, v.vals[2]); assert HasShape(HOSTED.fields[3].shape, v.vals[3]); assert HasShape(HOSTED.fields[4].shape, v.vals[4]);
    FrameworkUndo(v.vals[0]);
    TextUndo(v.vals[1]);
    TextUndo(v.vals[2]);
    TextUndo(v.vals[3]);
    TextUndo(v.vals[4]);
    assert HostedTo(HostedFrom(v)).vals == v.vals;
  }

  lemma OptHostedUndo(v: Val)
    requires HasShape(TOpt(HOSTED), v)
    ensures OptTo(OptFrom(v, HostedFrom), HostedTo) == v
  {
    if v.VSome? { HostedUndo(v.some); }
  }

  lemma RawUndo(v: Val)
    requires HasShape(TOpt(TAny), v)
    ensures OptTo(OptFrom(v, Raw), x => VAny(x)) == v
  {
    if v.VSome? { assert HasShape(TAny, v.some); }
  }

  lemma HeadUndo(v: Val)
    requires v.VStruct? && |v.vals| >= 7
    requires HasShape(TStr, v.vals[0]) && HasShape(TStr, v.vals[1]) && HasShape(TStr, v.vals[2]) && HasShape(TStr, v.vals[3])
    requires HasShape(TStr, v.vals[4]) && HasShape(STRINGS, v.vals[5]) && HasShape(TOpt(TAny), v.vals[6])
    ensures HeadTo(Text(At(v, 0)), Text(At(v, 1)), Text(At(v, 2)), Text(At(v, 3)), Text(At(v, 4)), ToStrings(At(v, 5)),
                   OptFrom(At(v, 6), Raw)) == v.vals[..7]
  {
    TextsUndo(v.vals[5]);
    RawUndo(v.vals[6]);
  }

  lemma RailsUndo(v: Val, k: nat)
    requires v.VStruct? && k + 4 <= |v.vals| && v.vals[k + 3].VStr?
    requires ReferencesTo(ReferencesFrom(v.vals[k])) == v.vals[k] && SteeringTo(SteeringFrom(v.vals[k + 1])) == v.vals[k + 1]
    requires ReplayTo(ReplayFrom(v.vals[k + 2])) == v.vals[k + 2]
    ensures RailTo(ReferencesFrom(At(v, k)), SteeringFrom(At(v, k + 1)), ReplayFrom(At(v, k + 2)), Text(At(v, k + 3))) == v.vals[k..k + 4]
  {
    assert [v.vals[k], v.vals[k + 1], v.vals[k + 2], v.vals[k + 3]] == v.vals[k..k + 4];
  }

  lemma RailUndo(v: Val, k: nat)
    requires v.VStruct? && k + 4 <= |v.vals|
    requires HasShape(REFERENCES, v.vals[k]) && HasShape(STEERING, v.vals[k + 1]) && HasShape(REPLAY, v.vals[k + 2]) && HasShape(TStr, v.vals[k + 3])
    ensures RailTo(ReferencesFrom(At(v, k)), SteeringFrom(At(v, k + 1)), ReplayFrom(At(v, k + 2)), Text(At(v, k + 3))) == v.vals[k..k + 4]
  {
    ReferencesUndo(v.vals[k]);
    SteeringUndo(v.vals[k + 1]);
    ReplayUndo(v.vals[k + 2]);
    RailsUndo(v, k);
  }

  lemma AppShapes()
    ensures |APP.fields| == 14
    ensures APP.fields[..7] == HEAD && APP.fields[7] == LANE[0] && APP.fields[8] == LANE[1]
    ensures APP.fields[9..13] == RAIL && APP.fields[13] == MODE
  {
    assert APP.fields == HEAD + LANE + RAIL + [MODE];
  }

  lemma HeadVals(s: Shape, v: Val)
    requires s.TStruct? && HasShape(s, v) && |s.fields| >= 7 && s.fields[..7] == HEAD
    ensures v.VStruct? && |v.vals| >= 7
    ensures HasShape(TStr, v.vals[0]) && HasShape(TStr, v.vals[1]) && HasShape(TStr, v.vals[2]) && HasShape(TStr, v.vals[3])
    ensures HasShape(TStr, v.vals[4]) && HasShape(STRINGS, v.vals[5]) && HasShape(TOpt(TAny), v.vals[6])
  {
    forall i | 0 <= i < 7 ensures HasShape(HEAD[i].shape, v.vals[i]) {
      assert s.fields[..7][i] == s.fields[i];
      ShapeAt(s, v, i);
    }
    assert HasShape(HEAD[0].shape, v.vals[0]) && HasShape(HEAD[1].shape, v.vals[1]) && HasShape(HEAD[2].shape, v.vals[2]);
    assert HasShape(HEAD[3].shape, v.vals[3]) && HasShape(HEAD[4].shape, v.vals[4]);
    assert HasShape(HEAD[5].shape, v.vals[5]) && HasShape(HEAD[6].shape, v.vals[6]);
  }

  lemma RailVals4(s: Shape, v: Val, k: nat)
    requires s.TStruct? && HasShape(s, v) && k + 4 <= |s.fields| && s.fields[k..k + 4] == RAIL
    ensures v.VStruct? && k + 4 <= |v.vals|
    ensures HasShape(REFERENCES, v.vals[k]) && HasShape(STEERING, v.vals[k + 1]) && HasShape(REPLAY, v.vals[k + 2]) && HasShape(TStr, v.vals[k + 3])
  {
    assert s.fields[k] == RAIL[0] && s.fields[k + 1] == RAIL[1] && s.fields[k + 2] == RAIL[2] && s.fields[k + 3] == RAIL[3];
    ShapeAt(s, v, k); ShapeAt(s, v, k + 1); ShapeAt(s, v, k + 2); ShapeAt(s, v, k + 3);
  }

  lemma WholeApp(v: Val)
    requires v.VStruct? && |v.vals| == 14 && v.vals[13].VStr?
    requires HeadTo(Text(At(v, 0)), Text(At(v, 1)), Text(At(v, 2)), Text(At(v, 3)), Text(At(v, 4)), ToStrings(At(v, 5)),
                    OptFrom(At(v, 6), Raw)) == v.vals[..7]
    requires OptTo(OptFrom(v.vals[7], Raw), x => VAny(x)) == v.vals[7] && OptTo(OptFrom(v.vals[8], HostedFrom), HostedTo) == v.vals[8]
    requires RailTo(ReferencesFrom(At(v, 9)), SteeringFrom(At(v, 10)), ReplayFrom(At(v, 11)), Text(At(v, 12))) == v.vals[9..13]
    ensures AppTo(AppFrom(v)) == v
  {
    assert v.vals == v.vals[..7] + [v.vals[7], v.vals[8]] + v.vals[9..13] + [v.vals[13]];
  }

  lemma AppHeadUndo(v: Val)
    requires HasShape(APP, v)
    ensures v.VStruct? && |v.vals| == 14 && v.vals[13].VStr?
    ensures HeadTo(Text(At(v, 0)), Text(At(v, 1)), Text(At(v, 2)), Text(At(v, 3)), Text(At(v, 4)), ToStrings(At(v, 5)),
                   OptFrom(At(v, 6), Raw)) == v.vals[..7]
  {
    AppShapes();
    HeadVals(APP, v);
    ShapeAt(APP, v, 13);
    HeadUndo(v);
  }

  lemma AppLaneUndo(v: Val)
    requires HasShape(APP, v)
    ensures v.VStruct? && |v.vals| == 14
    ensures OptTo(OptFrom(v.vals[7], Raw), x => VAny(x)) == v.vals[7] && OptTo(OptFrom(v.vals[8], HostedFrom), HostedTo) == v.vals[8]
  {
    AppShapes();
    ShapeAt(APP, v, 7);
    ShapeAt(APP, v, 8);
    RawUndo(v.vals[7]);
    OptHostedUndo(v.vals[8]);
  }

  lemma AppRailUndo(v: Val)
    requires HasShape(APP, v)
    ensures v.VStruct? && |v.vals| == 14
    ensures RailTo(ReferencesFrom(At(v, 9)), SteeringFrom(At(v, 10)), ReplayFrom(At(v, 11)), Text(At(v, 12))) == v.vals[9..13]
  {
    AppShapes();
    ShapeAt(APP, v, 0);
    RailVals4(APP, v, 9);
    RailUndo(v, 9);
  }

  lemma AppUndo(v: Val)
    requires HasShape(APP, v)
    ensures AppTo(AppFrom(v)) == v
  {
    AppHeadUndo(v);
    AppLaneUndo(v);
    AppRailUndo(v);
    WholeApp(v);
  }

  lemma WorkflowShapes()
    ensures |WORKFLOW.fields| == 12
    ensures WORKFLOW.fields[..7] == HEAD && WORKFLOW.fields[7] == PLAN && WORKFLOW.fields[8..12] == RAIL
  {
    assert WORKFLOW.fields == HEAD + [PLAN] + RAIL;
  }

  lemma WholeWorkflow(v: Val)
    requires v.VStruct? && |v.vals| == 12 && v.vals[7].VAny?
    requires HeadTo(Text(At(v, 0)), Text(At(v, 1)), Text(At(v, 2)), Text(At(v, 3)), Text(At(v, 4)), ToStrings(At(v, 5)),
                    OptFrom(At(v, 6), Raw)) == v.vals[..7]
    requires RailTo(ReferencesFrom(At(v, 8)), SteeringFrom(At(v, 9)), ReplayFrom(At(v, 10)), Text(At(v, 11))) == v.vals[8..12]
    ensures WorkflowTo(WorkflowFrom(v)) == v
  {
    assert v.vals == v.vals[..7] + [v.vals[7]] + v.vals[8..12];
  }

  lemma WorkflowUndo(v: Val)
    requires HasShape(WORKFLOW, v)
    ensures WorkflowTo(WorkflowFrom(v)) == v
  {
    WorkflowShapes();
    HeadVals(WORKFLOW, v);
    RailVals4(WORKFLOW, v, 8);
    ShapeAt(WORKFLOW, v, 7);
    HeadUndo(v);
    RailUndo(v, 8);
    WholeWorkflow(v);
  }

  // ------------------------------------------------------------------ theorems

  /** The App reader yields an envelope exactly when every place of the document holds the
      envelope's field. */
  lemma AppReads(j: Json, e: AppEnvelope)
    ensures Decode(j) == Some(e) <==> AppIn(false, j, e)
  {
    AppShape();
    AppFits(e);
    AppHolds(false, j, e);
    AppBack(e);
    if Decode(j) == Some(e) {
      ReadFaithful(APP, j);
      AppUndo(Read(APP, j).value);
    }
  }

  /** The App writer puts every field at its place, and leaves out exactly the empty ones. */
  lemma AppWrites(e: AppEnvelope)
    ensures AppIn(true, ToJson(e), e)
  {
    AppShape();
    AppFits(e);
    AppHolds(true, ToJson(e), e);
  }

  lemma WorkflowReads(j: Json, w: WorkflowEnvelope)
    ensures WorkflowDecode(j) == Some(w) <==> WorkflowIn(false, j, w)
  {
    WorkflowShape();
    WorkflowFits(w);
    WorkflowHolds(false, j, w);
    WorkflowBack(w);
    if WorkflowDecode(j) == Some(w) {
      ReadFaithful(WORKFLOW, j);
      WorkflowUndo(Read(WORKFLOW, j).value);
    }
  }

  lemma WorkflowWrites(w: WorkflowEnvelope)
    ensures WorkflowIn(true, WorkflowToJson(w), w)
  {
    WorkflowShape();
    WorkflowFits(w);
    WorkflowHolds(true, WorkflowToJson(w), w);
  }

  // ------------------------------------------------------------------ the App view of a workflow

  /** A document under another tag. */
  function Retagged(j: Json, tag: string): Json
    requires j.Obj?
  {
    Obj(j.fields["schema" := Str(tag)])
  }

  lemma OtherKeys(j: Json, tag: string, key: string)
    requires j.Obj? && key != "schema"
    ensures Child(Some(Retagged(j, tag)), key) == Child(Some(j), key)
  {
  }

  lemma RetaggedHead(written: bool, j: Json, tag: string, w: WorkflowEnvelope)
    requires j.Obj? && HeadIn(written, j, w.schema, w.name, w.version, w.description, w.delivers, w.tags, w.inputSchema)
    ensures HeadIn(written, Retagged(j, tag), tag, w.name, w.version, w.description, w.delivers, w.tags, w.inputSchema)
  {
    OtherKeys(j, tag, "name"); OtherKeys(j, tag, "version"); OtherKeys(j, tag, "description");
    OtherKeys(j, tag, "delivers"); OtherKeys(j, tag, "tags"); OtherKeys(j, tag, "input_schema");
  }

  lemma RetaggedRail(written: bool, j: Json, tag: string, w: WorkflowEnvelope)
    requires j.Obj? && RailIn(written, j, w.references, w.steering, w.replay, w.branchHandle)
    ensures RailIn(written, Retagged(j, tag), w.references, w.steering, w.replay, w.branchHandle)
  {
    OtherKeys(j, tag, "references"); OtherKeys(j, tag, "steering_config");
    OtherKeys(j, tag, "replay"); OtherKeys(j, tag, "branch_handle");
  }

  /** The App view of a workflow is what the App reader makes of the workflow's own document under
      the App tag, exactly when its blueprint is not null and the document has no App-only field
      with content. */
  lemma AppViewReads(j: Json, w: WorkflowEnvelope)
    requires WorkflowDecode(j) == Some(w)
    ensures j.Obj?
    ensures Decode(Retagged(j, "kortecx.app/v1")) == Some(AppView(w)) <==>
      && w.blueprint != Null
      && (Child(Some(j), "hosted") == None || Child(Some(j), "hosted") == Some(Null))
      && (Child(Some(j), "mode") == None || Child(Some(j), "mode") == Some(Str("")))
  {
    WorkflowReads(j, w);
    var k := Retagged(j, "kortecx.app/v1");
    AppReads(k, AppView(w));
    AppViewIn(j, w);
  }

  lemma AppViewIn(j: Json, w: WorkflowEnvelope)
    requires WorkflowIn(false, j, w)
    ensures AppIn(false, Retagged(j, "kortecx.app/v1"), AppView(w)) <==>
      && w.blueprint != Null
      && (Child(Some(j), "hosted") == None || Child(Some(j), "hosted") == Some(Null))
      && (Child(Some(j), "mode") == None || Child(Some(j), "mode") == Some(Str("")))
  {
    var k := Retagged(j, "kortecx.app/v1");
    OtherKeys(j, "kortecx.app/v1", "blueprint");
    OtherKeys(j, "kortecx.app/v1", "hosted");
    OtherKeys(j, "kortecx.app/v1", "mode");
    AppOnly(j, w.blueprint);
    assert AppIn(false, k, AppView(w)) <==>
      RawAt(false, Child(Some(j), "blueprint"), Some(w.blueprint)) && HostedAt(false, Child(Some(j), "hosted"), None) && TextAt(false, Child(Some(j), "mode"), "")
    by {
      RetaggedHead(false, j, "kortecx.app/v1", w);
      RetaggedRail(false, j, "kortecx.app/v1", w);
    }
  }

  lemma AppOnly(j: Json, blueprint: Json)
    ensures RawAt(false, Some(blueprint), Some(blueprint)) <==> blueprint != Null
    ensures HostedAt(false, Child(Some(j), "hosted"), None) <==> Child(Some(j), "hosted") == None || Child(Some(j), "hosted") == Some(Null)
    ensures TextAt(false, Child(Some(j), "mode"), "") <==> Child(Some(j), "mode") == None || Child(Some(j), "mode") == Some(Str(""))
  {
  }
}
