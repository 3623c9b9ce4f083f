/** The content closure computed on the JSON tree of an envelope, and its agreement with the
    closure computed on the decoded envelope. */
module TreeRefs {
  import opened Lists
  import opened Sorting
  import opened Utf16
  import opened Serde
  import opened EnvelopeTypes
  import opened EnvelopeCodec
  import opened Envelope
  import opened ContentRefs

  /** A property read: absent, or of something that is no object, is `undefined`. */
  function Child(o: Option<Json>, key: string): Option<Json> {
    if o.Some? && o.value.Obj? && key in o.value.fields then Some(o.value.fields[key]) else None
  }

  /** What `for (… of x ?? [])` visits; None where that throws. */
  function Visited(o: Option<Json>): Option<seq<Json>> {
    match o
    case None => Some([])
    case Some(j) =>
      if j == Null then Some([])
      else if j.Arr? then Some(j.items)
      else if j.Str? then Some(Rename((c: char) => Str([c]), j.s))
      else None
  }

  /** The ref added for a value: a non-empty string. */
  function Picked(o: Option<Json>): seq<string> {
    if o.Some? && o.value.Str? && o.value.s != "" then [o.value.s] else []
  }

  function FieldTexts(items: seq<Json>, key: string): seq<string> {
    if items == [] then []
    else FieldTexts(items[..|items| - 1], key) + Picked(Child(Some(items[|items| - 1]), key))
  }

  function Texts(items: seq<Json>): seq<string> {
    if items == [] then [] else Texts(items[..|items| - 1]) + Picked(Some(items[|items| - 1]))
  }

  function Nested(items: seq<Json>, key: string): Option<seq<string>> {
    if items == [] then Some([])
    else match Nested(items[..|items| - 1], key)
      case None => None
      case Some(before) =>
        (match Visited(Child(Some(items[|items| - 1]), key))
         case None => None
         case Some(inner) => Some(before + Texts(inner)))
  }

  function FieldRefs(list: Option<Json>, key: string): Option<seq<string>> {
    match Visited(list)
    case None => None
    case Some(items) => Some(FieldTexts(items, key))
  }

  function OwnRefs(list: Option<Json>): Option<seq<string>> {
    match Visited(list)
    case None => None
    case Some(items) => Some(Texts(items))
  }

  function NestedRefs(list: Option<Json>, key: string): Option<seq<string>> {
    match Visited(list)
    case None => None
    case Some(items) => Nested(items, key)
  }

  function Both(a: Option<seq<string>>, b: Option<seq<string>>): Option<seq<string>> {
    if a.None? || b.None? then None else Some(a.value + b.value)
  }

  /** The refs `contentRefs` meets, in order; None where the walk throws. */
  function TreeArtifacts(env: Json): Option<seq<string>> {
    var references := Child(Some(env), "references");
    var steering := Child(Child(Some(env), "steering_config"), "context");
    var own := OwnRefs(Child(steering, "context_refs"));
    Both(Both(Both(Both(Both(
      FieldRefs(Child(references, "context"), "content_ref"),
      FieldRefs(Child(references, "prompts"), "content_ref")),
      FieldRefs(Child(references, "rules"), "content_ref")),
      FieldRefs(Child(references, "memory"), "content_ref")),
      FieldRefs(Child(references, "skills"), "instructions_ref")),
      own)
  }

  function TreePayloads(env: Json): Option<seq<string>> {
    NestedRefs(Child(Child(Some(env), "references"), "datasets"), "cas_refs")
  }

  function TreeRails(env: Json, datasets: bool): Option<seq<string>> {
    Both(TreeArtifacts(env), if datasets then TreePayloads(env) else Some([]))
  }

  /** What `contentRefs` returns. */
  function TreeClosure(env: Json, datasets: bool): Option<seq<string>> {
    match TreeRails(env, datasets)
    case None => None
    case Some(refs) => Some(SortDistinct(UnitLess, Dedup(refs)))
  }

  // ------------------------------------------------------------------ contentRefs

  function Extended(refs: seq<string>, more: Option<seq<string>>): Option<seq<string>> {
    match more
    case None => None
    case Some(xs) => Some(AddAll(refs, xs))
  }

  method AddTexts(refs: seq<string>, items: seq<Json>) returns (out: seq<string>)
    ensures out == AddAll(refs, Texts(items))
  {
    out := refs;
    for i := 0 to |items|
      invariant out == AddAll(refs, Texts(items[..i]))
    {
      AddAllConcat(refs, Texts(items[..i]), Picked(Some(items[i])));
      assert items[..i + 1][..i] == items[..i];
      if items[i].Str? && items[i].s != "" {
        AddAllOne(out, items[i].s);
        out := AddNew(out, items[i].s);
      }
    }
    assert items[..|items|] == items;
  }

  method AddField(refs: seq<string>, list: Option<Json>, key: string) returns (out: Option<seq<string>>)
    ensures out == Extended(refs, FieldRefs(list, key))
  {
    var visited := Visited(list);
    if visited.None? { return None; }
    var items, acc := visited.value, refs;
    for i := 0 to |items|
      invariant acc == AddAll(refs, FieldTexts(items[..i], key))
    {
      var r := Child(Some(items[i]), key);
      AddAllConcat(refs, FieldTexts(items[..i], key), Picked(r));
      assert items[..i + 1][..i] == items[..i];
      if r.Some? && r.value.Str? && r.value.s != "" {
        AddAllOne(acc, r.value.s);
        acc := AddNew(acc, r.value.s);
      }
    }
    assert items[..|items|] == items;
    return Some(acc);
  }

  method AddNested(refs: seq<string>, list: Option<Json>, key: string) returns (out: Option<seq<string>>)
    ensures out == Extended(refs, NestedRefs(list, key))
  {
    var visited := Visited(list);
    if visited.None? { return None; }
    var items, acc := visited.value, refs;
    for i := 0 to |items|
      invariant Nested(items[..i], key).Some? && acc == AddAll(refs, Nested(items[..i], key).value)
    {
      var inner := Visited(Child(Some(items[i]), key));
      assert items[..i + 1][..i] == items[..i];
      if inner.None? {
        NestedStops(items, key, i + 1);
        return None;
      }
      AddAllConcat(refs, Nested(items[..i], key).value, Texts(inner.value));
      acc := AddTexts(acc, inner.value);
    }
    assert items[..|items|] == items;
    return Some(acc);
  }

  lemma {:induction false} NestedStops(items: seq<Json>, key: string, n: nat)
    requires n <= |items| && Nested(items[..n], key).None?
    ensures Nested(items, key).None?
    decreases |items|
  {
    if n == |items| {
      assert items[..n] == items;
    } else {
      assert items[..|items| - 1][..n] == items[..n];
      NestedStops(items[..|items| - 1], key, n);
    }
  }

  lemma ExtendedTwice(a: Option<seq<string>>, b: Option<seq<string>>)
    requires a.Some?
    ensures Extended(AddAll([], a.value), b) == Extended([], Both(a, b))
  {
    if b.Some? { AddAllConcat([], a.value, b.value); }
  }

  method AddRail(acc: Option<seq<string>>, ghost done: Option<seq<string>>, list: Option<Json>, key: string)
    returns (out: Option<seq<string>>)
    requires acc == Extended([], done)
    ensures out == Extended([], Both(done, FieldRefs(list, key)))
  {
    if acc.None? { return None; }
    ExtendedTwice(done, FieldRefs(list, key));
    out := AddField(acc.value, list, key);
  }

  method AddArtifacts(env: Json) returns (acc: Option<seq<string>>)
    ensures acc == Extended([], TreeArtifacts(env))
  {
    var references := Child(Some(env), "references");
    acc := AddField([], Child(references, "context"), "content_ref");
    ghost var done := FieldRefs(Child(references, "context"), "content_ref");
    acc := AddRail(acc, done, Child(references, "prompts"), "content_ref");
    done := Both(done, FieldRefs(Child(references, "prompts"), "content_ref"));
    acc := AddRail(acc, done, Child(references, "rules"), "content_ref");
    done := Both(done, FieldRefs(Child(references, "rules"), "content_ref"));
    acc := AddRail(acc, done, Child(references, "memory"), "content_ref");
    done := Both(done, FieldRefs(Child(references, "memory"), "content_ref"));
    acc := AddRail(acc, done, Child(references, "skills"), "instructions_ref");
    done := Both(done, FieldRefs(Child(references, "skills"), "instructions_ref"));
    if acc.None? { return None; }
    var own := Child(Child(Child(Some(env), "steering_config"), "context"), "context_refs");
    ExtendedTwice(done, OwnRefs(own));
    var visited := Visited(own);
    if visited.None? { return None; }
    var refs := AddTexts(acc.value, visited.value);
    acc := Some(refs);
  }

  /** `contentRefs`. */
  method ContentRefsOfTree(env: Json, datasets: bool) returns (out: Option<seq<string>>)
    ensures out == TreeClosure(env, datasets)
  {
    var acc := AddArtifacts(env);
    if acc.None? { return None; }
    ghost var done := TreeArtifacts(env);
    if datasets {
      ExtendedTwice(done, TreePayloads(env));
      acc := AddNested(acc.value, Child(Child(Some(env), "references"), "datasets"), "cas_refs");
      if acc.None? { return None; }
    } else {
      assert done.value + [] == done.value;
    }
    return Some(SortDistinct(UnitLess, acc.value));
  }

  // ------------------------------------------------------------------ agreement

  /** A possibly absent tree decodes to `v`; an absent one to the empty value. */
  ghost predicate Decodes(s: Shape, o: Option<Json>, v: Val)
    requires WellFormed(s)
  {
    match o
    case None => Emptyable(s) && v == Default(s)
    case Some(j) => Read(s, j) == Some(v)
  }

  lemma ChildDecodes(s: Shape, o: Option<Json>, v: Val, i: nat)
    requires s.TStruct? && WellFormed(s) && Decodes(s, o, v) && i < |s.fields|
    requires s.fields[i].rule == OmitEmpty || (s.fields[i].rule == Required && o.Some?)
    ensures v.VStruct? && |v.vals| == |s.fields| && WellFormed(s.fields[i].shape)
    ensures Decodes(s.fields[i].shape, Child(o, s.fields[i].name), v.vals[i])
  {
    var f := s.fields[i];
    assert FieldWellFormed(f);
    if o.Some? {
      assert ReadField(f, o.value.fields) == Some(v.vals[i]);
    }
  }

  /** The values of one text column of a list of records. */
  function Column(items: seq<Val>, i: nat): seq<string> {
    Rename((x: Val) => Text(At(x, i)), items)
  }

  lemma TextChild(s: Shape, j: Json, i: nat)
    requires s.TStruct? && WellFormed(s) && Read(s, j).Some? && i < |s.fields|
    requires s.fields[i].shape == TStr && s.fields[i].rule == Required
    ensures Child(Some(j), s.fields[i].name) == Some(Str(Text(At(Read(s, j).value, i))))
  {
    ChildDecodes(s, Some(j), Read(s, j).value, i);
  }

  lemma {:induction false} FieldTextsDecode(s: Shape, items: seq<Json>, vs: seq<Val>, i: nat)
    requires s.TStruct? && WellFormed(s) && i < |s.fields|
    requires s.fields[i].shape == TStr && s.fields[i].rule == Required
    requires |items| == |vs| && forall k :: 0 <= k < |vs| ==> Read(s, items[k]) == Some(vs[k])
    ensures FieldTexts(items, s.fields[i].name) == NonEmpty(Column(vs, i))
  {
    if items != [] {
      var n := |items| - 1;
      FieldTextsDecode(s, items[..n], vs[..n], i);
      TextChild(s, items[n], i);
      assert Column(vs, i)[..n] == Column(vs[..n], i);
    }
  }

  lemma ListDecodes(s: Shape, o: Option<Json>, v: Val)
    requires WellFormed(TList(s)) && Decodes(TList(s), o, v)
    ensures v.VList? && Visited(o).Some? && |Visited(o).value| == |v.items|
    ensures forall k :: 0 <= k < |v.items| ==> Read(s, Visited(o).value[k]) == Some(v.items[k])
  {
  }

  lemma FieldRefsDecode(s: Shape, o: Option<Json>, v: Val, i: nat)
    requires s.TStruct? && WellFormed(s) && i < |s.fields|
    requires s.fields[i].shape == TStr && s.fields[i].rule == Required
    requires Decodes(TList(s), o, v)
    ensures v.VList? && FieldRefs(o, s.fields[i].name) == Some(NonEmpty(Column(v.items, i)))
  {
    ListDecodes(s, o, v);
    FieldTextsDecode(s, Visited(o).value, v.items, i);
  }

  lemma {:induction false} TextsDecode(items: seq<Json>, vs: seq<Val>)
    requires |items| == |vs| && forall k :: 0 <= k < |vs| ==> Read(TStr, items[k]) == Some(vs[k])
    ensures Texts(items) == NonEmpty(ToStrings(VList(vs)))
  {
    if items != [] {
      var n := |items| - 1;
      TextsDecode(items[..n], vs[..n]);
      assert ToStrings(VList(vs))[..n] == ToStrings(VList(vs[..n]));
      assert Read(TStr, items[n]) == Some(vs[n]);
    }
  }

  lemma OwnRefsDecode(o: Option<Json>, v: Val)
    requires WellFormed(STRINGS) && Decodes(STRINGS, o, v)
    ensures OwnRefs(o) == Some(NonEmpty(ToStrings(v)))
  {
    ListDecodes(TStr, o, v);
    TextsDecode(Visited(o).value, v.items);
  }

  lemma {:induction false} NonEmptyConcat(a: seq<string>, b: seq<string>)
    ensures NonEmpty(a + b) == NonEmpty(a) + NonEmpty(b)
  {
    if b == [] {
      assert a + b == a;
    } else {
      var n := |b| - 1;
      NonEmptyConcat(a, b[..n]);
      assert (a + b)[..|a| + n] == a + b[..n];
    }
  }

  lemma ContextColumn(items: seq<Val>)
    ensures Column(items, 1) == ContextContents(ListFrom(VList(items), ContextRefFrom))
  {
    var xs := ListFrom(VList(items), ContextRefFrom);
    assert |xs| == |items|;
    forall k | 0 <= k < |items| ensures ContextContents(xs)[k] == Column(items, 1)[k] {
      assert xs[k] == ContextRefFrom(items[k]);
    }
  }

  lemma ArtifactColumn(items: seq<Val>)
    ensures Column(items, 1) == ArtifactContents(ListFrom(VList(items), ArtifactRefFrom))
  {
    var xs := ListFrom(VList(items), ArtifactRefFrom);
    assert |xs| == |items|;
    forall k | 0 <= k < |items| ensures ArtifactContents(xs)[k] == Column(items, 1)[k] {
      assert xs[k] == ArtifactRefFrom(items[k]);
    }
  }

  lemma SkillColumn(items: seq<Val>)
    ensures Column(items, 1) == Instructions(ListFrom(VList(items), SkillRefFrom))
  {
    var xs := ListFrom(VList(items), SkillRefFrom);
    assert |xs| == |items|;
    forall k | 0 <= k < |items| ensures Instructions(xs)[k] == Column(items, 1)[k] {
      assert xs[k] == SkillRefFrom(items[k]);
    }
  }

  lemma RefFields()
    ensures |CONTEXT_REF.fields| == 3 && CONTEXT_REF.fields[1] == Field("content_ref", TStr, Required)
    ensures |ARTIFACT_REF.fields| == 2 && ARTIFACT_REF.fields[1] == Field("content_ref", TStr, Required)
    ensures |SKILL_REF.fields| == 3 && SKILL_REF.fields[1] == Field("instructions_ref", TStr, Required)
  {
  }

  lemma ContextRail(o: Option<Json>, v: Val)
    requires WellFormed(TList(CONTEXT_REF)) && Decodes(TList(CONTEXT_REF), o, v)
    ensures FieldRefs(o, "content_ref") == Some(NonEmpty(ContextContents(ListFrom(v, ContextRefFrom))))
  {
    RefFields();
    FieldRefsDecode(CONTEXT_REF, o, v, 1);
    ContextColumn(v.items);
    assert v == VList(v.items);
  }

  lemma ArtifactRail(o: Option<Json>, v: Val)
    requires WellFormed(TList(ARTIFACT_REF)) && Decodes(TList(ARTIFACT_REF), o, v)
    ensures FieldRefs(o, "content_ref") == Some(NonEmpty(ArtifactContents(ListFrom(v, ArtifactRefFrom))))
  {
    RefFields();
    FieldRefsDecode(ARTIFACT_REF, o, v, 1);
    ArtifactColumn(v.items);
    assert v == VList(v.items);
  }

  lemma SkillRail(o: Option<Json>, v: Val)
    requires WellFormed(TList(SKILL_REF)) && Decodes(TList(SKILL_REF), o, v)
    ensures FieldRefs(o, "instructions_ref") == Some(NonEmpty(Instructions(ListFrom(v, SkillRefFrom))))
  {
    RefFields();
    FieldRefsDecode(SKILL_REF, o, v, 1);
    SkillColumn(v.items);
    assert v == VList(v.items);
  }

  lemma PayloadDecodes(j: Json, v: Val)
    requires WellFormed(DATASET_REF) && Read(DATASET_REF, j) == Some(v)
    ensures OwnRefs(Child(Some(j), "cas_refs")) == Some(NonEmpty(DatasetRefFrom(v).casRefs))
  {
    ChildDecodes(DATASET_REF, Some(j), v, 1);
    OwnRefsDecode(Child(Some(j), "cas_refs"), v.vals[1]);
  }

  lemma {:induction false} NestedPush(items: seq<Json>, key: string, a: seq<string>, b: seq<string>)
    requires items != [] && Nested(items[..|items| - 1], key) == Some(a)
    requires OwnRefs(Child(Some(items[|items| - 1]), key)) == Some(b)
    ensures Nested(items, key) == Some(a + b)
  {
  }

  function Datasets(vs: seq<Val>): seq<DatasetRef> {
    ListFrom(VList(vs), DatasetRefFrom)
  }

  lemma {:induction false} PayloadsPush(vs: seq<Val>)
    requires vs != []
    ensures Payloads(Datasets(vs)) == Payloads(Datasets(vs[..|vs| - 1])) + DatasetRefFrom(vs[|vs| - 1]).casRefs
  {
    assert Datasets(vs)[..|vs| - 1] == Datasets(vs[..|vs| - 1]);
  }

  lemma {:induction false} NestedDecodes(items: seq<Json>, vs: seq<Val>)
    requires WellFormed(DATASET_REF)
    requires |items| == |vs| && forall k :: 0 <= k < |vs| ==> Read(DATASET_REF, items[k]) == Some(vs[k])
    ensures Nested(items, "cas_refs") == Some(NonEmpty(Payloads(Datasets(vs))))
  {
    if items == [] {
      assert Datasets(vs) == [];
    } else {
      var n := |items| - 1;
      NestedDecodes(items[..n], vs[..n]);
      PayloadDecodes(items[n], vs[n]);
      var a, b := Payloads(Datasets(vs[..n])), DatasetRefFrom(vs[n]).casRefs;
      NestedPush(items, "cas_refs", NonEmpty(a), NonEmpty(b));
      PayloadsPush(vs);
      NonEmptyConcat(a, b);
    }
  }

  lemma DatasetRail(o: Option<Json>, v: Val)
    requires WellFormed(TList(DATASET_REF)) && Decodes(TList(DATASET_REF), o, v)
    ensures NestedRefs(o, "cas_refs") == Some(NonEmpty(Payloads(ListFrom(v, DatasetRefFrom))))
  {
    ListDecodes(DATASET_REF, o, v);
    NestedDecodes(Visited(o).value, v.items);
    assert v == VList(v.items);
  }

  lemma ReferenceFields()
    ensures |REFERENCES.fields| == 9
    ensures REFERENCES.fields[0] == Field("context", TList(CONTEXT_REF), OmitEmpty)
    ensures REFERENCES.fields[3] == Field("datasets", TList(DATASET_REF), OmitEmpty)
    ensures REFERENCES.fields[4] == Field("prompts", TList(ARTIFACT_REF), OmitEmpty)
    ensures REFERENCES.fields[5] == Field("rules", TList(ARTIFACT_REF), OmitEmpty)
    ensures REFERENCES.fields[6] == Field("skills", TList(SKILL_REF), OmitEmpty)
    ensures REFERENCES.fields[7] == Field("memory", TList(ARTIFACT_REF), OmitEmpty)
  {
  }

  ghost predicate SameReferences(o: Option<Json>, r: References) {
    && FieldRefs(Child(o, "context"), "content_ref") == Some(NonEmpty(ContextContents(r.context)))
    && FieldRefs(Child(o, "prompts"), "content_ref") == Some(NonEmpty(ArtifactContents(r.prompts)))
    && FieldRefs(Child(o, "rules"), "content_ref") == Some(NonEmpty(ArtifactContents(r.rules)))
    && FieldRefs(Child(o, "memory"), "content_ref") == Some(NonEmpty(ArtifactContents(r.memory)))
    && FieldRefs(Child(o, "skills"), "instructions_ref") == Some(NonEmpty(Instructions(r.skills)))
    && NestedRefs(Child(o, "datasets"), "cas_refs") == Some(NonEmpty(Payloads(r.datasets)))
  }

  lemma ReferenceChild(o: Option<Json>, v: Val, k: nat)
    requires WellFormed(REFERENCES) && Decodes(REFERENCES, o, v) && k < 9
    requires |REFERENCES.fields| == 9 && REFERENCES.fields[k].rule == OmitEmpty
    ensures WellFormed(REFERENCES.fields[k].shape)
    ensures Decodes(REFERENCES.fields[k].shape, Child(o, REFERENCES.fields[k].name), At(v, k))
  {
    ChildDecodes(REFERENCES, o, v, k);
  }

  /** What the tree walk finds under `references` is what the decoded rail holds. */
  lemma ReferencesAgree(o: Option<Json>, v: Val)
    requires WellFormed(REFERENCES) && Decodes(REFERENCES, o, v)
    ensures SameReferences(o, ReferencesFrom(v))
  {
    ReferenceFields();
    ReferenceChild(o, v, 0);
    ContextRail(Child(o, "context"), At(v, 0));
    ReferenceChild(o, v, 4);
    ArtifactRail(Child(o, "prompts"), At(v, 4));
    ReferenceChild(o, v, 5);
    ArtifactRail(Child(o, "rules"), At(v, 5));
    ReferenceChild(o, v, 7);
    ArtifactRail(Child(o, "memory"), At(v, 7));
    ReferenceChild(o, v, 6);
    SkillRail(Child(o, "skills"), At(v, 6));
    ReferenceChild(o, v, 3);
    DatasetRail(Child(o, "datasets"), At(v, 3));
  }

  lemma SteeringAgrees(o: Option<Json>, v: Val)
    requires WellFormed(STEERING) && Decodes(STEERING, o, v)
    ensures OwnRefs(Child(Child(o, "context"), "context_refs")) == Some(NonEmpty(SteeringFrom(v).context.contextRefs))
  {
    assert STEERING.fields[2] == Field("context", CONTEXT_STEERING, OmitEmpty);
    ChildDecodes(STEERING, o, v, 2);
    assert CONTEXT_STEERING.fields[0] == Field("context_refs", STRINGS, OmitEmpty);
    ChildDecodes(CONTEXT_STEERING, Child(o, "context"), v.vals[2], 0);
    OwnRefsDecode(Child(Child(o, "context"), "context_refs"), v.vals[2].vals[0]);
  }

  lemma NonEmptyRails(e: AppEnvelope)
    ensures var r := e.references;
      NonEmpty(ArtifactRails(e)) ==
        NonEmpty(ContextContents(r.context)) + NonEmpty(ArtifactContents(r.prompts)) +
        NonEmpty(ArtifactContents(r.rules)) + NonEmpty(ArtifactContents(r.memory)) +
        NonEmpty(Instructions(r.skills)) + NonEmpty(e.steering.context.contextRefs)
  {
    var r := e.references;
    var a := ContextContents(r.context);
    NonEmptyConcat(a, ArtifactContents(r.prompts));
    var b := a + ArtifactContents(r.prompts);
    NonEmptyConcat(b, ArtifactContents(r.rules));
    var c := b + ArtifactContents(r.rules);
    NonEmptyConcat(c, ArtifactContents(r.memory));
    var d := c + ArtifactContents(r.memory);
    NonEmptyConcat(d, Instructions(r.skills));
    NonEmptyConcat(d + Instructions(r.skills), e.steering.context.contextRefs);
  }

  ghost predicate SameSteering(o: Option<Json>, contextRefs: seq<string>) {
    OwnRefs(Child(Child(o, "context"), "context_refs")) == Some(NonEmpty(contextRefs))
  }

  lemma PartsAgree(j: Json, e: AppEnvelope)
    requires Decode(j) == Some(e)
    ensures SameReferences(Child(Some(j), "references"), e.references)
    ensures SameSteering(Child(Some(j), "steering_config"), e.steering.context.contextRefs)
  {
    AppShape();
    ReferencesShape();
    SteeringShape();
    RailFieldsOfApp();
    var v := Read(APP, j).value;
    ChildDecodes(APP, Some(j), v, 9);
    ReferencesAgree(Child(Some(j), "references"), v.vals[9]);
    ChildDecodes(APP, Some(j), v, 10);
    SteeringAgrees(Child(Some(j), "steering_config"), v.vals[10]);
  }

  /** On every tree the App reader decodes, the tree walk meets the refs of the envelope, in
      the same order. */
  lemma RailsAgree(j: Json, e: AppEnvelope, datasets: bool)
    requires Decode(j) == Some(e)
    ensures TreeRails(j, datasets) == Some(NonEmpty(Rails(e, datasets)))
  {
    PartsAgree(j, e);
    JoinArtifacts(j, e);
    JoinRails(j, e, datasets);
  }

  lemma JoinArtifacts(j: Json, e: AppEnvelope)
    requires SameReferences(Child(Some(j), "references"), e.references)
    requires SameSteering(Child(Some(j), "steering_config"), e.steering.context.contextRefs)
    ensures TreeArtifacts(j) == Some(NonEmpty(ArtifactRails(e)))
  {
    NonEmptyRails(e);
  }

  lemma JoinRails(j: Json, e: AppEnvelope, datasets: bool)
    requires TreeArtifacts(j) == Some(NonEmpty(ArtifactRails(e)))
    requires TreePayloads(j) == Some(NonEmpty(Payloads(e.references.datasets)))
    ensures TreeRails(j, datasets) == Some(NonEmpty(Rails(e, datasets)))
  {
    NonEmptyConcat(ArtifactRails(e), if datasets then Payloads(e.references.datasets) else []);
  }

  /** On every tree the App reader decodes, the walk returns the refs of the closure, sorted by
      UTF-16 unit instead of code point; so it is the same list exactly when no two refs swap
      under the two orders. */
  lemma ClosuresAgree(j: Json, e: AppEnvelope, datasets: bool)
    requires Decode(j) == Some(e)
    ensures TreeClosure(j, datasets) == Some(SortDistinct(UnitLess, Closure(e, datasets)))
    ensures TreeClosure(j, datasets) == Some(Closure(e, datasets)) <==>
              forall a, b :: a in Closure(e, datasets) && b in Closure(e, datasets) ==> !PlanesSwap(a, b)
  {
    RailsAgree(j, e, datasets);
    ClosureMeaning(e, datasets);
    var refs := NonEmpty(Rails(e, datasets));
    NonEmptyElems(Rails(e, datasets));
    DedupMeaning(refs);
    UnitLessIsOrder();
    SortDependsOnSet(UnitLess, Dedup(refs), Closure(e, datasets));
    Resorted(Closure(e, datasets));
  }

  lemma Resorted(s: seq<string>)
    requires Ascending(TextLess, s)
    ensures SortDistinct(UnitLess, s) == s <==> forall a, b :: a in s && b in s ==> !PlanesSwap(a, b)
  {
    OrdersAgree(s);
    UnitLessIsOrder();
    SortMeaning(UnitLess, s);
    var sorted := SortDistinct(UnitLess, s);
    assert forall x :: x in s <==> x in Elems(s);
    assert forall x :: x in sorted <==> x in Elems(sorted);
    if Ascending(UnitLess, s) {
      AscendingUnique(UnitLess, s, sorted);
    }
  }

  lemma {:induction false} HexNeverSwaps(a: string, b: string)
    requires forall i :: 0 <= i < |a| ==> a[i] <= 'f'
    ensures !PlanesSwap(a, b)
    decreases |a|
  {
    if a != "" && b != "" { HexNeverSwaps(a[1..], b[1..]); }
  }

  lemma HexListNeverSwaps(refs: seq<string>)
    requires AllHex(refs)
    ensures forall a, b :: a in refs && b in refs ==> !PlanesSwap(a, b)
  {
    forall a, b | a in refs && b in refs ensures !PlanesSwap(a, b) {
      var i :| 0 <= i < |refs| && refs[i] == a;
      assert HexRef(refs[i]);
      HexNeverSwaps(a, b);
    }
  }

  lemma AcceptedMeans(j: Json, e: AppEnvelope, conn: Connections)
    requires FromJson(j, conn) == Accept(e)
    ensures Decode(j) == Some(e) && Verdict(e, conn).Accept?
  {
  }

  /** On every envelope that is accepted, both SDKs return the same closure. */
  lemma AcceptedClosuresAgree(j: Json, e: AppEnvelope, conn: Connections, datasets: bool)
    requires FromJson(j, conn) == Accept(e)
    ensures TreeClosure(j, datasets) == Some(Closure(e, datasets)) && AllHex(Closure(e, datasets))
  {
    AcceptedMeans(j, e, conn);
    ValidClosure(e, conn, datasets);
    HexListNeverSwaps(Closure(e, datasets));
    ClosuresAgree(j, e, datasets);
  }
}
