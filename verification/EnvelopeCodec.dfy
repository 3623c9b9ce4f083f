/** The envelope records as serde values: each record writes to a value of its shape, and
    nothing is lost. */
module EnvelopeCodec {
  import opened Lists
  import opened Serde
  import opened EnvelopeTypes

  /** `to` and `from` place the values of a type in a shape. */
  ghost predicate Codec<T(!new)>(s: Shape, to: T -> Val, from: Val -> T) {
    forall x: T :: Fits(s, to, from, x)
  }

  ghost predicate Fits<T>(s: Shape, to: T -> Val, from: Val -> T, x: T) {
    Faithful(s, to(x)) && from(to(x)) == x
  }

  // ------------------------------------------------------------------ parts

  function At(v: Val, i: nat): Val {
    if v.VStruct? && i < |v.vals| then v.vals[i] else VNone
  }

  function Text(v: Val): string {
    if v.VStr? then v.s else ""
  }

  function ListTo<T>(xs: seq<T>, to: T -> Val): Val {
    VList(seq(|xs|, i requires 0 <= i < |xs| => to(xs[i])))
  }

  function ListFrom<T>(v: Val, from: Val -> T): seq<T> {
    if v.VList? then seq(|v.items|, i requires 0 <= i < |v.items| => from(v.items[i])) else []
  }

  function DictTo<T>(m: map<string, T>, to: T -> Val): Val {
    VDict(map k | k in m :: to(m[k]))
  }

  function DictFrom<T>(v: Val, from: Val -> T): map<string, T> {
    if v.VDict? then map k | k in v.entries :: from(v.entries[k]) else map[]
  }

  function OptTo<T>(o: Option<T>, to: T -> Val): Val {
    match o
    case None => VNone
    case Some(x) => VSome(to(x))
  }

  function OptFrom<T>(v: Val, from: Val -> T): Option<T> {
    if v.VSome? then Some(from(v.some)) else None
  }

  lemma ListCodec<T(!new)>(s: Shape, to: T -> Val, from: Val -> T, xs: seq<T>)
    requires Codec(s, to, from)
    ensures Faithful(TList(s), ListTo(xs, to)) && ListFrom(ListTo(xs, to), from) == xs
  {
    forall i | 0 <= i < |xs| ensures Fits(s, to, from, xs[i]) {
    }
  }

  lemma DictCodec<T(!new)>(s: Shape, to: T -> Val, from: Val -> T, m: map<string, T>)
    requires Codec(s, to, from)
    ensures Faithful(TDict(s), DictTo(m, to)) && DictFrom(DictTo(m, to), from) == m
  {
    forall k | k in m ensures Fits(s, to, from, m[k]) {
    }
  }

  function Strings(xs: seq<string>): Val { ListTo(xs, x => VStr(x)) }
  function ToStrings(v: Val): seq<string> { ListFrom(v, x => Text(x)) }
  function Pairs(m: map<string, string>): Val { DictTo(m, x => VStr(x)) }
  function ToPairs(v: Val): map<string, string> { DictFrom(v, x => Text(x)) }

  lemma TextFits(s: string)
    ensures Faithful(TStr, VStr(s))
  {
  }

  lemma StringsCodec(xs: seq<string>)
    ensures Faithful(STRINGS, Strings(xs)) && ToStrings(Strings(xs)) == xs
  {
  }

  lemma PairsCodec(m: map<string, string>)
    ensures Faithful(PAIRS, Pairs(m)) && ToPairs(Pairs(m)) == m
  {
  }

  // ------------------------------------------------------------------ references

  function ContextRefTo(c: ContextRef): Val { VStruct([VStr(c.name), VStr(c.contentRef), VStr(c.mediaType)]) }
  function ContextRefFrom(v: Val): ContextRef { ContextRef(Text(At(v, 0)), Text(At(v, 1)), Text(At(v, 2))) }
  function ToolRefTo(t: ToolRef): Val { VStruct([VStr(t.toolId), VStr(t.toolVersion)]) }
  function ToolRefFrom(v: Val): ToolRef { ToolRef(Text(At(v, 0)), Text(At(v, 1))) }
  function ConnectionRefTo(c: ConnectionRef): Val { VStruct([VStr(c.descriptor), VStr(c.credentialRef)]) }
  function ConnectionRefFrom(v: Val): ConnectionRef { ConnectionRef(Text(At(v, 0)), Text(At(v, 1))) }
  function DatasetRefTo(d: DatasetRef): Val { VStruct([VStr(d.datasetRef), Strings(d.casRefs)]) }
  function DatasetRefFrom(v: Val): DatasetRef { DatasetRef(Text(At(v, 0)), ToStrings(At(v, 1))) }
  function ArtifactRefTo(a: ArtifactRef): Val { VStruct([VStr(a.name), VStr(a.contentRef)]) }
  function ArtifactRefFrom(v: Val): ArtifactRef { ArtifactRef(Text(At(v, 0)), Text(At(v, 1))) }
  function SkillRefTo(s: SkillRef): Val { VStruct([VStr(s.name), VStr(s.instructionsRef), Pairs(s.tools)]) }
  function SkillRefFrom(v: Val): SkillRef { SkillRef(Text(At(v, 0)), Text(At(v, 1)), ToPairs(At(v, 2))) }
  function AppRefTo(a: AppRef): Val { VStruct([VStr(a.handle)]) }
  function AppRefFrom(v: Val): AppRef { AppRef(Text(At(v, 0))) }

  lemma ContextRefCodec()
    ensures Codec(CONTEXT_REF, ContextRefTo, ContextRefFrom)
  {
    forall c: ContextRef ensures Fits(CONTEXT_REF, ContextRefTo, ContextRefFrom, c) {
      TextFits(c.name); TextFits(c.contentRef); TextFits(c.mediaType);
    }
  }

  lemma ToolRefCodec()
    ensures Codec(TOOL_REF, ToolRefTo, ToolRefFrom)
  {
    forall t: ToolRef ensures Fits(TOOL_REF, ToolRefTo, ToolRefFrom, t) {
      TextFits(t.toolId); TextFits(t.toolVersion);
    }
  }

  lemma ConnectionRefCodec()
    ensures Codec(CONNECTION_REF, ConnectionRefTo, ConnectionRefFrom)
  {
    forall c: ConnectionRef ensures Fits(CONNECTION_REF, ConnectionRefTo, ConnectionRefFrom, c) {
      TextFits(c.descriptor); TextFits(c.credentialRef);
    }
  }

  lemma DatasetRefCodec()
    ensures Codec(DATASET_REF, DatasetRefTo, DatasetRefFrom)
  {
    forall d: DatasetRef ensures Fits(DATASET_REF, DatasetRefTo, DatasetRefFrom, d) {
      TextFits(d.datasetRef); StringsCodec(d.casRefs);
    }
  }

  lemma ArtifactRefCodec()
    ensures Codec(ARTIFACT_REF, ArtifactRefTo, ArtifactRefFrom)
  {
    forall a: ArtifactRef ensures Fits(ARTIFACT_REF, ArtifactRefTo, ArtifactRefFrom, a) {
      TextFits(a.name); TextFits(a.contentRef);
    }
  }

  lemma SkillRefCodec()
    ensures Codec(SKILL_REF, SkillRefTo, SkillRefFrom)
  {
    forall s: SkillRef ensures Fits(SKILL_REF, SkillRefTo, SkillRefFrom, s) {
      TextFits(s.name); TextFits(s.instructionsRef); PairsCodec(s.tools);
    }
  }

  lemma AppRefCodec()
    ensures Codec(APP_REF, AppRefTo, AppRefFrom)
  {
    forall a: AppRef ensures Fits(APP_REF, AppRefTo, AppRefFrom, a) {
      TextFits(a.handle);
    }
  }

  function ReferencesTo(r: References): Val {
    VStruct([ListTo(r.context, ContextRefTo), ListTo(r.tools, ToolRefTo), ListTo(r.connections, ConnectionRefTo),
             ListTo(r.datasets, DatasetRefTo), ListTo(r.prompts, ArtifactRefTo), ListTo(r.rules, ArtifactRefTo),
             ListTo(r.skills, SkillRefTo), ListTo(r.memory, ArtifactRefTo), ListTo(r.apps, AppRefTo)])
  }

  function ReferencesFrom(v: Val): References {
    References(ListFrom(At(v, 0), ContextRefFrom), ListFrom(At(v, 1), ToolRefFrom),
               ListFrom(At(v, 2), ConnectionRefFrom), ListFrom(At(v, 3), DatasetRefFrom),
               ListFrom(At(v, 4), ArtifactRefFrom), ListFrom(At(v, 5), ArtifactRefFrom),
               ListFrom(At(v, 6), SkillRefFrom), ListFrom(At(v, 7), ArtifactRefFrom), ListFrom(At(v, 8), AppRefFrom))
  }

  lemma ReferencesFits(r: References)
    ensures Faithful(REFERENCES, ReferencesTo(r)) && ReferencesFrom(ReferencesTo(r)) == r
  {
    ContextRefCodec(); ListCodec(CONTEXT_REF, ContextRefTo, ContextRefFrom, r.context);
    ToolRefCodec(); ListCodec(TOOL_REF, ToolRefTo, ToolRefFrom, r.tools);
    ConnectionRefCodec(); ListCodec(CONNECTION_REF, ConnectionRefTo, ConnectionRefFrom, r.connections);
    DatasetRefCodec(); ListCodec(DATASET_REF, DatasetRefTo, DatasetRefFrom, r.datasets);
    ArtifactRefCodec(); ListCodec(ARTIFACT_REF, ArtifactRefTo, ArtifactRefFrom, r.prompts);
    ListCodec(ARTIFACT_REF, ArtifactRefTo, ArtifactRefFrom, r.rules);
    SkillRefCodec(); ListCodec(SKILL_REF, SkillRefTo, SkillRefFrom, r.skills);
    ListCodec(ARTIFACT_REF, ArtifactRefTo, ArtifactRefFrom, r.memory);
    AppRefCodec(); ListCodec(APP_REF, AppRefTo, AppRefFrom, r.apps);
  }

  lemma ReferencesDefault()
    ensures Emptyable(REFERENCES) && Default(REFERENCES) == VStruct(seq(9, _ => VList([])))
  {
    ReferencesShape();
  }

  lemma EmptyList<T>(xs: seq<T>, to: T -> Val)
    ensures ListTo(xs, to) == VList([]) <==> xs == []
  {
  }

  lemma EmptyRails(r: References)
    ensures r.IsEmpty() <==> ReferencesTo(r).vals == seq(9, _ => VList([]))
  {
    var vs, none := ReferencesTo(r).vals, seq(9, _ => VList([]));
    EmptyList(r.context, ContextRefTo);
    EmptyList(r.tools, ToolRefTo);
    EmptyList(r.connections, ConnectionRefTo);
    EmptyList(r.datasets, DatasetRefTo);
    EmptyList(r.prompts, ArtifactRefTo);
    EmptyList(r.rules, ArtifactRefTo);
    EmptyList(r.skills, SkillRefTo);
    EmptyList(r.memory, ArtifactRefTo);
    EmptyList(r.apps, AppRefTo);
    if vs == none {
      assert none[0] == none[1] == none[2] == none[3] == none[4] == none[5] == none[6] == none[7] == none[8];
    }
  }

  /** `References::is_empty` holds exactly at the default. */
  lemma ReferencesEmpty(r: References)
    ensures Emptyable(REFERENCES) && (r.IsEmpty() <==> ReferencesTo(r) == Default(REFERENCES))
  {
    ReferencesDefault();
    EmptyRails(r);
  }

  // ------------------------------------------------------------------ steering and replay

  function ModelTo(m: ModelSteering): Val { VStruct([VStr(m.modelRoute), Pairs(m.freeParams)]) }
  function ModelFrom(v: Val): ModelSteering { ModelSteering(Text(At(v, 0)), ToPairs(At(v, 1))) }

  function ReachTo(r: Reach): Val { VEnum(if r == Explicit then "explicit" else "inherit_principal") }
  function ReachFrom(v: Val): Reach { if v == VEnum("explicit") then Explicit else InheritPrincipal }

  function ToolsTo(t: ToolsSteering): Val {
    VStruct([Pairs(t.requestedGrants), Strings(t.netScope), Strings(t.fsScope), ReachTo(t.reach)])
  }
  function ToolsFrom(v: Val): ToolsSteering {
    ToolsSteering(ToPairs(At(v, 0)), ToStrings(At(v, 1)), ToStrings(At(v, 2)), ReachFrom(At(v, 3)))
  }

  function ContextTo(c: ContextSteering): Val {
    VStruct([Strings(c.contextRefs), Strings(c.bundleHandles), Strings(c.datasetRefs)])
  }
  function ContextFrom(v: Val): ContextSteering {
    ContextSteering(ToStrings(At(v, 0)), ToStrings(At(v, 1)), ToStrings(At(v, 2)))
  }

  function Uint32(v: Val): U32 { if v.VUint? && v.n <= MAX_U32 then v.n else 0 }
  function Uint64(v: Val): U64 { if v.VUint? && v.n <= MAX_U64 then v.n else 0 }

  function GuardsTo(g: Guards): Val {
    VStruct([OptTo(g.maxTurns, x => VUint(x)), OptTo(g.maxToolCalls, x => VUint(x)), VBool(g.tlsRequired),
             Strings(g.secretScope), OptTo(g.costCeiling, x => VUint(x))])
  }
  function GuardsFrom(v: Val): Guards {
    Guards(OptFrom(At(v, 0), Uint32), OptFrom(At(v, 1), Uint32), At(v, 2) == VBool(true), ToStrings(At(v, 3)),
           OptFrom(At(v, 4), Uint64))
  }

  function SteeringTo(s: SteeringConfig): Val {
    VStruct([ModelTo(s.model), ToolsTo(s.tools), ContextTo(s.context), GuardsTo(s.guards)])
  }
  function SteeringFrom(v: Val): SteeringConfig {
    SteeringConfig(ModelFrom(At(v, 0)), ToolsFrom(At(v, 1)), ContextFrom(At(v, 2)), GuardsFrom(At(v, 3)))
  }

  lemma ModelFits(m: ModelSteering)
    ensures Faithful(MODEL_STEERING, ModelTo(m)) && ModelFrom(ModelTo(m)) == m
  {
    TextFits(m.modelRoute);
    PairsCodec(m.freeParams);
  }

  lemma ModelEmpty(m: ModelSteering)
    ensures Emptyable(MODEL_STEERING) && (m.IsEmpty() <==> ModelTo(m) == Default(MODEL_STEERING))
  {
    ModelShape();
    var d := Default(MODEL_STEERING);
    assert d.vals == [Default(TStr), Default(PAIRS)];
    PairsCodec(m.freeParams);
    assert m.IsEmpty() ==> ModelTo(m).vals == d.vals;
  }

  lemma ReachFits(r: Reach)
    ensures Faithful(REACH, ReachTo(r)) && ReachFrom(ReachTo(r)) == r
    ensures ReachTo(r) == VEnum("explicit") <==> r == Explicit
  {
    assert "explicit" != "inherit_principal";
  }

  lemma ToolsFits(t: ToolsSteering)
    ensures Faithful(TOOLS_STEERING, ToolsTo(t)) && ToolsFrom(ToolsTo(t)) == t
  {
    PairsCodec(t.requestedGrants);
    StringsCodec(t.netScope);
    StringsCodec(t.fsScope);
    ReachFits(t.reach);
  }

  lemma ToolsEmpty(t: ToolsSteering)
    ensures Emptyable(TOOLS_STEERING) && (t.IsEmpty() <==> ToolsTo(t) == Default(TOOLS_STEERING))
  {
    ToolsShape();
    ReachFits(t.reach);
    PairsCodec(t.requestedGrants);
    var vs, ds := ToolsTo(t).vals, Default(TOOLS_STEERING).vals;
    assert ds == [Default(PAIRS), Default(STRINGS), Default(STRINGS), Default(REACH)];
    if t.IsEmpty() {
      assert vs == ds;
    }
  }

  lemma ContextFits(c: ContextSteering)
    ensures Faithful(CONTEXT_STEERING, ContextTo(c)) && ContextFrom(ContextTo(c)) == c
  {
    StringsCodec(c.contextRefs);
    StringsCodec(c.bundleHandles);
    StringsCodec(c.datasetRefs);
  }

  lemma ContextEmpty(c: ContextSteering)
    ensures Emptyable(CONTEXT_STEERING) && (c.IsEmpty() <==> ContextTo(c) == Default(CONTEXT_STEERING))
  {
    ContextShape();
    var vs, ds := ContextTo(c).vals, Default(CONTEXT_STEERING).vals;
    assert ds == [Default(STRINGS), Default(STRINGS), Default(STRINGS)];
    if c.IsEmpty() {
      assert vs == ds;
    }
  }

  lemma Opt32Fits(o: Option<U32>)
    ensures var v := OptTo(o, x => VUint(x)); Faithful(TOpt(TUint(MAX_U32)), v) && OptFrom(v, Uint32) == o
  {
  }

  lemma Opt64Fits(o: Option<U64>)
    ensures var v := OptTo(o, x => VUint(x)); Faithful(TOpt(TUint(MAX_U64)), v) && OptFrom(v, Uint64) == o
  {
  }

  lemma GuardsFits(g: Guards)
    ensures Faithful(GUARDS, GuardsTo(g)) && GuardsFrom(GuardsTo(g)) == g
  {
    Opt32Fits(g.maxTurns);
    Opt32Fits(g.maxToolCalls);
    StringsCodec(g.secretScope);
    Opt64Fits(g.costCeiling);
    assert Faithful(TBool, VBool(g.tlsRequired));
  }

  lemma GuardsEmpty(g: Guards)
    ensures Emptyable(GUARDS) && (g.IsEmpty() <==> GuardsTo(g) == Default(GUARDS))
  {
    GuardsShape();
    var vs, ds := GuardsTo(g).vals, Default(GUARDS).vals;
    var turns, cost := Default(TOpt(TUint(MAX_U32))), Default(TOpt(TUint(MAX_U64)));
    assert ds == [turns, turns, Default(TBool), Default(STRINGS), cost];
    if g.IsEmpty() {
      assert vs[0] == VNone && vs[1] == VNone && vs[2] == VBool(false) && vs[3] == VList([]) && vs[4] == VNone;
      assert vs == ds;
    }
  }

  lemma SteeringFields()
    ensures STEERING == TStruct([
      Field("model", MODEL_STEERING, OmitEmpty), Field("tools", TOOLS_STEERING, OmitEmpty),
      Field("context", CONTEXT_STEERING, OmitEmpty), Field("guards", GUARDS, OmitEmpty)])
  {
  }

  lemma SteeringFaithful(s: SteeringConfig)
    ensures Faithful(STEERING, SteeringTo(s))
  {
    SteeringFields();
    assert Faithful(MODEL_STEERING, ModelTo(s.model)) by { ModelFits(s.model); }
    assert Faithful(TOOLS_STEERING, ToolsTo(s.tools)) by { ToolsFits(s.tools); }
    assert Faithful(CONTEXT_STEERING, ContextTo(s.context)) by { ContextFits(s.context); }
    assert Faithful(GUARDS, GuardsTo(s.guards)) by { GuardsFits(s.guards); }
    FourFields(Field("model", MODEL_STEERING, OmitEmpty), Field("tools", TOOLS_STEERING, OmitEmpty),
               Field("context", CONTEXT_STEERING, OmitEmpty), Field("guards", GUARDS, OmitEmpty),
               ModelTo(s.model), ToolsTo(s.tools), ContextTo(s.context), GuardsTo(s.guards));
  }

  lemma SteeringBack(s: SteeringConfig)
    ensures SteeringFrom(SteeringTo(s)) == s
  {
    assert ModelFrom(ModelTo(s.model)) == s.model by { ModelFits(s.model); }
    assert ToolsFrom(ToolsTo(s.tools)) == s.tools by { ToolsFits(s.tools); }
    assert ContextFrom(ContextTo(s.context)) == s.context by { ContextFits(s.context); }
    assert GuardsFrom(GuardsTo(s.guards)) == s.guards by { GuardsFits(s.guards); }
  }

  lemma SteeringFits(s: SteeringConfig)
    ensures Faithful(STEERING, SteeringTo(s)) && SteeringFrom(SteeringTo(s)) == s
  {
    SteeringFaithful(s);
    SteeringBack(s);
  }

  /** `SteeringConfig::is_empty` holds exactly at the default: when all four axes do. */
  lemma SteeringEmpty(s: SteeringConfig)
    ensures Emptyable(STEERING) && (s.IsEmpty() <==> SteeringTo(s) == Default(STEERING))
  {
    SteeringShape();
    ModelEmpty(s.model);
    ToolsEmpty(s.tools);
    ContextEmpty(s.context);
    GuardsEmpty(s.guards);
    var vs, ds := SteeringTo(s).vals, Default(STEERING).vals;
    assert ds == [Default(MODEL_STEERING), Default(TOOLS_STEERING), Default(CONTEXT_STEERING), Default(GUARDS)];
    if s.IsEmpty() {
      assert vs == ds;
    }
  }

  function ModeTo(m: ReplayMode): Val { VEnum(if m == Frozen then "frozen" else "re_run") }
  function ModeFrom(v: Val): ReplayMode { if v == VEnum("frozen") then Frozen else ReRun }
  function ReplayTo(r: Replay): Val { VStruct([DictTo(r.perStep, ModeTo)]) }
  function ReplayFrom(v: Val): Replay { Replay(DictFrom(At(v, 0), ModeFrom)) }

  lemma ReplayModeCodec()
    ensures Codec(TEnum(["frozen", "re_run"]), ModeTo, ModeFrom)
  {
    assert "frozen" != "re_run";
  }

  lemma ReplayFits(r: Replay)
    ensures Faithful(REPLAY, ReplayTo(r)) && ReplayFrom(ReplayTo(r)) == r
  {
    ReplayModeCodec();
    DictCodec(TEnum(["frozen", "re_run"]), ModeTo, ModeFrom, r.perStep);
  }

  lemma ReplayEmpty(r: Replay)
    ensures Emptyable(REPLAY) && (r.IsEmpty() <==> ReplayTo(r) == Default(REPLAY))
  {
    ReplayShape();
    ReplayFits(r);
    var ds := Default(REPLAY).vals;
    assert ds == [VDict(map[])];
    if r.IsEmpty() {
      assert ReplayTo(r).vals == ds;
    }
  }

  // ------------------------------------------------------------------ the envelopes

  function FrameworkTo(f: HostedFramework): Val {
    VEnum(match f
      case Auto => "auto"
      case ViteReact => "vite_react"
      case NextJs => "next_js"
      case Svelte => "svelte")
  }
  function FrameworkFrom(v: Val): HostedFramework {
    if v == VEnum("vite_react") then ViteReact
    else if v == VEnum("next_js") then NextJs
    else if v == VEnum("svelte") then Svelte
    else Auto
  }

  function HostedTo(h: HostedConfig): Val {
    VStruct([FrameworkTo(h.framework), VStr(h.installCmd), VStr(h.devCmd), VStr(h.serveMode), VStr(h.buildCmd)])
  }
  function HostedFrom(v: Val): HostedConfig {
    HostedConfig(FrameworkFrom(At(v, 0)), Text(At(v, 1)), Text(At(v, 2)), Text(At(v, 3)), Text(At(v, 4)))
  }

  lemma FrameworkFits(f: HostedFramework)
    ensures Faithful(TEnum(["auto", "vite_react", "next_js", "svelte"]), FrameworkTo(f))
    ensures FrameworkFrom(FrameworkTo(f)) == f
  {
    assert "auto" != "vite_react" && "auto" != "next_js" && "auto" != "svelte";
    assert "vite_react" != "next_js" && "vite_react" != "svelte" && "next_js" != "svelte";
  }

  lemma HostedCodec(h: HostedConfig)
    ensures Faithful(HOSTED, HostedTo(h)) && HostedFrom(HostedTo(h)) == h
  {
    FrameworkFits(h.framework);
    TextFits(h.installCmd); TextFits(h.devCmd); TextFits(h.serveMode); TextFits(h.buildCmd);
  }

  function Raw(v: Val): Json { if v.VAny? then v.j else Null }

  function HeadTo(schema: string, name: string, version: string, description: string, delivers: string,
                  tags: seq<string>, inputSchema: Option<Json>): seq<Val>
  {
    [VStr(schema), VStr(name), VStr(version), VStr(description), VStr(delivers), Strings(tags),
     OptTo(inputSchema, x => VAny(x))]
  }

  function RailTo(references: References, steering: SteeringConfig, replay: Replay, branchHandle: string): seq<Val> {
    [ReferencesTo(references), SteeringTo(steering), ReplayTo(replay), VStr(branchHandle)]
  }

  function AppTo(e: AppEnvelope): Val {
    VStruct(HeadTo(e.schema, e.name, e.version, e.description, e.delivers, e.tags, e.inputSchema) +
            [OptTo(e.blueprint, x => VAny(x)), OptTo(e.hosted, HostedTo)] +
            RailTo(e.references, e.steering, e.replay, e.branchHandle) + [VStr(e.mode)])
  }

  function AppFrom(v: Val): AppEnvelope {
    AppEnvelope(Text(At(v, 0)), Text(At(v, 1)), Text(At(v, 2)), Text(At(v, 3)), Text(At(v, 4)), ToStrings(At(v, 5)),
                OptFrom(At(v, 6), Raw), OptFrom(At(v, 7), Raw), OptFrom(At(v, 8), HostedFrom),
                ReferencesFrom(At(v, 9)), SteeringFrom(At(v, 10)), ReplayFrom(At(v, 11)), Text(At(v, 12)),
                Text(At(v, 13)))
  }

  function WorkflowTo(w: WorkflowEnvelope): Val {
    VStruct(HeadTo(w.schema, w.name, w.version, w.description, w.delivers, w.tags, w.inputSchema) +
            [VAny(w.blueprint)] + RailTo(w.references, w.steering, w.replay, w.branchHandle))
  }

  function WorkflowFrom(v: Val): WorkflowEnvelope {
    WorkflowEnvelope(Text(At(v, 0)), Text(At(v, 1)), Text(At(v, 2)), Text(At(v, 3)), Text(At(v, 4)),
                     ToStrings(At(v, 5)), OptFrom(At(v, 6), Raw), Raw(At(v, 7)), ReferencesFrom(At(v, 8)),
                     SteeringFrom(At(v, 9)), ReplayFrom(At(v, 10)), Text(At(v, 11)))
  }

  lemma RawFits(o: Option<Json>)
    ensures var v := OptTo(o, x => VAny(x));
      && HasShape(TOpt(TAny), v)
      && (NoSomeNull(TOpt(TAny), v) <==> o != Some(Null))
      && OptFrom(v, Raw) == o
  {
  }

  lemma OptHostedFits(o: Option<HostedConfig>)
    ensures Faithful(TOpt(HOSTED), OptTo(o, HostedTo)) && OptFrom(OptTo(o, HostedTo), HostedFrom) == o
  {
    if o.Some? { HostedCodec(o.value); }
  }

  lemma HeadFits(schema: string, name: string, version: string, description: string, delivers: string,
                 tags: seq<string>, inputSchema: Option<Json>)
    ensures var v := VStruct(HeadTo(schema, name, version, description, delivers, tags, inputSchema));
      HasShape(TStruct(HEAD), v) && (NoSomeNull(TStruct(HEAD), v) <==> inputSchema != Some(Null))
  {
    TextFits(schema); TextFits(name); TextFits(version); TextFits(description); TextFits(delivers);
    StringsCodec(tags);
    RawFits(inputSchema);
    var vs := HeadTo(schema, name, version, description, delivers, tags, inputSchema);
    assert NoSomeNull(HEAD[6].shape, vs[6]) <==> inputSchema != Some(Null);
  }

  lemma RailFits(references: References, steering: SteeringConfig, replay: Replay, branchHandle: string)
    ensures Faithful(TStruct(RAIL), VStruct(RailTo(references, steering, replay, branchHandle)))
  {
    ReferencesFits(references);
    SteeringFits(steering);
    ReplayFits(replay);
    TextFits(branchHandle);
    FourFields(RAIL[0], RAIL[1], RAIL[2], RAIL[3],
               ReferencesTo(references), SteeringTo(steering), ReplayTo(replay), VStr(branchHandle));
  }

  lemma LaneFits(blueprint: Option<Json>, hosted: Option<HostedConfig>)
    ensures var fs := [Field("blueprint", TOpt(TAny), OmitEmpty), Field("hosted", TOpt(HOSTED), OmitEmpty)];
      var v := VStruct([OptTo(blueprint, x => VAny(x)), OptTo(hosted, HostedTo)]);
      HasShape(TStruct(fs), v) && (NoSomeNull(TStruct(fs), v) <==> blueprint != Some(Null))
  {
    RawFits(blueprint);
    OptHostedFits(hosted);
    var f, g := Field("blueprint", TOpt(TAny), OmitEmpty), Field("hosted", TOpt(HOSTED), OmitEmpty);
    var v, w := OptTo(blueprint, x => VAny(x)), OptTo(hosted, HostedTo);
    OneField(f, v);
    OneField(g, w);
    JoinFields([f], [v], [g], [w]);
    assert [f] + [g] == [f, g] && [v] + [w] == [v, w];
  }

  /** An App envelope is a value of its shape; it holds a present `null` exactly when its input
      schema or its blueprint is one. */
  lemma AppFits(e: AppEnvelope)
    ensures HasShape(APP, AppTo(e))
    ensures NoSomeNull(APP, AppTo(e)) <==> e.inputSchema != Some(Null) && e.blueprint != Some(Null)
  {
    HeadFits(e.schema, e.name, e.version, e.description, e.delivers, e.tags, e.inputSchema);
    LaneFits(e.blueprint, e.hosted);
    RailFits(e.references, e.steering, e.replay, e.branchHandle);
    TextFits(e.mode);
    OneField(Field("mode", TStr, OmitEmpty), VStr(e.mode));
    var head := HeadTo(e.schema, e.name, e.version, e.description, e.delivers, e.tags, e.inputSchema);
    var lane := [OptTo(e.blueprint, x => VAny(x)), OptTo(e.hosted, HostedTo)];
    var laneFields := [Field("blueprint", TOpt(TAny), OmitEmpty), Field("hosted", TOpt(HOSTED), OmitEmpty)];
    var rail := RailTo(e.references, e.steering, e.replay, e.branchHandle);
    JoinFields(HEAD, head, laneFields, lane);
    JoinFields(HEAD + laneFields, head + lane, RAIL, rail);
    JoinFields(HEAD + laneFields + RAIL, head + lane + rail, [Field("mode", TStr, OmitEmpty)], [VStr(e.mode)]);
  }

  lemma TextsBack(xs: seq<string>)
    ensures ToStrings(Strings(xs)) == xs
  {
    StringsCodec(xs);
  }

  lemma RawBack(o: Option<Json>)
    ensures OptFrom(OptTo(o, x => VAny(x)), Raw) == o
  {
  }

  lemma HostedBack(o: Option<HostedConfig>)
    ensures OptFrom(OptTo(o, HostedTo), HostedFrom) == o
  {
    OptHostedFits(o);
  }

  lemma RailBack(references: References, steering: SteeringConfig, replay: Replay)
    ensures ReferencesFrom(ReferencesTo(references)) == references
    ensures SteeringFrom(SteeringTo(steering)) == steering && ReplayFrom(ReplayTo(replay)) == replay
  {
    ReferencesFits(references);
    SteeringFits(steering);
    ReplayFits(replay);
  }

  lemma AppVals(e: AppEnvelope)
    ensures AppTo(e) == VStruct([
      VStr(e.schema), VStr(e.name), VStr(e.version), VStr(e.description), VStr(e.delivers), Strings(e.tags),
      OptTo(e.inputSchema, x => VAny(x)), OptTo(e.blueprint, x => VAny(x)), OptTo(e.hosted, HostedTo),
      ReferencesTo(e.references), SteeringTo(e.steering), ReplayTo(e.replay), VStr(e.branchHandle), VStr(e.mode)])
  {
  }

  lemma AppBack(e: AppEnvelope)
    ensures AppFrom(AppTo(e)) == e
  {
    AppVals(e);
    TextsBack(e.tags);
    RawBack(e.inputSchema);
    RawBack(e.blueprint);
    HostedBack(e.hosted);
    RailBack(e.references, e.steering, e.replay);
  }

  lemma WorkflowFits(w: WorkflowEnvelope)
    ensures HasShape(WORKFLOW, WorkflowTo(w))
    ensures NoSomeNull(WORKFLOW, WorkflowTo(w)) <==> w.inputSchema != Some(Null)
  {
    HeadFits(w.schema, w.name, w.version, w.description, w.delivers, w.tags, w.inputSchema);
    RailFits(w.references, w.steering, w.replay, w.branchHandle);
    assert Faithful(TAny, VAny(w.blueprint));
    OneField(Field("blueprint", TAny, Required), VAny(w.blueprint));
    var head := HeadTo(w.schema, w.name, w.version, w.description, w.delivers, w.tags, w.inputSchema);
    JoinFields(HEAD, head, [Field("blueprint", TAny, Required)], [VAny(w.blueprint)]);
    JoinFields(HEAD + [Field("blueprint", TAny, Required)], head + [VAny(w.blueprint)],
               RAIL, RailTo(w.references, w.steering, w.replay, w.branchHandle));
  }

  lemma WorkflowBack(w: WorkflowEnvelope)
    ensures WorkflowFrom(WorkflowTo(w)) == w
  {
    TextsBack(w.tags);
    RawBack(w.inputSchema);
    RailBack(w.references, w.steering, w.replay);
  }
}
