/** The App envelope's records, and how each is written: field names, order, and which fields
    are omitted when empty. */
module EnvelopeTypes {
  import opened Lists
  import opened Serde

  type U32 = x: nat | x < 0x1_0000_0000
  type U64 = x: nat | x < 0x1_0000_0000_0000_0000

  datatype ContextRef = ContextRef(name: string, contentRef: string, mediaType: string)
  datatype ToolRef = ToolRef(toolId: string, toolVersion: string)
  datatype ConnectionRef = ConnectionRef(descriptor: string, credentialRef: string)
  datatype DatasetRef = DatasetRef(datasetRef: string, casRefs: seq<string>)
  datatype ArtifactRef = ArtifactRef(name: string, contentRef: string)
  datatype SkillRef = SkillRef(name: string, instructionsRef: string, tools: map<string, string>)
  datatype AppRef = AppRef(handle: string)

  datatype References = References(
    context: seq<ContextRef>, tools: seq<ToolRef>, connections: seq<ConnectionRef>, datasets: seq<DatasetRef>,
    prompts: seq<ArtifactRef>, rules: seq<ArtifactRef>, skills: seq<SkillRef>, memory: seq<ArtifactRef>,
    apps: seq<AppRef>)
  {
    predicate IsEmpty() {
      context == [] && tools == [] && connections == [] && datasets == [] && prompts == [] && rules == [] &&
      skills == [] && memory == [] && apps == []
    }
  }

  datatype ModelSteering = ModelSteering(modelRoute: string, freeParams: map<string, string>) {
    predicate IsEmpty() { modelRoute == "" && freeParams == map[] }
  }

  datatype Reach = Explicit | InheritPrincipal

  datatype ToolsSteering = ToolsSteering(
    requestedGrants: map<string, string>, netScope: seq<string>, fsScope: seq<string>, reach: Reach)
  {
    predicate IsEmpty() { requestedGrants == map[] && netScope == [] && fsScope == [] && reach == Explicit }
  }

  datatype ContextSteering = ContextSteering(
    contextRefs: seq<string>, bundleHandles: seq<string>, datasetRefs: seq<string>)
  {
    predicate IsEmpty() { contextRefs == [] && bundleHandles == [] && datasetRefs == [] }
  }

  datatype Guards = Guards(
    maxTurns: Option<U32>, maxToolCalls: Option<U32>, tlsRequired: bool, secretScope: seq<string>,
    costCeiling: Option<U64>)
  {
    predicate IsEmpty() {
      maxTurns.None? && maxToolCalls.None? && !tlsRequired && secretScope == [] && costCeiling.None?
    }
  }

  datatype SteeringConfig = SteeringConfig(
    model: ModelSteering, tools: ToolsSteering, context: ContextSteering, guards: Guards)
  {
    predicate IsEmpty() { model.IsEmpty() && tools.IsEmpty() && context.IsEmpty() && guards.IsEmpty() }
  }

  datatype ReplayMode = Frozen | ReRun

  datatype Replay = Replay(perStep: map<string, ReplayMode>) {
    predicate IsEmpty() { perStep == map[] }
  }

  datatype HostedFramework = Auto | ViteReact | NextJs | Svelte

  datatype HostedConfig = HostedConfig(
    framework: HostedFramework, installCmd: string, devCmd: string, serveMode: string, buildCmd: string)

  datatype AppEnvelope = AppEnvelope(
    schema: string, name: string, version: string, description: string, delivers: string, tags: seq<string>,
    inputSchema: Option<Json>, blueprint: Option<Json>, hosted: Option<HostedConfig>, references: References,
    steering: SteeringConfig, replay: Replay, branchHandle: string, mode: string)

  datatype WorkflowEnvelope = WorkflowEnvelope(
    schema: string, name: string, version: string, description: string, delivers: string, tags: seq<string>,
    inputSchema: Option<Json>, blueprint: Json, references: References, steering: SteeringConfig, replay: Replay,
    branchHandle: string)

  // ------------------------------------------------------------------ shapes

  const STRINGS := TList(TStr)
  const PAIRS := TDict(TStr)

  const CONTEXT_REF := TStruct([
    Field("name", TStr, Required), Field("content_ref", TStr, Required), Field("media_type", TStr, OmitEmpty)])
  const TOOL_REF := TStruct([Field("tool_id", TStr, Required), Field("tool_version", TStr, Required)])
  const CONNECTION_REF := TStruct([Field("descriptor", TStr, Required), Field("credential_ref", TStr, OmitEmpty)])
  const DATASET_REF := TStruct([Field("dataset_ref", TStr, Required), Field("cas_refs", STRINGS, OmitEmpty)])
  const ARTIFACT_REF := TStruct([Field("name", TStr, Required), Field("content_ref", TStr, Required)])
  const SKILL_REF := TStruct([
    Field("name", TStr, Required), Field("instructions_ref", TStr, Required), Field("tools", PAIRS, OmitEmpty)])
  const APP_REF := TStruct([Field("handle", TStr, Required)])
  const REFERENCES := TStruct([
    Field("context", TList(CONTEXT_REF), OmitEmpty), Field("tools", TList(TOOL_REF), OmitEmpty),
    Field("connections", TList(CONNECTION_REF), OmitEmpty), Field("datasets", TList(DATASET_REF), OmitEmpty),
    Field("prompts", TList(ARTIFACT_REF), OmitEmpty), Field("rules", TList(ARTIFACT_REF), OmitEmpty),
    Field("skills", TList(SKILL_REF), OmitEmpty), Field("memory", TList(ARTIFACT_REF), OmitEmpty),
    Field("apps", TList(APP_REF), OmitEmpty)])

  const MODEL_STEERING := TStruct([Field("model_route", TStr, OmitEmpty), Field("free_params", PAIRS, OmitEmpty)])
  const REACH := TEnum(["explicit", "inherit_principal"])
  const TOOLS_STEERING := TStruct([
    Field("requested_grants", PAIRS, OmitEmpty), Field("net_scope", STRINGS, OmitEmpty),
    Field("fs_scope", STRINGS, OmitEmpty), Field("reach", REACH, OmitEmpty)])
  const CONTEXT_STEERING := TStruct([
    Field("context_refs", STRINGS, OmitEmpty), Field("bundle_handles", STRINGS, OmitEmpty),
    Field("dataset_refs", STRINGS, OmitEmpty)])
  const MAX_U32: nat := 0xFFFF_FFFF
  const MAX_U64: nat := 0xFFFF_FFFF_FFFF_FFFF
  const GUARDS := TStruct([
    Field("max_turns", TOpt(TUint(MAX_U32)), OmitEmpty), Field("max_tool_calls", TOpt(TUint(MAX_U32)), OmitEmpty),
    Field("tls_required", TBool, OmitEmpty), Field("secret_scope", STRINGS, OmitEmpty),
    Field("cost_ceiling", TOpt(TUint(MAX_U64)), OmitEmpty)])
  const STEERING := TStruct([
    Field("model", MODEL_STEERING, OmitEmpty), Field("tools", TOOLS_STEERING, OmitEmpty),
    Field("context", CONTEXT_STEERING, OmitEmpty), Field("guards", GUARDS, OmitEmpty)])
  const REPLAY := TStruct([Field("per_step", TDict(TEnum(["frozen", "re_run"])), OmitEmpty)])
  const HOSTED := TStruct([
    Field("framework", TEnum(["auto", "vite_react", "next_js", "svelte"]), Written(VEnum("auto"))),
    Field("install_cmd", TStr, OmitEmpty), Field("dev_cmd", TStr, OmitEmpty), Field("serve_mode", TStr, OmitEmpty),
    Field("build_cmd", TStr, OmitEmpty)])

  // The fields both envelopes share, before and after the lane's own.
  const HEAD := [
    Field("schema", TStr, Required), Field("name", TStr, Required), Field("version", TStr, Written(VStr("1"))),
    Field("description", TStr, OmitEmpty), Field("delivers", TStr, OmitEmpty), Field("tags", STRINGS, OmitEmpty),
    Field("input_schema", TOpt(TAny), OmitEmpty)]
  const RAIL := [
    Field("references", REFERENCES, OmitEmpty), Field("steering_config", STEERING, OmitEmpty),
    Field("replay", REPLAY, OmitEmpty), Field("branch_handle", TStr, OmitEmpty)]

  const APP := TStruct(
    HEAD + [Field("blueprint", TOpt(TAny), OmitEmpty), Field("hosted", TOpt(HOSTED), OmitEmpty)] +
    RAIL + [Field("mode", TStr, OmitEmpty)])
  const WORKFLOW := TStruct(HEAD + [Field("blueprint", TAny, Required)] + RAIL)

  lemma RefShapes()
    ensures WellFormed(CONTEXT_REF) && WellFormed(TOOL_REF) && WellFormed(CONNECTION_REF)
  {
  }

  lemma MoreRefShapes()
    ensures WellFormed(DATASET_REF) && WellFormed(ARTIFACT_REF) && WellFormed(SKILL_REF) && WellFormed(APP_REF)
  {
  }

  lemma ReferenceNames()
    ensures DistinctNames(REFERENCES.fields)
  {
  }

  lemma ReferencesShape()
    ensures WellFormed(REFERENCES) && Emptyable(REFERENCES)
  {
    ReferenceNames();
    RefShapes();
    MoreRefShapes();
  }

  lemma ModelShape()
    ensures WellFormed(MODEL_STEERING) && Emptyable(MODEL_STEERING)
  {
  }

  lemma ToolsShape()
    ensures WellFormed(TOOLS_STEERING) && Emptyable(TOOLS_STEERING)
  {
  }

  lemma ContextShape()
    ensures WellFormed(CONTEXT_STEERING) && Emptyable(CONTEXT_STEERING)
  {
  }

  lemma GuardsShape()
    ensures WellFormed(GUARDS) && Emptyable(GUARDS)
  {
  }

  lemma SteeringShape()
    ensures WellFormed(STEERING) && Emptyable(STEERING)
  {
    ModelShape();
    ToolsShape();
    ContextShape();
    GuardsShape();
  }

  lemma ReplayShape()
    ensures WellFormed(REPLAY) && Emptyable(REPLAY)
  {
  }

  lemma HostedShape()
    ensures WellFormed(HOSTED)
  {
  }

  lemma JoinNames(fs: seq<Field>, gs: seq<Field>)
    requires DistinctNames(fs) && DistinctNames(gs)
    requires forall i, j :: 0 <= i < |fs| && 0 <= j < |gs| ==> fs[i].name != gs[j].name
    ensures DistinctNames(fs + gs)
  {
  }

  lemma HeadNames()
    ensures DistinctNames(HEAD + [Field("blueprint", TOpt(TAny), OmitEmpty), Field("hosted", TOpt(HOSTED), OmitEmpty)])
  {
  }

  lemma AppNames()
    ensures DistinctNames(APP.fields)
  {
    HeadNames();
    var head := HEAD + [Field("blueprint", TOpt(TAny), OmitEmpty), Field("hosted", TOpt(HOSTED), OmitEmpty)];
    var rail := RAIL + [Field("mode", TStr, OmitEmpty)];
    JoinNames(head, rail);
    assert APP.fields == head + rail;
  }

  lemma WorkflowNames()
    ensures DistinctNames(WORKFLOW.fields)
  {
  }

  lemma LargeFields(f: Field)
    requires f.shape in {REFERENCES, STEERING, REPLAY, TOpt(HOSTED)} && f.rule == OmitEmpty
    ensures FieldWellFormed(f)
  {
    ReferencesShape();
    SteeringShape();
    ReplayShape();
    HostedShape();
  }

  lemma AppShape()
    ensures WellFormed(APP)
  {
    AppNames();
    LargeFields(Field("hosted", TOpt(HOSTED), OmitEmpty));
    LargeFields(Field("references", REFERENCES, OmitEmpty));
    LargeFields(Field("steering_config", STEERING, OmitEmpty));
    LargeFields(Field("replay", REPLAY, OmitEmpty));
  }

  lemma WorkflowShape()
    ensures WellFormed(WORKFLOW)
  {
    WorkflowNames();
    LargeFields(Field("references", REFERENCES, OmitEmpty));
    LargeFields(Field("steering_config", STEERING, OmitEmpty));
    LargeFields(Field("replay", REPLAY, OmitEmpty));
  }
}
