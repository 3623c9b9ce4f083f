/** Where each field of an envelope stands in its JSON document, key by key, spelled out
    independently of the shapes the codec works with. Each predicate relates the value at a
    place, if there is one, to a field. A written document leaves a place out exactly when the
    field is empty; a document to be read may also spell the empty value out. */
module EnvelopePlaces {
  import opened Lists
  import opened Serde
  import opened EnvelopeTypes
  import opened TreeRefs

  // ------------------------------------------------------------------ plain fields

  predicate RequiredText(o: Option<Json>, s: string) {
    o == Some(Str(s))
  }

  predicate TextAt(written: bool, o: Option<Json>, s: string) {
    match o
    case None => s == ""
    case Some(j) => j == Str(s) && (written ==> s != "")
  }

  predicate ListAt<T(==)>(written: bool, o: Option<Json>, xs: seq<T>, item: (bool, Json, T) -> bool) {
    match o
    case None => xs == []
    case Some(j) =>
      && j.Arr? && |j.items| == |xs| && (written ==> xs != [])
      && forall i :: 0 <= i < |xs| ==> item(written, j.items[i], xs[i])
  }

  predicate DictAt<T(==)>(written: bool, o: Option<Json>, m: map<string, T>, item: (bool, Json, T) -> bool) {
    match o
    case None => m == map[]
    case Some(j) =>
      && j.Obj? && j.fields.Keys == m.Keys && (written ==> m != map[])
      && forall k :: k in m ==> item(written, j.fields[k], m[k])
  }

  predicate TextIn(written: bool, j: Json, s: string) {
    j == Str(s)
  }

  predicate TextsAt(written: bool, o: Option<Json>, xs: seq<string>) {
    ListAt(written, o, xs, TextIn)
  }

  predicate PairsAt(written: bool, o: Option<Json>, m: map<string, string>) {
    DictAt(written, o, m, TextIn)
  }

  predicate FlagAt(written: bool, o: Option<Json>, b: bool) {
    match o
    case None => !b
    case Some(j) => j == Flag(b) && (written ==> b)
  }

  /** A missing number may be spelled `null`. */
  predicate CountAt(written: bool, o: Option<Json>, n: Option<nat>) {
    match o
    case None => n == None
    case Some(j) => if j == Null then n == None && !written else n.Some? && j == Int(n.value)
  }

  /** Any JSON value; a reader takes `null` for a missing one. */
  predicate RawAt(written: bool, o: Option<Json>, r: Option<Json>) {
    match o
    case None => r == None
    case Some(j) => if j == Null && !written then r == None else r == Some(j)
  }

  /** An object, if present; a written one is not empty. */
  predicate ObjectAt(written: bool, o: Option<Json>, empty: bool) {
    o.Some? ==> o.value.Obj? && (written ==> !empty)
  }

  // ------------------------------------------------------------------ references

  predicate ContextRefIn(written: bool, j: Json, c: ContextRef) {
    var o := Some(j);
    && j.Obj? && RequiredText(Child(o, "name"), c.name) && RequiredText(Child(o, "content_ref"), c.contentRef)
    && TextAt(written, Child(o, "media_type"), c.mediaType)
  }

  predicate ToolRefIn(written: bool, j: Json, t: ToolRef) {
    var o := Some(j);
    j.Obj? && RequiredText(Child(o, "tool_id"), t.toolId) && RequiredText(Child(o, "tool_version"), t.toolVersion)
  }

  predicate ConnectionRefIn(written: bool, j: Json, c: ConnectionRef) {
    var o := Some(j);
    j.Obj? && RequiredText(Child(o, "descriptor"), c.descriptor) && TextAt(written, Child(o, "credential_ref"), c.credentialRef)
  }

  predicate DatasetRefIn(written: bool, j: Json, d: DatasetRef) {
    var o := Some(j);
    j.Obj? && RequiredText(Child(o, "dataset_ref"), d.datasetRef) && TextsAt(written, Child(o, "cas_refs"), d.casRefs)
  }

  predicate ArtifactRefIn(written: bool, j: Json, a: ArtifactRef) {
    var o := Some(j);
    j.Obj? && RequiredText(Child(o, "name"), a.name) && RequiredText(Child(o, "content_ref"), a.contentRef)
  }

  predicate SkillRefIn(written: bool, j: Json, s: SkillRef) {
    var o := Some(j);
    && j.Obj? && RequiredText(Child(o, "name"), s.name) && RequiredText(Child(o, "instructions_ref"), s.instructionsRef)
    && PairsAt(written, Child(o, "tools"), s.tools)
  }

  predicate AppRefIn(written: bool, j: Json, a: AppRef) {
    j.Obj? && RequiredText(Child(Some(j), "handle"), a.handle)
  }

  predicate ReferencesAt(written: bool, o: Option<Json>, r: References) {
    && ObjectAt(written, o, r.IsEmpty())
    && ListAt(written, Child(o, "context"), r.context, ContextRefIn)
    && ListAt(written, Child(o, "tools"), r.tools, ToolRefIn)
    && ListAt(written, Child(o, "connections"), r.connections, ConnectionRefIn)
    && ListAt(written, Child(o, "datasets"), r.datasets, DatasetRefIn)
    && ListAt(written, Child(o, "prompts"), r.prompts, ArtifactRefIn)
    && ListAt(written, Child(o, "rules"), r.rules, ArtifactRefIn)
    && ListAt(written, Child(o, "skills"), r.skills, SkillRefIn)
    && ListAt(written, Child(o, "memory"), r.memory, ArtifactRefIn)
    && ListAt(written, Child(o, "apps"), r.apps, AppRefIn)
  }

  // ------------------------------------------------------------------ steering and replay

  predicate ModelAt(written: bool, o: Option<Json>, m: ModelSteering) {
    && ObjectAt(written, o, m.IsEmpty())
    && TextAt(written, Child(o, "model_route"), m.modelRoute)
    && PairsAt(written, Child(o, "free_params"), m.freeParams)
  }

  predicate ReachAt(written: bool, o: Option<Json>, r: Reach) {
    match r
    case Explicit => o == None || (o == Some(Str("explicit")) && !written)
    case InheritPrincipal => o == Some(Str("inherit_principal"))
  }

  predicate ToolsAt(written: bool, o: Option<Json>, t: ToolsSteering) {
    && ObjectAt(written, o, t.IsEmpty())
    && PairsAt(written, Child(o, "requested_grants"), t.requestedGrants)
    && TextsAt(written, Child(o, "net_scope"), t.netScope)
    && TextsAt(written, Child(o, "fs_scope"), t.fsScope)
    && ReachAt(written, Child(o, "reach"), t.reach)
  }

  predicate ContextAt(written: bool, o: Option<Json>, c: ContextSteering) {
    && ObjectAt(written, o, c.IsEmpty())
    && TextsAt(written, Child(o, "context_refs"), c.contextRefs)
    && TextsAt(written, Child(o, "bundle_handles"), c.bundleHandles)
    && TextsAt(written, Child(o, "dataset_refs"), c.datasetRefs)
  }

  predicate GuardsAt(written: bool, o: Option<Json>, g: Guards) {
    && ObjectAt(written, o, g.IsEmpty())
    && CountAt(written, Child(o, "max_turns"), g.maxTurns)
    && CountAt(written, Child(o, "max_tool_calls"), g.maxToolCalls)
    && FlagAt(written, Child(o, "tls_required"), g.tlsRequired)
    && TextsAt(written, Child(o, "secret_scope"), g.secretScope)
    && CountAt(written, Child(o, "cost_ceiling"), g.costCeiling)
  }

  predicate SteeringAt(written: bool, o: Option<Json>, s: SteeringConfig) {
    && ObjectAt(written, o, s.IsEmpty())
    && ModelAt(written, Child(o, "model"), s.model)
    && ToolsAt(written, Child(o, "tools"), s.tools)
    && ContextAt(written, Child(o, "context"), s.context)
    && GuardsAt(written, Child(o, "guards"), s.guards)
  }

  predicate ModeIn(written: bool, j: Json, m: ReplayMode) {
    match m
    case Frozen => j == Str("frozen")
    case ReRun => j == Str("re_run")
  }

  predicate ReplayAt(written: bool, o: Option<Json>, r: Replay) {
    ObjectAt(written, o, r.IsEmpty()) && DictAt(written, Child(o, "per_step"), r.perStep, ModeIn)
  }

  // ------------------------------------------------------------------ the envelopes

  function FrameworkText(f: HostedFramework): string {
    match f
    case Auto => "auto"
    case ViteReact => "vite_react"
    case NextJs => "next_js"
    case Svelte => "svelte"
  }

  /** The framework is always written; a reader takes a missing one for `auto`. */
  predicate FrameworkAt(written: bool, o: Option<Json>, f: HostedFramework) {
    if o == None then !written && f == Auto else o == Some(Str(FrameworkText(f)))
  }

  predicate HostedIn(written: bool, j: Json, h: HostedConfig) {
    var o := Some(j);
    && j.Obj? && FrameworkAt(written, Child(o, "framework"), h.framework)
    && TextAt(written, Child(o, "install_cmd"), h.installCmd)
    && TextAt(written, Child(o, "dev_cmd"), h.devCmd)
    && TextAt(written, Child(o, "serve_mode"), h.serveMode)
    && TextAt(written, Child(o, "build_cmd"), h.buildCmd)
  }

  predicate HostedAt(written: bool, o: Option<Json>, h: Option<HostedConfig>) {
    match o
    case None => h == None
    case Some(j) => if j == Null then h == None && !written else h.Some? && HostedIn(written, j, h.value)
  }

  /** The version is always written; a reader takes a missing one for `1`. */
  predicate VersionAt(written: bool, o: Option<Json>, version: string) {
    if o == None then !written && version == "1" else o == Some(Str(version))
  }

  predicate HeadIn(written: bool, j: Json, schema: string, name: string, version: string, description: string,
                   delivers: string, tags: seq<string>, inputSchema: Option<Json>)
  {
    var o := Some(j);
    && RequiredText(Child(o, "schema"), schema)
    && RequiredText(Child(o, "name"), name)
    && VersionAt(written, Child(o, "version"), version)
    && TextAt(written, Child(o, "description"), description)
    && TextAt(written, Child(o, "delivers"), delivers)
    && TextsAt(written, Child(o, "tags"), tags)
    && RawAt(written, Child(o, "input_schema"), inputSchema)
  }

  predicate RailIn(written: bool, j: Json, references: References, steering: SteeringConfig, replay: Replay,
                   branchHandle: string)
  {
    var o := Some(j);
    && ReferencesAt(written, Child(o, "references"), references)
    && SteeringAt(written, Child(o, "steering_config"), steering)
    && ReplayAt(written, Child(o, "replay"), replay)
    && TextAt(written, Child(o, "branch_handle"), branchHandle)
  }

  predicate AppIn(written: bool, j: Json, e: AppEnvelope) {
    var o := Some(j);
    && j.Obj?
    && HeadIn(written, j, e.schema, e.name, e.version, e.description, e.delivers, e.tags, e.inputSchema)
    && RawAt(written, Child(o, "blueprint"), e.blueprint)
    && HostedAt(written, Child(o, "hosted"), e.hosted)
    && RailIn(written, j, e.references, e.steering, e.replay, e.branchHandle)
    && TextAt(written, Child(o, "mode"), e.mode)
  }

  predicate WorkflowIn(written: bool, j: Json, w: WorkflowEnvelope) {
    && j.Obj?
    && HeadIn(written, j, w.schema, w.name, w.version, w.description, w.delivers, w.tags, w.inputSchema)
    && Child(Some(j), "blueprint") == Some(w.blueprint)
    && RailIn(written, j, w.references, w.steering, w.replay, w.branchHandle)
  }
}
