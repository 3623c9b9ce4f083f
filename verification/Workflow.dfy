/** Durable workflows: the App view that carries the shared contract, and the mutual refusal
    of the two readers. */
module Workflow {
  import opened Lists
  import opened Serde
  import opened EnvelopeTypes
  import opened EnvelopeCodec
  import opened Envelope

  /** `into_app_envelope`. */
  function AppView(w: WorkflowEnvelope): AppEnvelope {
    AppEnvelope(APP_SCHEMA, w.name, w.version, w.description, w.delivers, w.tags, w.inputSchema, Some(w.blueprint),
                None, w.references, w.steering, w.replay, w.branchHandle, "")
  }

  /** Outcome of `WorkflowEnvelope::validate`. */
  function WorkflowVerdict(w: WorkflowEnvelope, conn: Connections): Outcome<WorkflowEnvelope> {
    if w.schema != WORKFLOW_SCHEMA then Refuse(BadSchema(w.schema))
    else if !w.blueprint.Obj? then Refuse(Invalid)
    else match Verdict(AppView(w), conn)
      case Refuse(error) => Refuse(error)
      case Accept(_) => Accept(w)
  }

  function JudgeWorkflow(conn: Connections): WorkflowEnvelope -> Outcome<WorkflowEnvelope> {
    w => WorkflowVerdict(w, conn)
  }

  /** `WorkflowEnvelope::to_canonical_json`, as a tree. */
  function WorkflowToJson(w: WorkflowEnvelope): Json {
    WorkflowShape();
    WorkflowFits(w);
    Write(WORKFLOW, WorkflowTo(w))
  }

  function WorkflowDecode(j: Json): Option<WorkflowEnvelope> {
    WorkflowShape();
    match Read(WORKFLOW, j)
    case None => None
    case Some(v) => Some(WorkflowFrom(v))
  }

  /** `WorkflowEnvelope::from_json_slice`. */
  function WorkflowFromJson(j: Json, conn: Connections): Outcome<WorkflowEnvelope> {
    Accepted(WorkflowDecode, JudgeWorkflow(conn), j)
  }

  /** `workflow_canonical_json`. */
  function WorkflowCanonicalJson(j: Json, conn: Connections): Outcome<Json> {
    Canonical(WorkflowDecode, JudgeWorkflow(conn), WorkflowToJson, j)
  }

  /** A workflow is valid exactly when its tag matches and its App view is valid: the check of
      the blueprint is part of the App contract. */
  lemma ValidationDelegates(w: WorkflowEnvelope, conn: Connections)
    ensures WorkflowVerdict(w, conn).Accept? <==> w.schema == WORKFLOW_SCHEMA && Verdict(AppView(w), conn).Accept?
    ensures w.schema == WORKFLOW_SCHEMA && WorkflowVerdict(w, conn).Refuse? ==> WorkflowVerdict(w, conn).error == Invalid
  {
    assert KnownSchema(AppView(w));
    assert APP_SCHEMA != EXPERIENCE_SCHEMA by { assert |APP_SCHEMA| != |EXPERIENCE_SCHEMA|; }
    assert Sound(AppView(w), conn) ==> w.blueprint.Obj?;
  }

  /** The App view loses nothing but the tag. */
  lemma AppViewLossless(w: WorkflowEnvelope, x: WorkflowEnvelope)
    ensures AppView(w) == AppView(x) && w.schema == x.schema <==> w == x
  {
  }

  lemma FaithfulHasNoNull(v: Val)
    requires Faithful(WORKFLOW, v)
    ensures WorkflowFrom(v).inputSchema != Some(Null)
  {
    FaithfulField(WORKFLOW, v, 6);
    OptionalRaw(v.vals[6]);
  }

  lemma WorkflowDecodedHoldsNoNull(j: Json)
    requires WorkflowDecode(j).Some?
    ensures WorkflowDecode(j).value.inputSchema != Some(Null)
  {
    WorkflowShape();
    ReadFaithful(WORKFLOW, j);
    FaithfulHasNoNull(Read(WORKFLOW, j).value);
  }

  /** A workflow survives encoding and decoding exactly when its input schema is not a present
      `null`; its blueprint is no option, so it may be one. */
  lemma WorkflowRoundTrip(w: WorkflowEnvelope)
    ensures WorkflowDecode(WorkflowToJson(w)) == Some(w) <==> w.inputSchema != Some(Null)
  {
    WorkflowShape();
    WorkflowFits(w);
    if w.inputSchema != Some(Null) {
      ReadWrite(WORKFLOW, WorkflowTo(w));
      WorkflowBack(w);
    } else if WorkflowDecode(WorkflowToJson(w)) == Some(w) {
      WorkflowDecodedHoldsNoNull(WorkflowToJson(w));
    }
  }

  lemma WorkflowLossless()
    ensures Lossless(WorkflowDecode, WorkflowToJson)
  {
    forall j | WorkflowDecode(j).Some? ensures WorkflowDecode(WorkflowToJson(WorkflowDecode(j).value)) == WorkflowDecode(j) {
      WorkflowDecodedHoldsNoNull(j);
      WorkflowRoundTrip(WorkflowDecode(j).value);
    }
  }

  lemma JudgesWorkflows(conn: Connections)
    ensures Judges(JudgeWorkflow(conn))
  {
  }

  /** The canonical workflow form is accepted, means the same, and is its own canonical form. */
  lemma WorkflowCanonicalStable(j: Json, conn: Connections)
    requires WorkflowCanonicalJson(j, conn).Accept?
    ensures var k := WorkflowCanonicalJson(j, conn).value;
      WorkflowFromJson(k, conn) == WorkflowFromJson(j, conn) && WorkflowCanonicalJson(k, conn) == Accept(k)
  {
    WorkflowLossless();
    JudgesWorkflows(conn);
    CanonicalForm(WorkflowDecode, JudgeWorkflow(conn), WorkflowToJson, j);
  }

  lemma ViewAccepted(w: WorkflowEnvelope, conn: Connections)
    requires WorkflowVerdict(w, conn).Accept? && w.inputSchema != Some(Null)
    ensures FromJson(ToJson(AppView(w)), conn) == Accept(AppView(w))
  {
    ValidationDelegates(w, conn);
    assert !HoldsNull(AppView(w));
    EnvelopeRoundTrip(AppView(w));
  }

  /** The App view of an accepted workflow is accepted by the App reader as itself. */
  lemma AppViewRuns(j: Json, conn: Connections, w: WorkflowEnvelope)
    requires WorkflowFromJson(j, conn) == Accept(w)
    ensures FromJson(ToJson(AppView(w)), conn) == Accept(AppView(w))
  {
    WorkflowDecodedHoldsNoNull(j);
    ViewAccepted(w, conn);
  }

  lemma TextRead(f: Field, m: map<string, Json>)
    requires f.shape == TStr && f.rule == Required && ReadField(f, m).Some?
    ensures f.name in m && m[f.name] == Str(Text(ReadField(f, m).value))
  {
  }

  lemma AppTag(j: Json)
    requires Decode(j).Some?
    ensures j.Obj? && "schema" in j.fields && j.fields["schema"] == Str(Decode(j).value.schema)
  {
    AppShape();
    assert APP.fields[0] == Field("schema", TStr, Required);
    TextRead(APP.fields[0], j.fields);
    assert Read(APP, j).value.vals[0] == ReadField(APP.fields[0], j.fields).value;
  }

  lemma WorkflowTag(j: Json)
    requires WorkflowDecode(j).Some?
    ensures j.Obj? && "schema" in j.fields && j.fields["schema"] == Str(WorkflowDecode(j).value.schema)
  {
    WorkflowShape();
    assert WORKFLOW.fields[0] == Field("schema", TStr, Required);
    TextRead(WORKFLOW.fields[0], j.fields);
    assert Read(WORKFLOW, j).value.vals[0] == ReadField(WORKFLOW.fields[0], j.fields).value;
  }

  lemma TagsDiffer()
    ensures WORKFLOW_SCHEMA != APP_SCHEMA && WORKFLOW_SCHEMA != EXPERIENCE_SCHEMA
  {
    assert |WORKFLOW_SCHEMA| != |APP_SCHEMA| && |WORKFLOW_SCHEMA| != |EXPERIENCE_SCHEMA|;
  }

  /** No tree is accepted by both readers. */
  lemma ReadersExclude(j: Json, conn: Connections)
    ensures !(FromJson(j, conn).Accept? && WorkflowFromJson(j, conn).Accept?)
  {
    TagsDiffer();
    if Decode(j).Some? && WorkflowDecode(j).Some? {
      AppTag(j);
      WorkflowTag(j);
    }
  }
}
