/** App and Workflow envelopes over JSON trees: validation, reading, canonical form. The
    check of a connection's descriptor and credential name is a parameter. */
module Envelope {
  import opened Lists
  import opened Decimals
  import opened Serde
  import opened EnvelopeTypes
  import opened EnvelopeCodec
  import opened Handles

  const APP_SCHEMA := "kortecx.app/v1"
  const EXPERIENCE_SCHEMA := "kortecx.experience/v1"
  const WORKFLOW_SCHEMA := "kortecx.workflow/v1"

  datatype AppError = BadJson | BadSchema(got: string) | Invalid
  datatype Outcome<T> = Accept(value: T) | Refuse(error: AppError)

  type Connections = ConnectionRef -> bool

  // ------------------------------------------------------------------ checks

  /** `check_ref`: 64 lowercase hexadecimal digits. */
  predicate HexRef(r: string) {
    |r| == 64 && forall i :: 0 <= i < 64 ==> '0' <= r[i] <= '9' || 'a' <= r[i] <= 'f'
  }

  /** `check_integer`: what `str::parse::<u64>` accepts, a leading plus included. */
  predicate IntegerText(v: string) {
    var d := if v != "" && v[0] == '+' then v[1..] else v;
    d != "" && AllDigits(d) && DigitsValue(d) < 0x1_0000_0000_0000_0000
  }

  /** `reject_floats`. */
  predicate NoFloats(j: Json) {
    match j
    case Null => true
    case Flag(_) => true
    case Int(i) => -0x8000_0000_0000_0000 <= i < 0x1_0000_0000_0000_0000
    case Float(_) => false
    case Str(_) => true
    case Arr(items) => forall i :: 0 <= i < |items| ==> NoFloats(items[i])
    case Obj(fields) => forall k :: k in fields ==> NoFloats(fields[k])
  }

  predicate ToolWishes(m: map<string, string>) {
    forall id :: id in m ==> ValidToolId(id) && IntegerText(m[id])
  }

  predicate LaneOk(e: AppEnvelope) {
    if e.schema == EXPERIENCE_SCHEMA then
      e.hosted.Some? && e.blueprint.None? && e.branchHandle != "" && e.mode == ""
    else
      e.blueprint.Some? && e.blueprint.value.Obj? && e.hosted.None? && e.mode in {"", "contextual", "codified"}
  }

  predicate ContentOk(r: References, contextRefs: seq<string>) {
    && (forall i :: 0 <= i < |r.context| ==> HexRef(r.context[i].contentRef))
    && (forall i :: 0 <= i < |r.prompts| ==> HexRef(r.prompts[i].contentRef))
    && (forall i :: 0 <= i < |r.rules| ==> HexRef(r.rules[i].contentRef))
    && (forall i :: 0 <= i < |r.memory| ==> HexRef(r.memory[i].contentRef))
    && (forall i :: 0 <= i < |r.skills| ==> HexRef(r.skills[i].instructionsRef))
    && (forall i :: 0 <= i < |r.datasets| ==> AllHex(r.datasets[i].casRefs))
    && AllHex(contextRefs)
  }

  predicate AllHex(refs: seq<string>) {
    forall i :: 0 <= i < |refs| ==> HexRef(refs[i])
  }

  predicate NamesOk(r: References, conn: Connections) {
    && (forall i :: 0 <= i < |r.connections| ==> conn(r.connections[i]))
    && (forall i :: 0 <= i < |r.apps| ==> ValidHandle(r.apps[i].handle))
  }

  predicate ToolsOk(r: References, grants: map<string, string>) {
    && (forall i :: 0 <= i < |r.tools| ==> ValidToolId(r.tools[i].toolId) && IntegerText(r.tools[i].toolVersion))
    && (forall i :: 0 <= i < |r.skills| ==> ToolWishes(r.skills[i].tools))
    && ToolWishes(grants)
  }

  /** Everything `validate` demands after the schema tag. */
  predicate Sound(e: AppEnvelope, conn: Connections) {
    && LaneOk(e)
    && ContentOk(e.references, e.steering.context.contextRefs)
    && NamesOk(e.references, conn)
    && ToolsOk(e.references, e.steering.tools.requestedGrants)
    && NoFloats(ToJson(e))
  }

  predicate KnownSchema(e: AppEnvelope) {
    e.schema == APP_SCHEMA || e.schema == EXPERIENCE_SCHEMA
  }

  /** Outcome of `AppEnvelope::validate`. */
  function Verdict(e: AppEnvelope, conn: Connections): Outcome<AppEnvelope> {
    if !KnownSchema(e) then Refuse(BadSchema(e.schema))
    else if Sound(e, conn) then Accept(e)
    else Refuse(Invalid)
  }

  // ------------------------------------------------------------------ validate

  method AllHexRefs(refs: seq<string>) returns (ok: bool)
    ensures ok <==> AllHex(refs)
  {
    for i := 0 to |refs|
      invariant forall k :: 0 <= k < i ==> HexRef(refs[k])
    {
      if !HexRef(refs[i]) { return false; }
    }
    return true;
  }

  method ArtifactsOk(xs: seq<ArtifactRef>) returns (ok: bool)
    ensures ok <==> forall i :: 0 <= i < |xs| ==> HexRef(xs[i].contentRef)
  {
    for i := 0 to |xs|
      invariant forall k :: 0 <= k < i ==> HexRef(xs[k].contentRef)
    {
      if !HexRef(xs[i].contentRef) { return false; }
    }
    return true;
  }

  method WishesOk(m: map<string, string>) returns (ok: bool)
    ensures ok <==> ToolWishes(m)
  {
    var left := m.Keys;
    while left != {}
      invariant left <= m.Keys
      invariant forall id :: id in m && id !in left ==> ValidToolId(id) && IntegerText(m[id])
      decreases left
    {
      var id :| id in left;
      if !ValidToolId(id) || !IntegerText(m[id]) { return false; }
      left := left - {id};
    }
    return true;
  }

  method CheckContent(r: References, contextRefs: seq<string>) returns (ok: bool)
    ensures ok <==> ContentOk(r, contextRefs)
  {
    for i := 0 to |r.context|
      invariant forall k :: 0 <= k < i ==> HexRef(r.context[k].contentRef)
    {
      if !HexRef(r.context[i].contentRef) { return false; }
    }
    var prompts := ArtifactsOk(r.prompts);
    if !prompts { return false; }
    var rules := ArtifactsOk(r.rules);
    if !rules { return false; }
    var memory := ArtifactsOk(r.memory);
    if !memory { return false; }
    for i := 0 to |r.skills|
      invariant forall k :: 0 <= k < i ==> HexRef(r.skills[k].instructionsRef)
    {
      if !HexRef(r.skills[i].instructionsRef) { return false; }
    }
    for i := 0 to |r.datasets|
      invariant forall k :: 0 <= k < i ==> AllHex(r.datasets[k].casRefs)
    {
      var cas := AllHexRefs(r.datasets[i].casRefs);
      if !cas { return false; }
    }
    ok := AllHexRefs(contextRefs);
  }

  method CheckNames(r: References, conn: Connections) returns (ok: bool)
    ensures ok <==> NamesOk(r, conn)
  {
    for i := 0 to |r.connections|
      invariant forall k :: 0 <= k < i ==> conn(r.connections[k])
    {
      if !conn(r.connections[i]) { return false; }
    }
    for i := 0 to |r.apps|
      invariant forall k :: 0 <= k < i ==> ValidHandle(r.apps[k].handle)
    {
      if !ValidHandle(r.apps[i].handle) { return false; }
    }
    return true;
  }

  method CheckTools(r: References, grants: map<string, string>) returns (ok: bool)
    ensures ok <==> ToolsOk(r, grants)
  {
    for i := 0 to |r.tools|
      invariant forall k :: 0 <= k < i ==> ValidToolId(r.tools[k].toolId) && IntegerText(r.tools[k].toolVersion)
    {
      if !ValidToolId(r.tools[i].toolId) || !IntegerText(r.tools[i].toolVersion) { return false; }
    }
    for i := 0 to |r.skills|
      invariant forall k :: 0 <= k < i ==> ToolWishes(r.skills[k].tools)
    {
      var wishes := WishesOk(r.skills[i].tools);
      if !wishes { return false; }
    }
    ok := WishesOk(grants);
  }

  /** `AppEnvelope::validate`. */
  method Validate(e: AppEnvelope, conn: Connections) returns (r: Outcome<AppEnvelope>)
    ensures r == Verdict(e, conn)
  {
    if e.schema == EXPERIENCE_SCHEMA {
      if e.hosted.None? { return Refuse(Invalid); }
      if e.blueprint.Some? { return Refuse(Invalid); }
      if e.branchHandle == "" { return Refuse(Invalid); }
      if e.mode != "" { return Refuse(Invalid); }
    } else {
      if e.schema != APP_SCHEMA { return Refuse(BadSchema(e.schema)); }
      if e.blueprint.None? || !e.blueprint.value.Obj? { return Refuse(Invalid); }
      if e.hosted.Some? { return Refuse(Invalid); }
      if e.mode != "" && e.mode != "contextual" && e.mode != "codified" { return Refuse(Invalid); }
    }
    var content := CheckContent(e.references, e.steering.context.contextRefs);
    if !content { return Refuse(Invalid); }
    var names := CheckNames(e.references, conn);
    if !names { return Refuse(Invalid); }
    var tools := CheckTools(e.references, e.steering.tools.requestedGrants);
    if !tools { return Refuse(Invalid); }
    r := if NoFloats(ToJson(e)) then Accept(e) else Refuse(Invalid);
  }

  // ------------------------------------------------------------------ readers

  /** Decode, then validate. */
  function Accepted<T>(decode: Json -> Option<T>, verdict: T -> Outcome<T>, j: Json): Outcome<T> {
    match decode(j)
    case None => Refuse(BadJson)
    case Some(e) => verdict(e)
  }

  /** Decode, validate, and write again. */
  function Canonical<T>(decode: Json -> Option<T>, verdict: T -> Outcome<T>, encode: T -> Json, j: Json): Outcome<Json> {
    match Accepted(decode, verdict, j)
    case Refuse(error) => Refuse(error)
    case Accept(e) => Accept(encode(e))
  }

  /** Whatever was decoded survives encoding and decoding. */
  ghost predicate Lossless<T>(decode: Json -> Option<T>, encode: T -> Json) {
    forall j {:trigger decode(j)} :: decode(j).Some? ==> decode(encode(decode(j).value)) == decode(j)
  }

  ghost predicate Judges<T(!new)>(verdict: T -> Outcome<T>) {
    forall e {:trigger verdict(e)} :: verdict(e).Accept? ==> verdict(e).value == e
  }

  /** The canonical form is accepted, means the same, and is its own canonical form. */
  lemma CanonicalForm<T(!new)>(decode: Json -> Option<T>, verdict: T -> Outcome<T>, encode: T -> Json, j: Json)
    requires Lossless(decode, encode) && Judges(verdict) && Canonical(decode, verdict, encode, j).Accept?
    ensures var k := Canonical(decode, verdict, encode, j).value;
      && Accepted(decode, verdict, k) == Accepted(decode, verdict, j)
      && Canonical(decode, verdict, encode, k) == Accept(k)
  {
    assert decode(j).Some?;
  }

  /** Accepted trees have the same canonical form exactly when they mean the same. */
  lemma SameCanonical<T(!new)>(decode: Json -> Option<T>, verdict: T -> Outcome<T>, encode: T -> Json, j: Json, k: Json)
    requires Lossless(decode, encode) && Judges(verdict)
    requires Accepted(decode, verdict, j).Accept? && Accepted(decode, verdict, k).Accept?
    ensures Canonical(decode, verdict, encode, j) == Canonical(decode, verdict, encode, k) <==>
              Accepted(decode, verdict, j) == Accepted(decode, verdict, k)
  {
    assert decode(j).Some? && decode(k).Some?;
  }

  // ------------------------------------------------------------------ App envelopes

  /** `to_canonical_json`, as a tree. */
  function ToJson(e: AppEnvelope): Json {
    AppShape();
    AppFits(e);
    Write(APP, AppTo(e))
  }

  /** `serde_json::from_slice` into an App envelope. */
  function Decode(j: Json): Option<AppEnvelope> {
    AppShape();
    match Read(APP, j)
    case None => None
    case Some(v) => Some(AppFrom(v))
  }

  function Judge(conn: Connections): AppEnvelope -> Outcome<AppEnvelope> {
    e => Verdict(e, conn)
  }

  lemma JudgesApps(conn: Connections)
    ensures Judges(Judge(conn))
  {
  }

  /** `AppEnvelope::from_json_slice`. */
  function FromJson(j: Json, conn: Connections): Outcome<AppEnvelope> {
    Accepted(Decode, Judge(conn), j)
  }

  /** `canonical_json`. */
  function CanonicalJson(j: Json, conn: Connections): Outcome<Json> {
    Canonical(Decode, Judge(conn), ToJson, j)
  }

  predicate HoldsNull(e: AppEnvelope) {
    e.inputSchema == Some(Null) || e.blueprint == Some(Null)
  }

  lemma OptionalRaw(v: Val)
    requires Faithful(TOpt(TAny), v)
    ensures OptFrom(v, Raw) != Some(Null)
  {
    if v.VSome? {
      assert HasShape(TAny, v.some) && v.some == VAny(v.some.j);
    }
  }

  lemma FaithfulHoldsNoNull(v: Val)
    requires Faithful(APP, v)
    ensures !HoldsNull(AppFrom(v))
  {
    FaithfulField(APP, v, 6);
    FaithfulField(APP, v, 7);
    OptionalRaw(v.vals[6]);
    OptionalRaw(v.vals[7]);
  }

  lemma DecodedHoldsNoNull(j: Json)
    requires Decode(j).Some?
    ensures !HoldsNull(Decode(j).value)
  {
    AppShape();
    ReadFaithful(APP, j);
    FaithfulHoldsNoNull(Read(APP, j).value);
  }

  /** An envelope survives encoding and decoding exactly when no present field holds the JSON
      `null`; the decoder never yields one that does. */
  lemma EnvelopeRoundTrip(e: AppEnvelope)
    ensures Decode(ToJson(e)) == Some(e) <==> !HoldsNull(e)
  {
    AppShape();
    AppFits(e);
    if !HoldsNull(e) {
      ReadWrite(APP, AppTo(e));
      AppBack(e);
    } else if Decode(ToJson(e)) == Some(e) {
      DecodedHoldsNoNull(ToJson(e));
    }
  }

  /** Canonical encoding is injective. */
  lemma EncodingInjective(e: AppEnvelope, f: AppEnvelope)
    requires !HoldsNull(e) && !HoldsNull(f) && ToJson(e) == ToJson(f)
    ensures e == f
  {
    EnvelopeRoundTrip(e);
    EnvelopeRoundTrip(f);
  }

  lemma AppLossless()
    ensures Lossless(Decode, ToJson)
  {
    forall j | Decode(j).Some? ensures Decode(ToJson(Decode(j).value)) == Decode(j) {
      DecodedHoldsNoNull(j);
      EnvelopeRoundTrip(Decode(j).value);
    }
  }

  /** The canonical form is accepted, means the same envelope, and is its own canonical form. */
  lemma CanonicalStable(j: Json, conn: Connections)
    requires CanonicalJson(j, conn).Accept?
    ensures var k := CanonicalJson(j, conn).value;
      FromJson(k, conn) == FromJson(j, conn) && CanonicalJson(k, conn) == Accept(k)
  {
    AppLossless();
    JudgesApps(conn);
    CanonicalForm(Decode, Judge(conn), ToJson, j);
  }

  /** Two accepted trees have the same canonical form exactly when they mean the same
      envelope: key order, unknown keys and explicit defaults do not matter. */
  lemma IdentityIsMeaning(j: Json, k: Json, conn: Connections)
    requires FromJson(j, conn).Accept? && FromJson(k, conn).Accept?
    ensures CanonicalJson(j, conn) == CanonicalJson(k, conn) <==> FromJson(j, conn) == FromJson(k, conn)
  {
    AppLossless();
    JudgesApps(conn);
    SameCanonical(Decode, Judge(conn), ToJson, j, k);
  }

  lemma KeptUnlessDefault(f: Field, v: Val)
    requires FieldWellFormed(f) && HasShape(f.shape, v) && f.rule == OmitEmpty
    ensures Kept(f, v) <==> v != Default(f.shape)
  {
    EmptyIffDefault(f.shape, v);
  }

  lemma RailFieldsOfApp()
    ensures |APP.fields| == 14
    ensures APP.fields[9] == Field("references", REFERENCES, OmitEmpty)
    ensures APP.fields[10] == Field("steering_config", STEERING, OmitEmpty)
    ensures APP.fields[11] == Field("replay", REPLAY, OmitEmpty)
  {
  }

  lemma RailKey(v: Val, i: nat)
    requires WellFormed(APP) && HasShape(APP, v) && i < |APP.fields| && APP.fields[i].rule == OmitEmpty
    ensures Write(APP, v).Obj? && Emptyable(APP.fields[i].shape)
    ensures APP.fields[i].name in Write(APP, v).fields <==> v.vals[i] != Default(APP.fields[i].shape)
  {
    FieldWritten(APP, v, i);
    KeptUnlessDefault(APP.fields[i], v.vals[i]);
  }

  lemma RailVals(e: AppEnvelope)
    ensures var vs := AppTo(e).vals;
      |vs| == 14 && vs[9] == ReferencesTo(e.references) && vs[10] == SteeringTo(e.steering) && vs[11] == ReplayTo(e.replay)
  {
  }

  /** A rail that is empty adds no key, and one that is not keeps its key. */
  lemma EmptyRailsAddNothing(e: AppEnvelope)
    ensures ToJson(e).Obj?
    ensures "references" in ToJson(e).fields <==> !e.references.IsEmpty()
    ensures "steering_config" in ToJson(e).fields <==> !e.steering.IsEmpty()
    ensures "replay" in ToJson(e).fields <==> !e.replay.IsEmpty()
  {
    AppShape();
    AppFits(e);
    RailFieldsOfApp();
    RailVals(e);
    RailKey(AppTo(e), 9);
    RailKey(AppTo(e), 10);
    RailKey(AppTo(e), 11);
    ReferencesEmpty(e.references);
    SteeringEmpty(e.steering);
    ReplayEmpty(e.replay);
  }
}
