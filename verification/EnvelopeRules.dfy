/** What the envelope checks mean for documents: the lanes, the tags, versions and refs, in the
    terms of the JSON a user writes. */
module EnvelopeRules {
  import opened Lists
  import opened Decimals
  import opened Serde
  import opened Handles
  import opened EnvelopeTypes
  import opened EnvelopeCodec
  import opened Envelope
  import opened TreeRefs
  import opened EnvelopePlaces
  import opened EnvelopeFields

  // ------------------------------------------------------------------ texts

  lemma HexDigit(c: char)
    ensures '0' <= c <= '9' || 'a' <= c <= 'f' <==> c in "0123456789abcdef"
  {
    var hex := "0123456789abcdef";
    if '0' <= c <= '9' {
      assert hex[c as int - '0' as int] == c;
    } else if 'a' <= c <= 'f' {
      assert hex[10 + (c as int - 'a' as int)] == c;
    }
  }

  /** A ref is 64 of the sixteen lowercase hexadecimal digits. */
  lemma HexRefMeaning(r: string)
    ensures HexRef(r) <==> |r| == 64 && forall i :: 0 <= i < |r| ==> r[i] in "0123456789abcdef"
  {
    forall i | 0 <= i < |r| ensures '0' <= r[i] <= '9' || 'a' <= r[i] <= 'f' <==> r[i] in "0123456789abcdef" {
      HexDigit(r[i]);
    }
  }

  /** A version is any number below 2^64, with or without a plus sign. */
  lemma VersionAccepted(n: nat)
    ensures IntegerText(Decimal(n)) <==> n <= 18446744073709551615
    ensures IntegerText("+" + Decimal(n)) <==> n <= 18446744073709551615
  {
    DecimalReads(n);
    assert ("+" + Decimal(n))[1..] == Decimal(n);
    assert Decimal(n)[0] != '+';
  }

  /** Nothing without a digit, and nothing with any other character, is one. */
  lemma VersionRefused(v: string)
    ensures IntegerText(v) ==> v != "" && v != "+" && forall i :: 0 <= i < |v| ==> '0' <= v[i] <= '9' || (i == 0 && v[i] == '+')
  {
    if v != "" && v[0] == '+' {
      assert forall i :: 1 <= i < |v| ==> v[i] == v[1..][i - 1];
    }
  }

  /** Tool ids: one name, or two joined by a slash; handle characters only, at most 128. */
  lemma ToolIdForms(a: string, b: string)
    requires '/' !in a && '/' !in b
    ensures ValidToolId(a) <==> 1 <= |a| <= 128 && AllHandleChars(a)
    ensures ValidToolId(a + "/" + b) <==> a != "" && b != "" && |a| + 1 + |b| <= 128 && AllHandleChars(a) && AllHandleChars(b)
  {
    SplitFirst(a, b, '/');
    assert a + ['/'] + b == a + "/" + b;
    assert Split(a, '/') == [a] && Split(b, '/') == [b];
    var two := [a] + [b];
    assert two[0] == a && two[1] == b && [a][0] == a;
  }

  // ------------------------------------------------------------------ lanes

  lemma TagsOfLanes()
    ensures APP_SCHEMA == "kortecx.app/v1" && EXPERIENCE_SCHEMA == "kortecx.experience/v1" && APP_SCHEMA != EXPERIENCE_SCHEMA
  {
    assert |APP_SCHEMA| == 14 && |EXPERIENCE_SCHEMA| == 21;
  }

  predicate AbsentOrNull(o: Option<Json>) {
    o == None || o == Some(Null)
  }

  lemma DecodedLane(j: Json, e: AppEnvelope)
    requires Decode(j) == Some(e)
    ensures j.Obj? && RequiredText(Child(Some(j), "schema"), e.schema)
    ensures RawAt(false, Child(Some(j), "blueprint"), e.blueprint) && HostedAt(false, Child(Some(j), "hosted"), e.hosted)
    ensures TextAt(false, Child(Some(j), "branch_handle"), e.branchHandle) && TextAt(false, Child(Some(j), "mode"), e.mode)
  {
    AppReads(j, e);
  }

  lemma SoundLane(e: AppEnvelope, conn: Connections)
    requires Verdict(e, conn).Accept?
    ensures KnownSchema(e) && LaneOk(e) && ToolWishes(e.steering.tools.requestedGrants)
  {
  }

  /** Every accepted document is of one of two lanes. A functional App has a blueprint object, no
      hosting and one of the known modes; an experience has a hosting object and a branch, and
      neither blueprint nor mode. */
  lemma AcceptedLane(j: Json, conn: Connections)
    requires FromJson(j, conn).Accept?
    ensures j.Obj?
    ensures var o := Some(j);
      var tag, plan, hosted, mode := Child(o, "schema"), Child(o, "blueprint"), Child(o, "hosted"), Child(o, "mode");
      || (&& tag == Some(Str("kortecx.app/v1")) && plan.Some? && plan.value.Obj? && AbsentOrNull(hosted)
          && (mode == None || mode == Some(Str("")) || mode == Some(Str("contextual")) || mode == Some(Str("codified"))))
      || (&& tag == Some(Str("kortecx.experience/v1")) && AbsentOrNull(plan) && hosted.Some? && hosted.value.Obj?
          && (mode == None || mode == Some(Str("")))
          && Child(o, "branch_handle").Some? && Child(o, "branch_handle") != Some(Str("")))
  {
    var e := FromJson(j, conn).value;
    AcceptedMeans(j, e, conn);
    DecodedLane(j, e);
    SoundLane(e, conn);
    TagsOfLanes();
  }

  /** A document with any other tag is refused for its tag. */
  lemma OtherTagRefused(j: Json, e: AppEnvelope, conn: Connections)
    requires Decode(j) == Some(e) && e.schema != "kortecx.app/v1" && e.schema != "kortecx.experience/v1"
    ensures FromJson(j, conn) == Refuse(BadSchema(e.schema)) && Child(Some(j), "schema") == Some(Str(e.schema))
  {
    DecodedLane(j, e);
    TagsOfLanes();
  }

  const NO_REFERENCES := References([], [], [], [], [], [], [], [], [])
  const NO_STEERING := SteeringConfig(ModelSteering("", map[]), ToolsSteering(map[], [], [], Explicit), ContextSteering([], [], []),
                                      Guards(None, None, false, [], None))

  /** An envelope with nothing but its lane. */
  function Minimal(tag: string, name: string, blueprint: Option<Json>, hosted: Option<HostedConfig>, branch: string, mode: string): AppEnvelope {
    AppEnvelope(tag, name, "1", "", "", [], None, blueprint, hosted, NO_REFERENCES, NO_STEERING, Replay(map[]), branch, mode)
  }

  lemma NothingNamed()
    ensures NO_REFERENCES.IsEmpty() && NO_STEERING.IsEmpty()
    ensures ContentOk(NO_REFERENCES, NO_STEERING.context.contextRefs) && ToolsOk(NO_REFERENCES, NO_STEERING.tools.requestedGrants)
    ensures forall conn :: NamesOk(NO_REFERENCES, conn)
  {
  }

  predicate AppKey(key: string) {
    key in ["schema", "name", "version", "description", "delivers", "tags", "input_schema", "blueprint", "hosted",
            "references", "steering_config", "replay", "branch_handle", "mode"]
  }

  lemma AppKeys(e: AppEnvelope, key: string)
    requires ToJson(e).Obj? && key in ToJson(e).fields
    ensures AppKey(key)
  {
    AppShape();
    AppFits(e);
    KeysAreFields(APP, AppTo(e), |APP.fields|, key);
    var i :| 0 <= i < |APP.fields| && APP.fields[i].name == key;
    AppFieldName(i);
  }

  lemma AppFieldName(i: nat)
    requires i < |APP.fields|
    ensures AppKey(APP.fields[i].name)
  {
    var names := ["schema", "name", "version", "description", "delivers", "tags", "input_schema", "blueprint", "hosted",
                  "references", "steering_config", "replay", "branch_handle", "mode"];
    assert |APP.fields| == 14 && APP.fields[i].name == names[i];
  }

  /** What a minimal envelope writes: texts, its blueprint and its hosting. */
  lemma MinimalPlaces(e: AppEnvelope)
    requires e == Minimal(e.schema, e.name, e.blueprint, e.hosted, e.branchHandle, e.mode)
    ensures var o := Some(ToJson(e));
      && ToJson(e).Obj? && RequiredText(Child(o, "schema"), e.schema) && RequiredText(Child(o, "name"), e.name) && RequiredText(Child(o, "version"), "1")
      && Child(o, "description") == None && Child(o, "delivers") == None && Child(o, "tags") == None && Child(o, "input_schema") == None
      && Child(o, "references") == None && Child(o, "steering_config") == None && Child(o, "replay") == None
      && TextAt(true, Child(o, "branch_handle"), e.branchHandle) && TextAt(true, Child(o, "mode"), e.mode)
      && RawAt(true, Child(o, "blueprint"), e.blueprint) && HostedAt(true, Child(o, "hosted"), e.hosted)
  {
    AppWrites(e);
    NothingNamed();
  }

  lemma MinimalNoFloats(e: AppEnvelope)
    requires e == Minimal(e.schema, e.name, e.blueprint, e.hosted, e.branchHandle, e.mode)
    requires e.blueprint.Some? ==> NoFloats(e.blueprint.value)
    requires Child(Some(ToJson(e)), "hosted").Some? ==> NoFloats(Child(Some(ToJson(e)), "hosted").value)
    ensures NoFloats(ToJson(e))
  {
    MinimalPlaces(e);
    var doc := ToJson(e);
    forall key | key in doc.fields ensures NoFloats(doc.fields[key]) {
      AppKeys(e, key);
      assert Child(Some(doc), key) == Some(doc.fields[key]);
    }
  }

  /** A place nothing stands at holds the empty value of its field. */
  lemma NothingThere(j: Json)
    requires j.Obj? && "references" !in j.fields && "steering_config" !in j.fields && "replay" !in j.fields
    ensures ReferencesAt(false, Child(Some(j), "references"), NO_REFERENCES)
    ensures SteeringAt(false, Child(Some(j), "steering_config"), NO_STEERING)
    ensures ReplayAt(false, Child(Some(j), "replay"), Replay(map[]))
  {
  }

  /** A document with no key but those of a lane. */
  ghost predicate LaneDocument(j: Json, tag: string, name: string) {
    && j.Obj? && Child(Some(j), "schema") == Some(Str(tag)) && Child(Some(j), "name") == Some(Str(name))
    && forall key :: key in j.fields ==> key in {"schema", "name", "blueprint", "hosted", "branch_handle", "mode"}
  }

  lemma LaneKeys(j: Json, tag: string, name: string, key: string)
    requires LaneDocument(j, tag, name) && key in {"version", "description", "delivers", "tags", "input_schema", "references", "steering_config", "replay"}
    ensures Child(Some(j), key) == None
  {
    assert |"schema"| == 6 && |"name"| == 4 && |"blueprint"| == 9 && |"hosted"| == 6 && |"branch_handle"| == 13 && |"mode"| == 4;
    assert |"version"| == 7 && |"description"| == 11 && |"delivers"| == 8 && |"tags"| == 4 && |"input_schema"| == 12;
    assert |"references"| == 10 && |"steering_config"| == 15 && |"replay"| == 6;
    assert "tags"[0] != "name"[0] && "tags"[0] != "mode"[0] && "replay"[0] != "schema"[0] && "replay"[0] != "hosted"[0];
  }

  lemma LaneHead(j: Json, tag: string, name: string)
    requires LaneDocument(j, tag, name)
    ensures HeadIn(false, j, tag, name, "1", "", "", [], None)
  {
    LaneKeys(j, tag, name, "version"); LaneKeys(j, tag, name, "description"); LaneKeys(j, tag, name, "delivers");
    LaneKeys(j, tag, name, "tags"); LaneKeys(j, tag, name, "input_schema");
  }

  lemma LaneRail(j: Json, tag: string, name: string, branch: string)
    requires LaneDocument(j, tag, name) && TextAt(false, Child(Some(j), "branch_handle"), branch)
    ensures RailIn(false, j, NO_REFERENCES, NO_STEERING, Replay(map[]), branch)
  {
    LaneKeys(j, tag, name, "references"); LaneKeys(j, tag, name, "steering_config"); LaneKeys(j, tag, name, "replay");
    NothingThere(j);
  }

  /** Such a document decodes to the minimal envelope of what its lane keys hold. */
  lemma LaneDecodes(j: Json, tag: string, name: string, blueprint: Option<Json>, hosted: Option<HostedConfig>, branch: string, mode: string)
    requires LaneDocument(j, tag, name)
    requires RawAt(false, Child(Some(j), "blueprint"), blueprint) && HostedAt(false, Child(Some(j), "hosted"), hosted)
    requires TextAt(false, Child(Some(j), "branch_handle"), branch) && TextAt(false, Child(Some(j), "mode"), mode)
    ensures Decode(j) == Some(Minimal(tag, name, blueprint, hosted, branch, mode))
  {
    LaneHead(j, tag, name);
    LaneRail(j, tag, name, branch);
    AppReads(j, Minimal(tag, name, blueprint, hosted, branch, mode));
  }

  /** The smallest functional App: tag, name, any blueprint object without floats, and one of the
      three modes. */
  lemma BareAppAccepted(j: Json, name: string, b: map<string, Json>, mode: string, conn: Connections)
    requires LaneDocument(j, "kortecx.app/v1", name) && NoFloats(Obj(b)) && (mode == "" || mode == "contextual" || mode == "codified")
    requires Child(Some(j), "blueprint") == Some(Obj(b)) && Child(Some(j), "hosted") == None
    requires Child(Some(j), "branch_handle") == None && Child(Some(j), "mode") == Some(Str(mode))
    ensures FromJson(j, conn).Accept?
  {
    var e := Minimal("kortecx.app/v1", name, Some(Obj(b)), None, "", mode);
    LaneDecodes(j, "kortecx.app/v1", name, Some(Obj(b)), None, "", mode);
    AppSound(e, name, b, mode, conn);
  }

  lemma AppSound(e: AppEnvelope, name: string, b: map<string, Json>, mode: string, conn: Connections)
    requires e == Minimal("kortecx.app/v1", name, Some(Obj(b)), None, "", mode)
    requires NoFloats(Obj(b)) && (mode == "" || mode == "contextual" || mode == "codified")
    ensures Verdict(e, conn) == Accept(e)
  {
    TagsOfLanes();
    NothingNamed();
    MinimalPlaces(e);
    MinimalNoFloats(e);
  }

  const PLAIN_HOSTING := HostedConfig(Auto, "", "", "", "")

  /** The smallest experience: tag, name, an empty hosting object and a branch. */
  lemma BareExperienceAccepted(j: Json, name: string, branch: string, conn: Connections)
    requires LaneDocument(j, "kortecx.experience/v1", name) && branch != ""
    requires Child(Some(j), "blueprint") == None && Child(Some(j), "hosted") == Some(Obj(map[]))
    requires Child(Some(j), "branch_handle") == Some(Str(branch)) && Child(Some(j), "mode") == None
    ensures FromJson(j, conn).Accept?
  {
    var e := Minimal("kortecx.experience/v1", name, None, Some(PLAIN_HOSTING), branch, "");
    LaneDecodes(j, "kortecx.experience/v1", name, None, Some(PLAIN_HOSTING), branch, "");
    ExperienceSound(e, name, branch, conn);
  }

  lemma ExperienceSound(e: AppEnvelope, name: string, branch: string, conn: Connections)
    requires e == Minimal("kortecx.experience/v1", name, None, Some(PLAIN_HOSTING), branch, "") && branch != ""
    ensures Verdict(e, conn) == Accept(e)
  {
    TagsOfLanes();
    NothingNamed();
    MinimalPlaces(e);
    HostingNoFloats(e);
    MinimalNoFloats(e);
  }

  lemma HostedFieldText(i: nat)
    requires i < |HOSTED.fields|
    ensures HOSTED.fields[i].shape == TStr || HOSTED.fields[i].shape.TEnum?
  {
  }

  lemma HostingIsTexts(h: HostedConfig)
    ensures WellFormed(HOSTED) && HasShape(HOSTED, HostedTo(h)) && NoFloats(Write(HOSTED, HostedTo(h)))
  {
    HostedShape();
    HostedCodec(h);
    forall i | 0 <= i < |HOSTED.fields| ensures HOSTED.fields[i].shape == TStr || HOSTED.fields[i].shape.TEnum? {
      HostedFieldText(i);
    }
    RecordOfTexts(HOSTED, HostedTo(h));
  }

  lemma RecordOfTexts(s: Shape, v: Val)
    requires s.TStruct? && WellFormed(s) && HasShape(s, v)
    requires forall i :: 0 <= i < |s.fields| ==> s.fields[i].shape == TStr || s.fields[i].shape.TEnum?
    ensures NoFloats(Write(s, v))
  {
    var doc := Write(s, v);
    forall key | key in doc.fields ensures NoFloats(doc.fields[key]) {
      KeysAreFields(s, v, |s.fields|, key);
      var i :| 0 <= i < |s.fields| && s.fields[i].name == key;
      FieldWritten(s, v, i);
    }
  }

  lemma OptionWritten(s: Shape, v: Val, i: nat, name: string, t: Shape, y: Val)
    requires s.TStruct? && WellFormed(s) && HasShape(s, v) && i < |s.fields|
    requires s.fields[i] == Field(name, TOpt(t), OmitEmpty) && v.vals[i] == VSome(y) && WellFormed(t) && HasShape(t, y)
    ensures Child(Some(Write(s, v)), name) == Some(Write(t, y))
  {
    FieldWritten(s, v, i);
  }

  lemma HostedIsEighth(e: AppEnvelope, h: HostedConfig)
    requires e.hosted == Some(h)
    ensures |APP.fields| == 14 && APP.fields[8] == Field("hosted", TOpt(HOSTED), OmitEmpty)
    ensures |AppTo(e).vals| == 14 && AppTo(e).vals[8] == VSome(HostedTo(h))
  {
    AppShapes();
    AppVals(e);
  }

  lemma HostingWritten(e: AppEnvelope, h: HostedConfig)
    requires e.hosted == Some(h)
    ensures WellFormed(HOSTED) && HasShape(HOSTED, HostedTo(h))
    ensures Child(Some(ToJson(e)), "hosted") == Some(Write(HOSTED, HostedTo(h)))
  {
    AppShape();
    AppFits(e);
    HostedIsEighth(e, h);
    HostedShape();
    HostedCodec(h);
    OptionWritten(APP, AppTo(e), 8, "hosted", HOSTED, HostedTo(h));
  }

  lemma HostingNoFloats(e: AppEnvelope)
    requires e.hosted == Some(PLAIN_HOSTING)
    ensures var h := Child(Some(ToJson(e)), "hosted"); h.Some? ==> NoFloats(h.value)
  {
    HostingWritten(e, PLAIN_HOSTING);
    HostingIsTexts(PLAIN_HOSTING);
  }

  lemma DecodedGrants(j: Json, e: AppEnvelope)
    requires Decode(j) == Some(e)
    ensures PairsAt(false, Child(Child(Child(Some(j), "steering_config"), "tools"), "requested_grants"), e.steering.tools.requestedGrants)
  {
    AppReads(j, e);
  }

  /** Every tool an accepted document asks for is named by a valid id, with a number for its
      version. */
  lemma AcceptedGrants(j: Json, conn: Connections, id: string)
    requires FromJson(j, conn).Accept?
    ensures var grants := Child(Child(Child(Some(j), "steering_config"), "tools"), "requested_grants");
      grants.Some? && grants.value.Obj? && id in grants.value.fields ==>
        && ValidToolId(id) && grants.value.fields[id].Str? && IntegerText(grants.value.fields[id].s)
  {
    var e := FromJson(j, conn).value;
    AcceptedMeans(j, e, conn);
    DecodedGrants(j, e);
    SoundLane(e, conn);
  }

  lemma SoundRails(e: AppEnvelope, conn: Connections)
    requires Verdict(e, conn).Accept?
    ensures forall i :: 0 <= i < |e.references.tools| ==> ValidToolId(e.references.tools[i].toolId) && IntegerText(e.references.tools[i].toolVersion)
    ensures forall i, id :: 0 <= i < |e.references.skills| && id in e.references.skills[i].tools ==>
      ValidToolId(id) && IntegerText(e.references.skills[i].tools[id])
    ensures forall i :: 0 <= i < |e.references.apps| ==> ValidHandle(e.references.apps[i].handle)
    ensures forall i :: 0 <= i < |e.references.connections| ==> conn(e.references.connections[i])
  {
    var skills := e.references.skills;
    forall i, id | 0 <= i < |skills| && id in skills[i].tools ensures ValidToolId(id) && IntegerText(skills[i].tools[id]) {
      assert ToolWishes(skills[i].tools);
    }
  }

  lemma DecodedRails(j: Json, e: AppEnvelope)
    requires Decode(j) == Some(e)
    ensures var o := Child(Some(j), "references");
      && ListAt(false, Child(o, "tools"), e.references.tools, ToolRefIn) && ListAt(false, Child(o, "apps"), e.references.apps, AppRefIn)
      && ListAt(false, Child(o, "connections"), e.references.connections, ConnectionRefIn)
  {
    AppReads(j, e);
  }

  predicate TextWhere(o: Option<Json>, ok: string -> bool) {
    o.Some? && o.value.Str? && ok(o.value.s)
  }

  /** In an accepted document every tool names a valid id and a number. */
  lemma AcceptedTools(j: Json, conn: Connections, i: nat)
    requires FromJson(j, conn).Accept?
    ensures var tools := Child(Child(Some(j), "references"), "tools");
      tools.Some? ==> tools.value.Arr? && (i < |tools.value.items| ==>
        TextWhere(Child(Some(tools.value.items[i]), "tool_id"), ValidToolId) && TextWhere(Child(Some(tools.value.items[i]), "tool_version"), IntegerText))
  {
    var e := FromJson(j, conn).value;
    AcceptedMeans(j, e, conn);
    DecodedRails(j, e);
    SoundRails(e, conn);
    var tools := Child(Child(Some(j), "references"), "tools");
    if tools.Some? && i < |e.references.tools| {
      assert ToolRefIn(false, tools.value.items[i], e.references.tools[i]);
    }
  }

  /** Every app it names has a valid handle. */
  lemma AcceptedApps(j: Json, conn: Connections, i: nat)
    requires FromJson(j, conn).Accept?
    ensures var apps := Child(Child(Some(j), "references"), "apps");
      apps.Some? ==> apps.value.Arr? && (i < |apps.value.items| ==> TextWhere(Child(Some(apps.value.items[i]), "handle"), ValidHandle))
  {
    var e := FromJson(j, conn).value;
    AcceptedMeans(j, e, conn);
    DecodedRails(j, e);
    SoundRails(e, conn);
    var apps := Child(Child(Some(j), "references"), "apps");
    if apps.Some? && i < |e.references.apps| {
      assert AppRefIn(false, apps.value.items[i], e.references.apps[i]);
    }
  }

  /** Every connection it names is one the platform admits. */
  lemma AcceptedConnections(j: Json, conn: Connections, i: nat)
    requires FromJson(j, conn).Accept?
    ensures var conns := Child(Child(Some(j), "references"), "connections");
      conns.Some? ==> conns.value.Arr? && (i < |conns.value.items| ==> exists c :: ConnectionRefIn(false, conns.value.items[i], c) && conn(c))
  {
    var e := FromJson(j, conn).value;
    AcceptedMeans(j, e, conn);
    DecodedRails(j, e);
    SoundRails(e, conn);
    var conns := Child(Child(Some(j), "references"), "connections");
    if conns.Some? && i < |e.references.connections| {
      assert ConnectionRefIn(false, conns.value.items[i], e.references.connections[i]);
    }
  }

  // ------------------------------------------------------------------ numbers

  /** `x` is `j` or stands somewhere inside it. */
  ghost predicate Inside(x: Json, j: Json) {
    || x == j
    || (j.Arr? && exists i :: 0 <= i < |j.items| && Inside(x, j.items[i]))
    || (j.Obj? && exists k :: k in j.fields && Inside(x, j.fields[k]))
  }

  /** A number the check admits: an integer of 64 bits, signed or unsigned. */
  predicate FitNumber(x: Json) {
    !x.Float? && (x.Int? ==> -9223372036854775808 <= x.i <= 18446744073709551615)
  }

  lemma {:induction false} NoFloatInside(j: Json, x: Json)
    requires NoFloats(j) && Inside(x, j)
    ensures FitNumber(x)
    decreases j
  {
    if x != j {
      if j.Arr? {
        var i :| 0 <= i < |j.items| && Inside(x, j.items[i]);
        NoFloatInside(j.items[i], x);
      } else {
        var k :| k in j.fields && Inside(x, j.fields[k]);
        NoFloatInside(j.fields[k], x);
      }
    }
  }

  lemma {:induction false} FitInside(j: Json)
    requires forall x :: Inside(x, j) ==> FitNumber(x)
    ensures NoFloats(j)
    decreases j
  {
    assert Inside(j, j);
    match j
    case Arr(items) =>
      forall i | 0 <= i < |items| ensures NoFloats(items[i]) {
        assert forall x :: Inside(x, items[i]) ==> Inside(x, j);
        FitInside(items[i]);
      }
    case Obj(fields) =>
      forall k | k in fields ensures NoFloats(fields[k]) {
        assert forall x :: Inside(x, fields[k]) ==> Inside(x, j);
        FitInside(fields[k]);
      }
    case _ =>
  }

  /** `reject_floats` passes exactly when every number at every depth is a 64-bit integer. */
  lemma NoFloatsMeaning(j: Json)
    ensures NoFloats(j) <==> forall x :: Inside(x, j) ==> FitNumber(x)
  {
    if NoFloats(j) {
      forall x | Inside(x, j) ensures FitNumber(x) { NoFloatInside(j, x); }
    } else if forall x :: Inside(x, j) ==> FitNumber(x) {
      FitInside(j);
    }
  }
}
