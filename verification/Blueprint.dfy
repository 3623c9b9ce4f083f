/** Portable blueprints: a chain's request built directly, and the same request obtained by
    exporting the chain and importing the artifact. Text encoding, argument JSON and hex
    decoding are parameters. */
module Blueprint {
  import opened Lists
  import opened Graph
  import opened Decimals
  import opened ChainLowering

  type Bytes = seq<bv8>

  datatype Arg = Text(s: string) | Number(n: int) | Flag(b: bool)

  /** The platform functions the lowering calls. */
  datatype Platform = Platform(
    utf8: string -> Bytes,
    argsJson: map<string, Arg> -> string,
    bodyId: string -> Option<Bytes>)

  const MAX_TURNS_KEY := "max_turns"
  const MAX_TOOL_CALLS_KEY := "max_tool_calls"
  const TOOL_ARGS_KEY := "kx.tool.args"

  /** Both budget fields written into the params, where present. */
  function WithBudget(params: map<string, string>, turns: Option<nat>, calls: Option<nat>): map<string, string> {
    var p := if turns.Some? then params[MAX_TURNS_KEY := Decimal(turns.value)] else params;
    if calls.Some? then p[MAX_TOOL_CALLS_KEY := Decimal(calls.value)] else p
  }

  /** `effectiveParams`. */
  function EffectiveParams(t: TaskSpec): map<string, string> {
    if t.kind == Model && t.toolContract != map[] then WithBudget(t.params, t.maxTurns, t.maxToolCalls) else t.params
  }

  // ------------------------------------------------------------------ the request

  datatype StepInput = StepInput(kind: StepKind, modelId: string, prompt: string, bodySignatureId: Option<string>,
                                 toolContract: map<string, string>, params: map<string, string>)
  datatype EdgeInput = EdgeInput(parent: nat, child: nat, control: bool, nonCascade: bool)

  datatype WireStep = WireStep(kind: StepKind, modelId: string, prompt: string, body: Bytes,
                               toolContract: map<string, string>, params: map<string, Bytes>)
  datatype Request = Request(seed: int, steps: seq<WireStep>, edges: seq<EdgeInput>, dynamic: bool, context: seq<string>)

  datatype BuildError = Refused(index: nat, named: seq<string>) | BadBodyId(id: string)

  function WireBody(pf: Platform, id: Option<string>): Result<Bytes, BuildError> {
    if id == None || id == Some("") then Ok([])
    else match pf.bodyId(id.value)
      case None => Err(BadBodyId(id.value))
      case Some(b) => Ok(b)
  }

  function ToWire(pf: Platform, s: StepInput): Result<WireStep, BuildError> {
    match WireBody(pf, s.bodySignatureId)
    case Err(e) => Err(e)
    case Ok(body) =>
      Ok(WireStep(s.kind, s.modelId, s.prompt, body, s.toolContract, map k | k in s.params :: pf.utf8(s.params[k])))
  }

  function ToWires(pf: Platform, ss: seq<StepInput>): Result<seq<WireStep>, BuildError> {
    if ss == [] then Ok([])
    else match ToWires(pf, ss[..|ss| - 1])
      case Err(e) => Err(e)
      case Ok(ws) =>
        match ToWire(pf, ss[|ss| - 1])
        case Err(e) => Err(e)
        case Ok(w) => Ok(ws + [w])
  }

  function WireRequest(pf: Platform, seed: int, steps: seq<StepInput>, edges: seq<EdgeInput>, dynamic: bool, context: seq<string>)
    : Result<Request, BuildError>
  {
    match ToWires(pf, steps)
    case Err(e) => Err(e)
    case Ok(ws) => Ok(Request(seed, ws, edges, dynamic, context))
  }

  /** A step has no body id, or one that decodes. */
  predicate BodyOk(pf: Platform, s: StepInput) {
    s.bodySignatureId == None || s.bodySignatureId == Some("") || pf.bodyId(s.bodySignatureId.value).Some?
  }

  /** Each wire step carries the fields of its input: texts as bytes, the body decoded. */
  ghost predicate Carried(pf: Platform, ws: seq<WireStep>, ss: seq<StepInput>) {
    |ws| == |ss| && forall i :: 0 <= i < |ss| ==> CarriedStep(pf, ws[i], ss[i])
  }

  ghost predicate CarriedStep(pf: Platform, w: WireStep, s: StepInput) {
    && w.kind == s.kind && w.modelId == s.modelId && w.prompt == s.prompt && w.toolContract == s.toolContract
    && w.params.Keys == s.params.Keys && (forall k :: k in s.params ==> w.params[k] == pf.utf8(s.params[k]))
    && BodyOk(pf, s)
    && (if s.bodySignatureId == None || s.bodySignatureId == Some("") then w.body == []
        else Some(w.body) == pf.bodyId(s.bodySignatureId.value))
  }

  ghost predicate FirstBadBody(pf: Platform, ss: seq<StepInput>, k: nat, e: BuildError) {
    && k < |ss| && !BodyOk(pf, ss[k]) && e == BadBodyId(ss[k].bodySignatureId.value)
    && forall i :: 0 <= i < k ==> BodyOk(pf, ss[i])
  }

  lemma {:induction false} WiresStop(pf: Platform, ss: seq<StepInput>, k: nat)
    requires k < |ss| && ToWires(pf, ss[..k]).Ok? && WireBody(pf, ss[k].bodySignatureId).Err?
    ensures ToWires(pf, ss) == Err(WireBody(pf, ss[k].bodySignatureId).error)
  {
    var init := ss[..|ss| - 1];
    if k < |ss| - 1 {
      assert init[..k] == ss[..k];
      WiresStop(pf, init, k);
    }
  }

  /** `BlueprintBuilder`. */
  class Builder {
    const seed: int
    var steps: seq<StepInput>
    var edges: seq<EdgeInput>
    var dynamic: bool
    var context: seq<string>

    constructor (seed: int)
      ensures this.seed == seed && steps == [] && edges == [] && !dynamic && context == []
    {
      this.seed := seed;
      steps, edges, dynamic, context := [], [], false, [];
    }

    method AddStep(s: StepInput) returns (index: nat)
      modifies this`steps
      ensures steps == old(steps) + [s] && index == |old(steps)| && steps[index] == s
    {
      steps := steps + [s];
      return |steps| - 1;
    }

    method AddEdge(e: EdgeInput)
      modifies this`edges
      ensures edges == old(edges) + [e]
    {
      edges := edges + [e];
    }

    /** Every step goes on the wire field by field, in order; the first body id that does not
        decode is the error. */
    method Build(pf: Platform) returns (r: Result<Request, BuildError>)
      ensures r == WireRequest(pf, seed, steps, edges, dynamic, context)
      ensures r.Ok? <==> forall i :: 0 <= i < |steps| ==> BodyOk(pf, steps[i])
      ensures r.Ok? ==> Carried(pf, r.value.steps, steps)
      ensures r.Ok? ==> r.value == Request(seed, r.value.steps, edges, dynamic, context)
      ensures r.Err? ==> exists k :: FirstBadBody(pf, steps, k, r.error)
    {
      var wires: seq<WireStep> := [];
      for i := 0 to |steps|
        invariant ToWires(pf, steps[..i]) == Ok(wires) && Carried(pf, wires, steps[..i])
        invariant forall k :: 0 <= k < i ==> BodyOk(pf, steps[k])
      {
        assert steps[..i + 1][..i] == steps[..i];
        var body := WireBody(pf, steps[i].bodySignatureId);
        if body.Err? {
          WiresStop(pf, steps, i);
          assert FirstBadBody(pf, steps, i, body.error);
          return Err(body.error);
        }
        var s := steps[i];
        var params: map<string, Bytes> := map k | k in s.params :: pf.utf8(s.params[k]);
        wires := wires + [WireStep(s.kind, s.modelId, s.prompt, body.value, s.toolContract, params)];
      }
      assert steps[..|steps|] == steps;
      return Ok(Request(seed, wires, edges, dynamic, context));
    }
  }

  // ------------------------------------------------------------------ building a chain

  function Named(skills: seq<string>, connections: seq<string>, datasets: seq<string>, apps: seq<string>): seq<string> {
    (if |skills| > 0 then ["skills"] else []) + (if |connections| > 0 then ["connections"] else []) +
    (if |datasets| > 0 then ["datasets"] else []) + (if |apps| > 0 then ["apps"] else [])
  }

  function NamedBindings(t: TaskSpec): seq<string> {
    Named(t.appSkills, t.appConnections, t.appDatasets, t.appApps)
  }

  function StepOf(t: TaskSpec): StepInput {
    StepInput(t.kind, t.modelId, t.prompt, None, t.toolContract, EffectiveParams(t))
  }

  function StepsOf(ts: seq<TaskSpec>): (r: seq<StepInput>)
    ensures |r| == |ts| && forall i :: 0 <= i < |ts| ==> r[i] == StepOf(ts[i])
  {
    seq(|ts|, i requires 0 <= i < |ts| => StepOf(ts[i]))
  }

  /** The first position that is flagged. */
  function FirstFlag(flags: seq<bool>): (r: Option<nat>)
    ensures r.None? <==> forall i :: 0 <= i < |flags| ==> !flags[i]
    ensures r.Some? ==> r.value < |flags| && flags[r.value]
    ensures r.Some? ==> forall i :: 0 <= i < r.value ==> !flags[i]
  {
    if flags == [] then None
    else match FirstFlag(flags[..|flags| - 1])
      case Some(i) => Some(i)
      case None => if flags[|flags| - 1] then Some(|flags| - 1) else None
  }

  /** Which nodes carry an App binding. */
  function Bound(ts: seq<TaskSpec>): (r: seq<bool>)
    ensures |r| == |ts| && forall i :: 0 <= i < |ts| ==> r[i] == ts[i].HasAppBindings()
  {
    seq(|ts|, i requires 0 <= i < |ts| => ts[i].HasAppBindings())
  }

  function DataEdges(arcs: seq<Arc>): (r: seq<EdgeInput>)
    ensures |r| == |arcs| && forall i :: 0 <= i < |arcs| ==> r[i] == EdgeInput(arcs[i].0, arcs[i].1, false, false)
  {
    seq(|arcs|, i requires 0 <= i < |arcs| => EdgeInput(arcs[i].0, arcs[i].1, false, false))
  }

  /** What `chain.build()` yields: a refusal at the first bound step, or the request. */
  function BuildOf(pf: Platform, c: Chain): Result<Request, BuildError>
  {
    match FirstFlag(Bound(c.nodes))
    case Some(i) => Err(Refused(i, NamedBindings(c.nodes[i])))
    case None => WireRequest(pf, c.seed, StepsOf(c.nodes), DataEdges(c.edges), false, c.context)
  }

  /** `Chain.build` without resolved local tools. */
  method BuildChain(pf: Platform, c: Chain) returns (r: Result<Request, BuildError>)
    ensures r == BuildOf(pf, c)
  {
    var b := new Builder(c.seed);
    for i := 0 to |c.nodes|
      invariant b.steps == StepsOf(c.nodes[..i]) && b.edges == [] && !b.dynamic
      invariant forall k :: 0 <= k < i ==> !c.nodes[k].HasAppBindings()
    {
      if c.nodes[i].HasAppBindings() {
        return Err(Refused(i, NamedBindings(c.nodes[i])));
      }
      var at := b.AddStep(StepOf(c.nodes[i]));
    }
    assert c.nodes[..|c.nodes|] == c.nodes;
    for i := 0 to |c.edges|
      invariant b.edges == DataEdges(c.edges[..i]) && b.steps == StepsOf(c.nodes) && !b.dynamic
    {
      b.AddEdge(EdgeInput(c.edges[i].0, c.edges[i].1, false, false));
    }
    assert c.edges[..|c.edges|] == c.edges;
    b.context := c.context;
    r := b.Build(pf);
  }

  // ------------------------------------------------------------------ the artifact

  datatype DagStep = DagStep(
    kind: Option<StepKind>, modelId: Option<string>, prompt: Option<string>, bodySignatureId: Option<string>,
    toolContract: Option<map<string, string>>, params: Option<map<string, string>>, args: Option<map<string, Arg>>,
    maxTurns: Option<nat>, maxToolCalls: Option<nat>,
    skills: Option<seq<string>>, connections: Option<seq<string>>, datasets: Option<seq<string>>, apps: Option<seq<string>>)

  datatype DagEdge = DagEdge(parent: nat, child: nat, edge: Option<string>, nonCascade: Option<bool>)

  datatype DagSpec = DagSpec(seed: Option<int>, mode: Option<string>, steps: Option<seq<DagStep>>,
                             edges: Option<seq<DagEdge>>, context: Option<seq<string>>)

  function OrElse<T>(o: Option<T>, d: T): T {
    match o
    case None => d
    case Some(x) => x
  }

  /** A field written only when it is not empty. */
  function Unless<T(==)>(empty: T, x: T): Option<T> {
    if x == empty then None else Some(x)
  }

  function ExportStep(t: TaskSpec): DagStep {
    DagStep(Some(t.kind), Unless("", t.modelId), Unless("", t.prompt), None, Unless(map[], t.toolContract),
            Unless(map[], EffectiveParams(t)), None, None, None,
            Unless([], t.appSkills), Unless([], t.appConnections), Unless([], t.appDatasets), Unless([], t.appApps))
  }

  /** `toBlueprint`. */
  function Export(c: Chain): DagSpec {
    DagSpec(Some(c.seed), Some("frozen"),
            Some(seq(|c.nodes|, i requires 0 <= i < |c.nodes| => ExportStep(c.nodes[i]))),
            Unless([], seq(|c.edges|, i requires 0 <= i < |c.edges| => DagEdge(c.edges[i].0, c.edges[i].1, Some("data"), None))),
            Unless([], c.context))
  }

  function InferKind(d: DagStep): StepKind {
    if OrElse(d.modelId, "") != "" || OrElse(d.prompt, "") != "" then Model
    else if OrElse(d.toolContract, map[]) != map[] then Tool
    else Pure
  }

  /** `stepFromSpec`. */
  function ImportStep(pf: Platform, d: DagStep): StepInput {
    var kind := OrElse(d.kind, InferKind(d));
    var contract := OrElse(d.toolContract, map[]);
    var base := OrElse(d.params, map[]);
    var args := OrElse(d.args, map[]);
    var withArgs := if args != map[] then base[TOOL_ARGS_KEY := pf.argsJson(args)] else base;
    StepInput(kind, OrElse(d.modelId, ""), OrElse(d.prompt, ""), d.bodySignatureId, contract,
              if kind == Model && contract != map[] then WithBudget(withArgs, d.maxTurns, d.maxToolCalls) else withArgs)
  }

  function ImportSteps(pf: Platform, ds: seq<DagStep>): (r: seq<StepInput>)
    ensures |r| == |ds| && forall i :: 0 <= i < |ds| ==> r[i] == ImportStep(pf, ds[i])
  {
    seq(|ds|, i requires 0 <= i < |ds| => ImportStep(pf, ds[i]))
  }

  function SpecBindings(d: DagStep): seq<string> {
    Named(OrElse(d.skills, []), OrElse(d.connections, []), OrElse(d.datasets, []), OrElse(d.apps, []))
  }

  function ImportEdge(e: DagEdge): EdgeInput {
    EdgeInput(e.parent, e.child, e.edge == Some("control"), OrElse(e.nonCascade, false))
  }

  function ImportEdges(es: seq<DagEdge>): (r: seq<EdgeInput>)
    ensures |r| == |es| && forall i :: 0 <= i < |es| ==> r[i] == ImportEdge(es[i])
  {
    seq(|es|, i requires 0 <= i < |es| => ImportEdge(es[i]))
  }

  /** Which steps of an artifact name an App binding. */
  function NamedFlags(ds: seq<DagStep>): (r: seq<bool>)
    ensures |r| == |ds| && forall i :: 0 <= i < |ds| ==> r[i] == (SpecBindings(ds[i]) != [])
  {
    seq(|ds|, i requires 0 <= i < |ds| => SpecBindings(ds[i]) != [])
  }

  /** Outcome of `fromBlueprint`: refused at the first step naming a binding, else built. */
  function ImportOf(pf: Platform, spec: DagSpec): Result<Request, BuildError> {
    var ds := OrElse(spec.steps, []);
    match FirstFlag(NamedFlags(ds))
    case Some(k) => Err(Refused(k, SpecBindings(ds[k])))
    case None =>
      WireRequest(pf, OrElse(spec.seed, 0), ImportSteps(pf, ds), ImportEdges(OrElse(spec.edges, [])),
                  spec.mode == Some("dynamic"), OrElse(spec.context, []))
  }

  /** `Chain.fromBlueprint`. */
  method FromBlueprint(pf: Platform, spec: DagSpec) returns (r: Result<Request, BuildError>)
    ensures r == ImportOf(pf, spec)
  {
    var b := new Builder(OrElse(spec.seed, 0));
    var ds := OrElse(spec.steps, []);
    for i := 0 to |ds|
      invariant b.steps == ImportSteps(pf, ds[..i]) && b.edges == [] && !b.dynamic
      invariant forall k :: 0 <= k < i ==> SpecBindings(ds[k]) == []
    {
      if SpecBindings(ds[i]) != [] {
        return Err(Refused(i, SpecBindings(ds[i])));
      }
      var at := b.AddStep(ImportStep(pf, ds[i]));
    }
    assert ds[..|ds|] == ds;
    var es := OrElse(spec.edges, []);
    for i := 0 to |es|
      invariant b.edges == ImportEdges(es[..i]) && b.steps == ImportSteps(pf, ds) && !b.dynamic
    {
      b.AddEdge(ImportEdge(es[i]));
    }
    assert es[..|es|] == es;
    b.context := OrElse(spec.context, []);
    b.dynamic := spec.mode == Some("dynamic");
    r := b.Build(pf);
  }

  // ------------------------------------------------------------------ theorems

  lemma ExportImportStep(pf: Platform, t: TaskSpec)
    ensures ImportStep(pf, ExportStep(t)) == StepOf(t)
    ensures SpecBindings(ExportStep(t)) == NamedBindings(t)
    ensures NamedBindings(t) == [] <==> !t.HasAppBindings()
  {
    var n := NamedBindings(t);
    if t.HasAppBindings() { assert |n| > 0; }
  }

  lemma ExportedSteps(pf: Platform, c: Chain)
    ensures var ds := Export(c).steps.value;
      && ImportSteps(pf, ds) == StepsOf(c.nodes)
      && NamedFlags(ds) == Bound(c.nodes)
      && forall i :: 0 <= i < |c.nodes| ==> SpecBindings(ds[i]) == NamedBindings(c.nodes[i])
  {
    var ds := Export(c).steps.value;
    forall i | 0 <= i < |ds|
      ensures ImportStep(pf, ds[i]) == StepOf(c.nodes[i]) && SpecBindings(ds[i]) == NamedBindings(c.nodes[i])
      ensures SpecBindings(ds[i]) == [] <==> !c.nodes[i].HasAppBindings()
    {
      ExportImportStep(pf, c.nodes[i]);
    }
  }

  lemma ExportedEdges(c: Chain)
    ensures ImportEdges(OrElse(Export(c).edges, [])) == DataEdges(c.edges)
  {
  }

  /** Exporting any chain and importing the artifact is building the chain: the same request,
      or the same refusal of an App binding at the same step. */
  lemma BlueprintRoundTrip(pf: Platform, c: Chain)
    ensures ImportOf(pf, Export(c)) == BuildOf(pf, c)
  {
    ExportedSteps(pf, c);
    ExportedEdges(c);
  }

  // ------------------------------------------------------------------ what a request says

  lemma {:induction false} WiresCarried(pf: Platform, ss: seq<StepInput>)
    ensures var r := ToWires(pf, ss); r.Ok? ==> Carried(pf, r.value, ss)
  {
    if ss != [] {
      var init, last := ss[..|ss| - 1], ss[|ss| - 1];
      WiresCarried(pf, init);
      var r := ToWires(pf, ss);
      if r.Ok? {
        var ws, w := ToWires(pf, init).value, ToWire(pf, last).value;
        assert CarriedStep(pf, w, last);
        forall i | 0 <= i < |ss| ensures CarriedStep(pf, r.value[i], ss[i]) {
          if i < |ss| - 1 { assert ss[i] == init[i] && r.value[i] == ws[i]; }
        }
      }
    }
  }

  /** The params of a step on the wire: the authored ones, with the budgets of a model step that
      has tools written over them as decimals, each under its own key. */
  ghost predicate ParamsSay(pf: Platform, sent: map<string, Bytes>, params: map<string, string>, budgeted: bool,
                            turns: Option<nat>, calls: Option<nat>)
  {
    var t, c := budgeted && turns.Some?, budgeted && calls.Some?;
    && (forall k :: k in sent <==> k in params || (t && k == "max_turns") || (c && k == "max_tool_calls"))
    && (t ==> sent["max_turns"] == pf.utf8(Decimal(turns.value)))
    && (c ==> sent["max_tool_calls"] == pf.utf8(Decimal(calls.value)))
    && (forall k :: k in params && !(t && k == "max_turns") && !(c && k == "max_tool_calls") ==> sent[k] == pf.utf8(params[k]))
  }

  lemma BudgetSays(pf: Platform, params: map<string, string>, turns: Option<nat>, calls: Option<nat>, sent: map<string, Bytes>)
    requires var p := WithBudget(params, turns, calls);
      sent.Keys == p.Keys && forall k :: k in p ==> sent[k] == pf.utf8(p[k])
    ensures ParamsSay(pf, sent, params, true, turns, calls)
  {
    assert |"max_turns"| == 9 && |"max_tool_calls"| == 14;
  }

  /** What `Chain.build` puts in a request: every node in order with its own kind, model, prompt
      and tools, no body, its params with its budgets; every edge as a data edge; and the
      chain's seed and context. */
  lemma RequestMeaning(pf: Platform, c: Chain, r: Request)
    requires BuildOf(pf, c) == Ok(r)
    ensures r.seed == c.seed && r.context == c.context && !r.dynamic && |r.steps| == |c.nodes| && |r.edges| == |c.edges|
    ensures forall i :: 0 <= i < |c.edges| ==> r.edges[i] == EdgeInput(c.edges[i].0, c.edges[i].1, false, false)
    ensures forall i :: 0 <= i < |c.nodes| ==>
      var t, w := c.nodes[i], r.steps[i];
      && w.kind == t.kind && w.modelId == t.modelId && w.prompt == t.prompt && w.toolContract == t.toolContract && w.body == []
      && ParamsSay(pf, w.params, t.params, t.kind == Model && t.toolContract != map[], t.maxTurns, t.maxToolCalls)
  {
    var ss := StepsOf(c.nodes);
    WiresCarried(pf, ss);
    forall i | 0 <= i < |c.nodes|
      ensures var t, w := c.nodes[i], r.steps[i];
        && w.kind == t.kind && w.modelId == t.modelId && w.prompt == t.prompt && w.toolContract == t.toolContract && w.body == []
        && ParamsSay(pf, w.params, t.params, t.kind == Model && t.toolContract != map[], t.maxTurns, t.maxToolCalls)
    {
      assert CarriedStep(pf, r.steps[i], ss[i]);
      StepSays(pf, c.nodes[i], r.steps[i]);
    }
  }

  lemma StepSays(pf: Platform, t: TaskSpec, w: WireStep)
    requires CarriedStep(pf, w, StepOf(t))
    ensures w.kind == t.kind && w.modelId == t.modelId && w.prompt == t.prompt && w.toolContract == t.toolContract && w.body == []
    ensures ParamsSay(pf, w.params, t.params, t.kind == Model && t.toolContract != map[], t.maxTurns, t.maxToolCalls)
  {
    if t.kind == Model && t.toolContract != map[] {
      BudgetSays(pf, t.params, t.maxTurns, t.maxToolCalls, w.params);
    }
  }

  /** A refusal names exactly the binding lists that are not empty. */
  lemma NamedMeaning(t: TaskSpec)
    ensures var names := NamedBindings(t);
      && ("skills" in names <==> t.appSkills != []) && ("connections" in names <==> t.appConnections != [])
      && ("datasets" in names <==> t.appDatasets != []) && ("apps" in names <==> t.appApps != [])
      && (forall n :: n in names ==> n in {"skills", "connections", "datasets", "apps"})
  {
    assert |"skills"| == 6 && |"connections"| == 11 && |"datasets"| == 8 && |"apps"| == 4;
  }

  /** The kind of an imported step: the one it states; else a model step if it names a model or
      a prompt, a tool step if it has tools, and a pure step otherwise. */
  predicate KindIs(d: DagStep, kind: StepKind) {
    match d.kind
    case Some(k) => kind == k
    case None =>
      if (d.modelId.Some? && d.modelId.value != "") || (d.prompt.Some? && d.prompt.value != "") then kind == Model
      else if d.toolContract.Some? && d.toolContract.value != map[] then kind == Tool
      else kind == Pure
  }

  /** The params an artifact step states, its arguments folded in under their own key. */
  function StatedParams(pf: Platform, d: DagStep): map<string, string> {
    var params := if d.params.Some? then d.params.value else map[];
    if d.args.Some? && d.args.value != map[] then params["kx.tool.args" := pf.argsJson(d.args.value)] else params
  }

  /** The params of an imported step on the wire. */
  lemma ImportParams(pf: Platform, d: DagStep, w: WireStep)
    requires CarriedStep(pf, w, ImportStep(pf, d))
    ensures ParamsSay(pf, w.params, StatedParams(pf, d), w.kind == Model && w.toolContract != map[], d.maxTurns, d.maxToolCalls)
  {
    if w.kind == Model && w.toolContract != map[] {
      BudgetSays(pf, StatedParams(pf, d), d.maxTurns, d.maxToolCalls, w.params);
    }
  }

  /** The body of a step on the wire is its decoded id, or nothing. */
  predicate BodySays(pf: Platform, id: Option<string>, body: Bytes) {
    if id.Some? && id.value != "" then pf.bodyId(id.value) == Some(body) else body == []
  }

  /** What importing a hand-written artifact puts in a request. */
  lemma ImportMeaning(pf: Platform, spec: DagSpec, r: Request)
    requires ImportOf(pf, spec) == Ok(r)
    ensures r.seed == (if spec.seed.Some? then spec.seed.value else 0) && (r.dynamic <==> spec.mode == Some("dynamic"))
    ensures r.context == (if spec.context.Some? then spec.context.value else [])
    ensures var ds := if spec.steps.Some? then spec.steps.value else [];
      && |r.steps| == |ds|
      && forall i :: 0 <= i < |ds| ==>
           && KindIs(ds[i], r.steps[i].kind) && BodySays(pf, ds[i].bodySignatureId, r.steps[i].body)
           && r.steps[i].prompt == (if ds[i].prompt.Some? then ds[i].prompt.value else "")
           && r.steps[i].modelId == (if ds[i].modelId.Some? then ds[i].modelId.value else "")
           && r.steps[i].toolContract == (if ds[i].toolContract.Some? then ds[i].toolContract.value else map[])
           && ParamsSay(pf, r.steps[i].params, StatedParams(pf, ds[i]), r.steps[i].kind == Model && r.steps[i].toolContract != map[],
                        ds[i].maxTurns, ds[i].maxToolCalls)
    ensures var es := if spec.edges.Some? then spec.edges.value else [];
      && |r.edges| == |es|
      && forall i :: 0 <= i < |es| ==>
           && r.edges[i].parent == es[i].parent && r.edges[i].child == es[i].child
           && (r.edges[i].control <==> es[i].edge == Some("control")) && (r.edges[i].nonCascade <==> es[i].nonCascade == Some(true))
  {
    var ds := OrElse(spec.steps, []);
    WiresCarried(pf, ImportSteps(pf, ds));
    forall i | 0 <= i < |ds|
      ensures KindIs(ds[i], r.steps[i].kind) && BodySays(pf, ds[i].bodySignatureId, r.steps[i].body)
      ensures r.steps[i].prompt == OrElse(ds[i].prompt, "")
      ensures r.steps[i].modelId == OrElse(ds[i].modelId, "") && r.steps[i].toolContract == OrElse(ds[i].toolContract, map[])
      ensures ParamsSay(pf, r.steps[i].params, StatedParams(pf, ds[i]), r.steps[i].kind == Model && r.steps[i].toolContract != map[],
                        ds[i].maxTurns, ds[i].maxToolCalls)
    {
      assert CarriedStep(pf, r.steps[i], ImportSteps(pf, ds)[i]);
      ImportParams(pf, ds[i], r.steps[i]);
    }
  }

  /** The SDK's folded form of an args-separated step. */
  function Folded(pf: Platform, d: DagStep, args: map<string, Arg>): DagStep {
    d.(args := None, params := Some(OrElse(d.params, map[])[TOOL_ARGS_KEY := pf.argsJson(args)]))
  }

  lemma KeysDiffer()
    ensures MAX_TURNS_KEY != TOOL_ARGS_KEY && MAX_TOOL_CALLS_KEY != TOOL_ARGS_KEY && MAX_TURNS_KEY != MAX_TOOL_CALLS_KEY
  {
    assert |MAX_TURNS_KEY| == 9 && |MAX_TOOL_CALLS_KEY| == 14 && |TOOL_ARGS_KEY| == 12;
  }

  /** The two artifact forms of a step import alike exactly when the argument map is not
      empty, or the params already hold its encoding: importing drops an empty `args` map,
      while the tool factory writes it. */
  lemma ArgsFormsAgree(pf: Platform, d: DagStep, args: map<string, Arg>)
    requires d.args == Some(args)
    ensures ImportStep(pf, d) == ImportStep(pf, Folded(pf, d, args)) <==>
      args != map[] || (TOOL_ARGS_KEY in OrElse(d.params, map[]) && OrElse(d.params, map[])[TOOL_ARGS_KEY] == pf.argsJson(args))
  {
    KeysDiffer();
    var base := OrElse(d.params, map[]);
    var folded := base[TOOL_ARGS_KEY := pf.argsJson(args)];
    if TOOL_ARGS_KEY in base && base[TOOL_ARGS_KEY] == pf.argsJson(args) {
      assert base == folded;
    }
    BudgetKeeps(base, d.maxTurns, d.maxToolCalls);
    BudgetKeeps(folded, d.maxTurns, d.maxToolCalls);
  }

  /** The budget never touches the arguments. */
  lemma BudgetKeeps(params: map<string, string>, turns: Option<nat>, calls: Option<nat>)
    ensures var p := WithBudget(params, turns, calls);
      && (TOOL_ARGS_KEY in p <==> TOOL_ARGS_KEY in params)
      && (TOOL_ARGS_KEY in p ==> p[TOOL_ARGS_KEY] == params[TOOL_ARGS_KEY])
  {
    KeysDiffer();
  }

  lemma BudgetCommutes(params: map<string, string>, turns: Option<nat>, calls: Option<nat>, json: string)
    ensures WithBudget(params[TOOL_ARGS_KEY := json], turns, calls) == WithBudget(params, turns, calls)[TOOL_ARGS_KEY := json]
  {
    KeysDiffer();
  }

  /** The form with the budget inside the params. */
  function Budgeted(d: DagStep): DagStep {
    d.(maxTurns := None, maxToolCalls := None, params := Some(WithBudget(OrElse(d.params, map[]), d.maxTurns, d.maxToolCalls)))
  }

  lemma SameBesideArgs(a: map<string, string>, b: map<string, string>, json: string)
    requires (TOOL_ARGS_KEY in a <==> TOOL_ARGS_KEY in b) && (TOOL_ARGS_KEY in a ==> a[TOOL_ARGS_KEY] == b[TOOL_ARGS_KEY])
    ensures a[TOOL_ARGS_KEY := json] == b[TOOL_ARGS_KEY := json] <==> a == b
  {
    var x, y := a[TOOL_ARGS_KEY := json], b[TOOL_ARGS_KEY := json];
    if x == y {
      forall k | k in a ensures k in b && a[k] == b[k] {
        if k != TOOL_ARGS_KEY { assert k in x; assert x[k] == y[k]; }
      }
      forall k | k in b ensures k in a {
        if k != TOOL_ARGS_KEY { assert k in y; assert k in x; }
      }
    }
  }

  /** Budget fields beside the params import like budget entries inside them exactly on a model
      step with tools, or where the entries are there already: any other step ignores the
      fields. */
  lemma BudgetFormsAgree(pf: Platform, d: DagStep)
    ensures ImportStep(pf, d) == ImportStep(pf, Budgeted(d)) <==>
      (OrElse(d.kind, InferKind(d)) == Model && OrElse(d.toolContract, map[]) != map[]) ||
      WithBudget(OrElse(d.params, map[]), d.maxTurns, d.maxToolCalls) == OrElse(d.params, map[])
  {
    var base, args := OrElse(d.params, map[]), OrElse(d.args, map[]);
    var budgeted := WithBudget(base, d.maxTurns, d.maxToolCalls);
    BudgetCommutes(base, d.maxTurns, d.maxToolCalls, pf.argsJson(args));
    BudgetKeeps(base, d.maxTurns, d.maxToolCalls);
    SameBesideArgs(base, budgeted, pf.argsJson(args));
    assert InferKind(Budgeted(d)) == InferKind(d);
  }
}
