/** From a parsed expression to a chain: resolve handles against the task map, apply `@`
    grants, number the nodes, canonicalize the edges and refuse cycles. */
module ChainLowering {
  import opened Lists
  import opened Sorting
  import opened ChainSyntax
  import opened ChainGrammar
  import opened ChainMeaning
  import opened ChainParser
  import opened Graph
  import opened SeriesParallel

  datatype Result<+T, +E> = Ok(value: T) | Err(error: E)

  datatype StepKind = Pure | Model | Exec | Tool

  /** A local tool definition; `id` stands for the object's identity. */
  datatype LocalTool = LocalTool(id: nat, version: string)

  /** What a task carries. */
  datatype TaskSpec = TaskSpec(
    kind: StepKind,
    modelId: string,
    prompt: string,
    params: map<string, string>,
    toolContract: map<string, string>,
    maxTurns: Option<nat>,
    maxToolCalls: Option<nat>,
    localTools: seq<LocalTool>,
    appSkills: seq<string>,
    appConnections: seq<string>,
    appDatasets: seq<string>,
    appApps: seq<string>)
  {
    predicate HasAppBindings() {
      |appSkills| > 0 || |appConnections| > 0 || |appDatasets| > 0 || |appApps| > 0
    }
  }

  /** A task object: two objects with equal contents are still different nodes. */
  datatype Task = Task(id: nat, spec: TaskSpec)

  datatype ChainError = ParseError | UnknownHandle(handle: string) | NonModel(handle: string) | Cycle

  datatype Chain = Chain(nodes: seq<TaskSpec>, edges: seq<Arc>, seed: int, context: seq<string>)

  // ------------------------------------------------------------------ grants

  /** New tags at version 1; a tool already in the contract keeps its version. */
  function WithTags(contract: map<string, string>, tags: seq<string>): map<string, string> {
    (map t | t in tags :: "1") + contract
  }

  lemma TagPushed(contract: map<string, string>, tags: seq<string>, i: nat)
    requires i < |tags|
    ensures var before := WithTags(contract, tags[..i]);
      WithTags(contract, tags[..i + 1]) == if tags[i] in before then before else before[tags[i] := "1"]
  {
    assert tags[..i + 1] == tags[..i] + [tags[i]];
  }

  /** Every tag the contract lacks is added at version "1"; the App bindings are dropped. */
  function Granted(base: TaskSpec, tags: seq<string>): TaskSpec {
    base.(toolContract := WithTags(base.toolContract, tags),
          appSkills := [], appConnections := [], appDatasets := [], appApps := [])
  }

  /** What a granted copy is: the task with the tags added to its tools and its App bindings
      gone. A tool it had keeps its version; a new one gets version 1. */
  ghost predicate GrantedCopy(base: TaskSpec, tags: seq<string>, copy: TaskSpec) {
    && copy.kind == base.kind && copy.modelId == base.modelId && copy.prompt == base.prompt && copy.params == base.params
    && copy.maxTurns == base.maxTurns && copy.maxToolCalls == base.maxToolCalls && copy.localTools == base.localTools
    && (forall t :: t in copy.toolContract <==> t in base.toolContract || t in tags)
    && (forall t :: t in base.toolContract ==> copy.toolContract[t] == base.toolContract[t])
    && (forall t :: t in tags && t !in base.toolContract ==> copy.toolContract[t] == "1")
    && !copy.HasAppBindings()
  }

  lemma GrantedKeeps(base: TaskSpec, tags: seq<string>)
    ensures GrantedCopy(base, tags, Granted(base, tags))
  {
  }

  /** `withGrants`. */
  method WithGrants(base: TaskSpec, handle: string, tags: seq<string>) returns (r: Result<TaskSpec, ChainError>)
    ensures r == if base.kind == Model then Ok(Granted(base, tags)) else Err(NonModel(handle))
    ensures r.Ok? ==> GrantedCopy(base, tags, r.value)
  {
    GrantedKeeps(base, tags);
    if base.kind != Model { return Err(NonModel(handle)); }
    var contract := base.toolContract;
    assert WithTags(contract, tags[..0]) == contract;
    for i := 0 to |tags|
      invariant contract == WithTags(base.toolContract, tags[..i])
    {
      TagPushed(base.toolContract, tags, i);
      if tags[i] !in contract { contract := contract[tags[i] := "1"]; }
    }
    assert tags[..|tags|] == tags;
    return Ok(TaskSpec(base.kind, base.modelId, base.prompt, base.params, contract,
                       base.maxTurns, base.maxToolCalls, base.localTools, [], [], [], []));
  }

  lemma TagsMerge(contract: map<string, string>, a: seq<string>, b: seq<string>)
    ensures WithTags(WithTags(contract, a), b) == WithTags(contract, a + b)
  {
    assert forall t :: t in a + b <==> t in a || t in b;
  }

  lemma GrantsMerge(base: TaskSpec, a: seq<string>, b: seq<string>)
    ensures Granted(Granted(base, a), b) == Granted(base, a + b)
  {
    TagsMerge(base.toolContract, a, b);
  }

  lemma GrantsBySet(base: TaskSpec, a: seq<string>, b: seq<string>)
    requires Elems(a) == Elems(b)
    ensures Granted(base, a) == Granted(base, b)
  {
    assert forall t :: t in a <==> t in Elems(a);
    assert forall t :: t in b <==> t in Elems(b);
    assert Granted(base, a).toolContract == Granted(base, b).toolContract;
  }

  /** Granting twice is granting the merged tags, and grants depend only on the tag set; so
      granting the same tags again changes nothing. */
  lemma GrantedTwice(base: TaskSpec, a: seq<string>, b: seq<string>)
    ensures Granted(Granted(base, a), b) == Granted(base, a + b)
    ensures Elems(a) == Elems(b) ==> Granted(Granted(base, a), b) == Granted(base, a)
  {
    GrantsMerge(base, a, b);
    if Elems(a) == Elems(b) {
      ElemsConcat(a, b);
      GrantsBySet(base, a + b, a);
    }
  }

  /** The node a handle becomes, or why it cannot. */
  function Resolve(tasks: map<string, Task>, g: Grants, h: string): Result<TaskSpec, ChainError> {
    if h !in tasks then Err(UnknownHandle(h))
    else if GrantsOf(g, h) == [] then Ok(tasks[h].spec)
    else if tasks[h].spec.kind == Model then Ok(Granted(tasks[h].spec, g[h]))
    else Err(NonModel(h))
  }

  /** In an expression, a handle becomes its own task if it is never tagged, and otherwise a
      copy granted exactly its tags; only a model task can be tagged. */
  lemma ResolveMeaning(tasks: map<string, Task>, e: Expr, h: string)
    ensures var r := Resolve(tasks, Denote(e).grants, h);
      if h !in tasks then r == Err(UnknownHandle(h))
      else if TagsOf(e, h) == [] then r == Ok(tasks[h].spec)
      else if tasks[h].spec.kind != Model then r == Err(NonModel(h))
      else r.Ok? && GrantedCopy(tasks[h].spec, TagsOf(e, h), r.value)
  {
    GrantsMeaning(e, h);
    DedupElem(TagsOf(e, h));
    if h in tasks && TagsOf(e, h) != [] {
      GrantedKeeps(tasks[h].spec, Dedup(TagsOf(e, h)));
    }
  }

  /** The nodes in order, or the first failure. */
  function ResolveAll(tasks: map<string, Task>, g: Grants, order: seq<string>): Result<seq<TaskSpec>, ChainError> {
    if order == [] then Ok([])
    else match ResolveAll(tasks, g, order[..|order| - 1])
      case Err(e) => Err(e)
      case Ok(nodes) =>
        match Resolve(tasks, g, order[|order| - 1])
        case Err(e) => Err(e)
        case Ok(t) => Ok(nodes + [t])
  }

  /** Position `i` fails with `e`, and no earlier one fails. */
  ghost predicate FailsFirst(tasks: map<string, Task>, g: Grants, order: seq<string>, i: nat, e: ChainError) {
    && i < |order| && Resolve(tasks, g, order[i]) == Err(e)
    && forall j :: 0 <= j < i ==> Resolve(tasks, g, order[j]).Ok?
  }

  /** Success is success everywhere, node by node; failure is the earliest failure. */
  lemma {:induction false} ResolveAllMeaning(tasks: map<string, Task>, g: Grants, order: seq<string>)
    ensures var r := ResolveAll(tasks, g, order);
      r.Ok? ==> |r.value| == |order| &&
                forall i :: 0 <= i < |order| ==> Resolve(tasks, g, order[i]) == Ok(r.value[i])
    ensures var r := ResolveAll(tasks, g, order);
      r.Err? ==> exists i :: FailsFirst(tasks, g, order, i, r.error)
  {
    if order != [] {
      var init := order[..|order| - 1];
      ResolveAllMeaning(tasks, g, init);
      var before, last := ResolveAll(tasks, g, init), Resolve(tasks, g, order[|order| - 1]);
      if before.Err? {
        var i :| FailsFirst(tasks, g, init, i, before.error);
        assert FailsFirst(tasks, g, order, i, before.error);
      } else if last.Err? {
        assert FailsFirst(tasks, g, order, |order| - 1, last.error);
      }
    }
  }

  /** A binding authored on a task reaches its node exactly when its handle is untagged. */
  lemma BindingsSurvive(tasks: map<string, Task>, e: Expr, h: string)
    requires Resolve(tasks, Denote(e).grants, h).Ok?
    ensures Resolve(tasks, Denote(e).grants, h).value.HasAppBindings()
      <==> tasks[h].spec.HasAppBindings() && TagsOf(e, h) == []
  {
    GrantsMeaning(e, h);
    DedupElem(TagsOf(e, h));
  }

  /** One tag on a model task with a binding loses it. */
  lemma TagDropsBindings(h: string, tag: string, t: Task)
    requires t.spec.kind == Model && t.spec.HasAppBindings()
    ensures var plain := Resolve(map[h := t], Denote(Leaf(h, [])).grants, h);
      plain == Ok(t.spec)
    ensures var tagged := Resolve(map[h := t], Denote(Leaf(h, [tag])).grants, h);
      tagged.Ok? && tag in tagged.value.toolContract && !tagged.value.HasAppBindings()
  {
    GrantsMeaning(Leaf(h, []), h);
    GrantsMeaning(Leaf(h, [tag]), h);
    DedupElem([tag]);
    BindingsSurvive(map[h := t], Leaf(h, [tag]), h);
  }

  // ------------------------------------------------------------------ numbering

  ghost predicate EndsListed<T(!new)>(order: seq<T>, edges: seq<(T, T)>) {
    forall d :: d in edges ==> d.0 in order && d.1 in order
  }

  /** Each edge as a pair of node positions. */
  function ArcsOf<T(==, !new)>(order: seq<T>, edges: seq<(T, T)>): (arcs: seq<Arc>)
    requires EndsListed(order, edges)
    ensures InRange(|order|, arcs)
  {
    seq(|edges|, i requires 0 <= i < |edges| =>
      assert edges[i] in edges; (IndexOf(order, edges[i].0), IndexOf(order, edges[i].1)))
  }

  lemma ArcsMeaning<T(!new)>(order: seq<T>, edges: seq<(T, T)>)
    requires EndsListed(order, edges) && Distinct(order)
    ensures forall i, j :: 0 <= i < |order| && 0 <= j < |order| ==>
              ((i, j) in ArcsOf(order, edges) <==> (order[i], order[j]) in edges)
  {
    var arcs := ArcsOf(order, edges);
    forall i, j | 0 <= i < |order| && 0 <= j < |order|
      ensures (i, j) in arcs <==> (order[i], order[j]) in edges
    {
      if (order[i], order[j]) in edges {
        var k :| 0 <= k < |edges| && edges[k] == (order[i], order[j]);
        IndexDistinct(order, i);
        IndexDistinct(order, j);
        assert arcs[k] == (i, j);
      }
      if (i, j) in arcs {
        var k :| 0 <= k < |arcs| && arcs[k] == (i, j);
        assert edges[k] == (order[i], order[j]);
      }
    }
  }

  lemma IndexDistinct<T>(s: seq<T>, i: nat)
    requires Distinct(s) && i < |s|
    ensures IndexOf(s, s[i]) == i
  {
  }

  lemma ArcsOfSet<T(!new)>(order: seq<T>, a: seq<(T, T)>, b: seq<(T, T)>)
    requires EndsListed(order, a) && EndsListed(order, b) && Elems(a) == Elems(b)
    ensures Elems(ArcsOf(order, a)) == Elems(ArcsOf(order, b))
  {
    ArcsSubset(order, a, b);
    ArcsSubset(order, b, a);
  }

  lemma ArcsSubset<T(!new)>(order: seq<T>, a: seq<(T, T)>, b: seq<(T, T)>)
    requires EndsListed(order, a) && EndsListed(order, b) && Elems(a) <= Elems(b)
    ensures Elems(ArcsOf(order, a)) <= Elems(ArcsOf(order, b))
  {
    forall k | 0 <= k < |a| ensures ArcsOf(order, a)[k] in ArcsOf(order, b) {
      assert a[k] in Elems(a);
      assert a[k] in b;
      var m :| 0 <= m < |b| && b[m] == a[k];
      assert ArcsOf(order, b)[m] == ArcsOf(order, a)[k];
    }
  }

  // ------------------------------------------------------------------ the pipeline

  /** `chainOf`: canonical edges, then the cycle check. */
  ghost function Assemble(nodes: seq<TaskSpec>, arcs: seq<Arc>, seed: int, context: seq<string>): Result<Chain, ChainError> {
    var edges := SortDistinct(ArcLess, arcs);
    if HasNumbering(|nodes|, edges) then Ok(Chain(nodes, edges, seed, context)) else Err(Cycle)
  }

  method ChainOf(nodes: seq<TaskSpec>, arcs: seq<Arc>, seed: int, context: seq<string>)
    returns (r: Result<Chain, ChainError>)
    requires InRange(|nodes|, arcs)
    ensures r == Assemble(nodes, arcs, seed, context)
  {
    var edges := CanonicalizeEdges(arcs);
    CanonicalInRange(|nodes|, arcs);
    var ok := AssertAcyclic(|nodes|, edges);
    if !ok { return Err(Cycle); }
    return Ok(Chain(nodes, edges, seed, context));
  }

  lemma CanonicalInRange(n: nat, arcs: seq<Arc>)
    requires InRange(n, arcs)
    ensures InRange(n, SortDistinct(ArcLess, arcs))
  {
    ArcLessIsOrder();
    SortMeaning(ArcLess, arcs);
    var s := SortDistinct(ArcLess, arcs);
    forall e | e in s ensures e in arcs {
      assert e in Elems(s);
    }
  }

  // ------------------------------------------------------------------ heights

  /** Every edge leads to a greater height. */
  ghost predicate Rises<T(!new)>(height: T -> nat, edges: seq<(T, T)>) {
    forall d :: d in edges ==> height(d.0) < height(d.1)
  }

  /** A numbering of the positions is a height of the nodes. */
  lemma NumberingRises<T(!new)>(order: seq<T>, edges: seq<(T, T)>) returns (height: T -> nat)
    requires EndsListed(order, edges) && HasNumbering(|order|, SortDistinct(ArcLess, ArcsOf(order, edges)))
    ensures Rises(height, edges)
  {
    var arcs := ArcsOf(order, edges);
    var sorted := SortDistinct(ArcLess, arcs);
    var rank :| Topological(|order|, sorted, rank);
    height := n => if n in order && IndexOf(order, n) < |rank| then rank[IndexOf(order, n)] else 0;
    ArcLessIsOrder();
    SortMeaning(ArcLess, arcs);
    forall d | d in edges ensures height(d.0) < height(d.1) {
      var k :| 0 <= k < |edges| && edges[k] == d;
      assert arcs[k] in Elems(sorted);
      assert arcs[k] in sorted;
    }
  }

  /** And a height of the nodes is a numbering of their positions. */
  lemma RisingNumbers<T(!new)>(order: seq<T>, edges: seq<(T, T)>, height: T -> nat)
    requires EndsListed(order, edges) && Rises(height, edges)
    ensures HasNumbering(|order|, SortDistinct(ArcLess, ArcsOf(order, edges)))
  {
    var arcs := ArcsOf(order, edges);
    var sorted := SortDistinct(ArcLess, arcs);
    var rank: seq<nat> := Rename(height, order);
    CanonicalInRange(|order|, arcs);
    ArcLessIsOrder();
    SortMeaning(ArcLess, arcs);
    forall a | a in sorted ensures rank[a.0] < rank[a.1] {
      assert a in Elems(sorted);
      assert a in arcs;
      var k :| 0 <= k < |arcs| && arcs[k] == a;
      assert edges[k] in edges;
    }
    assert Topological(|order|, sorted, rank);
  }

  lemma DenoteListed(e: Expr)
    ensures EndsListed(Denote(e).order, Denote(e).edges)
  {
    var m := Mean(e);
    MeanWellFormed(e);
    DedupElem(m.handles);
    assert [] + m.edges == m.edges;
    forall d | d in m.edges ensures d.0 in Dedup(m.handles) && d.1 in Dedup(m.handles) {
      assert (d.0, d.1) in m.edges;
    }
  }

  /** What an expression lowers to. */
  ghost function Lower(e: Expr, tasks: map<string, Task>, seed: int, context: seq<string>): Result<Chain, ChainError> {
    var st := Denote(e);
    match ResolveAll(tasks, st.grants, st.order)
    case Err(err) => Err(err)
    case Ok(nodes) => DenoteListed(e); Assemble(nodes, ArcsOf(st.order, st.edges), seed, context)
  }

  /** What `chain(expr, …)` returns. */
  ghost function Compile(expr: string, tasks: map<string, Task>, seed: int, context: seq<string>): Result<Chain, ChainError> {
    match Lex(expr)
    case None => Err(ParseError)
    case Some(ts) =>
      match Parse(ts)
      case None => Err(ParseError)
      case Some(e) => Lower(e, tasks, seed, context)
  }

  /** `lowerParse`: resolve the nodes in order, recording each handle's position. */
  method LowerParse(order: seq<string>, edges: seq<Edge>, grants: Grants, tasks: map<string, Task>)
    returns (r: Result<(seq<TaskSpec>, seq<Arc>), ChainError>)
    requires EndsListed(order, edges) && Distinct(order)
    ensures match ResolveAll(tasks, grants, order)
      case Err(e) => r == Err(e)
      case Ok(nodes) => r == Ok((nodes, ArcsOf(order, edges)))
  {
    var refToIndex: map<string, nat> := map[];
    var nodes: seq<TaskSpec> := [];
    for i := 0 to |order|
      invariant ResolveAll(tasks, grants, order[..i]) == Ok(nodes) && |nodes| == i
      invariant forall k :: 0 <= k < i ==> order[k] in refToIndex && refToIndex[order[k]] == k
    {
      assert order[..i + 1][..i] == order[..i] && order[..i + 1][i] == order[i];
      var h := order[i];
      if h !in tasks {
        FirstFailure(tasks, grants, order, i);
        return Err(UnknownHandle(h));
      }
      var t := tasks[h].spec;
      if h in grants && |grants[h]| > 0 {
        var g := WithGrants(t, h, grants[h]);
        if g.Err? {
          FirstFailure(tasks, grants, order, i);
          return Err(g.error);
        }
        t := g.value;
      }
      refToIndex := refToIndex[h := i];
      nodes := nodes + [t];
    }
    assert order[..|order|] == order;
    var arcs := IndexEdges(order, edges, refToIndex);
    return Ok((nodes, arcs));
  }

  method IndexEdges(ghost order: seq<string>, edges: seq<Edge>, refToIndex: map<string, nat>) returns (arcs: seq<Arc>)
    requires EndsListed(order, edges) && Distinct(order)
    requires forall k :: 0 <= k < |order| ==> order[k] in refToIndex && refToIndex[order[k]] == k
    ensures arcs == ArcsOf(order, edges)
  {
    arcs := [];
    for k := 0 to |edges|
      invariant |arcs| == k && forall j :: 0 <= j < k ==> arcs[j] == ArcsOf(order, edges)[j]
    {
      assert edges[k] in edges;
      assert order[IndexOf(order, edges[k].0)] in refToIndex && order[IndexOf(order, edges[k].1)] in refToIndex;
      arcs := arcs + [(refToIndex[edges[k].0], refToIndex[edges[k].1])];
    }
  }

  lemma {:induction false} FirstFailure(tasks: map<string, Task>, g: Grants, order: seq<string>, i: nat)
    requires i < |order| && ResolveAll(tasks, g, order[..i]).Ok? && Resolve(tasks, g, order[i]).Err?
    ensures ResolveAll(tasks, g, order) == Err(Resolve(tasks, g, order[i]).error)
  {
    if i == |order| - 1 {
    } else {
      var init := order[..|order| - 1];
      assert init[..i] == order[..i];
      FirstFailure(tasks, g, init, i);
    }
  }

  /** `chain(expr, opts)`. */
  method CompileChain(expr: string, tasks: map<string, Task>, seed: int, context: seq<string>)
    returns (r: Result<Chain, ChainError>)
    ensures r == Compile(expr, tasks, seed, context)
  {
    var toks := Tokenize(expr);
    if toks.None? { return Err(ParseError); }
    var parser := new Parser(toks.value);
    var frag := parser.ParseAll();
    if frag.None? { return Err(ParseError); }
    ghost var e := Parse(toks.value).value;
    DenoteListed(e);
    OrderMeaning(e);
    var lowered := LowerParse(parser.order, parser.edges, parser.grants, tasks);
    if lowered.Err? { return Err(lowered.error); }
    ResolveAllMeaning(tasks, parser.grants, parser.order);
    r := ChainOf(lowered.value.0, lowered.value.1, seed, context);
  }

  // ------------------------------------------------------------------ theorems

  /** Interchangeable expressions lower to the same chain, or fail the same way. */
  lemma SameLower(a: Expr, b: Expr, tasks: map<string, Task>, seed: int, context: seq<string>)
    requires Same(Mean(a), Mean(b))
    ensures Lower(a, tasks, seed, context) == Lower(b, tasks, seed, context)
  {
    SameDenote(a, b);
    DenoteListed(a);
    DenoteListed(b);
    ArcsOfSet(Denote(a).order, Denote(a).edges, Denote(b).edges);
    ArcLessIsOrder();
    SortDependsOnSet(ArcLess, ArcsOf(Denote(a).order, Denote(a).edges), ArcsOf(Denote(b).order, Denote(b).edges));
  }

  /** Compiling any printing of a tree is lowering the tree. */
  lemma CompileOfPrint(text: string, e: Expr, tasks: map<string, Task>, seed: int, context: seq<string>)
    requires HandlesLegal(e) && Writes(text, e)
    ensures Compile(text, tasks, seed, context) == Lower(e, tasks, seed, context)
  {
    PrintThenParse(text, e);
    SameLower(Parse(Lex(text).value).value, e, tasks, seed, context);
  }

  /** Writing `&` for every `|` compiles to the same chain or the same error. */
  lemma CompileBlindToBar(text: string, text': string, tasks: map<string, Task>, seed: int, context: seq<string>)
    requires Lex(text).Some? && Lex(text') == Some(AmpOnly(Lex(text).value))
    ensures Compile(text, tasks, seed, context) == Compile(text', tasks, seed, context)
  {
    var ts := Lex(text).value;
    BarIsAmp(ts);
    if Parse(ts).Some? {
      SameLower(Parse(AmpOnly(ts)).value, Parse(ts).value, tasks, seed, context);
    }
  }

  /** The canonical edges of the expression's chain. */
  ghost function LoweredEdges(e: Expr): seq<Arc> {
    DenoteListed(e);
    SortDistinct(ArcLess, ArcsOf(Denote(e).order, Denote(e).edges))
  }

  lemma LoweredInRange(e: Expr)
    ensures InRange(|Denote(e).order|, LoweredEdges(e))
  {
    DenoteListed(e);
    CanonicalInRange(|Denote(e).order|, ArcsOf(Denote(e).order, Denote(e).edges));
  }

  lemma ArcAgrees(e: Expr, i: nat, j: nat)
    requires i < |Denote(e).order| && j < |Denote(e).order|
    ensures (i, j) in LoweredEdges(e) <==> (Denote(e).order[i], Denote(e).order[j]) in Mean(e).edges
  {
    var st := Denote(e);
    DenoteListed(e);
    OrderMeaning(e);
    ArcsMeaning(st.order, st.edges);
    ArcLessIsOrder();
    var arcs := ArcsOf(st.order, st.edges);
    SortMeaning(ArcLess, arcs);
    assert (i, j) in LoweredEdges(e) <==> (i, j) in Elems(LoweredEdges(e));
    assert (i, j) in arcs <==> (i, j) in Elems(arcs);
    assert st.edges == Mean(e).edges;
  }

  /** The handles at a list of positions. */
  ghost function Names(e: Expr, w: seq<nat>): seq<string>
    requires forall i :: 0 <= i < |w| ==> w[i] < |Denote(e).order|
  {
    seq(|w|, i requires 0 <= i < |w| => Denote(e).order[w[i]])
  }

  /** Positions and handles walk together. */
  lemma {:induction false} WalksAgree(e: Expr, w: seq<nat>)
    requires w != [] && forall i :: 0 <= i < |w| ==> w[i] < |Denote(e).order|
    ensures Walk(LoweredEdges(e), w) <==> Walk(Mean(e).edges, Names(e, w))
  {
    if |w| > 1 {
      WalksAgree(e, w[1..]);
      assert Names(e, w)[1..] == Names(e, w[1..]);
      ArcAgrees(e, w[0], w[1]);
    }
  }

  ghost predicate ArcReaches(edges: seq<Arc>, i: nat, j: nat) {
    exists w :: |w| > 1 && Walk(edges, w) && w[0] == i && w[|w| - 1] == j
  }

  lemma ArcWalkNamed(e: Expr, w: seq<nat>)
    requires |w| > 1 && Walk(LoweredEdges(e), w)
    ensures w[0] < |Denote(e).order| && w[|w| - 1] < |Denote(e).order|
    ensures Reaches(Mean(e).edges, Denote(e).order[w[0]], Denote(e).order[w[|w| - 1]])
  {
    LoweredInRange(e);
    WalkInRange(|Denote(e).order|, LoweredEdges(e), w);
    WalksAgree(e, w);
    assert |Names(e, w)| == |w| && Names(e, w)[0] == Denote(e).order[w[0]];
    assert Names(e, w)[|w| - 1] == Denote(e).order[w[|w| - 1]];
  }

  lemma NamedWalkArc(e: Expr, names: seq<string>, i: nat, j: nat)
    requires |names| > 1 && Walk(Mean(e).edges, names) && i < |Denote(e).order| && j < |Denote(e).order|
    requires names[0] == Denote(e).order[i] && names[|names| - 1] == Denote(e).order[j]
    ensures ArcReaches(LoweredEdges(e), i, j)
  {
    var order := Denote(e).order;
    OrderMeaning(e);
    NamesListed(e, names);
    var w: seq<nat> := seq(|names|, k requires 0 <= k < |names| => IndexOf(order, names[k]));
    assert Names(e, w) == names;
    WalksAgree(e, w);
    IndexDistinct(order, i);
    IndexDistinct(order, j);
  }

  /** One node of the chain leads to another exactly when its handle does. */
  lemma ReachAgrees(e: Expr, i: nat, j: nat)
    requires i < |Denote(e).order| && j < |Denote(e).order|
    ensures ArcReaches(LoweredEdges(e), i, j) <==> Reaches(Mean(e).edges, Denote(e).order[i], Denote(e).order[j])
  {
    var order := Denote(e).order;
    forall w | |w| > 1 && Walk(LoweredEdges(e), w) && w[0] == i && w[|w| - 1] == j
      ensures Reaches(Mean(e).edges, order[i], order[j])
    {
      ArcWalkNamed(e, w);
    }
    forall names | |names| > 1 && Walk(Mean(e).edges, names) && names[0] == order[i] && names[|names| - 1] == order[j]
      ensures ArcReaches(LoweredEdges(e), i, j)
    {
      NamedWalkArc(e, names, i, j);
    }
  }

  lemma {:induction false} WalkInRange(n: nat, edges: seq<Arc>, w: seq<nat>)
    requires InRange(n, edges) && |w| > 1 && Walk(edges, w)
    ensures forall i :: 0 <= i < |w| ==> w[i] < n
  {
    assert (w[0], w[1]).0 < n;
    assert (w[0], w[1]).1 < n;
    if |w| > 2 {
      WalkInRange(n, edges, w[1..]);
      forall i | 0 <= i < |w| ensures w[i] < n {
        if i > 0 { assert w[i] == w[1..][i - 1]; }
      }
    }
  }

  lemma {:induction false} NamesListed(e: Expr, names: seq<string>)
    requires |names| > 1 && Walk(Mean(e).edges, names)
    ensures forall k :: 0 <= k < |names| ==> names[k] in Denote(e).order
  {
    MeanWellFormed(e);
    DedupElem(Mean(e).handles);
    assert (names[0], names[1]) in Mean(e).edges;
    if |names| > 2 {
      NamesListed(e, names[1..]);
      forall k | 0 <= k < |names| ensures names[k] in Denote(e).order {
        if k > 0 { assert names[k] == names[1..][k - 1]; }
      }
    }
  }

  /** An expression whose handles all resolve is refused exactly when some handle leads back
      to itself. */
  lemma RefusedIffCyclic(e: Expr, tasks: map<string, Task>, seed: int, context: seq<string>)
    requires ResolveAll(tasks, Denote(e).grants, Denote(e).order).Ok?
    ensures Lower(e, tasks, seed, context) == Err(Cycle) <==> exists h :: Reaches(Mean(e).edges, h, h)
  {
    var order, edges := Denote(e).order, LoweredEdges(e);
    ResolveAllMeaning(tasks, Denote(e).grants, order);
    LoweredInRange(e);
    NumberingIffNoCycle(|order|, edges);
    if HasCycle(edges) {
      var w :| Closed(edges, w);
      WalkInRange(|order|, edges, w);
      assert ArcReaches(edges, w[0], w[0]);
      ReachAgrees(e, w[0], w[0]);
    }
    forall h | Reaches(Mean(e).edges, h, h) ensures HasCycle(edges) {
      var names :| |names| > 1 && Walk(Mean(e).edges, names) && names[0] == h && names[|names| - 1] == h;
      NamesListed(e, names);
      var i := IndexOf(order, h);
      ReachAgrees(e, i, i);
      var w :| |w| > 1 && Walk(edges, w) && w[0] == i && w[|w| - 1] == i;
      assert Closed(edges, w);
    }
  }

  lemma {:induction false} BeforeIrreflexive(e: Expr, x: string)
    requires Linear(e)
    ensures !Before(e, x, x)
  {
    if e.Leaf? {
    } else if e.Group? {
      BeforeIrreflexive(e.inner, x);
    } else {
      LinearParts(e);
      BeforeIrreflexive(e.left, x);
      BeforeIrreflexive(e.right, x);
    }
  }

  /** A compiled chain has one node per handle, and the canonical edges. */
  lemma LowerShape(e: Expr, tasks: map<string, Task>, seed: int, context: seq<string>)
    requires Lower(e, tasks, seed, context).Ok?
    ensures var c := Lower(e, tasks, seed, context).value;
      |c.nodes| == |Denote(e).order| && c.edges == LoweredEdges(e) && c.seed == seed && c.context == context
  {
    ResolveAllMeaning(tasks, Denote(e).grants, Denote(e).order);
  }

  /** An expression that uses each handle once always passes the cycle check. */
  lemma LinearNeverRefused(e: Expr, tasks: map<string, Task>, seed: int, context: seq<string>)
    requires Linear(e)
    ensures Lower(e, tasks, seed, context) != Err(Cycle)
  {
    if ResolveAll(tasks, Denote(e).grants, Denote(e).order).Ok? {
      RefusedIffCyclic(e, tasks, seed, context);
      forall h ensures !Reaches(Mean(e).edges, h, h) {
        ReachesIffBefore(e, h, h);
        BeforeIrreflexive(e, h);
      }
    } else {
      ResolveAllMeaning(tasks, Denote(e).grants, Denote(e).order);
    }
  }

  /** In the chain of an expression that uses each handle once, the nodes are the handles in
      writing order, and node `i` leads to node `j` exactly when the lowest operator above
      both handles is `>` with `i` on its left. */
  lemma SeriesParallelChain(e: Expr, i: nat, j: nat)
    requires Linear(e) && i < |Handles(e)| && j < |Handles(e)|
    ensures Denote(e).order == Handles(e)
    ensures ArcReaches(LoweredEdges(e), i, j) <==> Before(e, Handles(e)[i], Handles(e)[j])
  {
    DedupOfDistinct(Handles(e));
    ReachAgrees(e, i, j);
    ReachesIffBefore(e, Handles(e)[i], Handles(e)[j]);
  }
}
