/** The fluent Flow builder: a mutable left-nested fragment, its orchestration patterns, and
    the chains they lower to. Client registrations carried beside the graph (`withMcp`,
    `withMemory`) do not enter it. */
module Flows {
  import opened Lists
  import opened Sorting
  import opened ChainMeaning
  import opened Graph
  import opened ChainLowering
  import opened Combinators
  import opened DslParity

  // ------------------------------------------------------------------ task factories

  datatype Tools = NoTools | Named(names: seq<string>) | Versioned(contract: map<string, string>)

  datatype StepOptions = StepOptions(
    model: string, tools: Tools, maxTurns: Option<nat>, maxToolCalls: Option<nat>, reasoning: Option<string>,
    skills: seq<string>, connections: seq<string>, datasets: seq<string>, apps: seq<string>)

  const NO_OPTIONS := StepOptions("", NoTools, None, None, None, [], [], [], [])
  const REASONING_KEY := "reasoning"
  const IMAGE_REF_KEY := "image_ref"
  const CONSENSUS_VOTE_KEY := "kx.consensus.vote"

  function GrantsToContract(tools: Tools): map<string, string> {
    match tools
    case NoTools => map[]
    case Named(names) => map n | n in names :: "1"
    case Versioned(contract) => contract
  }

  function PureSpec(params: map<string, string>): TaskSpec {
    TaskSpec(Pure, "", "", params, map[], None, None, [], [], [], [], [])
  }

  /** `task.model`; an unknown reasoning mode is refused. */
  function ModelSpec(prompt: string, params: map<string, string>, o: StepOptions): Result<TaskSpec, ChainError> {
    if o.reasoning.Some? && o.reasoning.value !in ["full", "minimal", "off", "strip"] then Err(ParseError)
    else
      var all := if o.reasoning.Some? then params[REASONING_KEY := o.reasoning.value] else params;
      Ok(TaskSpec(Model, o.model, prompt, all, GrantsToContract(o.tools), o.maxTurns, o.maxToolCalls, [],
                  o.skills, o.connections, o.datasets, o.apps))
  }

  function PromptSpec(prompt: string): TaskSpec {
    TaskSpec(Model, "", prompt, map[], map[], None, None, [], [], [], [], [])
  }

  /** Allocates task identities. */
  class Arena {
    var next: nat

    constructor (next: nat)
      ensures this.next == next
    {
      this.next := next;
    }

    method New(spec: TaskSpec) returns (t: Task)
      modifies this
      ensures t == Task(old(next), spec) && next == old(next) + 1
    {
      t := Task(next, spec);
      next := next + 1;
    }
  }

  // ------------------------------------------------------------------ nesting is flat

  /** What repeated `append` builds. */
  function Nest(steps: seq<Frag<Task>>): (f: Frag<Task>)
    requires steps != [] && forall s :: s in steps ==> Built(s)
    ensures Built(f)
  {
    if |steps| == 1 then steps[0] else SeqOf([Nest(steps[..|steps| - 1]), steps[|steps| - 1]])
  }

  lemma {:induction false} MeansOfTwo(a: Frag<Task>, b: Frag<Task>)
    requires Built(a) && Built(b)
    ensures FragMean(SeqOf([a, b])) == Chained([FragMean(a), FragMean(b)])
  {
    assert [a, b][..1] == [a] && [a][..0] == [];
    assert FragMeans([a]) == [FragMean(a)];
    assert FragMeans([a, b]) == [FragMean(a), FragMean(b)];
  }

  lemma ChainedOne<N(!new)>(m: FMeaning<N>)
    ensures Chained([m]) == m
  {
    AllOfOne(m);
    assert m.edges + [] == m.edges;
  }

  /** Left-nested sequencing means what the flat sequence means. */
  lemma {:induction false} NestFlat(steps: seq<Frag<Task>>)
    requires steps != [] && forall s :: s in steps ==> Built(s)
    ensures FSame(FragMean(Nest(steps)), Chained(FragMeans(steps)))
  {
    if |steps| == 1 {
      assert steps[..0] == [];
      assert FragMeans(steps) == [FragMean(steps[0])];
      ChainedOne(FragMean(steps[0]));
    } else {
      var init, last := steps[..|steps| - 1], steps[|steps| - 1];
      NestFlat(init);
      MeansOfTwo(Nest(init), last);
      NestStep(FragMean(Nest(init)), FragMeans(init), FragMean(last));
    }
  }

  lemma NestStep<N(!new)>(a: FMeaning<N>, ms: seq<FMeaning<N>>, m: FMeaning<N>)
    requires ms != [] && FSame(a, Chained(ms))
    ensures FSame(Chained([a, m]), Chained(ms + [m]))
  {
    ChainedPush(ms, m);
    ChainedPush([a], m);
    ChainedOne(a);
    assert [a] + [m] == [a, m];
    assert a.(edges := []) == Chained(ms).(edges := []);
    assert a.nodes == a.(edges := []).nodes && a.entries == a.(edges := []).entries && a.exits == a.(edges := []).exits;
  }

  /** A flow lowers exactly like the flat `seq` of everything appended to it. */
  lemma FlowIsFlatSeq(steps: seq<Frag<Task>>, seed: int, context: seq<string>)
    requires steps != [] && forall s :: s in steps ==> Built(s)
    ensures LowerFrag(Nest(steps), seed, context) == LowerFrag(SeqOf(steps), seed, context)
  {
    NestFlat(steps);
    FSameLower(Nest(steps), SeqOf(steps), seed, context);
  }

  // ------------------------------------------------------------------ fresh steps never cycle

  /** Every edge leads from an earlier occurrence to a later one. */
  ghost predicate Forward<N(!new)>(nodes: seq<N>, edges: seq<(N, N)>) {
    forall d :: d in edges ==> LeadsOn(nodes, d)
  }

  ghost predicate LeadsOn<N(!new)>(nodes: seq<N>, d: (N, N)) {
    exists i, j :: 0 <= i < j < |nodes| && nodes[i] == d.0 && nodes[j] == d.1
  }

  lemma LeadsOnInConcat<N(!new)>(a: seq<N>, b: seq<N>, d: (N, N))
    ensures LeadsOn(a, d) || LeadsOn(b, d) || (d.0 in a && d.1 in b) ==> LeadsOn(a + b, d)
  {
    if LeadsOn(a, d) {
      var i, j :| 0 <= i < j < |a| && a[i] == d.0 && a[j] == d.1;
      assert (a + b)[i] == d.0 && (a + b)[j] == d.1;
    } else if LeadsOn(b, d) {
      var i, j :| 0 <= i < j < |b| && b[i] == d.0 && b[j] == d.1;
      assert (a + b)[|a| + i] == d.0 && (a + b)[|a| + j] == d.1;
    } else if d.0 in a && d.1 in b {
      var i :| 0 <= i < |a| && a[i] == d.0;
      var j :| 0 <= j < |b| && b[j] == d.1;
      assert (a + b)[i] == d.0 && (a + b)[|a| + j] == d.1;
    }
  }

  lemma {:induction false} AllForward<N(!new)>(ms: seq<FMeaning<N>>)
    requires forall m :: m in ms ==> FWellFormed(m) && Forward(m.nodes, m.edges)
    ensures Forward(AllNodes(ms), AllEdges(ms)) && Forward(AllNodes(ms), Adjacent(ms))
  {
    if ms != [] {
      var init, last := ms[..|ms| - 1], ms[|ms| - 1];
      assert ms == init + [last];
      assert FWellFormed(last) && Forward(last.nodes, last.edges);
      AllForward(init);
      AllWellFormed(init);
      forall d | d in AllEdges(ms) ensures LeadsOn(AllNodes(ms), d) {
        LeadsOnInConcat(AllNodes(init), last.nodes, d);
      }
      forall d | d in Adjacent(ms) ensures LeadsOn(AllNodes(ms), d) {
        LeadsOnInConcat(AllNodes(init), last.nodes, d);
        if d !in Adjacent(init) {
          var prev := ms[|ms| - 2];
          assert prev in init;
          CrossElems(prev.exits, last.entries);
          assert d == (d.0, d.1);
        }
      }
    }
  }

  lemma {:induction false} FragForward<N(!new)>(f: Frag<N>)
    requires Built(f)
    ensures Forward(FragMean(f).nodes, FragMean(f).edges)
    decreases f, 1
  {
    match f
    case One(_) =>
    case SeqOf(parts) =>
      FragsForward(parts);
      AllForward(FragMeans(parts));
    case ParOf(parts) =>
      FragsForward(parts);
      AllForward(FragMeans(parts));
  }

  lemma {:induction false} FragsForward<N(!new)>(parts: seq<Frag<N>>)
    requires forall p :: p in parts ==> Built(p)
    ensures forall m :: m in FragMeans(parts) ==> FWellFormed(m) && Forward(m.nodes, m.edges)
    decreases parts, 0
  {
    if parts != [] {
      FragsForward(parts[..|parts| - 1]);
      FragForward(parts[|parts| - 1]);
      FragWellFormed(parts[|parts| - 1]);
    }
  }

  lemma ForwardArcs(n: nat, arcs: seq<Arc>)
    requires InRange(n, arcs) && forall a :: a in arcs ==> a.0 < a.1
    ensures HasNumbering(n, SortDistinct(ArcLess, arcs))
  {
    CanonicalInRange(n, arcs);
    ArcLessIsOrder();
    SortMeaning(ArcLess, arcs);
    var sorted := SortDistinct(ArcLess, arcs);
    var rank: seq<nat> := seq(n, i => i);
    forall a | a in sorted ensures rank[a.0] < rank[a.1] {
      assert a in Elems(sorted);
    }
    assert Topological(n, sorted, rank);
  }

  lemma ArcsForward<N(!new)>(nodes: seq<N>, edges: seq<(N, N)>)
    requires Distinct(nodes) && EndsListed(nodes, edges) && Forward(nodes, edges)
    ensures forall a :: a in ArcsOf(nodes, edges) ==> a.0 < a.1
  {
    var arcs := ArcsOf(nodes, edges);
    forall a | a in arcs ensures a.0 < a.1 {
      var k :| 0 <= k < |arcs| && arcs[k] == a;
      assert LeadsOn(nodes, edges[k]);
      var i, j :| 0 <= i < j < |nodes| && nodes[i] == edges[k].0 && nodes[j] == edges[k].1;
      IndexDistinct(nodes, i);
      IndexDistinct(nodes, j);
    }
  }

  ghost predicate SameArcs<N(!new)>(nodes: seq<N>, edges: seq<(N, N)>, arcs: seq<Arc>) {
    forall i: nat, j: nat :: i < |nodes| && j < |nodes| ==> ((i, j) in arcs <==> (nodes[i], nodes[j]) in edges)
  }

  lemma SortedArcs<N(!new)>(nodes: seq<N>, edges: seq<(N, N)>)
    requires Distinct(nodes) && EndsListed(nodes, edges)
    ensures SameArcs(nodes, edges, SortDistinct(ArcLess, ArcsOf(nodes, edges)))
  {
    var arcs := ArcsOf(nodes, edges);
    ArcsMeaning(nodes, edges);
    ArcLessIsOrder();
    SortMeaning(ArcLess, arcs);
    var sorted := SortDistinct(ArcLess, arcs);
    forall i: nat, j: nat | i < |nodes| && j < |nodes| ensures (i, j) in sorted <==> (nodes[i], nodes[j]) in edges {
      assert (i, j) in sorted <==> (i, j) in Elems(sorted);
      assert (i, j) in arcs <==> (i, j) in Elems(arcs);
    }
  }

  /** A fragment in which no task is used twice always lowers, with the tasks as its nodes in
      writing order. */
  lemma FreshLowers(f: Frag<Task>, seed: int, context: seq<string>)
    requires Built(f) && Distinct(FragMean(f).nodes)
    ensures LowerFrag(f, seed, context).Ok?
    ensures LowerFrag(f, seed, context).value.nodes == Specs(FragMean(f).nodes)
    ensures SameArcs(FragMean(f).nodes, FragMean(f).edges, LowerFrag(f, seed, context).value.edges)
  {
    var m := FragMean(f);
    DedupOfDistinct(m.nodes);
    FragListed(f);
    FragForward(f);
    ArcsForward(m.nodes, m.edges);
    ForwardArcs(|m.nodes|, ArcsOf(m.nodes, m.edges));
    SortedArcs(m.nodes, m.edges);
  }

  // ------------------------------------------------------------------ repeated steps

  lemma {:induction false} MeansAt<N(!new)>(parts: seq<Frag<N>>, i: nat)
    requires (forall p :: p in parts ==> Built(p)) && i < |parts|
    ensures FragMeans(parts)[i] == FragMean(parts[i])
  {
    if i < |parts| - 1 { MeansAt(parts[..|parts| - 1], i); }
  }

  lemma {:induction false} PartEdges<N(!new)>(ms: seq<FMeaning<N>>, i: nat)
    requires i < |ms|
    ensures forall d :: d in ms[i].edges ==> d in AllEdges(ms)
    ensures forall n :: n in ms[i].exits ==> n in AllExits(ms)
  {
    if i < |ms| - 1 { PartEdges(ms[..|ms| - 1], i); }
  }

  lemma {:induction false} NeighbourEdge<N(!new)>(ms: seq<FMeaning<N>>, i: nat, x: N, y: N)
    requires i + 1 < |ms| && x in ms[i].exits && y in ms[i + 1].entries
    ensures (x, y) in Adjacent(ms)
  {
    if i + 1 < |ms| - 1 {
      NeighbourEdge(ms[..|ms| - 1], i, x, y);
    } else {
      CrossElems(ms[i].exits, ms[i + 1].entries);
    }
  }

  lemma {:induction false} EntryOfPart<N(!new)>(ms: seq<FMeaning<N>>, x: N) returns (i: nat)
    requires x in AllEntries(ms)
    ensures i < |ms| && x in ms[i].entries
  {
    var k := |ms| - 1;
    if x in ms[k].entries {
      i := k;
    } else {
      i := EntryOfPart(ms[..k], x);
    }
  }

  /** Any height that rises along the edges of a fragment puts each entry at or below some
      exit. */
  lemma {:induction false} EntryBelowExit<N(!new)>(f: Frag<N>, height: N -> nat, x: N) returns (y: N)
    requires Built(f) && Rises(height, FragMean(f).edges) && x in FragMean(f).entries
    ensures y in FragMean(f).exits && height(x) <= height(y)
    decreases f, 1
  {
    if f.One? {
      y := x;
    } else {
      var ms := FragMeans(f.parts);
      if f.SeqOf? {
        y := BelowThrough(f.parts, height, x, |f.parts| - 1);
      } else {
        DedupElem(AllEntries(ms));
        DedupElem(AllExits(ms));
        var i := EntryOfPart(ms, x);
        MeansAt(f.parts, i);
        PartEdges(ms, i);
        assert f.parts[i] in f.parts;
        y := EntryBelowExit(f.parts[i], height, x);
      }
    }
  }

  lemma {:induction false} BelowThrough<N(!new)>(parts: seq<Frag<N>>, height: N -> nat, x: N, k: nat) returns (y: N)
    requires (forall p :: p in parts ==> Built(p)) && k < |parts|
    requires Rises(height, AllEdges(FragMeans(parts)) + Adjacent(FragMeans(parts))) && x in FragMeans(parts)[0].entries
    ensures y in FragMeans(parts)[k].exits && height(x) <= height(y)
    decreases parts, 0, k
  {
    var ms := FragMeans(parts);
    MeansAt(parts, k);
    PartEdges(ms, k);
    assert parts[k] in parts;
    if k == 0 {
      y := EntryBelowExit(parts[0], height, x);
    } else {
      var z := BelowThrough(parts, height, x, k - 1);
      FragWellFormed(parts[k]);
      var e := ms[k].entries[0];
      NeighbourEdge(ms, k - 1, z, e);
      y := EntryBelowExit(parts[k], height, e);
      assert (z, e) in AllEdges(ms) + Adjacent(ms);
    }
  }

  /** The same fragment twice in a row is refused, whatever its shape and whatever stands
      around it. */
  lemma RepeatRefused(fs: seq<Frag<Task>>, k: nat, seed: int, context: seq<string>)
    requires (forall f :: f in fs ==> Built(f)) && k + 1 < |fs| && fs[k] == fs[k + 1]
    ensures LowerFrag(SeqOf(fs), seed, context) == Err(Cycle)
  {
    var f, ms := SeqOf(fs), FragMeans(fs);
    var m := FragMean(f);
    FragListed(f);
    if HasNumbering(|Dedup(m.nodes)|, SortDistinct(ArcLess, ArcsOf(Dedup(m.nodes), m.edges))) {
      var height := NumberingRises(Dedup(m.nodes), m.edges);
      MeansAt(fs, k);
      MeansAt(fs, k + 1);
      PartEdges(ms, k);
      assert fs[k] in fs;
      FragWellFormed(fs[k]);
      var x := ms[k].entries[0];
      var y := EntryBelowExit(fs[k], height, x);
      NeighbourEdge(ms, k, y, x);
      assert false;
    }
  }

  // ------------------------------------------------------------------ pattern shapes

  function Ones(ts: seq<Task>): (fs: seq<Frag<Task>>)
    ensures |fs| == |ts| && (forall i :: 0 <= i < |ts| ==> fs[i] == One(ts[i])) && forall f :: f in fs ==> Built(f)
  {
    seq(|ts|, i requires 0 <= i < |ts| => One(ts[i]))
  }

  ghost predicate Neighbours(ts: seq<Task>, d: (Task, Task)) {
    exists i :: 0 <= i < |ts| - 1 && ts[i] == d.0 && ts[i + 1] == d.1
  }

  lemma {:induction false} OnesMeaning(ts: seq<Task>)
    ensures var ms := FragMeans(Ones(ts));
      && AllNodes(ms) == AllEntries(ms) == AllExits(ms) == ts && AllEdges(ms) == []
      && (forall i :: 0 <= i < |ms| ==> ms[i] == FMeaning([ts[i]], [ts[i]], [ts[i]], []))
      && (forall d :: d in Adjacent(ms) <==> Neighbours(ts, d))
  {
    var ms := FragMeans(Ones(ts));
    if ts != [] {
      var init := ts[..|ts| - 1];
      OnesMeaning(init);
      assert Ones(ts)[..|ts| - 1] == Ones(init);
      assert ms[..|ms| - 1] == FragMeans(Ones(init));
      assert ts == init + [ts[|ts| - 1]];
      assert ms[|ms| - 1] == FragMean(One(ts[|ts| - 1]));
      if |ts| > 1 {
        var d := (ts[|ts| - 2], ts[|ts| - 1]);
        assert Cross([d.0], [d.1]) == [d] by { assert [d.0][..0] == []; assert Pairs(d.0, [d.1]) == [d]; }
        assert ms[|ms| - 2] == FragMeans(Ones(init))[|init| - 1];
        assert ms[|ms| - 2].exits == [d.0] && ms[|ms| - 1].entries == [d.1];
        assert Adjacent(ms) == Adjacent(FragMeans(Ones(init))) + [d];
        forall x ensures x in Adjacent(ms) <==> Neighbours(ts, x) {
          NeighboursPush(init, ts[|ts| - 1], x);
        }
      }
    }
  }

  lemma NeighboursPush(init: seq<Task>, t: Task, d: (Task, Task))
    requires init != []
    ensures Neighbours(init + [t], d) <==> Neighbours(init, d) || d == (init[|init| - 1], t)
  {
    var ts := init + [t];
    if Neighbours(init, d) {
      var i :| 0 <= i < |init| - 1 && init[i] == d.0 && init[i + 1] == d.1;
      assert ts[i] == d.0 && ts[i + 1] == d.1;
    }
    if d == (init[|init| - 1], t) {
      assert ts[|init| - 1] == d.0 && ts[|init| - 1 + 1] == d.1;
    }
    if Neighbours(ts, d) {
      var i :| 0 <= i < |ts| - 1 && ts[i] == d.0 && ts[i + 1] == d.1;
      if i < |init| - 1 { assert init[i] == d.0 && init[i + 1] == d.1; }
    }
  }

  lemma FanMeaning(ts: seq<Task>)
    requires ts != [] && Distinct(ts)
    ensures FragMean(ParOf(Ones(ts))) == FMeaning(ts, ts, ts, [])
  {
    OnesMeaning(ts);
    DedupOfDistinct(ts);
  }

  lemma NeighbourIndices(ts: seq<Task>, i: nat, j: nat)
    requires Distinct(ts) && i < |ts| && j < |ts|
    ensures Neighbours(ts, (ts[i], ts[j])) <==> j == i + 1
  {
    if Neighbours(ts, (ts[i], ts[j])) {
      var k :| 0 <= k < |ts| - 1 && ts[k] == ts[i] && ts[k + 1] == ts[j];
      assert k == i;
    }
  }

  lemma PathMeaning(ts: seq<Task>)
    requires ts != []
    ensures var m := FragMean(SeqOf(Ones(ts)));
      m.nodes == ts && m.edges == Adjacent(FragMeans(Ones(ts))) && forall d :: d in m.edges <==> Neighbours(ts, d)
  {
    OnesMeaning(ts);
    assert [] + Adjacent(FragMeans(Ones(ts))) == Adjacent(FragMeans(Ones(ts)));
  }

  /** A path: each task feeds the next and nothing else. */
  lemma PathShape(ts: seq<Task>, seed: int, context: seq<string>, i: nat, j: nat)
    requires Distinct(ts) && i < |ts| && j < |ts|
    ensures var r := LowerFrag(SeqOf(Ones(ts)), seed, context);
      r.Ok? && r.value.nodes == Specs(ts) && ((i, j) in r.value.edges <==> j == i + 1)
  {
    PathMeaning(ts);
    FreshLowers(SeqOf(Ones(ts)), seed, context);
    NeighbourIndices(ts, i, j);
  }

  lemma {:induction false} ThreeMeanings(a: Frag<Task>, b: Frag<Task>, c: Frag<Task>)
    requires Built(a) && Built(b) && Built(c)
    ensures FragMean(SeqOf([a, b, c])) == Chained([FragMean(a), FragMean(b), FragMean(c)])
  {
    var p := [a, b, c];
    assert p[..2] == [a, b] && [a, b][..1] == [a] && [a][..0] == [];
    assert FragMeans([a]) == [FragMean(a)];
    assert FragMeans([a, b]) == [FragMean(a), FragMean(b)];
    assert FragMeans(p) == FragMeans([a, b]) + [FragMean(c)];
    assert FragMeans(p) == [FragMean(a), FragMean(b), FragMean(c)];
  }

  lemma ChainedPushEdge<N(!new)>(ms: seq<FMeaning<N>>, m: FMeaning<N>, d: (N, N))
    requires ms != []
    ensures d in Chained(ms + [m]).edges <==>
      d in Chained(ms).edges || d in m.edges || (d.0 in Chained(ms).exits && d.1 in m.entries)
  {
    var a, b := Chained(ms), Chained(ms + [m]);
    ChainedPush(ms, m);
    CrossElems(a.exits, m.entries);
    var c := Cross(a.exits, m.entries);
    assert d == (d.0, d.1);
    assert d in b.edges <==> d in Elems(b.edges);
    assert d in a.edges <==> d in Elems(a.edges);
    assert d in m.edges <==> d in Elems(m.edges);
    assert d in c <==> d in Elems(c);
  }

  lemma PairMeaning<N(!new)>(a: FMeaning<N>, b: FMeaning<N>, d: (N, N))
    ensures var m := Chained([a, b]);
      && m.nodes == a.nodes + b.nodes && m.entries == a.entries && m.exits == b.exits
      && (d in m.edges <==> d in a.edges || d in b.edges || (d.0 in a.exits && d.1 in b.entries))
  {
    ChainedOne(a);
    ChainedPush([a], b);
    ChainedPushEdge([a], b, d);
    assert [a] + [b] == [a, b];
  }

  lemma SwarmMeaning(ts: seq<Task>, g: Task, d: (Task, Task))
    requires ts != [] && Distinct(ts)
    ensures var m := FragMean(SeqOf([ParOf(Ones(ts)), One(g)]));
      m.nodes == ts + [g] && (d in m.edges <==> d.0 in ts && d.1 == g)
  {
    FanMeaning(ts);
    MeansOfTwo(ParOf(Ones(ts)), One(g));
    PairMeaning(FMeaning(ts, ts, ts, []), FMeaning([g], [g], [g], []), d);
  }

  /** `[a & …] > g`: every participant feeds the gather step, and nothing else is joined. */
  lemma SwarmShape(ts: seq<Task>, g: Task, seed: int, context: seq<string>, i: nat, j: nat)
    requires ts != [] && Distinct(ts + [g]) && i <= |ts| && j <= |ts|
    ensures var r := LowerFrag(SeqOf([ParOf(Ones(ts)), One(g)]), seed, context);
      r.Ok? && r.value.nodes == Specs(ts + [g]) && ((i, j) in r.value.edges <==> i < |ts| && j == |ts|)
  {
    DistinctConcat(ts, [g]);
    var all := ts + [g];
    SwarmMeaning(ts, g, (all[i], all[j]));
    FreshLowers(SeqOf([ParOf(Ones(ts)), One(g)]), seed, context);
    assert all[i] in ts <==> i < |ts|;
    assert all[j] == g <==> j == |ts|;
  }

  lemma SupervisorMeaning(p: Task, ts: seq<Task>, g: Task, d: (Task, Task))
    requires ts != [] && Distinct(ts)
    ensures var m := FragMean(SeqOf([One(p), ParOf(Ones(ts)), One(g)]));
      m.nodes == [p] + ts + [g] && (d in m.edges <==> (d.0 == p && d.1 in ts) || (d.0 in ts && d.1 == g))
  {
    FanMeaning(ts);
    ThreeMeanings(One(p), ParOf(Ones(ts)), One(g));
    var a, b, c := FMeaning([p], [p], [p], []), FMeaning(ts, ts, ts, []), FMeaning([g], [g], [g], []);
    PairMeaning(a, b, d);
    ChainedPush([a, b], c);
    ChainedPushEdge([a, b], c, d);
    assert [a, b] + [c] == [a, b, c];
  }

  /** `p > [a & …] > g`: the planner feeds every worker, every worker feeds the gather step. */
  lemma SupervisorShape(p: Task, ts: seq<Task>, g: Task, seed: int, context: seq<string>, i: nat, j: nat)
    requires ts != [] && Distinct([p] + ts + [g]) && i <= |ts| + 1 && j <= |ts| + 1
    ensures var r := LowerFrag(SeqOf([One(p), ParOf(Ones(ts)), One(g)]), seed, context);
      && r.Ok? && r.value.nodes == Specs([p] + ts + [g])
      && ((i, j) in r.value.edges <==> (i == 0 && 1 <= j <= |ts|) || (1 <= i <= |ts| && j == |ts| + 1))
  {
    var all := [p] + ts + [g];
    DistinctConcat([p] + ts, [g]);
    DistinctConcat([p], ts);
    SupervisorMeaning(p, ts, g, (all[i], all[j]));
    FreshLowers(SeqOf([One(p), ParOf(Ones(ts)), One(g)]), seed, context);
    SupervisorPlaces(p, ts, g, i);
    SupervisorPlaces(p, ts, g, j);
  }

  lemma SupervisorPlaces(p: Task, ts: seq<Task>, g: Task, i: nat)
    requires Distinct([p] + ts + [g]) && i <= |ts| + 1
    ensures var x := ([p] + ts + [g])[i];
      (x == p <==> i == 0) && (x in ts <==> 1 <= i <= |ts|) && (x == g <==> i == |ts| + 1)
  {
    var all := [p] + ts + [g];
    assert all[0] == p && all[|ts| + 1] == g;
    if all[i] in ts {
      var k :| 0 <= k < |ts| && ts[k] == all[i];
      assert all[k + 1] == ts[k];
    }
    if 1 <= i <= |ts| { assert all[i] == ts[i - 1]; }
  }
}
