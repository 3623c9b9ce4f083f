/** The combinator API: fragments built with `seq`, `par` and `group`, evaluated against an
    order-preserving node accumulator, and their agreement with the string DSL. */
module Combinators {
  import opened Lists
  import opened Sorting
  import opened ChainMeaning
  import opened Graph
  import opened ChainLowering

  /** A fragment over nodes of type `N`; `SeqOf` and `ParOf` are what `seq(...)` and
      `par(...)` build. */
  datatype Frag<N> = One(node: N) | SeqOf(parts: seq<Frag<N>>) | ParOf(parts: seq<Frag<N>>)

  /** `seq` and `par` refuse an empty argument list, so no built fragment holds one. */
  ghost predicate Built<N(!new)>(f: Frag<N>)
    decreases f
  {
    match f
    case One(_) => true
    case SeqOf(parts) => parts != [] && forall p :: p in parts ==> Built(p)
    case ParOf(parts) => parts != [] && forall p :: p in parts ==> Built(p)
  }

  // ------------------------------------------------------------------ meaning

  /** Node occurrences left to right, ends, and edges in the order they are recorded. */
  datatype FMeaning<N> = FMeaning(nodes: seq<N>, entries: seq<N>, exits: seq<N>, edges: seq<(N, N)>)

  function AllNodes<N>(ms: seq<FMeaning<N>>): seq<N> {
    if ms == [] then [] else AllNodes(ms[..|ms| - 1]) + ms[|ms| - 1].nodes
  }

  function AllEntries<N>(ms: seq<FMeaning<N>>): seq<N> {
    if ms == [] then [] else AllEntries(ms[..|ms| - 1]) + ms[|ms| - 1].entries
  }

  function AllExits<N>(ms: seq<FMeaning<N>>): seq<N> {
    if ms == [] then [] else AllExits(ms[..|ms| - 1]) + ms[|ms| - 1].exits
  }

  function AllEdges<N>(ms: seq<FMeaning<N>>): seq<(N, N)> {
    if ms == [] then [] else AllEdges(ms[..|ms| - 1]) + ms[|ms| - 1].edges
  }

  /** The joins between neighbours. */
  function Adjacent<N>(ms: seq<FMeaning<N>>): seq<(N, N)> {
    if |ms| < 2 then []
    else Adjacent(ms[..|ms| - 1]) + Cross(ms[|ms| - 2].exits, ms[|ms| - 1].entries)
  }

  function Chained<N>(ms: seq<FMeaning<N>>): FMeaning<N>
    requires ms != []
  {
    FMeaning(AllNodes(ms), ms[0].entries, ms[|ms| - 1].exits, AllEdges(ms) + Adjacent(ms))
  }

  function Merged<N(==)>(ms: seq<FMeaning<N>>): FMeaning<N> {
    FMeaning(AllNodes(ms), Dedup(AllEntries(ms)), Dedup(AllExits(ms)), AllEdges(ms))
  }

  function FragMean<N(==, !new)>(f: Frag<N>): FMeaning<N>
    requires Built(f)
    decreases f, 1
  {
    match f
    case One(n) => FMeaning([n], [n], [n], [])
    case SeqOf(parts) => Chained(FragMeans(parts))
    case ParOf(parts) => Merged(FragMeans(parts))
  }

  function FragMeans<N(==, !new)>(parts: seq<Frag<N>>): (ms: seq<FMeaning<N>>)
    requires forall p :: p in parts ==> Built(p)
    ensures |ms| == |parts|
    decreases parts, 0
  {
    if parts == [] then []
    else FragMeans(parts[..|parts| - 1]) + [FragMean(parts[|parts| - 1])]
  }

  // ------------------------------------------------------------------ evaluation

  /** The evaluated parts carry their meanings' ends. */
  ghost predicate EndsOf(sub: seq<(seq<Task>, seq<Task>)>, ms: seq<FMeaning<Task>>) {
    |sub| == |ms| && forall i :: 0 <= i < |sub| ==> sub[i] == (ms[i].entries, ms[i].exits)
  }

  /** `NodeAccumulator` with its edge sink. */
  class NodeAccumulator {
    var nodes: seq<Task>
    var seen: set<Task>
    var edges: seq<(Task, Task)>

    constructor ()
      ensures Valid() && nodes == [] && edges == []
    {
      nodes, seen, edges := [], {}, [];
    }

    ghost predicate Valid()
      reads this
    {
      seen == Elems(nodes)
    }

    method Register(t: Task)
      requires Valid()
      modifies this
      ensures Valid() && nodes == AddNew(old(nodes), t) && edges == old(edges)
    {
      assert t in nodes <==> t in Elems(nodes);
      if t !in seen {
        seen := seen + {t};
        nodes := nodes + [t];
        ElemsConcat(old(nodes), [t]);
      }
    }

    /** `evalFrag` with `foldSeq` and `foldPar`. */
    method Eval(f: Frag<Task>) returns (entries: seq<Task>, exits: seq<Task>)
      requires Valid() && Built(f)
      modifies this
      ensures Valid()
      ensures var m := FragMean(f);
        && entries == m.entries && exits == m.exits
        && nodes == AddAll(old(nodes), m.nodes) && edges == old(edges) + m.edges
      decreases f, 1
    {
      match f
      case One(t) =>
        AddAllOne(nodes, t);
        Register(t);
        return [t], [t];
      case SeqOf(parts) =>
        var sub := EvalAll(parts);
        entries, exits := FoldSeq(sub, FragMeans(parts));
        ConcatAssociative(old(edges), AllEdges(FragMeans(parts)), Adjacent(FragMeans(parts)));
      case ParOf(parts) =>
        var sub := EvalAll(parts);
        entries, exits := FoldPar(sub, FragMeans(parts));
    }

    /** `foldSeq` once its parts are evaluated: join each part to the next. */
    method FoldSeq(sub: seq<(seq<Task>, seq<Task>)>, ghost ms: seq<FMeaning<Task>>)
      returns (entries: seq<Task>, exits: seq<Task>)
      requires sub != [] && EndsOf(sub, ms)
      modifies this`edges
      ensures entries == ms[0].entries && exits == ms[|ms| - 1].exits
      ensures edges == old(edges) + Adjacent(ms)
    {
      var cur := sub[0];
      for i := 1 to |sub|
        invariant cur == (sub[0].0, sub[i - 1].1)
        invariant edges == old(edges) + Adjacent(ms[..i])
      {
        AddCross(cur.1, sub[i].0);
        assert ms[..i + 1][..i] == ms[..i];
        cur := (cur.0, sub[i].1);
      }
      assert ms[..|ms|] == ms;
      return cur.0, cur.1;
    }

    /** `foldPar` once its parts are evaluated: collect all ends, drop repeats once. */
    method FoldPar(sub: seq<(seq<Task>, seq<Task>)>, ghost ms: seq<FMeaning<Task>>)
      returns (entries: seq<Task>, exits: seq<Task>)
      requires EndsOf(sub, ms)
      ensures entries == Dedup(AllEntries(ms)) && exits == Dedup(AllExits(ms))
    {
      entries, exits := [], [];
      for i := 0 to |sub|
        invariant entries == AllEntries(ms[..i]) && exits == AllExits(ms[..i])
      {
        assert ms[..i + 1][..i] == ms[..i];
        entries := entries + sub[i].0;
        exits := exits + sub[i].1;
      }
      assert ms[..|ms|] == ms;
      entries := DedupList(entries);
      exits := DedupList(exits);
    }

    /** `frags.map(evalFrag)`. */
    method EvalAll(parts: seq<Frag<Task>>) returns (sub: seq<(seq<Task>, seq<Task>)>)
      requires Valid() && forall p :: p in parts ==> Built(p)
      modifies this
      ensures Valid()
      ensures var ms := FragMeans(parts);
        && EndsOf(sub, ms)
        && nodes == AddAll(old(nodes), AllNodes(ms)) && edges == old(edges) + AllEdges(ms)
      decreases parts, 0
    {
      if parts == [] {
        return [];
      }
      var init, last := parts[..|parts| - 1], parts[|parts| - 1];
      sub := EvalAll(init);
      ghost var before := nodes;
      assert last in parts;
      var a, b := Eval(last);
      sub := sub + [(a, b)];
      ghost var ms := FragMeans(parts);
      assert ms[..|ms| - 1] == FragMeans(init);
      AddAllConcat(old(nodes), AllNodes(FragMeans(init)), FragMean(last).nodes);
      assert old(edges) + AllEdges(FragMeans(init)) + FragMean(last).edges == old(edges) + AllEdges(ms);
    }

    method AddCross(exits: seq<Task>, entries: seq<Task>)
      modifies this`edges
      ensures edges == old(edges) + Cross(exits, entries)
    {
      for i := 0 to |exits|
        invariant edges == old(edges) + Cross(exits[..i], entries)
      {
        ghost var row := edges;
        for j := 0 to |entries|
          invariant edges == row + Pairs(exits[i], entries[..j])
        {
          edges := edges + [(exits[i], entries[j])];
        }
        assert exits[..i + 1][..i] == exits[..i] && entries[..|entries|] == entries;
      }
      assert exits[..|exits|] == exits;
    }
  }

  // ------------------------------------------------------------------ shape facts

  ghost predicate FWellFormed<N(!new)>(m: FMeaning<N>) {
    && m.entries != [] && m.exits != []
    && (forall n :: n in m.entries ==> n in m.nodes) && (forall n :: n in m.exits ==> n in m.nodes)
    && (forall d :: d in m.edges ==> d.0 in m.nodes && d.1 in m.nodes)
  }

  lemma {:induction false} AllWellFormed<N(!new)>(ms: seq<FMeaning<N>>)
    requires forall m :: m in ms ==> FWellFormed(m)
    ensures forall n :: n in AllEntries(ms) || n in AllExits(ms) ==> n in AllNodes(ms)
    ensures forall d :: d in AllEdges(ms) || d in Adjacent(ms) ==> d.0 in AllNodes(ms) && d.1 in AllNodes(ms)
    ensures ms != [] ==> AllEntries(ms) != [] && AllExits(ms) != []
    ensures forall m :: m in ms ==> forall n :: n in m.nodes ==> n in AllNodes(ms)
  {
    if ms != [] {
      var init, last := ms[..|ms| - 1], ms[|ms| - 1];
      assert ms == init + [last];
      assert FWellFormed(last);
      AllWellFormed(init);
      if |ms| > 1 {
        var prev := ms[|ms| - 2];
        assert prev in init;
        assert FWellFormed(prev);
        CrossElems(prev.exits, last.entries);
        forall d | d in Cross(prev.exits, last.entries) ensures d.0 in AllNodes(ms) && d.1 in AllNodes(ms) {
          assert d == (d.0, d.1);
          assert d.0 in prev.nodes;
        }
      }
    }
  }

  lemma {:induction false} FragWellFormed<N(!new)>(f: Frag<N>)
    requires Built(f)
    ensures FWellFormed(FragMean(f))
    decreases f, 1
  {
    match f
    case One(_) =>
    case SeqOf(parts) =>
      FragsWellFormed(parts);
      var ms := FragMeans(parts);
      AllWellFormed(ms);
      assert ms[0] in ms && ms[|ms| - 1] in ms;
    case ParOf(parts) =>
      FragsWellFormed(parts);
      var ms := FragMeans(parts);
      AllWellFormed(ms);
      DedupElem(AllEntries(ms));
      DedupElem(AllExits(ms));
  }

  lemma {:induction false} FragsWellFormed<N(!new)>(parts: seq<Frag<N>>)
    requires forall p :: p in parts ==> Built(p)
    ensures forall m :: m in FragMeans(parts) ==> FWellFormed(m)
    decreases parts, 0
  {
    if parts != [] {
      FragsWellFormed(parts[..|parts| - 1]);
      FragWellFormed(parts[|parts| - 1]);
    }
  }

  // ------------------------------------------------------------------ lowering

  lemma FragListed<N(!new)>(f: Frag<N>)
    requires Built(f)
    ensures EndsListed(Dedup(FragMean(f).nodes), FragMean(f).edges)
  {
    FragWellFormed(f);
    DedupElem(FragMean(f).nodes);
  }

  function Specs(nodes: seq<Task>): (s: seq<TaskSpec>)
    ensures |s| == |nodes| && forall i :: 0 <= i < |nodes| ==> s[i] == nodes[i].spec
  {
    seq(|nodes|, i requires 0 <= i < |nodes| => nodes[i].spec)
  }

  /** What `chainFrom(frag, …)` returns. */
  ghost function LowerFrag(f: Frag<Task>, seed: int, context: seq<string>): Result<Chain, ChainError>
    requires Built(f)
  {
    FragListed(f);
    var m := FragMean(f);
    Assemble(Specs(Dedup(m.nodes)), ArcsOf(Dedup(m.nodes), m.edges), seed, context)
  }

  /** `chainFrom`. */
  method ChainFrom(f: Frag<Task>, seed: int, context: seq<string>) returns (r: Result<Chain, ChainError>)
    requires Built(f)
    ensures r == LowerFrag(f, seed, context)
  {
    var acc := new NodeAccumulator();
    var entries, exits := acc.Eval(f);
    FragListed(f);
    assert [] + FragMean(f).edges == FragMean(f).edges;
    r := ChainOf(Specs(acc.nodes), ArcsOf(acc.nodes, acc.edges), seed, context);
  }

  /** Two fragment meanings are interchangeable. */
  ghost predicate FSame<N(!new)>(a: FMeaning<N>, b: FMeaning<N>) {
    a.(edges := []) == b.(edges := []) && Elems(a.edges) == Elems(b.edges)
  }

  lemma FSameLower(a: Frag<Task>, b: Frag<Task>, seed: int, context: seq<string>)
    requires Built(a) && Built(b) && FSame(FragMean(a), FragMean(b))
    ensures LowerFrag(a, seed, context) == LowerFrag(b, seed, context)
  {
    var x, y := FragMean(a), FragMean(b);
    assert x.nodes == x.(edges := []).nodes && y.nodes == y.(edges := []).nodes;
    FragListed(a);
    FragListed(b);
    var order := Dedup(x.nodes);
    ArcsOfSet(order, x.edges, y.edges);
    ArcLessIsOrder();
    SortDependsOnSet(ArcLess, ArcsOf(order, x.edges), ArcsOf(order, y.edges));
  }
}
