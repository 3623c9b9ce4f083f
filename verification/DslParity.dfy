/** The string DSL and the combinator API lower to the same chain. */
module DslParity {
  import opened Lists
  import opened Sorting
  import opened ChainGrammar
  import opened ChainMeaning
  import opened Graph
  import opened ChainLowering
  import opened Combinators

  // ------------------------------------------------------------------ fragments as expressions

  /** Operands joined left to right. */
  function FoldJoin(lvl: Level, es: seq<Expr>): Expr
    requires lvl < 3 && es != []
  {
    if |es| == 1 then es[0] else Join(lvl, FoldJoin(lvl, es[..|es| - 1]), es[|es| - 1])
  }

  /** The expression a combinator tree stands for. */
  function ToExpr(f: Frag<string>): Expr
    requires Built(f)
    decreases f, 1
  {
    match f
    case One(h) => Leaf(h, [])
    case SeqOf(parts) => FoldJoin(2, ToExprs(parts))
    case ParOf(parts) => FoldJoin(1, ToExprs(parts))
  }

  function ToExprs(parts: seq<Frag<string>>): (es: seq<Expr>)
    requires forall p :: p in parts ==> Built(p)
    ensures |es| == |parts|
    decreases parts, 0
  {
    if parts == [] then [] else ToExprs(parts[..|parts| - 1]) + [ToExpr(parts[|parts| - 1])]
  }

  /** The combinator tree of an expression; tags are not part of it. */
  function FromExpr(e: Expr): (f: Frag<string>)
    ensures Built(f)
  {
    match e
    case Leaf(h, _) => One(h)
    case Group(i) => FromExpr(i)
    case Seq(l, r) => SeqOf([FromExpr(l), FromExpr(r)])
    case And(l, r) => ParOf([FromExpr(l), FromExpr(r)])
    case Or(l, r) => ParOf([FromExpr(l), FromExpr(r)])
  }

  predicate Untagged(e: Expr) {
    match e
    case Leaf(_, tags) => tags == []
    case Group(i) => Untagged(i)
    case _ => Untagged(e.left) && Untagged(e.right)
  }

  /** A fragment and an expression agree on everything but tags. */
  ghost predicate Agrees(fm: FMeaning<string>, m: Meaning) {
    && fm.nodes == m.handles && fm.entries == m.entries && fm.exits == m.exits
    && Elems(fm.edges) == Elems(m.edges) && WellFormed(m)
  }

  ghost predicate AllAgree(ms: seq<FMeaning<string>>, xs: seq<Meaning>) {
    |ms| == |xs| && (ms == [] || (AllAgree(ms[..|ms| - 1], xs[..|xs| - 1]) && Agrees(ms[|ms| - 1], xs[|xs| - 1])))
  }

  function FoldMeaning(lvl: Level, xs: seq<Meaning>): Meaning
    requires xs != []
  {
    if |xs| == 1 then xs[0] else Joined(lvl, FoldMeaning(lvl, xs[..|xs| - 1]), xs[|xs| - 1])
  }

  function Means(es: seq<Expr>): (xs: seq<Meaning>)
    ensures |xs| == |es|
  {
    if es == [] then [] else Means(es[..|es| - 1]) + [Mean(es[|es| - 1])]
  }

  lemma {:induction false} MeanFoldJoin(lvl: Level, es: seq<Expr>)
    requires lvl < 3 && es != []
    ensures Mean(FoldJoin(lvl, es)) == FoldMeaning(lvl, Means(es))
  {
    var init, e := es[..|es| - 1], es[|es| - 1];
    assert Means(es)[..|es| - 1] == Means(init);
    if |es| > 1 {
      MeanFoldJoin(lvl, init);
      MeanJoin(lvl, FoldJoin(lvl, init), e);
    }
  }

  // ------------------------------------------------------------------ n-ary folds are binary folds

  lemma ChainedPush<N(!new)>(ms: seq<FMeaning<N>>, m: FMeaning<N>)
    requires ms != []
    ensures var a, b := Chained(ms), Chained(ms + [m]);
      && b.nodes == a.nodes + m.nodes && b.entries == a.entries && b.exits == m.exits
      && Elems(b.edges) == Elems(a.edges) + Elems(m.edges) + Elems(Cross(a.exits, m.entries))
  {
    var all := ms + [m];
    assert all[..|all| - 1] == ms && all[|all| - 2] == ms[|ms| - 1];
    ElemsConcat(AllEdges(all), Adjacent(all));
    ElemsConcat(AllEdges(ms), m.edges);
    ElemsConcat(Adjacent(ms), Cross(ms[|ms| - 1].exits, m.entries));
    ElemsConcat(AllEdges(ms), Adjacent(ms));
  }

  lemma MergedPush<N(!new)>(ms: seq<FMeaning<N>>, m: FMeaning<N>)
    ensures var a, b := Merged(ms), Merged(ms + [m]);
      && b.nodes == a.nodes + m.nodes && b.edges == a.edges + m.edges
      && b.entries == Dedup(a.entries + m.entries) && b.exits == Dedup(a.exits + m.exits)
  {
    var all := ms + [m];
    assert all[..|all| - 1] == ms;
    DedupLeft(AllEntries(ms), m.entries);
    DedupLeft(AllExits(ms), m.exits);
  }

  lemma JoinAgrees(lvl: Level, a: FMeaning<string>, b: FMeaning<string>, c: FMeaning<string>, l: Meaning, r: Meaning)
    requires 1 <= lvl <= 2 && Agrees(a, l) && Agrees(b, r)
    requires c.nodes == a.nodes + b.nodes
    requires lvl == 2 ==> c.entries == a.entries && c.exits == b.exits
    requires lvl == 2 ==> Elems(c.edges) == Elems(a.edges) + Elems(b.edges) + Elems(Cross(a.exits, b.entries))
    requires lvl == 1 ==> c.entries == Dedup(a.entries + b.entries) && c.exits == Dedup(a.exits + b.exits)
    requires lvl == 1 ==> c.edges == a.edges + b.edges
    ensures Agrees(c, Joined(lvl, l, r))
  {
    ElemsConcat(a.edges, b.edges);
    JoinElems(lvl, l, r);
    JoinWellFormed(lvl, l, r);
  }

  function Folded(lvl: Level, ms: seq<FMeaning<string>>): FMeaning<string>
    requires ms != []
  {
    if lvl == 2 then Chained(ms) else Merged(ms)
  }

  lemma FoldedPush(lvl: Level, ms: seq<FMeaning<string>>, m: FMeaning<string>, l: Meaning, r: Meaning)
    requires 1 <= lvl <= 2 && ms != [] && Agrees(Folded(lvl, ms), l) && Agrees(m, r)
    ensures Agrees(Folded(lvl, ms + [m]), Joined(lvl, l, r))
  {
    if lvl == 2 { ChainedPush(ms, m); } else { MergedPush(ms, m); }
    JoinAgrees(lvl, Folded(lvl, ms), m, Folded(lvl, ms + [m]), l, r);
  }

  lemma {:induction false} AllOfOne<N(!new)>(m: FMeaning<N>)
    ensures AllNodes([m]) == m.nodes && AllEdges([m]) == m.edges
    ensures AllEntries([m]) == m.entries && AllExits([m]) == m.exits
  {
    var ms := [m];
    assert ms[..|ms| - 1] == [];
  }

  lemma SingleAgrees(lvl: Level, m: FMeaning<string>, e: Meaning)
    requires 1 <= lvl <= 2 && Agrees(m, e)
    ensures Agrees(Folded(lvl, [m]), e)
  {
    AllOfOne(m);
    assert m.edges + [] == m.edges;
    DedupOfDistinct(m.entries);
    DedupOfDistinct(m.exits);
  }

  lemma {:induction false} FoldAgrees(lvl: Level, ms: seq<FMeaning<string>>, xs: seq<Meaning>)
    requires 1 <= lvl <= 2 && xs != [] && AllAgree(ms, xs)
    ensures Agrees(Folded(lvl, ms), FoldMeaning(lvl, xs))
  {
    var mi, xi, m, x := ms[..|ms| - 1], xs[..|xs| - 1], ms[|ms| - 1], xs[|xs| - 1];
    if |ms| == 1 {
      assert ms == [m];
      SingleAgrees(lvl, m, x);
    } else {
      FoldAgrees(lvl, mi, xi);
      assert ms == mi + [m];
      FoldedPush(lvl, mi, m, FoldMeaning(lvl, xi), x);
    }
  }

  /** A combinator tree means what its expression means. */
  lemma {:induction false} ToExprAgrees(f: Frag<string>)
    requires Built(f)
    ensures Agrees(FragMean(f), Mean(ToExpr(f)))
    decreases f, 1
  {
    match f
    case One(h) =>
    case SeqOf(parts) =>
      ToExprsAgree(parts);
      FoldAgrees(2, FragMeans(parts), Means(ToExprs(parts)));
      MeanFoldJoin(2, ToExprs(parts));
    case ParOf(parts) =>
      ToExprsAgree(parts);
      FoldAgrees(1, FragMeans(parts), Means(ToExprs(parts)));
      MeanFoldJoin(1, ToExprs(parts));
  }

  lemma {:induction false} ToExprsAgree(parts: seq<Frag<string>>)
    requires forall p :: p in parts ==> Built(p)
    ensures AllAgree(FragMeans(parts), Means(ToExprs(parts)))
    decreases parts, 0
  {
    if parts != [] {
      ToExprsAgree(parts[..|parts| - 1]);
      ToExprAgrees(parts[|parts| - 1]);
      assert FragMeans(parts)[..|parts| - 1] == FragMeans(parts[..|parts| - 1]);
      assert ToExprs(parts)[..|parts| - 1] == ToExprs(parts[..|parts| - 1]);
      assert Means(ToExprs(parts))[..|parts| - 1] == Means(ToExprs(parts[..|parts| - 1]));
    }
  }

  lemma {:induction false} PairMeans(l: Frag<string>, r: Frag<string>)
    requires Built(l) && Built(r)
    ensures FragMeans([l, r]) == [FragMean(l), FragMean(r)]
  {
    assert [l, r][..1] == [l] && [l][..0] == [];
    assert FragMeans([l]) == [FragMean(l)];
  }

  lemma {:induction false} PairAgrees(lvl: Level, l: Frag<string>, r: Frag<string>, le: Meaning, re: Meaning)
    requires 1 <= lvl <= 2 && Built(l) && Built(r) && Agrees(FragMean(l), le) && Agrees(FragMean(r), re)
    ensures Agrees(Folded(lvl, FragMeans([l, r])), Joined(lvl, le, re))
  {
    PairMeans(l, r);
    var a, b := FragMean(l), FragMean(r);
    SingleAgrees(lvl, a, le);
    FoldedPush(lvl, [a], b, le, re);
    assert [a] + [b] == [a, b];
  }

  /** Every expression means what its binary combinator tree means, tags aside. */
  lemma {:induction false} FromExprAgrees(e: Expr)
    ensures Agrees(FragMean(FromExpr(e)), Mean(e))
  {
    match e
    case Leaf(_, _) =>
    case Group(i) => FromExprAgrees(i);
    case Seq(l, r) =>
      FromExprAgrees(l);
      FromExprAgrees(r);
      PairAgrees(2, FromExpr(l), FromExpr(r), Mean(l), Mean(r));
    case And(l, r) =>
      FromExprAgrees(l);
      FromExprAgrees(r);
      PairAgrees(1, FromExpr(l), FromExpr(r), Mean(l), Mean(r));
    case Or(l, r) =>
      FromExprAgrees(l);
      FromExprAgrees(r);
      PairAgrees(1, FromExpr(l), FromExpr(r), Mean(l), Mean(r));
  }

  // ------------------------------------------------------------------ handles and task objects

  function RenamePairs<S, T>(g: S -> T, s: seq<(S, S)>): (r: seq<(T, T)>)
    ensures |r| == |s| && forall i :: 0 <= i < |s| ==> r[i] == (g(s[i].0), g(s[i].1))
  {
    seq(|s|, i requires 0 <= i < |s| => (g(s[i].0), g(s[i].1)))
  }

  function RenameMeaning<S, T>(g: S -> T, m: FMeaning<S>): FMeaning<T> {
    FMeaning(Rename(g, m.nodes), Rename(g, m.entries), Rename(g, m.exits), RenamePairs(g, m.edges))
  }

  function RenameMeanings<S, T>(g: S -> T, ms: seq<FMeaning<S>>): (r: seq<FMeaning<T>>)
    ensures |r| == |ms| && forall i :: 0 <= i < |ms| ==> r[i] == RenameMeaning(g, ms[i])
  {
    seq(|ms|, i requires 0 <= i < |ms| => RenameMeaning(g, ms[i]))
  }

  /** The same tree over other nodes. */
  function MapFrag<S(!new), T(!new)>(g: S -> T, f: Frag<S>): (r: Frag<T>)
    requires Built(f)
    ensures Built(r)
    decreases f, 1
  {
    match f
    case One(n) => One(g(n))
    case SeqOf(parts) => SeqOf(MapFrags(g, parts))
    case ParOf(parts) => ParOf(MapFrags(g, parts))
  }

  function MapFrags<S(!new), T(!new)>(g: S -> T, parts: seq<Frag<S>>): (r: seq<Frag<T>>)
    requires forall p :: p in parts ==> Built(p)
    ensures |r| == |parts| && forall p :: p in r ==> Built(p)
    decreases parts, 0
  {
    if parts == [] then [] else MapFrags(g, parts[..|parts| - 1]) + [MapFrag(g, parts[|parts| - 1])]
  }

  lemma {:induction false} CrossRename<S(!new), T(!new)>(g: S -> T, a: seq<S>, b: seq<S>)
    ensures Cross(Rename(g, a), Rename(g, b)) == RenamePairs(g, Cross(a, b))
  {
    if a != [] {
      CrossRename(g, a[..|a| - 1], b);
      assert Rename(g, a)[..|a| - 1] == Rename(g, a[..|a| - 1]);
      assert Pairs(g(a[|a| - 1]), Rename(g, b)) == RenamePairs(g, Pairs(a[|a| - 1], b));
    }
  }

  lemma PairsConcat<S(!new), T(!new)>(g: S -> T, a: seq<(S, S)>, b: seq<(S, S)>)
    ensures RenamePairs(g, a + b) == RenamePairs(g, a) + RenamePairs(g, b)
  {
  }

  lemma MeaningsPush<S(!new), T(!new)>(g: S -> T, ms: seq<FMeaning<S>>)
    requires ms != []
    ensures RenameMeanings(g, ms)[..|ms| - 1] == RenameMeanings(g, ms[..|ms| - 1])
  {
  }

  lemma {:induction false} AllRename<S(!new), T(!new)>(g: S -> T, ms: seq<FMeaning<S>>)
    ensures var rs := RenameMeanings(g, ms);
      && AllNodes(rs) == Rename(g, AllNodes(ms)) && AllEntries(rs) == Rename(g, AllEntries(ms))
      && AllExits(rs) == Rename(g, AllExits(ms)) && AllEdges(rs) == RenamePairs(g, AllEdges(ms))
  {
    if ms != [] {
      var init, m := ms[..|ms| - 1], ms[|ms| - 1];
      AllRename(g, init);
      MeaningsPush(g, ms);
      RenameConcat(g, AllNodes(init), m.nodes);
      RenameConcat(g, AllEntries(init), m.entries);
      RenameConcat(g, AllExits(init), m.exits);
      PairsConcat(g, AllEdges(init), m.edges);
    }
  }

  lemma {:induction false} AdjacentRename<S(!new), T(!new)>(g: S -> T, ms: seq<FMeaning<S>>)
    ensures Adjacent(RenameMeanings(g, ms)) == RenamePairs(g, Adjacent(ms))
  {
    if |ms| > 1 {
      var init, prev, m := ms[..|ms| - 1], ms[|ms| - 2], ms[|ms| - 1];
      AdjacentRename(g, init);
      MeaningsPush(g, ms);
      CrossRename(g, prev.exits, m.entries);
      PairsConcat(g, Adjacent(init), Cross(prev.exits, m.entries));
    }
  }

  lemma ChainedRename<S(!new), T(!new)>(g: S -> T, ms: seq<FMeaning<S>>)
    requires ms != []
    ensures Chained(RenameMeanings(g, ms)) == RenameMeaning(g, Chained(ms))
  {
    AllRename(g, ms);
    AdjacentRename(g, ms);
    PairsConcat(g, AllEdges(ms), Adjacent(ms));
  }

  lemma MergedRename<S(!new), T(!new)>(g: S -> T, ms: seq<FMeaning<S>>)
    requires InjectiveOn(g, AllNodes(ms)) && forall m :: m in ms ==> FWellFormed(m)
    ensures Merged(RenameMeanings(g, ms)) == RenameMeaning(g, Merged(ms))
  {
    AllRename(g, ms);
    AllWellFormed(ms);
    RenameDedup(g, AllEntries(ms));
    RenameDedup(g, AllExits(ms));
  }

  lemma {:induction false} MapFragMean<S(!new), T(!new)>(g: S -> T, f: Frag<S>)
    requires Built(f) && InjectiveOn(g, FragMean(f).nodes)
    ensures FragMean(MapFrag(g, f)) == RenameMeaning(g, FragMean(f))
    decreases f, 1
  {
    match f
    case One(n) =>
    case SeqOf(parts) =>
      MapFragsMean(g, parts);
      ChainedRename(g, FragMeans(parts));
    case ParOf(parts) =>
      MapFragsMean(g, parts);
      FragsWellFormed(parts);
      MergedRename(g, FragMeans(parts));
  }

  lemma {:induction false} MapFragsMean<S(!new), T(!new)>(g: S -> T, parts: seq<Frag<S>>)
    requires (forall p :: p in parts ==> Built(p)) && InjectiveOn(g, AllNodes(FragMeans(parts)))
    ensures FragMeans(MapFrags(g, parts)) == RenameMeanings(g, FragMeans(parts))
    decreases parts, 0
  {
    if parts != [] {
      var init, last, ms := parts[..|parts| - 1], parts[|parts| - 1], FragMeans(parts);
      assert ms[..|ms| - 1] == FragMeans(init);
      assert AllNodes(ms) == AllNodes(FragMeans(init)) + FragMean(last).nodes;
      MapFragsMean(g, init);
      MapFragMean(g, last);
    }
  }

  lemma ArcsRename<S(!new), T(!new)>(g: S -> T, order: seq<S>, edges: seq<(S, S)>)
    requires EndsListed(order, edges) && InjectiveOn(g, order)
    ensures EndsListed(Rename(g, order), RenamePairs(g, edges))
    ensures ArcsOf(Rename(g, order), RenamePairs(g, edges)) == ArcsOf(order, edges)
  {
    var rs := RenamePairs(g, edges);
    forall i | 0 <= i < |edges|
      ensures rs[i].0 in Rename(g, order) && rs[i].1 in Rename(g, order)
      ensures IndexOf(Rename(g, order), rs[i].0) == IndexOf(order, edges[i].0)
      ensures IndexOf(Rename(g, order), rs[i].1) == IndexOf(order, edges[i].1)
    {
      assert edges[i] in edges;
      IndexRename(g, order, edges[i].0);
      IndexRename(g, order, edges[i].1);
    }
  }

  lemma {:induction false} IndexRename<S, T>(g: S -> T, order: seq<S>, x: S)
    requires InjectiveOn(g, order) && x in order
    ensures g(x) in Rename(g, order) && IndexOf(Rename(g, order), g(x)) == IndexOf(order, x)
  {
    RenameMember(g, order, x);
    var i := IndexOf(Rename(g, order), g(x));
    assert g(order[i]) == g(x);
  }

  /** Under any renaming, the nodes are the renamed nodes, and ends and edges are kept. */
  ghost predicate Carries<S(!new), T(!new)>(g: S -> T, a: FMeaning<S>, b: FMeaning<T>) {
    && b.nodes == Rename(g, a.nodes)
    && (forall n :: n in a.entries ==> g(n) in b.entries) && (forall n :: n in a.exits ==> g(n) in b.exits)
    && (forall d :: d in a.edges ==> (g(d.0), g(d.1)) in b.edges)
  }

  ghost predicate AllCarry<S(!new), T(!new)>(g: S -> T, ms: seq<FMeaning<S>>, rs: seq<FMeaning<T>>) {
    |ms| == |rs| && forall i :: 0 <= i < |ms| ==> Carries(g, ms[i], rs[i])
  }

  lemma {:induction false} AllCarried<S(!new), T(!new)>(g: S -> T, ms: seq<FMeaning<S>>, rs: seq<FMeaning<T>>)
    requires AllCarry(g, ms, rs)
    ensures AllNodes(rs) == Rename(g, AllNodes(ms))
    ensures forall n :: n in AllEntries(ms) ==> g(n) in AllEntries(rs)
    ensures forall n :: n in AllExits(ms) ==> g(n) in AllExits(rs)
    ensures forall d :: d in AllEdges(ms) ==> (g(d.0), g(d.1)) in AllEdges(rs)
  {
    if ms != [] {
      var k := |ms| - 1;
      AllCarried(g, ms[..k], rs[..k]);
      assert Carries(g, ms[k], rs[k]);
      RenameConcat(g, AllNodes(ms[..k]), ms[k].nodes);
    }
  }

  lemma {:induction false} AdjacentCarried<S(!new), T(!new)>(g: S -> T, ms: seq<FMeaning<S>>, rs: seq<FMeaning<T>>)
    requires AllCarry(g, ms, rs)
    ensures forall d :: d in Adjacent(ms) ==> (g(d.0), g(d.1)) in Adjacent(rs)
  {
    if |ms| > 1 {
      var k := |ms| - 1;
      AdjacentCarried(g, ms[..k], rs[..k]);
      assert Carries(g, ms[k], rs[k]) && Carries(g, ms[k - 1], rs[k - 1]);
      CrossElems(ms[k - 1].exits, ms[k].entries);
      CrossElems(rs[k - 1].exits, rs[k].entries);
      forall d | d in Cross(ms[k - 1].exits, ms[k].entries)
        ensures (g(d.0), g(d.1)) in Cross(rs[k - 1].exits, rs[k].entries)
      {
        assert d == (d.0, d.1);
      }
    }
  }

  /** Whatever task each handle stands for, the mapped tree carries the meaning of the tree. */
  lemma {:induction false} MapFragCarries<S(!new), T(!new)>(g: S -> T, f: Frag<S>)
    requires Built(f)
    ensures Carries(g, FragMean(f), FragMean(MapFrag(g, f)))
    decreases f, 1
  {
    if f.One? {
      assert Rename(g, [f.node]) == [g(f.node)];
    } else {
      var ms, rs := FragMeans(f.parts), FragMeans(MapFrags(g, f.parts));
      MapFragsCarry(g, f.parts);
      AllCarried(g, ms, rs);
      if f.SeqOf? {
        AdjacentCarried(g, ms, rs);
        assert Carries(g, ms[0], rs[0]) && Carries(g, ms[|ms| - 1], rs[|rs| - 1]);
      } else {
        DedupElem(AllEntries(ms));
        DedupElem(AllExits(ms));
        DedupElem(AllEntries(rs));
        DedupElem(AllExits(rs));
      }
    }
  }

  lemma {:induction false} MapFragsCarry<S(!new), T(!new)>(g: S -> T, parts: seq<Frag<S>>)
    requires forall p :: p in parts ==> Built(p)
    ensures AllCarry(g, FragMeans(parts), FragMeans(MapFrags(g, parts)))
    decreases parts, 0
  {
    if parts != [] {
      var k := |parts| - 1;
      MapFragsCarry(g, parts[..k]);
      MapFragCarries(g, parts[k]);
      assert MapFrags(g, parts)[..k] == MapFrags(g, parts[..k]);
    }
  }

  // ------------------------------------------------------------------ parity

  /** `g` gives each handle a task object with the fields the handle resolves to, grants
      included. */
  ghost predicate Stands(g: string -> Task, tasks: map<string, Task>, grants: Grants, handles: seq<string>) {
    forall h :: h in handles ==> Resolve(tasks, grants, h) == Ok(g(h).spec)
  }

  lemma {:induction false} ResolveStands(g: string -> Task, tasks: map<string, Task>, grants: Grants, order: seq<string>)
    requires Stands(g, tasks, grants, order)
    ensures ResolveAll(tasks, grants, order) == Ok(Specs(Rename(g, order)))
  {
    if order != [] {
      var init, h := order[..|order| - 1], order[|order| - 1];
      ResolveStands(g, tasks, grants, init);
      assert Specs(Rename(g, order)) == Specs(Rename(g, init)) + [g(h).spec];
    }
  }

  lemma FragSide(f: Frag<string>, g: string -> Task, seed: int, context: seq<string>)
    requires Built(f) && InjectiveOn(g, FragMean(f).nodes)
    ensures EndsListed(Dedup(FragMean(f).nodes), FragMean(f).edges)
    ensures LowerFrag(MapFrag(g, f), seed, context) ==
              Assemble(Specs(Rename(g, Dedup(FragMean(f).nodes))), ArcsOf(Dedup(FragMean(f).nodes), FragMean(f).edges), seed, context)
  {
    var m := FragMean(f);
    DedupElem(m.nodes);
    MapFragMean(g, f);
    FragListed(f);
    RenameDedup(g, m.nodes);
    ArcsRename(g, Dedup(m.nodes), m.edges);
  }

  /** Reading an expression registers its own handles and edges. */
  lemma DenoteOwn(e: Expr)
    ensures Denote(e).order == Dedup(Mean(e).handles) && Denote(e).edges == Mean(e).edges
    ensures EndsListed(Dedup(Mean(e).handles), Mean(e).edges)
  {
    DenoteListed(e);
    assert [] + Mean(e).edges == Mean(e).edges;
  }

  lemma ExprSide(e: Expr, g: string -> Task, tasks: map<string, Task>, seed: int, context: seq<string>)
    requires Stands(g, tasks, Denote(e).grants, Mean(e).handles)
    ensures EndsListed(Dedup(Mean(e).handles), Mean(e).edges)
    ensures Lower(e, tasks, seed, context) ==
              Assemble(Specs(Rename(g, Dedup(Mean(e).handles))), ArcsOf(Dedup(Mean(e).handles), Mean(e).edges), seed, context)
  {
    DedupElem(Mean(e).handles);
    DenoteOwn(e);
    ResolveStands(g, tasks, Denote(e).grants, Dedup(Mean(e).handles));
  }

  /** A fragment and an expression that agree lower to the same chain, when the task objects
      keep the handles apart. */
  lemma AgreeingLower(f: Frag<string>, e: Expr, g: string -> Task, tasks: map<string, Task>, seed: int, context: seq<string>)
    requires Built(f) && Agrees(FragMean(f), Mean(e))
    requires Stands(g, tasks, Denote(e).grants, Mean(e).handles) && InjectiveOn(g, Mean(e).handles)
    ensures LowerFrag(MapFrag(g, f), seed, context) == Lower(e, tasks, seed, context)
  {
    FragSide(f, g, seed, context);
    ExprSide(e, g, tasks, seed, context);
    var order := Dedup(Mean(e).handles);
    ArcsOfSet(order, FragMean(f).edges, Mean(e).edges);
    ArcLessIsOrder();
    SortDependsOnSet(ArcLess, ArcsOf(order, FragMean(f).edges), ArcsOf(order, Mean(e).edges));
  }

  /** Objects shared between handles give fewer nodes. */
  lemma SharedNodes(e: Expr, g: string -> Task, tasks: map<string, Task>, seed: int, context: seq<string>)
    requires Stands(g, tasks, Denote(e).grants, Mean(e).handles) && !InjectiveOn(g, Mean(e).handles)
    requires Lower(e, tasks, seed, context).Ok?
    ensures LowerFrag(MapFrag(g, FromExpr(e)), seed, context) != Lower(e, tasks, seed, context)
  {
    FromExprAgrees(e);
    MapFragCarries(g, FromExpr(e));
    RenameDedupLength(g, Mean(e).handles);
    ExprSide(e, g, tasks, seed, context);
  }

  /** A cycle of handles is a cycle of the objects they stand for, shared or not. */
  lemma CycleCarries(e: Expr, g: string -> Task, tasks: map<string, Task>, seed: int, context: seq<string>)
    requires Stands(g, tasks, Denote(e).grants, Mean(e).handles) && Lower(e, tasks, seed, context) == Err(Cycle)
    ensures LowerFrag(MapFrag(g, FromExpr(e)), seed, context) == Err(Cycle)
  {
    FromExprAgrees(e);
    MapFragCarries(g, FromExpr(e));
    ExprSide(e, g, tasks, seed, context);
    var f := MapFrag(g, FromExpr(e));
    var m := FragMean(f);
    FragListed(f);
    if HasNumbering(|Dedup(m.nodes)|, SortDistinct(ArcLess, ArcsOf(Dedup(m.nodes), m.edges))) {
      var height := NumberingRises(Dedup(m.nodes), m.edges);
      var lifted: string -> nat := h => height(g(h));
      forall d | d in Mean(e).edges ensures lifted(d.0) < lifted(d.1) {
        assert d in Elems(Mean(e).edges);
        assert d in FragMean(FromExpr(e)).edges;
        assert (g(d.0), g(d.1)) in m.edges;
      }
      RisingNumbers(Dedup(Mean(e).handles), Mean(e).edges, lifted);
    }
  }

  /** For every expression, tagged or not, and every choice of task objects with the fields
      its handles resolve to: the combinator tree over those objects lowers like the
      expression exactly when no object stands under two handles, or the expression is
      refused as a cycle anyway. */
  lemma ParityNeedsDistinctTasks(e: Expr, g: string -> Task, tasks: map<string, Task>, seed: int, context: seq<string>)
    requires Stands(g, tasks, Denote(e).grants, Mean(e).handles)
    ensures LowerFrag(MapFrag(g, FromExpr(e)), seed, context) == Lower(e, tasks, seed, context) <==>
              InjectiveOn(g, Mean(e).handles) || Lower(e, tasks, seed, context) == Err(Cycle)
  {
    ExprSide(e, g, tasks, seed, context);
    if InjectiveOn(g, Mean(e).handles) {
      FromExprAgrees(e);
      AgreeingLower(FromExpr(e), e, g, tasks, seed, context);
    } else if Lower(e, tasks, seed, context).Ok? {
      SharedNodes(e, g, tasks, seed, context);
    } else {
      CycleCarries(e, g, tasks, seed, context);
    }
  }

  /** `chain` of any writing of any expression is `chainFrom` of its tree over the resolved
      tasks. */
  lemma DslMatchesCombinators(e: Expr, text: string, g: string -> Task, tasks: map<string, Task>, seed: int, context: seq<string>)
    requires HandlesLegal(e) && Writes(text, e)
    requires Stands(g, tasks, Denote(e).grants, Mean(e).handles) && InjectiveOn(g, Mean(e).handles)
    ensures Compile(text, tasks, seed, context) == LowerFrag(MapFrag(g, FromExpr(e)), seed, context)
  {
    ParityNeedsDistinctTasks(e, g, tasks, seed, context);
    CompileOfPrint(text, e, tasks, seed, context);
  }

  /** The task a handle resolves to: its own object, or the granted copy under its identity. */
  function ResolvedTask(tasks: map<string, Task>, grants: Grants, absent: Task): string -> Task {
    h => if h in tasks && Resolve(tasks, grants, h).Ok? then Task(tasks[h].id, Resolve(tasks, grants, h).value) else absent
  }

  /** Whenever every handle resolves, such a choice exists; it keeps the handles apart when the
      task map does. */
  lemma ResolvedStands(e: Expr, tasks: map<string, Task>, absent: Task)
    requires ResolveAll(tasks, Denote(e).grants, Denote(e).order).Ok?
    ensures Stands(ResolvedTask(tasks, Denote(e).grants, absent), tasks, Denote(e).grants, Mean(e).handles)
    ensures (forall h, k :: h in Mean(e).handles && k in Mean(e).handles && h in tasks && k in tasks && tasks[h].id == tasks[k].id ==> h == k)
            ==> InjectiveOn(ResolvedTask(tasks, Denote(e).grants, absent), Mean(e).handles)
  {
    var grants, order := Denote(e).grants, Denote(e).order;
    var g := ResolvedTask(tasks, grants, absent);
    DedupElem(Mean(e).handles);
    ResolveAllMeaning(tasks, grants, order);
    forall h | h in Mean(e).handles ensures h in tasks && Resolve(tasks, grants, h) == Ok(g(h).spec) && g(h).id == tasks[h].id {
      var i :| 0 <= i < |order| && order[i] == h;
      assert Resolve(tasks, grants, order[i]).Ok?;
    }
  }

  // ------------------------------------------------------------------ without tags

  /** The task object a handle names. */
  function TaskFor(tasks: map<string, Task>, absent: Task): string -> Task {
    h => if h in tasks then tasks[h] else absent
  }

  lemma {:induction false} UntaggedGrants(e: Expr)
    requires Untagged(e)
    ensures Mean(e).tags == map[] && Denote(e).grants == map[]
  {
    if e.Group? {
      UntaggedGrants(e.inner);
    } else if !e.Leaf? {
      UntaggedGrants(e.left);
      UntaggedGrants(e.right);
    }
  }

  lemma {:induction false} JoinUntagged(lvl: Level, es: seq<Expr>)
    requires lvl < 3 && es != [] && forall e :: e in es ==> Untagged(e)
    ensures Untagged(FoldJoin(lvl, es))
  {
    if |es| > 1 { JoinUntagged(lvl, es[..|es| - 1]); }
  }

  lemma {:induction false} ToExprUntagged(f: Frag<string>)
    requires Built(f)
    ensures Untagged(ToExpr(f))
    decreases f, 1
  {
    if f.SeqOf? {
      ToExprsUntagged(f.parts);
      JoinUntagged(2, ToExprs(f.parts));
    } else if f.ParOf? {
      ToExprsUntagged(f.parts);
      JoinUntagged(1, ToExprs(f.parts));
    }
  }

  lemma {:induction false} ToExprsUntagged(parts: seq<Frag<string>>)
    requires forall p :: p in parts ==> Built(p)
    ensures forall e :: e in ToExprs(parts) ==> Untagged(e)
    decreases parts, 0
  {
    if parts != [] {
      ToExprsUntagged(parts[..|parts| - 1]);
      ToExprUntagged(parts[|parts| - 1]);
    }
  }

  lemma UntaggedStands(e: Expr, tasks: map<string, Task>, absent: Task)
    requires Untagged(e) && forall h :: h in Mean(e).handles ==> h in tasks
    ensures Stands(TaskFor(tasks, absent), tasks, Denote(e).grants, Mean(e).handles)
  {
    UntaggedGrants(e);
  }

  /** `chain` of any writing of an untagged expression is `chainFrom` of its tree over the task
      map itself. */
  lemma UntaggedMatches(e: Expr, text: string, tasks: map<string, Task>, absent: Task, seed: int, context: seq<string>)
    requires Untagged(e) && HandlesLegal(e) && Writes(text, e)
    requires (forall h :: h in Mean(e).handles ==> h in tasks) && InjectiveOn(TaskFor(tasks, absent), Mean(e).handles)
    ensures Compile(text, tasks, seed, context) == LowerFrag(MapFrag(TaskFor(tasks, absent), FromExpr(e)), seed, context)
  {
    UntaggedStands(e, tasks, absent);
    DslMatchesCombinators(e, text, TaskFor(tasks, absent), tasks, seed, context);
  }

  /** `chainFrom` of any combinator tree is `chain` of any writing of its expression. */
  lemma CombinatorsMatchDsl(f: Frag<string>, text: string, tasks: map<string, Task>, absent: Task, seed: int, context: seq<string>)
    requires Built(f) && HandlesLegal(ToExpr(f)) && Writes(text, ToExpr(f))
    requires (forall h :: h in FragMean(f).nodes ==> h in tasks)
    requires InjectiveOn(TaskFor(tasks, absent), FragMean(f).nodes)
    ensures LowerFrag(MapFrag(TaskFor(tasks, absent), f), seed, context) == Compile(text, tasks, seed, context)
  {
    ToExprAgrees(f);
    ToExprUntagged(f);
    UntaggedStands(ToExpr(f), tasks, absent);
    AgreeingLower(f, ToExpr(f), TaskFor(tasks, absent), tasks, seed, context);
    CompileOfPrint(text, ToExpr(f), tasks, seed, context);
  }

  lemma PairOfLeaves(a: string, b: string)
    requires a != b
    ensures var m := Mean(And(Leaf(a, []), Leaf(b, [])));
      m.handles == [a, b] && m.edges == [] && Dedup(m.handles) == [a, b]
  {
    DedupOfDistinct([a, b]);
  }

  /** One task under two handles: `a & b` is two nodes as text and fewer as combinators. */
  lemma TwoHandlesOneTask(a: string, b: string, t: Task, seed: int, context: seq<string>)
    requires a != b
    ensures var e, tasks := And(Leaf(a, []), Leaf(b, [])), map[a := t, b := t];
      && Lower(e, tasks, seed, context).Ok? && |Lower(e, tasks, seed, context).value.nodes| == 2
      && LowerFrag(MapFrag(TaskFor(tasks, t), FromExpr(e)), seed, context) != Lower(e, tasks, seed, context)
  {
    var e, tasks := And(Leaf(a, []), Leaf(b, [])), map[a := t, b := t];
    var g := TaskFor(tasks, t);
    PairOfLeaves(a, b);
    UntaggedStands(e, tasks, t);
    EdgelessLowers(e, g, tasks, seed, context);
    assert !InjectiveOn(g, [a, b]) by { assert g(a) == g(b) && a in [a, b] && b in [a, b]; }
    SharedNodes(e, g, tasks, seed, context);
  }

  lemma EdgelessAssembles(nodes: seq<TaskSpec>, order: seq<string>, seed: int, context: seq<string>)
    requires |nodes| == |order|
    ensures var r := Assemble(nodes, ArcsOf(order, []), seed, context);
      r.Ok? && r.value.nodes == nodes
  {
    RisingNumbers(order, [], (_: string) => 0);
  }

  lemma EdgelessLowers(e: Expr, g: string -> Task, tasks: map<string, Task>, seed: int, context: seq<string>)
    requires Stands(g, tasks, Denote(e).grants, Mean(e).handles) && Mean(e).edges == []
    ensures var r := Lower(e, tasks, seed, context);
      r.Ok? && |r.value.nodes| == |Dedup(Mean(e).handles)|
  {
    ExprSide(e, g, tasks, seed, context);
    var order := Dedup(Mean(e).handles);
    EdgelessAssembles(Specs(Rename(g, order)), order, seed, context);
  }
}
