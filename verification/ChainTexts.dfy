/** What short texts compile to, character by character: the operators, tags and brackets of the
    string DSL as a user types them. */
module ChainTexts {
  import opened Lists
  import opened Sorting
  import opened ChainSyntax
  import opened ChainGrammar
  import opened ChainMeaning
  import opened Graph
  import opened SeriesParallel
  import opened ChainLowering

  // ------------------------------------------------------------------ characters

  /** What each character is on its own. */
  lemma OneCharacter(c: char)
    ensures Lex([c]) ==
      if c == ' ' || c == '\t' || c == '\n' || c == '\r' then Some([])
      else if c == '>' then Some([Gt])
      else if c == '&' then Some([Amp])
      else if c == '|' then Some([Bar])
      else if c == '[' then Some([LBracket])
      else if c == ']' then Some([RBracket])
      else if c == '@' then Some([At])
      else if 'A' <= c <= 'Z' || 'a' <= c <= 'z' || c == '_' then Some([Name([c])])
      else None
  {
    var s := [c];
    assert s[1..] == "" && Lex("") == Some([]);
    if IsHandleStart(c) {
      RunLengthUnique(s, 1);
      assert s[..1] == s;
    }
    assert forall t: Token :: [t] + [] == [t];
  }

  /** Which characters go on with a handle. */
  lemma HandleGoesOn(h: string, c: char)
    requires IsHandle(h)
    ensures Lex(h + [c]) == Some([Name(h + [c])]) <==>
      'A' <= c <= 'Z' || 'a' <= c <= 'z' || '0' <= c <= '9' || c == '_' || c == '-'
  {
    if IsHandleRest(c) {
      LexName(h + [c], "");
      assert (h + [c]) + "" == h + [c] && Lex("") == Some([]);
      assert [Name(h + [c])] + [] == [Name(h + [c])];
    } else {
      LexName(h, [c]);
      if Lex(h + [c]).Some? {
        assert Lex(h + [c]).value[0] == Name(h);
        assert |h| != |h + [c]|;
      }
    }
  }

  // ------------------------------------------------------------------ operators

  function NoGaps(n: nat): (gaps: seq<string>)
    ensures |gaps| == n && forall i :: 0 <= i < n ==> gaps[i] == ""
  {
    seq(n, _ => "")
  }

  /** The tokens written without white space. */
  function Plain(ts: seq<Token>): string {
    if ts == [] then "" else TokenText(ts[0]) + Plain(ts[1..])
  }

  lemma {:induction false} PlainIsRender(ts: seq<Token>)
    ensures Render(ts, NoGaps(|ts| + 1)) == Plain(ts)
  {
    if ts != [] {
      PlainIsRender(ts[1..]);
      assert NoGaps(|ts| + 1)[1..] == NoGaps(|ts|);
      assert "" + TokenText(ts[0]) == TokenText(ts[0]);
    }
  }

  lemma PlainPush(t: Token, ts: seq<Token>)
    ensures Plain([t] + ts) == TokenText(t) + Plain(ts)
  {
    assert ([t] + ts)[1..] == ts;
  }

  /** A text without white space whose tokens are a sentence compiles like its tree. */
  lemma TextOf(ts: seq<Token>, e: Expr, tasks: map<string, Task>, seed: int, context: seq<string>)
    requires NamesAreHandles(ts) && (forall i :: 0 <= i < |ts| - 1 ==> !(ts[i].Name? && ts[i + 1].Name?))
    requires Derives(0, e) && Toks(e) == ts
    ensures Compile(Plain(ts), tasks, seed, context) == Lower(e, tasks, seed, context)
  {
    PlainIsRender(ts);
    LexOfRender(ts, NoGaps(|ts| + 1));
    ParserExact(ts, e);
  }

  lemma PlainThree(a: Token, b: Token, c: Token)
    ensures Plain([a, b, c]) == TokenText(a) + (TokenText(b) + TokenText(c))
  {
    PlainPush(a, [b, c]);
    PlainPush(b, [c]);
    PlainPush(c, []);
    assert [a] + [b, c] == [a, b, c] && [b] + [c] == [b, c] && [c] + [] == [c];
    assert TokenText(c) + "" == TokenText(c);
  }

  lemma PlainTwoMore(a: Token, b: Token, ts: seq<Token>)
    ensures Plain([a, b] + ts) == TokenText(a) + (TokenText(b) + Plain(ts))
  {
    PlainPush(b, ts);
    PlainPush(a, [b] + ts);
    assert [a] + ([b] + ts) == [a, b] + ts;
  }

  lemma ThreeTokens(a: string, op: Token, b: string, e: Expr, tasks: map<string, Task>, seed: int, context: seq<string>)
    requires IsHandle(a) && IsHandle(b) && !op.Name? && Derives(0, e) && Toks(e) == [Name(a), op, Name(b)]
    ensures Compile(a + TokenText(op) + b, tasks, seed, context) == Lower(e, tasks, seed, context)
  {
    PlainThree(Name(a), op, Name(b));
    assert a + (TokenText(op) + b) == a + TokenText(op) + b;
    TextOf([Name(a), op, Name(b)], e, tasks, seed, context);
  }

  function SpecsOf(order: seq<string>, tasks: map<string, Task>): (specs: seq<TaskSpec>)
    requires forall h :: h in order ==> h in tasks
    ensures |specs| == |order| && forall i :: 0 <= i < |order| ==> specs[i] == tasks[order[i]].spec
  {
    seq(|order|, i requires 0 <= i < |order| => tasks[order[i]].spec)
  }

  /** An untagged expression over distinct known handles whose edges lead forward compiles to
      their tasks and those edges. */
  lemma ForwardLowers(e: Expr, order: seq<string>, tasks: map<string, Task>, arcs: seq<Arc>, seed: int, context: seq<string>)
    requires Mean(e).handles == order && Distinct(order) && Mean(e).tags == map[] && EndsListed(order, Mean(e).edges)
    requires (forall h :: h in order ==> h in tasks)
    requires ArcsOf(order, Mean(e).edges) == arcs && (forall a :: a in arcs ==> a.0 < a.1)
    ensures Lower(e, tasks, seed, context) ==
      Ok(Chain(SpecsOf(order, tasks), SortDistinct(ArcLess, arcs), seed, context))
  {
    DedupOfDistinct(order);
    var st := Denote(e);
    assert st.order == order && st.edges == Mean(e).edges && st.grants == map[];
    ResolveAllMeaning(tasks, st.grants, order);
    var nodes := ResolveAll(tasks, st.grants, order).value;
    assert nodes == SpecsOf(order, tasks);
    ForwardNumbers(|order|, arcs);
  }

  lemma ForwardNumbers(n: nat, arcs: seq<Arc>)
    requires InRange(n, arcs) && forall a :: a in arcs ==> a.0 < a.1
    ensures HasNumbering(n, SortDistinct(ArcLess, arcs))
  {
    var sorted := SortDistinct(ArcLess, arcs);
    ArcLessIsOrder();
    SortMeaning(ArcLess, arcs);
    CanonicalInRange(n, arcs);
    var rank: seq<nat> := seq(n, i requires 0 <= i < n => i);
    forall a | a in sorted ensures rank[a.0] < rank[a.1] {
      assert a in Elems(sorted);
      assert a in arcs;
    }
    assert Topological(n, sorted, rank);
  }

  lemma PairLowers(e: Expr, a: string, b: string, tasks: map<string, Task>, linked: bool, seed: int, context: seq<string>)
    requires a != b && a in tasks && b in tasks
    requires Mean(e).handles == [a, b] && Mean(e).tags == map[] && Mean(e).edges == if linked then [(a, b)] else []
    ensures Lower(e, tasks, seed, context) ==
      Ok(Chain([tasks[a].spec, tasks[b].spec], if linked then [(0, 1)] else [], seed, context))
  {
    var order := [a, b];
    var arcs: seq<Arc> := if linked then [(0, 1)] else [];
    assert IndexOf(order, a) == 0 && IndexOf(order, b) == 1;
    assert ArcsOf(order, Mean(e).edges) == arcs;
    ForwardLowers(e, order, tasks, arcs, seed, context);
    AscendingArcs(arcs);
    assert SpecsOf(order, tasks) == [tasks[a].spec, tasks[b].spec];
  }

  lemma TripleArcs(a: string, b: string, c: string)
    requires Distinct([a, b, c])
    ensures EndsListed([a, b, c], [(b, c)]) && ArcsOf([a, b, c], [(b, c)]) == [(1, 2)]
    ensures EndsListed([a, b, c], [(a, c), (b, c)]) && ArcsOf([a, b, c], [(a, c), (b, c)]) == [(0, 2), (1, 2)]
  {
    var order := [a, b, c];
    assert order[0] != order[1] && order[1] != order[2] && order[0] != order[2];
    assert IndexOf(order, a) == 0 && IndexOf(order, b) == 1 && IndexOf(order, c) == 2;
  }

  lemma TripleLowers(e: Expr, a: string, b: string, c: string, tasks: map<string, Task>, arcs: seq<Arc>,
                     seed: int, context: seq<string>)
    requires Distinct([a, b, c]) && a in tasks && b in tasks && c in tasks
    requires Mean(e).handles == [a, b, c] && Mean(e).tags == map[]
    requires EndsListed([a, b, c], Mean(e).edges) && ArcsOf([a, b, c], Mean(e).edges) == arcs
    requires Ascending(ArcLess, arcs) && forall x :: x in arcs ==> x.0 < x.1
    ensures Lower(e, tasks, seed, context) == Ok(Chain([tasks[a].spec, tasks[b].spec, tasks[c].spec], arcs, seed, context))
  {
    ForwardLowers(e, [a, b, c], tasks, arcs, seed, context);
    AscendingArcs(arcs);
    ThreeSpecs(a, b, c, tasks);
  }

  lemma ThreeSpecs(a: string, b: string, c: string, tasks: map<string, Task>)
    requires a in tasks && b in tasks && c in tasks
    ensures forall h :: h in [a, b, c] ==> h in tasks
    ensures SpecsOf([a, b, c], tasks) == [tasks[a].spec, tasks[b].spec, tasks[c].spec]
  {
  }

  lemma AscendingArcs(arcs: seq<Arc>)
    requires Ascending(ArcLess, arcs)
    ensures SortDistinct(ArcLess, arcs) == arcs
  {
    ArcLessIsOrder();
    SortMeaning(ArcLess, arcs);
    var sorted := SortDistinct(ArcLess, arcs);
    assert forall x :: x in sorted <==> x in Elems(sorted);
    assert forall x :: x in arcs <==> x in Elems(arcs);
    AscendingUnique(ArcLess, sorted, arcs);
  }

  lemma NoTags(m: Meaning, n: Meaning)
    requires m.tags == map[] && n.tags == map[]
    ensures AppendTags(m.tags, n.tags) == map[]
  {
  }

  lemma ArrowMeaning(a: string, b: string)
    ensures var e := Seq(Leaf(a, []), Leaf(b, []));
      && Derives(0, e) && Toks(e) == [Name(a), Gt, Name(b)]
      && Mean(e).handles == [a, b] && Mean(e).edges == [(a, b)] && Mean(e).tags == map[]
  {
    var x, y := Leaf(a, []), Leaf(b, []);
    NoTags(Mean(x), Mean(y));
    CrossAt([a], [b]);
    assert Toks(x) == [Name(a)] && Toks(y) == [Name(b)];
  }

  lemma MergeMeaning(a: string, b: string)
    requires a != b
    ensures var e, f := And(Leaf(a, []), Leaf(b, [])), Or(Leaf(a, []), Leaf(b, []));
      && Derives(0, e) && Toks(e) == [Name(a), Amp, Name(b)] && Derives(0, f) && Toks(f) == [Name(a), Bar, Name(b)]
      && Mean(e) == Mean(f) == Meaning([a, b], [a, b], [a, b], [], map[])
  {
    var x, y := Leaf(a, []), Leaf(b, []);
    NoTags(Mean(x), Mean(y));
    DedupOfDistinct([a, b]);
    assert [a] + [b] == [a, b];
    assert Parallel(Mean(x), Mean(y)).edges == [];
    assert Toks(x) == [Name(a)] && Toks(y) == [Name(b)];
  }

  lemma CrossAt(xs: seq<string>, ys: seq<string>)
    ensures |xs| == 1 && |ys| == 1 ==> Cross(xs, ys) == [(xs[0], ys[0])]
    ensures |xs| == 2 && |ys| == 1 ==> Cross(xs, ys) == [(xs[0], ys[0]), (xs[1], ys[0])]
  {
    if |xs| == 2 && |ys| == 1 { assert xs[..1] == [xs[0]] && xs[1..] == [xs[1]]; }
  }

  /** `a>b` is an edge from the first node to the second. */
  lemma ArrowText(a: string, b: string, tasks: map<string, Task>, seed: int, context: seq<string>)
    requires IsHandle(a) && IsHandle(b) && a != b && a in tasks && b in tasks
    ensures Compile(a + ">" + b, tasks, seed, context) == Ok(Chain([tasks[a].spec, tasks[b].spec], [(0, 1)], seed, context))
  {
    var e := Seq(Leaf(a, []), Leaf(b, []));
    ArrowMeaning(a, b);
    ThreeTokens(a, Gt, b, e, tasks, seed, context);
    PairLowers(e, a, b, tasks, true, seed, context);
  }

  /** `a&b` and `a|b` are two nodes without an edge. */
  lemma MergeText(a: string, b: string, tasks: map<string, Task>, seed: int, context: seq<string>)
    requires IsHandle(a) && IsHandle(b) && a != b && a in tasks && b in tasks
    ensures Compile(a + "&" + b, tasks, seed, context) == Ok(Chain([tasks[a].spec, tasks[b].spec], [], seed, context))
    ensures Compile(a + "|" + b, tasks, seed, context) == Ok(Chain([tasks[a].spec, tasks[b].spec], [], seed, context))
  {
    AmpText(a, b, tasks, seed, context);
    BarText(a, b, tasks, seed, context);
  }

  lemma AmpText(a: string, b: string, tasks: map<string, Task>, seed: int, context: seq<string>)
    requires IsHandle(a) && IsHandle(b) && a != b && a in tasks && b in tasks
    ensures Compile(a + "&" + b, tasks, seed, context) == Ok(Chain([tasks[a].spec, tasks[b].spec], [], seed, context))
  {
    var e := And(Leaf(a, []), Leaf(b, []));
    MergeMeaning(a, b);
    ThreeTokens(a, Amp, b, e, tasks, seed, context);
    PairLowers(e, a, b, tasks, false, seed, context);
  }

  lemma BarText(a: string, b: string, tasks: map<string, Task>, seed: int, context: seq<string>)
    requires IsHandle(a) && IsHandle(b) && a != b && a in tasks && b in tasks
    ensures Compile(a + "|" + b, tasks, seed, context) == Ok(Chain([tasks[a].spec, tasks[b].spec], [], seed, context))
  {
    var f := Or(Leaf(a, []), Leaf(b, []));
    MergeMeaning(a, b);
    ThreeTokens(a, Bar, b, f, tasks, seed, context);
    PairLowers(f, a, b, tasks, false, seed, context);
  }

  lemma TagMeaning(a: string, t: string)
    ensures var e := Leaf(a, [t]);
      Derives(0, e) && Toks(e) == [Name(a), At, Name(t)] && Denote(e).order == [a] && Denote(e).edges == [] && TagsOf(e, a) == [t]
  {
    assert TagToks([t]) == [At, Name(t)] + TagToks([t][1..]) && [t][1..] == [];
    DedupOfDistinct([a]);
  }

  lemma SingleResolves(tasks: map<string, Task>, g: Grants, a: string)
    requires Resolve(tasks, g, a).Ok?
    ensures ResolveAll(tasks, g, [a]) == Ok([Resolve(tasks, g, a).value])
  {
    assert [a][..0] == [] && ResolveAll(tasks, g, []) == Ok([]);
    var node := Resolve(tasks, g, a).value;
    assert [] + [node] == [node];
  }

  lemma TagLowers(e: Expr, a: string, t: string, tasks: map<string, Task>, seed: int, context: seq<string>)
    requires Denote(e).order == [a] && Denote(e).edges == [] && TagsOf(e, a) == [t]
    requires a in tasks && tasks[a].spec.kind == Model
    ensures var r := Lower(e, tasks, seed, context);
      r.Ok? && |r.value.nodes| == 1 && GrantedCopy(tasks[a].spec, [t], r.value.nodes[0]) && r.value.edges == []
  {
    ResolveMeaning(tasks, e, a);
    SingleResolves(tasks, Denote(e).grants, a);
    LowersEdgeless(e, tasks, seed, context);
  }

  lemma TagCompiles(a: string, t: string, tasks: map<string, Task>, seed: int, context: seq<string>)
    requires IsHandle(a) && IsHandle(t)
    ensures Compile(a + "@" + t, tasks, seed, context) == Lower(Leaf(a, [t]), tasks, seed, context)
  {
    TagMeaning(a, t);
    ThreeTokens(a, At, t, Leaf(a, [t]), tasks, seed, context);
  }

  lemma TagNode(a: string, t: string, tasks: map<string, Task>, seed: int, context: seq<string>)
    requires a in tasks && tasks[a].spec.kind == Model
    ensures var r := Lower(Leaf(a, [t]), tasks, seed, context);
      r.Ok? && |r.value.nodes| == 1 && GrantedCopy(tasks[a].spec, [t], r.value.nodes[0]) && r.value.edges == []
  {
    TagMeaning(a, t);
    TagLowers(Leaf(a, [t]), a, t, tasks, seed, context);
  }

  /** `a@t` is one node, granted the tool `t`. */
  lemma TagText(a: string, t: string, tasks: map<string, Task>, seed: int, context: seq<string>)
    requires IsHandle(a) && IsHandle(t) && a in tasks && tasks[a].spec.kind == Model
    ensures var r := Compile(a + "@" + t, tasks, seed, context);
      r.Ok? && |r.value.nodes| == 1 && GrantedCopy(tasks[a].spec, [t], r.value.nodes[0]) && r.value.edges == []
  {
    TagCompiles(a, t, tasks, seed, context);
    TagNode(a, t, tasks, seed, context);
  }

  lemma LowersEdgeless(e: Expr, tasks: map<string, Task>, seed: int, context: seq<string>)
    requires Denote(e).edges == [] && ResolveAll(tasks, Denote(e).grants, Denote(e).order).Ok?
    ensures Lower(e, tasks, seed, context) ==
      Ok(Chain(ResolveAll(tasks, Denote(e).grants, Denote(e).order).value, [], seed, context))
  {
    var nodes := ResolveAll(tasks, Denote(e).grants, Denote(e).order).value;
    ForwardNumbers(|nodes|, []);
    DenoteListed(e);
    assert ArcsOf(Denote(e).order, Denote(e).edges) == [];
  }

  lemma TighterMeaning(a: string, b: string, c: string)
    requires Distinct([a, b, c])
    ensures var e := And(Leaf(a, []), Seq(Leaf(b, []), Leaf(c, [])));
      && Derives(0, e) && Toks(e) == [Name(a), Amp, Name(b), Gt, Name(c)]
      && Mean(e).handles == [a, b, c] && Mean(e).edges == [(b, c)] && Mean(e).tags == map[]
  {
    var x, y := Leaf(a, []), Seq(Leaf(b, []), Leaf(c, []));
    ArrowMeaning(b, c);
    NoTags(Mean(x), Mean(y));
    assert Toks(x) == [Name(a)] && Derives(2, y);
  }

  lemma TighterPlain(a: string, b: string, c: string)
    ensures Plain([Name(a), Amp, Name(b), Gt, Name(c)]) == a + "&" + b + ">" + c
  {
    PlainThree(Name(b), Gt, Name(c));
    PlainTwoMore(Name(a), Amp, [Name(b), Gt, Name(c)]);
    assert [Name(a), Amp] + [Name(b), Gt, Name(c)] == [Name(a), Amp, Name(b), Gt, Name(c)];
    assert a + ("&" + (b + (">" + c))) == a + "&" + b + ">" + c;
  }

  /** `>` binds tighter than `&`: in `a&b>c` only the second node leads to the third. */
  lemma TighterText(a: string, b: string, c: string, tasks: map<string, Task>, seed: int, context: seq<string>)
    requires IsHandle(a) && IsHandle(b) && IsHandle(c) && Distinct([a, b, c]) && a in tasks && b in tasks && c in tasks
    ensures Compile(a + "&" + b + ">" + c, tasks, seed, context) ==
      Ok(Chain([tasks[a].spec, tasks[b].spec, tasks[c].spec], [(1, 2)], seed, context))
  {
    var e := And(Leaf(a, []), Seq(Leaf(b, []), Leaf(c, [])));
    TighterMeaning(a, b, c);
    TighterPlain(a, b, c);
    TextOf([Name(a), Amp, Name(b), Gt, Name(c)], e, tasks, seed, context);
    TripleArcs(a, b, c);
    TripleLowers(e, a, b, c, tasks, [(1, 2)], seed, context);
  }

  lemma GroupMeaning(a: string, b: string, c: string)
    requires Distinct([a, b, c])
    ensures var e := Seq(Group(And(Leaf(a, []), Leaf(b, []))), Leaf(c, []));
      && Derives(0, e) && Toks(e) == [LBracket, Name(a), Amp, Name(b), RBracket, Gt, Name(c)]
      && Mean(e).handles == [a, b, c] && Mean(e).edges == [(a, c), (b, c)] && Mean(e).tags == map[]
  {
    var m, y := And(Leaf(a, []), Leaf(b, [])), Leaf(c, []);
    var x := Group(m);
    assert [a, b, c][0] != [a, b, c][1];
    MergeMeaning(a, b);
    NoTags(Mean(x), Mean(y));
    CrossAt([a, b], [c]);
    assert Mean(x) == Mean(m) && Toks(y) == [Name(c)] && Toks(x) == [LBracket, Name(a), Amp, Name(b), RBracket];
    assert Derives(2, x) && Derives(3, y);
  }

  lemma GroupPlain(a: string, b: string, c: string)
    ensures Plain([LBracket, Name(a), Amp, Name(b), RBracket, Gt, Name(c)]) == "[" + a + "&" + b + "]" + ">" + c
  {
    var close := [RBracket, Gt, Name(c)];
    PlainThree(RBracket, Gt, Name(c));
    PlainTwoMore(Amp, Name(b), close);
    PlainTwoMore(LBracket, Name(a), [Amp, Name(b)] + close);
    assert [LBracket, Name(a)] + ([Amp, Name(b)] + close) == [LBracket, Name(a), Amp, Name(b), RBracket, Gt, Name(c)];
    assert "[" + (a + ("&" + (b + ("]" + (">" + c))))) == "[" + a + "&" + b + "]" + ">" + c;
  }

  lemma GroupLegal(a: string, b: string, c: string)
    requires IsHandle(a) && IsHandle(b) && IsHandle(c)
    ensures var ts := [LBracket, Name(a), Amp, Name(b), RBracket, Gt, Name(c)];
      NamesAreHandles(ts) && (forall i :: 0 <= i < |ts| - 1 ==> !(ts[i].Name? && ts[i + 1].Name?))
  {
  }

  lemma GroupCompiles(a: string, b: string, c: string, tasks: map<string, Task>, seed: int, context: seq<string>)
    requires IsHandle(a) && IsHandle(b) && IsHandle(c) && Distinct([a, b, c])
    ensures Compile("[" + a + "&" + b + "]" + ">" + c, tasks, seed, context) ==
      Lower(Seq(Group(And(Leaf(a, []), Leaf(b, []))), Leaf(c, [])), tasks, seed, context)
  {
    GroupMeaning(a, b, c);
    GroupPlain(a, b, c);
    GroupLegal(a, b, c);
    TextOf([LBracket, Name(a), Amp, Name(b), RBracket, Gt, Name(c)], Seq(Group(And(Leaf(a, []), Leaf(b, []))), Leaf(c, [])), tasks, seed, context);
  }

  /** Brackets group: in `[a&b]>c` both lead to the third. */
  lemma GroupText(a: string, b: string, c: string, tasks: map<string, Task>, seed: int, context: seq<string>)
    requires IsHandle(a) && IsHandle(b) && IsHandle(c) && Distinct([a, b, c]) && a in tasks && b in tasks && c in tasks
    ensures Compile("[" + a + "&" + b + "]" + ">" + c, tasks, seed, context) ==
      Ok(Chain([tasks[a].spec, tasks[b].spec, tasks[c].spec], [(0, 2), (1, 2)], seed, context))
  {
    GroupCompiles(a, b, c, tasks, seed, context);
    GroupLowers(a, b, c, tasks, seed, context);
  }

  lemma GroupLowers(a: string, b: string, c: string, tasks: map<string, Task>, seed: int, context: seq<string>)
    requires Distinct([a, b, c]) && a in tasks && b in tasks && c in tasks
    ensures Lower(Seq(Group(And(Leaf(a, []), Leaf(b, []))), Leaf(c, [])), tasks, seed, context) ==
      Ok(Chain([tasks[a].spec, tasks[b].spec, tasks[c].spec], [(0, 2), (1, 2)], seed, context))
  {
    GroupMeaning(a, b, c);
    TripleArcs(a, b, c);
    TripleLowers(Seq(Group(And(Leaf(a, []), Leaf(b, []))), Leaf(c, [])), a, b, c, tasks, [(0, 2), (1, 2)], seed, context);
  }
}
