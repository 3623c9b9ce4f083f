/** What a chain expression denotes: node order, edges, entries, exits and grants, read off
    the tree; the operator laws; and the proof that `|` and `&` differ only in precedence. */
module ChainMeaning {
  import opened Lists
  import opened ChainSyntax
  import opened ChainGrammar

  type Edge = (string, string)

  // ------------------------------------------------------------------ denotation

  function Pairs<S, T>(x: S, b: seq<T>): seq<(S, T)> {
    seq(|b|, j requires 0 <= j < |b| => (x, b[j]))
  }

  /** Every pair from `a` and `b`, row by row. */
  function Cross<S, T>(a: seq<S>, b: seq<T>): seq<(S, T)> {
    if a == [] then [] else Cross(a[..|a| - 1], b) + Pairs(a[|a| - 1], b)
  }

  lemma {:induction false} CrossElems<S(!new), T(!new)>(a: seq<S>, b: seq<T>)
    ensures forall x, y :: (x, y) in Cross(a, b) <==> x in a && y in b
  {
    if a != [] {
      var init, last := a[..|a| - 1], a[|a| - 1];
      CrossElems(init, b);
      assert a == init + [last];
      forall x, y ensures (x, y) in Pairs(last, b) <==> x == last && y in b {
        if x == last && y in b {
          var j :| 0 <= j < |b| && b[j] == y;
          assert Pairs(last, b)[j] == (x, y);
        }
      }
    }
  }

  type Grants = map<string, seq<string>>

  function GrantsOf(g: Grants, h: string): seq<string> {
    if h in g then g[h] else []
  }

  /** A fragment's meaning: every handle occurrence left to right, the entry and exit nodes,
      the `>` edges, and the `@` tags on each tagged handle, over all its occurrences. */
  datatype Meaning = Meaning(
    handles: seq<string>,
    entries: seq<string>,
    exits: seq<string>,
    edges: seq<Edge>,
    tags: Grants)

  function AppendTags(a: Grants, b: Grants): Grants {
    map h | h in a.Keys + b.Keys :: GrantsOf(a, h) + GrantsOf(b, h)
  }

  function LeafMeaning(h: string, tags: seq<string>): Meaning {
    Meaning([h], [h], [h], [], if tags == [] then map[] else map[h := tags])
  }

  /** `A > B`: every exit of `A` feeds every entry of `B`. */
  function Sequential(a: Meaning, b: Meaning): Meaning {
    Meaning(a.handles + b.handles, a.entries, b.exits,
            a.edges + b.edges + Cross(a.exits, b.entries), AppendTags(a.tags, b.tags))
  }

  /** `A & B` and `A | B`: no edges, the ends of both sides with repeats removed. */
  function Parallel(a: Meaning, b: Meaning): Meaning {
    Meaning(a.handles + b.handles, Dedup(a.entries + b.entries), Dedup(a.exits + b.exits),
            a.edges + b.edges, AppendTags(a.tags, b.tags))
  }

  function Joined(lvl: Level, a: Meaning, b: Meaning): Meaning {
    if lvl == 2 then Sequential(a, b) else Parallel(a, b)
  }

  function Mean(e: Expr): Meaning {
    match e
    case Leaf(h, tags) => LeafMeaning(h, tags)
    case Group(i) => Mean(i)
    case Seq(l, r) => Sequential(Mean(l), Mean(r))
    case And(l, r) => Parallel(Mean(l), Mean(r))
    case Or(l, r) => Parallel(Mean(l), Mean(r))
  }

  lemma {:induction false} MeanJoin(lvl: Level, l: Expr, r: Expr)
    requires lvl < 3
    ensures Mean(Join(lvl, l, r)) == Joined(lvl, Mean(l), Mean(r))
  {
    if lvl == 0 {
      assert Join(lvl, l, r) == Or(l, r);
    } else if lvl == 1 {
      assert Join(lvl, l, r) == And(l, r);
    } else {
      assert Join(lvl, l, r) == Seq(l, r);
    }
  }

  // ------------------------------------------------------------------ accumulated state

  /** The parser's accumulated state. */
  datatype Store = Store(order: seq<string>, edges: seq<Edge>, grants: Grants)

  const EmptyStore := Store([], [], map[])

  function MergeGrants(g: Grants, tags: Grants): Grants {
    map h | h in g.Keys + tags.Keys :: AddAll(GrantsOf(g, h), GrantsOf(tags, h))
  }

  /** The state after reading an expression of meaning `m` in state `st`. */
  function Extend(st: Store, m: Meaning): Store {
    Store(AddAll(st.order, m.handles), st.edges + m.edges, MergeGrants(st.grants, m.tags))
  }

  /** What a whole expression leaves behind: nodes in first-appearance order, edges, and the
      deduplicated tags of each tagged handle. */
  function Denote(e: Expr): Store {
    Extend(EmptyStore, Mean(e))
  }

  lemma MergeGrantsAt(g: Grants, tags: Grants, h: string)
    ensures GrantsOf(MergeGrants(g, tags), h) == AddAll(GrantsOf(g, h), GrantsOf(tags, h))
  {
  }

  lemma AppendTagsAt(a: Grants, b: Grants, h: string)
    ensures GrantsOf(AppendTags(a, b), h) == GrantsOf(a, h) + GrantsOf(b, h)
  {
  }

  lemma GrantsEqual(x: Grants, y: Grants)
    requires x.Keys == y.Keys && forall h :: h in x ==> GrantsOf(x, h) == GrantsOf(y, h)
    ensures x == y
  {
  }

  lemma MergeGrantsTwice(g: Grants, a: Grants, b: Grants)
    ensures MergeGrants(MergeGrants(g, a), b) == MergeGrants(g, AppendTags(a, b))
  {
    var x, y := MergeGrants(MergeGrants(g, a), b), MergeGrants(g, AppendTags(a, b));
    forall h | h in x ensures GrantsOf(x, h) == GrantsOf(y, h) {
      MergeGrantsAt(MergeGrants(g, a), b, h);
      MergeGrantsAt(g, a, h);
      MergeGrantsAt(g, AppendTags(a, b), h);
      AppendTagsAt(a, b, h);
      AddAllConcat(GrantsOf(g, h), GrantsOf(a, h), GrantsOf(b, h));
    }
    GrantsEqual(x, y);
  }

  /** Reading the left operand, then the right one, then adding the join's edges is reading
      the whole join. */
  lemma ExtendJoin(st: Store, lvl: Level, a: Meaning, b: Meaning)
    ensures var two := Extend(Extend(st, a), b);
      Extend(st, Joined(lvl, a, b)) ==
        if lvl == 2 then two.(edges := two.edges + Cross(a.exits, b.entries)) else two
  {
    AddAllConcat(st.order, a.handles, b.handles);
    MergeGrantsTwice(st.grants, a.tags, b.tags);
    ConcatAssociative(st.edges, a.edges, b.edges);
    ConcatAssociative(st.edges, a.edges + b.edges, Cross(a.exits, b.entries));
  }

  // ------------------------------------------------------------------ shape facts

  /** Entries and exits are handles of the expression without repeats, edges stay inside it,
      and only tagged handles carry tags. */
  ghost predicate WellFormed(m: Meaning) {
    && m.entries != [] && m.exits != [] && m.handles != []
    && Distinct(m.entries) && Distinct(m.exits)
    && (forall h :: h in m.entries || h in m.exits ==> h in m.handles)
    && (forall x, y :: (x, y) in m.edges ==> x in m.handles && y in m.handles)
    && (forall h :: h in m.tags ==> h in m.handles && m.tags[h] != [])
  }

  lemma DedupElem<T(!new)>(s: seq<T>)
    ensures forall x :: x in Dedup(s) <==> x in s
    ensures Distinct(Dedup(s))
    ensures s != [] ==> Dedup(s) != []
  {
    DedupMeaning(s);
    assert forall x :: x in Dedup(s) <==> x in Elems(Dedup(s));
    assert forall x :: x in s <==> x in Elems(s);
    if s != [] {
      assert s[0] in Dedup(s);
    }
  }

  lemma {:induction false} MeanWellFormed(e: Expr)
    ensures WellFormed(Mean(e))
  {
    match e
    case Leaf(_, _) =>
    case Group(i) => MeanWellFormed(i);
    case _ =>
      MeanWellFormed(e.left);
      MeanWellFormed(e.right);
      JoinWellFormed(LevelOf(e), Mean(e.left), Mean(e.right));
  }

  lemma JoinWellFormed(lvl: Level, a: Meaning, b: Meaning)
    requires WellFormed(a) && WellFormed(b)
    ensures WellFormed(Joined(lvl, a, b))
  {
    if lvl == 2 {
      CrossElems(a.exits, b.entries);
    } else {
      DedupElem(a.entries + b.entries);
      DedupElem(a.exits + b.exits);
    }
  }

  /** The tags of `h`, defined by visiting the occurrences. */
  function TagsOf(e: Expr, h: string): seq<string> {
    match e
    case Leaf(k, tags) => if k == h then tags else []
    case Group(i) => TagsOf(i, h)
    case _ => TagsOf(e.left, h) + TagsOf(e.right, h)
  }

  lemma {:induction false} TagsMeaning(e: Expr, h: string)
    ensures GrantsOf(Mean(e).tags, h) == TagsOf(e, h)
  {
    match e
    case Leaf(_, _) =>
    case Group(i) => TagsMeaning(i, h);
    case _ =>
      TagsMeaning(e.left, h);
      TagsMeaning(e.right, h);
  }

  /** The denotation's grants: each tagged handle's tags over all its occurrences, in order
      of first mention; nothing for an untagged handle. */
  lemma GrantsMeaning(e: Expr, h: string)
    ensures GrantsOf(Denote(e).grants, h) == Dedup(TagsOf(e, h))
    ensures h in Denote(e).grants <==> TagsOf(e, h) != []
  {
    TagsMeaning(e, h);
    MeanWellFormed(e);
  }

  /** Node order is first appearance, each handle once. */
  lemma OrderMeaning(e: Expr)
    ensures Distinct(Denote(e).order) && Elems(Denote(e).order) == Elems(Mean(e).handles)
    ensures FirstAppearance(Mean(e).handles, Denote(e).order)
  {
    DedupMeaning(Mean(e).handles);
  }

  // ------------------------------------------------------------------ operator laws

  /** Two meanings are interchangeable in every context: same nodes in the same order, same
      ends in the same order, same edge set, same tags on every handle. */
  ghost predicate Same(a: Meaning, b: Meaning) {
    a.(edges := []) == b.(edges := []) && Elems(a.edges) == Elems(b.edges)
  }

  lemma JoinElems(lvl: Level, a: Meaning, b: Meaning)
    ensures Elems(Joined(lvl, a, b).edges) == Elems(a.edges) + Elems(b.edges)
      + if lvl == 2 then Elems(Cross(a.exits, b.entries)) else {}
  {
    ElemsConcat(a.edges, b.edges);
    ElemsConcat(a.edges + b.edges, Cross(a.exits, b.entries));
  }

  /** Interchangeable operands give interchangeable results. */
  lemma SameJoin(lvl: Level, a: Meaning, a': Meaning, b: Meaning, b': Meaning)
    requires Same(a, a') && Same(b, b')
    ensures Same(Joined(lvl, a, b), Joined(lvl, a', b'))
  {
    JoinElems(lvl, a, b);
    JoinElems(lvl, a', b');
  }

  /** Removing repeats at each merge or once at the end is the same. */
  lemma DedupLeft<T>(a: seq<T>, c: seq<T>)
    ensures Dedup(Dedup(a) + c) == Dedup(a + c)
  {
    AddAllConcat([], Dedup(a), c);
    AddAllDedup([], a);
    AddAllConcat([], a, c);
  }

  lemma DedupRight<T>(a: seq<T>, c: seq<T>)
    ensures Dedup(a + Dedup(c)) == Dedup(a + c)
  {
    AddAllConcat([], a, Dedup(c));
    AddAllDedup(AddAll([], a), c);
    AddAllConcat([], a, c);
  }

  lemma DedupInside<T>(a: seq<T>, b: seq<T>, c: seq<T>)
    ensures Dedup(Dedup(a + b) + c) == Dedup(a + b + c) == Dedup(a + Dedup(b + c))
  {
    DedupLeft(a + b, c);
    DedupRight(a, b + c);
    assert a + b + c == a + (b + c);
  }

  lemma AppendTagsAssociativeAt(a: Grants, b: Grants, c: Grants, h: string)
    ensures GrantsOf(AppendTags(AppendTags(a, b), c), h) == GrantsOf(AppendTags(a, AppendTags(b, c)), h)
  {
    AppendTagsAt(a, b, h);
    AppendTagsAt(AppendTags(a, b), c, h);
    AppendTagsAt(b, c, h);
    AppendTagsAt(a, AppendTags(b, c), h);
    ConcatAssociative(GrantsOf(a, h), GrantsOf(b, h), GrantsOf(c, h));
  }

  lemma AppendTagsAssociative(a: Grants, b: Grants, c: Grants)
    ensures AppendTags(AppendTags(a, b), c) == AppendTags(a, AppendTags(b, c))
  {
    var x, y := AppendTags(AppendTags(a, b), c), AppendTags(a, AppendTags(b, c));
    assert x.Keys == a.Keys + b.Keys + c.Keys == y.Keys;
    forall h | h in x ensures GrantsOf(x, h) == GrantsOf(y, h) {
      AppendTagsAssociativeAt(a, b, c, h);
    }
    GrantsEqual(x, y);
  }

  /** Sequential composition and parallel merge are both associative on whole meanings. */
  lemma Associative(lvl: Level, a: Meaning, b: Meaning, c: Meaning)
    ensures Same(Joined(lvl, Joined(lvl, a, b), c), Joined(lvl, a, Joined(lvl, b, c)))
  {
    assert a.handles + b.handles + c.handles == a.handles + (b.handles + c.handles);
    AppendTagsAssociative(a.tags, b.tags, c.tags);
    DedupInside(a.entries, b.entries, c.entries);
    DedupInside(a.exits, b.exits, c.exits);
    JoinElems(lvl, a, b);
    JoinElems(lvl, b, c);
    JoinElems(lvl, Joined(lvl, a, b), c);
    JoinElems(lvl, a, Joined(lvl, b, c));
  }

  /** Brackets group and do nothing else, wherever the printer puts them. */
  lemma {:induction false} BracketSame(lvl: Level, e: Expr)
    ensures Mean(Bracket(lvl, e)) == Mean(e)
    decreases e, if LevelOf(e) < lvl then 1 else 0
  {
    if LevelOf(e) < lvl {
      BracketSame(0, e);
    } else {
      match e
      case Leaf(_, _) =>
      case Group(i) => BracketSame(0, i);
      case Seq(l, r) => BracketSame(2, l); BracketSame(3, r);
      case And(l, r) => BracketSame(1, l); BracketSame(2, r);
      case Or(l, r) => BracketSame(0, l); BracketSame(1, r);
    }
  }

  /** Interchangeable expressions denote the same nodes, edge set and grants. */
  lemma SameDenote(a: Expr, b: Expr)
    requires Same(Mean(a), Mean(b))
    ensures Denote(a).order == Denote(b).order && Denote(a).grants == Denote(b).grants
    ensures Elems(Denote(a).edges) == Elems(Denote(b).edges)
  {
    assert [] + Mean(a).edges == Mean(a).edges && [] + Mean(b).edges == Mean(b).edges;
    assert Mean(a).handles == Mean(a).(edges := []).handles;
    assert Mean(b).tags == Mean(b).(edges := []).tags;
  }

  // ------------------------------------------------------------------ `|` is `&`

  function AmpForBar(t: Token): Token {
    if t == Bar then Amp else t
  }

  /** Every `|` replaced by `&`. */
  function AmpOnly(ts: seq<Token>): (r: seq<Token>)
    ensures |r| == |ts| && forall i :: 0 <= i < |ts| ==> r[i] == AmpForBar(ts[i])
  {
    seq(|ts|, i requires 0 <= i < |ts| => AmpForBar(ts[i]))
  }

  /** `l & r` re-associated to the left, as the parser reads it. */
  function Graft(l: Expr, r: Expr): Expr {
    match r
    case And(a, b) => And(Graft(l, a), b)
    case _ => And(l, r)
  }

  /** The tree the parser builds once every `|` is an `&`. */
  function Blind(e: Expr): Expr {
    match e
    case Leaf(_, _) => e
    case Group(i) => Group(Blind(i))
    case Seq(l, r) => Seq(Blind(l), Blind(r))
    case _ => Graft(Blind(e.left), Blind(e.right))
  }

  lemma GraftStep(x: Meaning, l: Meaning, a: Meaning, b: Meaning)
    requires Same(x, Parallel(l, a))
    ensures Same(Parallel(x, b), Parallel(l, Parallel(a, b)))
  {
    SameJoin(1, x, Parallel(l, a), b, b);
    Associative(1, l, a, b);
  }

  lemma {:induction false} GraftSame(l: Expr, r: Expr)
    ensures Same(Mean(Graft(l, r)), Parallel(Mean(l), Mean(r)))
  {
    if r.And? {
      GraftSame(l, r.left);
      GraftStep(Mean(Graft(l, r.left)), Mean(l), Mean(r.left), Mean(r.right));
    }
  }

  lemma Regroup(l: seq<Token>, a: seq<Token>, b: seq<Token>)
    ensures (l + ([Amp] + a)) + [Amp] + b == l + ([Amp] + (a + [Amp] + b))
  {
  }

  lemma {:induction false} GraftToks(l: Expr, r: Expr)
    ensures Toks(Graft(l, r)) == Toks(l) + ([Amp] + Toks(r))
  {
    match r
    case And(a, b) =>
      GraftToks(l, a);
      Regroup(Toks(l), Toks(a), Toks(b));
    case _ =>
      ConcatAssociative(Toks(l), [Amp], Toks(r));
  }

  lemma {:induction false} GraftDerives(l: Expr, r: Expr)
    requires Derives(1, l) && Derives(1, r)
    ensures Derives(1, Graft(l, r))
  {
    match r
    case And(a, b) => GraftDerives(l, a);
    case _ =>
  }

  lemma {:induction false} AmpOnlyConcat(a: seq<Token>, b: seq<Token>)
    ensures AmpOnly(a + b) == AmpOnly(a) + AmpOnly(b)
  {
  }

  lemma {:induction false} AmpOnlyTags(tags: seq<string>)
    ensures AmpOnly(TagToks(tags)) == TagToks(tags)
  {
    if tags != [] {
      AmpOnlyTags(tags[1..]);
      AmpOnlyConcat([At, Name(tags[0])], TagToks(tags[1..]));
    }
  }

  lemma {:induction false} BlindDerives(lvl: Level, e: Expr)
    requires Derives(lvl, e)
    ensures Derives(if lvl < 1 then 1 else lvl, Blind(e))
    decreases e
  {
    match e
    case Leaf(_, _) =>
    case Group(i) =>
      BlindDerives(0, i);
      DerivesLooser(0, Blind(i));
    case Seq(l, r) =>
      BlindDerives(2, l);
      BlindDerives(3, r);
    case And(l, r) =>
      BlindDerives(1, l);
      BlindDerives(2, r);
      DerivesLooser(1, Blind(r));
      GraftDerives(Blind(l), Blind(r));
    case Or(l, r) =>
      BlindDerives(0, l);
      BlindDerives(1, r);
      GraftDerives(Blind(l), Blind(r));
  }

  lemma GraftedSame(l: Expr, r: Expr, ml: Meaning, mr: Meaning)
    requires Same(Mean(l), ml) && Same(Mean(r), mr)
    ensures Same(Mean(Graft(l, r)), Parallel(ml, mr))
  {
    GraftSame(l, r);
    SameJoin(1, Mean(l), ml, Mean(r), mr);
  }

  lemma {:induction false} BlindSame(e: Expr)
    ensures Same(Mean(Blind(e)), Mean(e))
  {
    match e
    case Leaf(_, _) =>
    case Group(i) => BlindSame(i);
    case Seq(l, r) =>
      BlindSame(l);
      BlindSame(r);
      SameJoin(2, Mean(Blind(l)), Mean(l), Mean(Blind(r)), Mean(r));
    case And(l, r) =>
      BlindSame(l);
      BlindSame(r);
      GraftedSame(Blind(l), Blind(r), Mean(l), Mean(r));
    case Or(l, r) =>
      BlindSame(l);
      BlindSame(r);
      GraftedSame(Blind(l), Blind(r), Mean(l), Mean(r));
  }

  lemma {:induction false} BlindToks(e: Expr)
    ensures Toks(Blind(e)) == AmpOnly(Toks(e))
  {
    match e
    case Leaf(h, tags) =>
      AmpOnlyTags(tags);
      AmpOnlyConcat([Name(h)], TagToks(tags));
    case Group(i) =>
      BlindToks(i);
      AmpOnlyConcat([LBracket] + Toks(i), [RBracket]);
      AmpOnlyConcat([LBracket], Toks(i));
    case Seq(l, r) =>
      BlindToks(l);
      BlindToks(r);
      AmpOnlyJoin(l, Gt, r);
    case And(l, r) =>
      BlindToks(l);
      BlindToks(r);
      GraftToks(Blind(l), Blind(r));
      ConcatAssociative(Toks(Blind(l)), [Amp], Toks(Blind(r)));
      AmpOnlyJoin(l, Amp, r);
    case Or(l, r) =>
      BlindToks(l);
      BlindToks(r);
      GraftToks(Blind(l), Blind(r));
      ConcatAssociative(Toks(Blind(l)), [Amp], Toks(Blind(r)));
      AmpOnlyJoin(l, Bar, r);
  }

  lemma {:induction false} AmpOnlyJoin(l: Expr, op: Token, r: Expr)
    ensures AmpOnly(Toks(l) + [op] + Toks(r)) == AmpOnly(Toks(l)) + [AmpForBar(op)] + AmpOnly(Toks(r))
  {
    AmpOnlyConcat(Toks(l) + [op], Toks(r));
    AmpOnlyConcat(Toks(l), [op]);
  }

  lemma {:induction false} ScanBlind(ts: seq<Token>, at: Reading, depth: nat)
    ensures Scan(AmpOnly(ts), at, depth) == Scan(ts, at, depth)
  {
    if ts != [] {
      var rest := ts[1..];
      assert AmpOnly(ts)[1..] == AmpOnly(rest);
      ScanBlind(rest, AfterHandle, depth);
      ScanBlind(rest, Operand, depth + 1);
      ScanBlind(rest, TagName, depth);
      ScanBlind(rest, Operand, depth);
      if depth > 0 { ScanBlind(rest, AfterGroup, depth - 1); }
    }
  }

  /** Replacing every `|` by `&` preserves acceptance and the whole meaning, although the
      two operators have different precedence. */
  lemma {:induction false} BarIsAmp(ts: seq<Token>)
    ensures Parse(AmpOnly(ts)).Some? <==> Parse(ts).Some?
    ensures Parse(ts).Some? ==> Same(Mean(Parse(AmpOnly(ts)).value), Mean(Parse(ts).value))
  {
    AcceptsIffScans(ts);
    AcceptsIffScans(AmpOnly(ts));
    ScanBlind(ts, Operand, 0);
    if Parse(ts).Some? {
      var e := Parse(ts).value;
      ParserExact(ts, e);
      BlindDerives(0, e);
      BlindSame(e);
      BlindToks(e);
      DerivesLooser(0, Blind(e));
      ParserExact(AmpOnly(ts), Blind(e));
    }
  }

  /** Printing any tree and reading it back yields the tree's own denotation. */
  lemma {:induction false} PrintThenParse(text: string, e: Expr)
    requires HandlesLegal(e) && Writes(text, e)
    ensures Lex(text).Some? && Parse(Lex(text).value).Some?
    ensures Mean(Parse(Lex(text).value).value) == Mean(e)
  {
    ParseOfPrint(text, e);
    BracketSame(0, e);
  }
}
