/** The string DSL's hand-rolled recursive-descent parser as it runs: one object whose
    methods advance `pos` and grow the shared registry, proved to compute exactly the
    denotation of the tree the grammar assigns to its tokens. A parse error is `None`. A
    handle reference is represented by its handle: `refs` makes them one-to-one. */
module ChainParser {
  import opened Lists
  import opened ChainSyntax
  import opened ChainGrammar
  import opened ChainMeaning

  datatype Fragment = Fragment(entries: seq<string>, exits: seq<string>)

  function Ends(m: Meaning): Fragment {
    Fragment(m.entries, m.exits)
  }

  /** A method read what the grammar reads at this point, and recorded its meaning. */
  ghost predicate Reads(p: Parsed<Expr>, before: Store, r: Option<Fragment>, after: Store, rest: seq<Token>) {
    match p
    case Fail => r.None?
    case Got(e, ts) => r == Some(Ends(Mean(e))) && after == Extend(before, Mean(e)) && rest == ts
  }

  /** The state of a level's loop: what remains to read is the grammar's loop on the operand
      read so far. */
  ghost predicate Looping(goal: Parsed<Expr>, lvl: Level, before: Store, left: Fragment, e: Expr,
                          now: Store, rest: seq<Token>)
  {
    && lvl < 3 && goal == ParseLoop(e, rest, lvl)
    && left == Ends(Mean(e)) && now == Extend(before, Mean(e))
  }

  lemma {:induction false} LoopStart(ts: seq<Token>, lvl: Level, before: Store, left: Option<Fragment>,
                                     now: Store, rest: seq<Token>)
    requires lvl < 3 && Reads(ParseLevel(ts, lvl + 1), before, left, now, rest)
    ensures left.None? ==> ParseLevel(ts, lvl).Fail?
    ensures left.Some? ==> var e := ParseLevel(ts, lvl + 1).out;
      Looping(ParseLevel(ts, lvl), lvl, before, left.value, e, now, rest)
  {
  }

  /** What one operator of a level makes of its operands. */
  function Merged(lvl: Level, a: Fragment, b: Fragment): Fragment {
    if lvl == 2 then Fragment(a.entries, b.exits)
    else Fragment(Dedup(a.entries + b.entries), Dedup(a.exits + b.exits))
  }

  function Linked(lvl: Level, now: Store, a: Fragment, b: Fragment): Store {
    if lvl == 2 then now.(edges := now.edges + Cross(a.exits, b.entries)) else now
  }

  lemma {:induction false} LoopStep(goal: Parsed<Expr>, lvl: Level, before: Store, left: Fragment, e: Expr,
                                    mid: Store, toks: seq<Token>, pos: nat, right: Option<Fragment>,
                                    now: Store, rest: seq<Token>)
    requires pos < |toks| && Looping(goal, lvl, before, left, e, mid, toks[pos..])
    requires toks[pos] == Operator(lvl)
    requires Reads(ParseLevel(toks[pos + 1..], lvl + 1), mid, right, now, rest)
    ensures right.None? ==> goal.Fail?
    ensures right.Some? ==>
      var both := Join(lvl, e, ParseLevel(toks[pos + 1..], lvl + 1).out);
      Looping(goal, lvl, before, Merged(lvl, left, right.value), both, Linked(lvl, now, left, right.value), rest)
  {
    assert toks[pos..][1..] == toks[pos + 1..];
    var p := ParseLevel(toks[pos + 1..], lvl + 1);
    if p.Got? {
      ExtendJoin(before, lvl, Mean(e), Mean(p.out));
      MeanJoin(lvl, e, p.out);
    }
  }

  lemma {:induction false} LoopEnd(goal: Parsed<Expr>, lvl: Level, before: Store, left: Fragment, e: Expr,
                                   now: Store, rest: seq<Token>)
    requires Looping(goal, lvl, before, left, e, now, rest) && (rest == [] || rest[0] != Operator(lvl))
    ensures Reads(goal, before, Some(left), now, rest)
  {
  }

  class Parser {
    const toks: seq<Token>
    var pos: nat
    var refs: set<string>
    var order: seq<string>
    var edges: seq<Edge>
    var grants: Grants

    constructor (toks: seq<Token>)
      ensures this.toks == toks && pos == 0 && Valid() && State() == EmptyStore
    {
      this.toks := toks;
      pos, refs, order, edges, grants := 0, {}, [], [], map[];
    }

    ghost predicate Valid()
      reads this
    {
      pos <= |toks| && refs == Elems(order)
    }

    ghost function State(): Store
      reads this
    {
      Store(order, edges, grants)
    }

    ghost function Rest(): seq<Token>
      reads this
    {
      if pos <= |toks| then toks[pos..] else []
    }

    predicate PeekIs(t: Token)
      reads this
    {
      pos < |toks| && toks[pos] == t
    }

    method Ref(handle: string)
      requires Valid()
      modifies this`refs, this`order
      ensures Valid() && order == AddNew(old(order), handle)
    {
      if handle !in refs {
        assert handle in order <==> handle in Elems(order);
        refs := refs + {handle};
        order := order + [handle];
        ElemsConcat(old(order), [handle]);
      } else {
        assert handle in Elems(order);
      }
    }

    /** `parse`: all tokens, or an error on an empty list or trailing tokens. */
    method ParseAll() returns (r: Option<Fragment>)
      requires Valid() && pos == 0 && State() == EmptyStore
      modifies this
      ensures r.Some? <==> Parse(toks).Some?
      ensures r.Some? ==> var e := Parse(toks).value; r.value == Ends(Mean(e)) && State() == Denote(e)
    {
      if |toks| == 0 { return None; }
      assert toks[0..] == toks;
      var f := OrExpr();
      if f.None? { return None; }
      if pos != |toks| { return None; }
      return f;
    }

    /** orexpr := andexpr ( "|" andexpr )* */
    method OrExpr() returns (r: Option<Fragment>)
      requires Valid()
      modifies this
      ensures Reads(ParseLevel(old(Rest()), 0), old(State()), r, State(), Rest())
      ensures r.Some? ==> Valid() && old(pos) < pos
      decreases |toks| - pos, 8
    {
      r := AndExpr();
      ghost var goal, before := ParseLevel(old(Rest()), 0), old(State());
      LoopStart(old(Rest()), 0, before, r, State(), Rest());
      if r.None? { return; }
      ghost var e := ParseLevel(old(Rest()), 1).out;
      while PeekIs(Bar)
        invariant Valid() && old(pos) < pos && r.Some?
        invariant Looping(goal, 0, before, r.value, e, State(), Rest())
        decreases |toks| - pos
      {
        r, e := OrExprNext(goal, before, r.value, e);
        if r.None? { return; }
      }
      LoopEnd(goal, 0, before, r.value, e, State(), Rest());
    }

    method OrExprNext(ghost goal: Parsed<Expr>, ghost before: Store, left: Fragment, ghost e: Expr)
      returns (r: Option<Fragment>, ghost both: Expr)
      requires Valid() && PeekIs(Bar) && Looping(goal, 0, before, left, e, State(), Rest())
      modifies this
      ensures r.None? ==> goal.Fail?
      ensures r.Some? ==> Valid() && old(pos) < pos && Looping(goal, 0, before, r.value, both, State(), Rest())
      decreases |toks| - pos, 7
    {
      ghost var at, mid := pos, State();
      both := e;
      pos := pos + 1;
      var right := AndExpr();
      LoopStep(goal, 0, before, left, e, mid, toks, at, right, State(), Rest());
      if right.None? { return None, e; }
      both := Join(0, e, ParseLevel(toks[at + 1..], 1).out);
      var merged := MergePar(left, right.value);
      r := Some(merged);
    }

    /** andexpr := seqexpr ( "&" seqexpr )* */
    method AndExpr() returns (r: Option<Fragment>)
      requires Valid()
      modifies this
      ensures Reads(ParseLevel(old(Rest()), 1), old(State()), r, State(), Rest())
      ensures r.Some? ==> Valid() && old(pos) < pos
      decreases |toks| - pos, 6
    {
      r := SeqExpr();
      ghost var goal, before := ParseLevel(old(Rest()), 1), old(State());
      LoopStart(old(Rest()), 1, before, r, State(), Rest());
      if r.None? { return; }
      ghost var e := ParseLevel(old(Rest()), 2).out;
      while PeekIs(Amp)
        invariant Valid() && old(pos) < pos && r.Some?
        invariant Looping(goal, 1, before, r.value, e, State(), Rest())
        decreases |toks| - pos
      {
        r, e := AndExprNext(goal, before, r.value, e);
        if r.None? { return; }
      }
      LoopEnd(goal, 1, before, r.value, e, State(), Rest());
    }

    method AndExprNext(ghost goal: Parsed<Expr>, ghost before: Store, left: Fragment, ghost e: Expr)
      returns (r: Option<Fragment>, ghost both: Expr)
      requires Valid() && PeekIs(Amp) && Looping(goal, 1, before, left, e, State(), Rest())
      modifies this
      ensures r.None? ==> goal.Fail?
      ensures r.Some? ==> Valid() && old(pos) < pos && Looping(goal, 1, before, r.value, both, State(), Rest())
      decreases |toks| - pos, 5
    {
      ghost var at, mid := pos, State();
      both := e;
      pos := pos + 1;
      var right := SeqExpr();
      LoopStep(goal, 1, before, left, e, mid, toks, at, right, State(), Rest());
      if right.None? { return None, e; }
      both := Join(1, e, ParseLevel(toks[at + 1..], 2).out);
      var merged := MergePar(left, right.value);
      r := Some(merged);
    }

    /** seqexpr := atom ( ">" atom )* */
    method SeqExpr() returns (r: Option<Fragment>)
      requires Valid()
      modifies this
      ensures Reads(ParseLevel(old(Rest()), 2), old(State()), r, State(), Rest())
      ensures r.Some? ==> Valid() && old(pos) < pos
      decreases |toks| - pos, 4
    {
      r := Atom();
      ghost var goal, before := ParseLevel(old(Rest()), 2), old(State());
      LoopStart(old(Rest()), 2, before, r, State(), Rest());
      if r.None? { return; }
      ghost var e := ParseLevel(old(Rest()), 3).out;
      while PeekIs(Gt)
        invariant Valid() && old(pos) < pos && r.Some?
        invariant Looping(goal, 2, before, r.value, e, State(), Rest())
        decreases |toks| - pos
      {
        r, e := SeqExprNext(goal, before, r.value, e);
        if r.None? { return; }
      }
      LoopEnd(goal, 2, before, r.value, e, State(), Rest());
    }

    method SeqExprNext(ghost goal: Parsed<Expr>, ghost before: Store, left: Fragment, ghost e: Expr)
      returns (r: Option<Fragment>, ghost both: Expr)
      requires Valid() && PeekIs(Gt) && Looping(goal, 2, before, left, e, State(), Rest())
      modifies this
      ensures r.None? ==> goal.Fail?
      ensures r.Some? ==> Valid() && old(pos) < pos && Looping(goal, 2, before, r.value, both, State(), Rest())
      decreases |toks| - pos, 3
    {
      ghost var at, mid := pos, State();
      both := e;
      pos := pos + 1;
      var right := Atom();
      LoopStep(goal, 2, before, left, e, mid, toks, at, right, State(), Rest());
      if right.None? { return None, e; }
      both := Join(2, e, ParseLevel(toks[at + 1..], 3).out);
      AddEdges(left.exits, right.value.entries);
      r := Some(Fragment(left.entries, right.value.exits));
    }

    /** The nested loops of `A > B`: an edge from every exit to every entry. */
    method AddEdges(exits: seq<string>, entries: seq<string>)
      modifies this`edges
      ensures edges == old(edges) + Cross(exits, entries)
    {
      for i := 0 to |exits|
        invariant edges == old(edges) + Cross(exits[..i], entries)
      {
        ghost var row := edges;
        for j := 0 to |entries|
          invariant edges == row + Pairs(exits[i], entries[..j])
        {
          edges := edges + [(exits[i], entries[j])];
        }
        CrossRow(exits, i, entries);
      }
      assert exits[..|exits|] == exits;
    }

    /** atom := handle grants? | "[" chain "]" */
    method Atom() returns (r: Option<Fragment>)
      requires Valid()
      modifies this
      ensures Reads(ParseLevel(old(Rest()), 3), old(State()), r, State(), Rest())
      ensures r.Some? ==> Valid() && old(pos) < pos
      decreases |toks| - pos, 1
    {
      ghost var ts, before := Rest(), State();
      if pos == |toks| {
        NoAtom(ts);
        return None;
      }
      var tok := toks[pos];
      assert ts[1..] == toks[pos + 1..];
      if tok.Name? {
        pos := pos + 1;
        Ref(tok.v);
        var ok := TakeGrants(tok.v);
        LeafFails(ts);
        if !ok { return None; }
        LeafRead(ts, before, State());
        return Some(Fragment([tok.v], [tok.v]));
      }
      if tok == LBracket {
        r := Bracketed();
        return;
      }
      NoAtom(ts);
      return None;
    }

    method Bracketed() returns (r: Option<Fragment>)
      requires Valid() && PeekIs(LBracket)
      modifies this
      ensures Reads(ParseLevel(old(Rest()), 3), old(State()), r, State(), Rest())
      ensures r.Some? ==> Valid() && old(pos) < pos
      decreases |toks| - pos, 0
    {
      ghost var ts, before := Rest(), State();
      assert ts[1..] == toks[pos + 1..];
      pos := pos + 1;
      if PeekIs(RBracket) {
        NoAtom(ts);
        return None;
      }
      r := OrExpr();
      GroupRead(ts, before, r, State(), Rest());
      if r.None? || !PeekIs(RBracket) { return None; }
      assert Rest()[1..] == toks[pos + 1..];
      pos := pos + 1;
    }

    /** grants := ("@" handle)+, merged into the tags the handle already has. */
    method TakeGrants(handle: string) returns (ok: bool)
      requires Valid()
      modifies this`pos, this`grants
      ensures ok <==> ParseTags(old(Rest())).Got?
      ensures ok ==> var p := ParseTags(old(Rest()));
        && Valid() && old(pos) <= pos && Rest() == p.rest
        && grants == MergeGrants(old(grants), LeafMeaning(handle, p.out).tags)
    {
      var tags := if handle in grants then grants[handle] else [];
      ok, tags := ReadTags(tags);
      if !ok { return; }
      GrantsUpdated(grants, handle, ParseTags(old(Rest())).out);
      if tags != [] { grants := grants[handle := tags]; }
    }

    /** The loop over the suffix. */
    method ReadTags(had: seq<string>) returns (ok: bool, tags: seq<string>)
      requires Valid()
      modifies this`pos
      ensures ok <==> ParseTags(old(Rest())).Got?
      ensures ok ==> var p := ParseTags(old(Rest()));
        Valid() && old(pos) <= pos && Rest() == p.rest && tags == AddAll(had, p.out)
    {
      tags := had;
      ghost var got, goal := [], ParseTags(Rest());
      TaggingStarts(had, Rest());
      while PeekIs(At)
        invariant Valid() && old(pos) <= pos
        invariant Tagging(goal, had, got, tags, Rest())
        decreases |toks| - pos
      {
        TaggingStep(goal, had, got, tags, toks, pos);
        pos := pos + 1;
        if pos == |toks| || !toks[pos].Name? { return false, tags; }
        var name := toks[pos].v;
        pos := pos + 1;
        got := got + [name];
        tags := AddNew(tags, name);
      }
      TaggingEnds(goal, had, got, tags, Rest());
      ok := true;
    }
  }

  lemma {:induction false} NoAtom(ts: seq<Token>)
    requires ts == [] || (!ts[0].Name? && ts[0] != LBracket) || (|ts| > 1 && ts[0] == LBracket && ts[1] == RBracket)
    ensures ParseLevel(ts, 3).Fail?
  {
    assert ParseAtom(ts).Fail?;
  }

  lemma {:induction false} LeafFails(ts: seq<Token>)
    requires ts != [] && ts[0].Name?
    ensures ParseTags(ts[1..]).Fail? ==> ParseLevel(ts, 3).Fail?
  {
    assert ParseLevel(ts, 3) == ParseAtom(ts);
  }

  lemma {:induction false} GroupRead(ts: seq<Token>, before: Store, inner: Option<Fragment>, now: Store, rest: seq<Token>)
    requires ts != [] && ts[0] == LBracket && (|ts| == 1 || ts[1] != RBracket)
    requires Reads(ParseLevel(ts[1..], 0), before, inner, now, rest)
    ensures inner.None? || rest == [] || rest[0] != RBracket ==> ParseLevel(ts, 3).Fail?
    ensures inner.Some? && rest != [] && rest[0] == RBracket ==> Reads(ParseLevel(ts, 3), before, inner, now, rest[1..])
  {
    assert ParseLevel(ts, 3) == ParseAtom(ts);
  }

  lemma {:induction false} LeafRead(ts: seq<Token>, before: Store, after: Store)
    requires ts != [] && ts[0].Name? && ParseTags(ts[1..]).Got?
    requires after.order == AddNew(before.order, ts[0].v) && after.edges == before.edges
    requires after.grants == MergeGrants(before.grants, LeafMeaning(ts[0].v, ParseTags(ts[1..]).out).tags)
    ensures Reads(ParseLevel(ts, 3), before, Some(Fragment([ts[0].v], [ts[0].v])), after, ParseTags(ts[1..]).rest)
  {
    var p := ParseTags(ts[1..]);
    assert ParseAtom(ts) == Got(Leaf(ts[0].v, p.out), p.rest);
    AddAllOne(before.order, ts[0].v);
    assert before.edges + [] == before.edges;
  }

  /** The tags already read, put before those still to come. */
  function AfterTags(got: seq<string>, p: Parsed<seq<string>>): Parsed<seq<string>> {
    match p
    case Fail => Fail
    case Got(more, rest) => Got(got + more, rest)
  }

  /** One `@name` of the suffix. */
  lemma {:induction false} TagStep(toks: seq<Token>, pos: nat)
    requires pos < |toks| && toks[pos] == At
    ensures ParseTags(toks[pos..]) ==
      if pos + 1 == |toks| || !toks[pos + 1].Name? then Fail
      else AfterTags([toks[pos + 1].v], ParseTags(toks[pos + 2..]))
  {
    assert pos + 1 < |toks| ==> toks[pos..][2..] == toks[pos + 2..];
  }

  lemma AfterOne(got: seq<string>, name: string, p: Parsed<seq<string>>)
    ensures AfterTags(got, AfterTags([name], p)) == AfterTags(got + [name], p)
  {
    if p.Got? { assert got + ([name] + p.out) == (got + [name]) + p.out; }
  }

  /** The state of the loop over the suffix. */
  ghost predicate Tagging(goal: Parsed<seq<string>>, had: seq<string>, got: seq<string>, tags: seq<string>, rest: seq<Token>) {
    tags == AddAll(had, got) && goal == AfterTags(got, ParseTags(rest))
  }

  lemma TaggingStarts(had: seq<string>, rest: seq<Token>)
    ensures Tagging(ParseTags(rest), had, [], had, rest)
  {
    var p := ParseTags(rest);
    assert p.Got? ==> [] + p.out == p.out;
  }

  lemma {:induction false} TaggingStep(goal: Parsed<seq<string>>, had: seq<string>, got: seq<string>, tags: seq<string>,
                                       toks: seq<Token>, pos: nat)
    requires pos < |toks| && toks[pos] == At && Tagging(goal, had, got, tags, toks[pos..])
    ensures pos + 1 == |toks| || !toks[pos + 1].Name? ==> goal.Fail?
    ensures pos + 1 < |toks| && toks[pos + 1].Name? ==>
              Tagging(goal, had, got + [toks[pos + 1].v], AddNew(tags, toks[pos + 1].v), toks[pos + 2..])
  {
    TagStep(toks, pos);
    if pos + 1 < |toks| && toks[pos + 1].Name? {
      var name := toks[pos + 1].v;
      AddAllConcat(had, got, [name]);
      AddAllOne(tags, name);
      AfterOne(got, name, ParseTags(toks[pos + 2..]));
    }
  }

  lemma {:induction false} TaggingEnds(goal: Parsed<seq<string>>, had: seq<string>, got: seq<string>, tags: seq<string>,
                                       rest: seq<Token>)
    requires Tagging(goal, had, got, tags, rest) && (rest == [] || rest[0] != At)
    ensures goal == Got(got, rest) && tags == AddAll(had, got)
  {
    assert got + [] == got;
  }

  /** Storing the merged tags of one handle, unless there are none, merges its leaf. */
  lemma GrantsUpdated(g: Grants, handle: string, got: seq<string>)
    ensures var tags := AddAll(GrantsOf(g, handle), got);
      (if tags != [] then g[handle := tags] else g) == MergeGrants(g, LeafMeaning(handle, got).tags)
  {
    var had := GrantsOf(g, handle);
    AddAllElems(had, got);
    if had != [] { assert had[0] in Elems(had); }
    if got != [] { assert got[0] in Elems(got); }
  }

  lemma CrossRow<S, T>(a: seq<S>, i: nat, b: seq<T>)
    requires i < |a|
    ensures Cross(a[..i + 1], b) == Cross(a[..i], b) + Pairs(a[i], b[..|b|])
  {
    assert a[..i + 1][..i] == a[..i] && b[..|b|] == b;
  }

  method MergePar(a: Fragment, b: Fragment) returns (r: Fragment)
    ensures r == Fragment(Dedup(a.entries + b.entries), Dedup(a.exits + b.exits))
  {
    var entries := DedupList(a.entries + b.entries);
    var exits := DedupList(a.exits + b.exits);
    return Fragment(entries, exits);
  }
}
