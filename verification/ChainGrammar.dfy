/** The grammar of a chain expression as derivation trees, the recursive-descent parser as
    a function from tokens to trees, and the proof that it accepts exactly the grammar. */
module ChainGrammar {
  import opened Lists
  import opened ChainSyntax

  /** An expression tree. `Group` is a pair of brackets. */
  datatype Expr =
    | Leaf(handle: string, tags: seq<string>)
    | Group(inner: Expr)
    | Seq(left: Expr, right: Expr)
    | And(left: Expr, right: Expr)
    | Or(left: Expr, right: Expr)

  /** The four grammar levels, loosest first: 0 orexpr, 1 andexpr, 2 seqexpr, 3 atom. */
  type Level = n: nat | n <= 3

  /** The operator token that joins operands at a level. */
  function Operator(lvl: Level): Token
    requires lvl < 3
  {
    if lvl == 0 then Bar else if lvl == 1 then Amp else Gt
  }

  function Join(lvl: Level, l: Expr, r: Expr): Expr
    requires lvl < 3
  {
    if lvl == 0 then Or(l, r) else if lvl == 1 then And(l, r) else Seq(l, r)
  }

  /** `e` is derivable from the nonterminal of level `lvl`: operators are left-associative,
      an operand of an operator sits at a tighter level, and brackets reset the level. */
  predicate Derives(lvl: Level, e: Expr)
    decreases e
  {
    match e
    case Leaf(_, _) => true
    case Group(i) => Derives(0, i)
    case Seq(l, r) => lvl <= 2 && Derives(2, l) && Derives(3, r)
    case And(l, r) => lvl <= 1 && Derives(1, l) && Derives(2, r)
    case Or(l, r) => lvl <= 0 && Derives(0, l) && Derives(1, r)
  }

  /** grants := ("@" handle)+ */
  function TagToks(tags: seq<string>): seq<Token> {
    if tags == [] then [] else [At, Name(tags[0])] + TagToks(tags[1..])
  }

  /** The sentence of a tree. */
  function Toks(e: Expr): (ts: seq<Token>)
    ensures ts != [] && (ts[0].Name? || ts[0] == LBracket)
  {
    match e
    case Leaf(h, tags) => [Name(h)] + TagToks(tags)
    case Group(i) => [LBracket] + Toks(i) + [RBracket]
    case Seq(l, r) => Toks(l) + [Gt] + Toks(r)
    case And(l, r) => Toks(l) + [Amp] + Toks(r)
    case Or(l, r) => Toks(l) + [Bar] + Toks(r)
  }

  // ------------------------------------------------------------------ the parser

  datatype Parsed<T> = Fail | Got(out: T, rest: seq<Token>)

  function ParseTags(ts: seq<Token>): (r: Parsed<seq<string>>)
    ensures r.Got? ==> |r.rest| <= |ts|
  {
    if ts == [] || ts[0] != At then Got([], ts)
    else if |ts| < 2 || !ts[1].Name? then Fail
    else match ParseTags(ts[2..])
      case Fail => Fail
      case Got(more, rest) => Got([ts[1].v] + more, rest)
  }

  function ParseAtom(ts: seq<Token>): (r: Parsed<Expr>)
    ensures r.Got? ==> |r.rest| < |ts|
    decreases |ts|, 0
  {
    if ts == [] then Fail
    else if ts[0].Name? then
      match ParseTags(ts[1..])
      case Fail => Fail
      case Got(tags, rest) => Got(Leaf(ts[0].v, tags), rest)
    else if ts[0] == LBracket then
      if |ts| > 1 && ts[1] == RBracket then Fail
      else match ParseLevel(ts[1..], 0)
        case Fail => Fail
        case Got(inner, rest) =>
          if rest == [] || rest[0] != RBracket then Fail else Got(Group(inner), rest[1..])
    else Fail
  }

  function ParseLevel(ts: seq<Token>, lvl: Level): (r: Parsed<Expr>)
    ensures r.Got? ==> |r.rest| < |ts|
    decreases |ts|, 1, 3 - lvl
  {
    if lvl == 3 then ParseAtom(ts)
    else match ParseLevel(ts, lvl + 1)
      case Fail => Fail
      case Got(left, rest) => ParseLoop(left, rest, lvl)
  }

  function ParseLoop(left: Expr, ts: seq<Token>, lvl: Level): (r: Parsed<Expr>)
    requires lvl < 3
    ensures r.Got? ==> |r.rest| <= |ts|
    decreases |ts|, 2
  {
    if ts == [] || ts[0] != Operator(lvl) then Got(left, ts)
    else match ParseLevel(ts[1..], lvl + 1)
      case Fail => Fail
      case Got(right, rest) => ParseLoop(Join(lvl, left, right), rest, lvl)
  }

  /** `Parser.parse`: the whole token list, or an error. */
  function Parse(ts: seq<Token>): Option<Expr> {
    if ts == [] then None
    else match ParseLevel(ts, 0)
      case Fail => None
      case Got(e, rest) => if rest == [] then Some(e) else None
  }

  // ------------------------------------------------------------------ soundness

  lemma {:induction false} TagToksCons(tag: string, more: seq<string>)
    ensures TagToks([tag] + more) == [At, Name(tag)] + TagToks(more)
  {
    assert ([tag] + more)[1..] == more;
  }

  lemma {:induction false} TagsSound(ts: seq<Token>)
    ensures var p := ParseTags(ts); p.Got? ==> ts == TagToks(p.out) + p.rest
  {
    if ts != [] && ts[0] == At && |ts| >= 2 && ts[1].Name? && ParseTags(ts[2..]).Got? {
      var p := ParseTags(ts[2..]);
      assert ParseTags(ts) == Got([ts[1].v] + p.out, p.rest);
      TagsSound(ts[2..]);
      TagToksCons(ts[1].v, p.out);
      ConcatAssociative([At, Name(ts[1].v)], TagToks(p.out), p.rest);
      assert ts == [At, Name(ts[1].v)] + ts[2..];
    }
  }

  lemma {:induction false} AtomSound(ts: seq<Token>)
    ensures var p := ParseAtom(ts); p.Got? ==> Derives(3, p.out) && ts == Toks(p.out) + p.rest
    decreases |ts|, 0
  {
    if ParseAtom(ts).Got? {
      assert ts == [ts[0]] + ts[1..];
      if ts[0].Name? {
        TagsSound(ts[1..]);
        var p := ParseTags(ts[1..]);
        ConcatAssociative([ts[0]], TagToks(p.out), p.rest);
      } else {
        LevelSound(ts[1..], 0);
        var p := ParseLevel(ts[1..], 0);
        GroupToks(p.out, p.rest);
      }
    }
  }

  lemma {:induction false} GroupToks(e: Expr, rest: seq<Token>)
    requires rest != [] && rest[0] == RBracket
    ensures [LBracket] + (Toks(e) + rest) == Toks(Group(e)) + rest[1..]
  {
    assert rest == [RBracket] + rest[1..];
    assert [LBracket] + (Toks(e) + ([RBracket] + rest[1..])) == [LBracket] + Toks(e) + [RBracket] + rest[1..];
  }

  lemma {:induction false} LevelSound(ts: seq<Token>, lvl: Level)
    ensures var p := ParseLevel(ts, lvl); p.Got? ==> Derives(lvl, p.out) && ts == Toks(p.out) + p.rest
    decreases |ts|, 1, 3 - lvl
  {
    if lvl == 3 {
      AtomSound(ts);
    } else {
      LevelSound(ts, lvl + 1);
      var p := ParseLevel(ts, lvl + 1);
      if p.Got? {
        DerivesLooser(lvl, p.out);
        LoopSound(p.out, p.rest, lvl);
      }
    }
  }

  /** A tighter nonterminal's sentences are sentences of the looser one. */
  lemma DerivesLooser(lvl: Level, e: Expr)
    requires lvl < 3 && Derives(lvl + 1, e)
    ensures Derives(lvl, e)
  {
  }

  lemma JoinToks(lvl: Level, l: Expr, r: Expr, rest: seq<Token>)
    requires lvl < 3
    ensures Toks(Join(lvl, l, r)) + rest == Toks(l) + ([Operator(lvl)] + (Toks(r) + rest))
  {
    assert Toks(Join(lvl, l, r)) == Toks(l) + [Operator(lvl)] + Toks(r);
  }

  lemma {:induction false} LoopSound(left: Expr, ts: seq<Token>, lvl: Level)
    requires lvl < 3 && Derives(lvl, left)
    ensures var p := ParseLoop(left, ts, lvl);
      p.Got? ==> Derives(lvl, p.out) && Toks(left) + ts == Toks(p.out) + p.rest
    decreases |ts|, 2
  {
    if ts != [] && ts[0] == Operator(lvl) && ParseLevel(ts[1..], lvl + 1).Got? {
      LevelSound(ts[1..], lvl + 1);
      var p := ParseLevel(ts[1..], lvl + 1);
      LoopSound(Join(lvl, left, p.out), p.rest, lvl);
      JoinToks(lvl, left, p.out, p.rest);
      assert ts == [Operator(lvl)] + ts[1..];
    }
  }

  // ------------------------------------------------------------------ completeness

  /** A continuation that cannot extend an expression of the level: it starts with neither
      a tag nor an operator that binds more tightly. */
  predicate Follows(lvl: Level, rest: seq<Token>) {
    rest == [] || (rest[0] != At && (lvl < 2 ==> rest[0] != Gt) && (lvl < 1 ==> rest[0] != Amp))
  }

  lemma {:induction false} ParseOneTag(tag: string, ts: seq<Token>, more: seq<string>, rest: seq<Token>)
    requires ParseTags(ts) == Got(more, rest)
    ensures ParseTags([At, Name(tag)] + ts) == Got([tag] + more, rest)
  {
    assert ([At, Name(tag)] + ts)[2..] == ts;
  }

  lemma {:induction false} TagsComplete(tags: seq<string>, rest: seq<Token>)
    requires rest == [] || rest[0] != At
    ensures ParseTags(TagToks(tags) + rest) == Got(tags, rest)
  {
    if tags == [] {
      assert TagToks(tags) + rest == rest;
    } else {
      TagsComplete(tags[1..], rest);
      ParseOneTag(tags[0], TagToks(tags[1..]) + rest, tags[1..], rest);
      ConcatAssociative([At, Name(tags[0])], TagToks(tags[1..]), rest);
      assert [tags[0]] + tags[1..] == tags;
    }
  }

  lemma {:induction false} AtomComplete(e: Expr, rest: seq<Token>)
    requires (e.Leaf? || e.Group?) && Derives(3, e) && Follows(3, rest)
    ensures ParseAtom(Toks(e) + rest) == Got(e, rest)
    decreases e, 0
  {
    var ts := Toks(e) + rest;
    match e
    case Leaf(h, tags) =>
      TagsComplete(tags, rest);
      assert ts[1..] == TagToks(tags) + rest;
    case Group(i) =>
      var after := [RBracket] + rest;
      assert ts[1..] == Toks(i) + after;
      assert after[1..] == rest;
      LevelComplete(0, i, after);
  }

  /** Parsing at a level consumes the expression and hands the continuation to the loop. */
  lemma {:induction false} LevelComplete(lvl: Level, e: Expr, rest: seq<Token>)
    requires Derives(lvl, e) && Follows(lvl, rest)
    ensures lvl < 3 ==> ParseLevel(Toks(e) + rest, lvl) == ParseLoop(e, rest, lvl)
    ensures lvl == 3 ==> ParseLevel(Toks(e) + rest, lvl) == Got(e, rest)
    decreases e, 1, 3 - lvl
  {
    if lvl == 3 {
      AtomComplete(e, rest);
    } else if Derives(lvl + 1, e) {
      if lvl == 2 {
        LevelComplete(3, e, rest);
      } else if rest == [] || rest[0] != Operator(lvl + 1) {
        LevelComplete(lvl + 1, e, rest);
      }
    } else {
      JoinComplete(lvl, e, rest);
    }
  }

  lemma {:induction false} JoinComplete(lvl: Level, e: Expr, rest: seq<Token>)
    requires lvl < 3 && Derives(lvl, e) && !Derives(lvl + 1, e) && Follows(lvl, rest)
    ensures ParseLevel(Toks(e) + rest, lvl) == ParseLoop(e, rest, lvl)
    decreases e, 0
  {
    var l, r, op := e.left, e.right, Operator(lvl);
    assert e == Join(lvl, l, r);
    var after := [op] + (Toks(r) + rest);
    assert Toks(e) + rest == Toks(l) + after;
    LevelComplete(lvl, l, after);
    LevelComplete(lvl + 1, r, rest);
    LoopTakes(lvl, l, r, rest);
  }

  /** The loop reads one operator and its right operand. */
  lemma {:induction false} LoopTakes(lvl: Level, l: Expr, r: Expr, rest: seq<Token>)
    requires lvl < 3 && Follows(lvl, rest)
    requires lvl < 2 ==> ParseLevel(Toks(r) + rest, lvl + 1) == ParseLoop(r, rest, lvl + 1)
    requires lvl == 2 ==> ParseLevel(Toks(r) + rest, 3) == Got(r, rest)
    ensures ParseLoop(l, [Operator(lvl)] + (Toks(r) + rest), lvl) == ParseLoop(Join(lvl, l, r), rest, lvl)
  {
    var after := [Operator(lvl)] + (Toks(r) + rest);
    assert after[1..] == Toks(r) + rest;
    assert lvl < 2 ==> ParseLoop(r, rest, lvl + 1) == Got(r, rest);
  }

  /** The parser accepts exactly the sentences of the grammar, and each has one tree. */
  lemma ParserExact(ts: seq<Token>, e: Expr)
    ensures Parse(ts) == Some(e) <==> Derives(0, e) && Toks(e) == ts
  {
    LevelSound(ts, 0);
    if Parse(ts) == Some(e) {
      assert ts == Toks(e) + [];
    }
    if Derives(0, e) && Toks(e) == ts {
      LevelComplete(0, e, []);
      assert Toks(e) + [] == ts;
    }
  }

  // ------------------------------------------------------------------ acceptance as a scan

  /** Where a left-to-right reader stands: before an operand, just after a handle and its
      tags, after a closing bracket, or after an `@`. */
  datatype Reading = Operand | AfterHandle | AfterGroup | TagName

  /** One-pass recognizer with a bracket counter: it never looks at which operator it sees. */
  predicate Scan(ts: seq<Token>, at: Reading, depth: nat) {
    var expectsName := at == Operand || at == TagName;
    if ts == [] then !expectsName && depth == 0
    else match ts[0]
      case Name(_) => expectsName && Scan(ts[1..], AfterHandle, depth)
      case LBracket => at == Operand && Scan(ts[1..], Operand, depth + 1)
      case At => at == AfterHandle && Scan(ts[1..], TagName, depth)
      case RBracket => !expectsName && depth > 0 && Scan(ts[1..], AfterGroup, depth - 1)
      case _ => !expectsName && Scan(ts[1..], Operand, depth)
  }

  lemma {:induction false} ScanTags(tags: seq<string>, rest: seq<Token>, depth: nat)
    ensures Scan(TagToks(tags) + rest, AfterHandle, depth) == Scan(rest, AfterHandle, depth)
  {
    if tags == [] {
      assert TagToks(tags) + rest == rest;
    } else {
      var ts := TagToks(tags) + rest;
      ScanTags(tags[1..], rest, depth);
      assert ts[1..][1..] == TagToks(tags[1..]) + rest;
      assert Scan(ts, AfterHandle, depth) == Scan(ts[1..], TagName, depth);
    }
  }

  /** Reading a tree's sentence leaves the reader after an operand. */
  lemma {:induction false} ScanExpr(e: Expr, rest: seq<Token>, depth: nat)
    requires rest == [] || rest[0] != At
    ensures Scan(Toks(e) + rest, Operand, depth) == Scan(rest, AfterHandle, depth)
    ensures Scan(rest, AfterHandle, depth) == Scan(rest, AfterGroup, depth)
    decreases e, 1
  {
    var ts := Toks(e) + rest;
    match e
    case Leaf(h, tags) =>
      assert ts[1..] == TagToks(tags) + rest;
      ScanTags(tags, rest, depth);
    case Group(i) =>
      assert ts[1..] == Toks(i) + ([RBracket] + rest);
      assert ([RBracket] + rest)[1..] == rest;
      ScanExpr(i, [RBracket] + rest, depth + 1);
    case _ => ScanJoin(e, rest, depth);
  }

  lemma {:induction false} ScanJoin(e: Expr, rest: seq<Token>, depth: nat)
    requires (rest == [] || rest[0] != At) && (e.Seq? || e.And? || e.Or?)
    ensures Scan(Toks(e) + rest, Operand, depth) == Scan(rest, AfterHandle, depth)
    decreases e, 0
  {
    var lvl := LevelOf(e);
    var after := [Operator(lvl)] + (Toks(e.right) + rest);
    JoinToks(lvl, e.left, e.right, rest);
    assert after[1..] == Toks(e.right) + rest;
    ScanExpr(e.left, after, depth);
    ScanExpr(e.right, rest, depth);
  }

  /** A continuation at which the parser's level `lvl` stops inside a readable text. */
  predicate Stops(lvl: Level, rest: seq<Token>, depth: nat) {
    && (rest == [] || (rest[0] != At && !rest[0].Name? && rest[0] != LBracket))
    && (rest != [] && lvl <= 2 ==> rest[0] != Gt)
    && (rest != [] && lvl <= 1 ==> rest[0] != Amp)
    && (rest != [] && lvl == 0 ==> rest[0] != Bar)
    && Scan(rest, AfterGroup, depth)
  }

  lemma {:induction false} ReadTags(ts: seq<Token>, depth: nat)
    requires Scan(ts, AfterHandle, depth)
    ensures ParseTags(ts).Got? && Stops(3, ParseTags(ts).rest, depth)
  {
    if ts != [] && ts[0] == At {
      ReadTags(ts[2..], depth);
      assert ts[1..][1..] == ts[2..];
    }
  }

  lemma {:induction false} ReadLevel(ts: seq<Token>, lvl: Level, depth: nat)
    requires Scan(ts, Operand, depth)
    ensures ParseLevel(ts, lvl).Got? && Stops(lvl, ParseLevel(ts, lvl).rest, depth)
    decreases |ts|, 1, 3 - lvl
  {
    if lvl < 3 {
      ReadLevel(ts, lvl + 1, depth);
      ReadLoop(ParseLevel(ts, lvl + 1).out, ParseLevel(ts, lvl + 1).rest, lvl, depth);
    } else if ts[0].Name? {
      ReadTags(ts[1..], depth);
    } else {
      ReadLevel(ts[1..], 0, depth + 1);
      var close := ParseLevel(ts[1..], 0).rest;
      assert close[0] == RBracket && Scan(close[1..], AfterGroup, depth);
      assert ts[1..][0] == ts[1];
    }
  }

  lemma {:induction false} ReadLoop(left: Expr, ts: seq<Token>, lvl: Level, depth: nat)
    requires lvl < 3 && Stops(lvl + 1, ts, depth)
    ensures ParseLoop(left, ts, lvl).Got? && Stops(lvl, ParseLoop(left, ts, lvl).rest, depth)
    decreases |ts|, 2
  {
    if ts != [] && ts[0] == Operator(lvl) {
      ReadLevel(ts[1..], lvl + 1, depth);
      var p := ParseLevel(ts[1..], lvl + 1);
      ReadLoop(Join(lvl, left, p.out), p.rest, lvl, depth);
    }
  }

  /** The four-level parser accepts a token list exactly when the one-pass bracket-counting
      reader does. */
  lemma AcceptsIffScans(ts: seq<Token>)
    ensures Parse(ts).Some? <==> Scan(ts, Operand, 0)
  {
    if Parse(ts).Some? {
      var e := Parse(ts).value;
      ParserExact(ts, e);
      ScanExpr(e, [], 0);
      assert Toks(e) + [] == ts;
    }
    if Scan(ts, Operand, 0) {
      ReadLevel(ts, 0, 0);
    }
  }

  // ------------------------------------------------------------------ printing any tree

  /** The loosest level at which the tree's top operator may stand. */
  function LevelOf(e: Expr): Level {
    match e
    case Or(_, _) => 0
    case And(_, _) => 1
    case Seq(_, _) => 2
    case _ => 3
  }

  /** Insert the brackets that precedence and left-associativity require, and no others. */
  function Bracket(lvl: Level, e: Expr): (b: Expr)
    ensures Derives(lvl, b)
    decreases e, if LevelOf(e) < lvl then 1 else 0
  {
    if LevelOf(e) < lvl then Group(Bracket(0, e))
    else match e
      case Leaf(_, _) => e
      case Group(i) => Group(Bracket(0, i))
      case Seq(l, r) => Seq(Bracket(2, l), Bracket(3, r))
      case And(l, r) => And(Bracket(1, l), Bracket(2, r))
      case Or(l, r) => Or(Bracket(0, l), Bracket(1, r))
  }

  ghost predicate HandlesLegal(e: Expr) {
    match e
    case Leaf(h, tags) => IsHandle(h) && forall i :: 0 <= i < |tags| ==> IsHandle(tags[i])
    case Group(i) => HandlesLegal(i)
    case _ => HandlesLegal(e.left) && HandlesLegal(e.right)
  }

  lemma {:induction false} ToksNamesLegal(e: Expr)
    requires HandlesLegal(e)
    ensures NamesAreHandles(Toks(e))
  {
    match e
    case Leaf(h, tags) => TagNamesLegal(tags);
    case Group(i) => ToksNamesLegal(i);
    case _ =>
      ToksNamesLegal(e.left);
      ToksNamesLegal(e.right);
  }

  lemma {:induction false} TagNamesLegal(tags: seq<string>)
    requires forall i :: 0 <= i < |tags| ==> IsHandle(tags[i])
    ensures NamesAreHandles(TagToks(tags))
  {
    if tags != [] { TagNamesLegal(tags[1..]); }
  }

  lemma {:induction false} BracketHandlesLegal(lvl: Level, e: Expr)
    requires HandlesLegal(e)
    ensures HandlesLegal(Bracket(lvl, e))
    decreases e, if LevelOf(e) < lvl then 1 else 0
  {
    if LevelOf(e) < lvl {
      BracketHandlesLegal(0, e);
    } else {
      match e
      case Leaf(_, _) =>
      case Group(i) => BracketHandlesLegal(0, i);
      case Seq(l, r) => BracketHandlesLegal(2, l); BracketHandlesLegal(3, r);
      case And(l, r) => BracketHandlesLegal(1, l); BracketHandlesLegal(2, r);
      case Or(l, r) => BracketHandlesLegal(0, l); BracketHandlesLegal(1, r);
    }
  }

  /** `text` is a way of writing `e`: its minimally bracketed sentence with any white space. */
  ghost predicate Writes(text: string, e: Expr) {
    var ts := Toks(Bracket(0, e));
    exists gaps :: LegalGaps(ts, gaps) && Render(ts, gaps) == text
  }

  /** Printing any tree, then tokenizing and parsing, recovers the tree (with the brackets
      the printer had to insert). */
  lemma ParseOfPrint(text: string, e: Expr)
    requires HandlesLegal(e) && Writes(text, e)
    ensures Lex(text).Some? && Parse(Lex(text).value) == Some(Bracket(0, e))
  {
    var b := Bracket(0, e);
    var gaps :| LegalGaps(Toks(b), gaps) && Render(Toks(b), gaps) == text;
    BracketHandlesLegal(0, e);
    ToksNamesLegal(b);
    LexOfRender(Toks(b), gaps);
    ParserExact(Toks(b), b);
  }
}
