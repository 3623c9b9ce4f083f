/** The Chains string DSL: characters, tokens, and the tokenizer. A token's source position only feeds error
    text, so tokens do not carry one. */
module ChainSyntax {
  import opened Lists

  datatype Token = Name(v: string) | Gt | Amp | Bar | LBracket | RBracket | At

  // ------------------------------------------------------------------ characters

  predicate IsSpace(c: char) {
    c == ' ' || c == '\t' || c == '\n' || c == '\r'
  }

  predicate IsHandleStart(c: char) {
    'A' <= c <= 'Z' || 'a' <= c <= 'z' || c == '_'
  }

  predicate IsHandleRest(c: char) {
    IsHandleStart(c) || '0' <= c <= '9' || c == '-'
  }

  /** handle := [A-Za-z_][A-Za-z0-9_-]* */
  predicate IsHandle(s: string) {
    s != "" && IsHandleStart(s[0]) && forall i :: 0 <= i < |s| ==> IsHandleRest(s[i])
  }

  function OpToken(c: char): Option<Token> {
    if c == '>' then Some(Gt) else if c == '&' then Some(Amp) else if c == '|' then Some(Bar)
    else if c == '[' then Some(LBracket) else if c == ']' then Some(RBracket)
    else if c == '@' then Some(At) else None
  }

  // ------------------------------------------------------------------ text of a token list

  predicate AllSpace(s: string) {
    forall i :: 0 <= i < |s| ==> IsSpace(s[i])
  }

  function TokenText(t: Token): string {
    match t
    case Name(v) => v
    case Gt => ">"
    case Amp => "&"
    case Bar => "|"
    case LBracket => "["
    case RBracket => "]"
    case At => "@"
  }

  /** `gaps[i]` is the white space before token `i`, the last gap the trailing one. White
      space is optional everywhere except between two adjacent names. */
  ghost predicate LegalGaps(ts: seq<Token>, gaps: seq<string>) {
    && |gaps| == |ts| + 1
    && (forall i :: 0 <= i < |gaps| ==> AllSpace(gaps[i]))
    && (forall i :: 0 <= i < |ts| - 1 && ts[i].Name? && ts[i + 1].Name? ==> gaps[i + 1] != "")
  }

  ghost predicate NamesAreHandles(ts: seq<Token>) {
    forall i :: 0 <= i < |ts| && ts[i].Name? ==> IsHandle(ts[i].v)
  }

  /** The token list written out with the given gaps. */
  function Render(ts: seq<Token>, gaps: seq<string>): string
    requires |gaps| == |ts| + 1
  {
    if ts == [] then gaps[0] else gaps[0] + TokenText(ts[0]) + Render(ts[1..], gaps[1..])
  }

  // ------------------------------------------------------------------ the tokenizer

  /** The length of the longest run of handle characters at the front. */
  function RunLength(s: string): (n: nat)
    ensures n <= |s|
    ensures forall i :: 0 <= i < n ==> IsHandleRest(s[i])
    ensures n < |s| ==> !IsHandleRest(s[n])
  {
    if s == "" || !IsHandleRest(s[0]) then 0 else 1 + RunLength(s[1..])
  }

  /** What `tokenize` computes; `None` is its `ChainParseError`. */
  function Lex(s: string): Option<seq<Token>>
    decreases |s|
  {
    if s == "" then Some([])
    else if IsSpace(s[0]) then Lex(s[1..])
    else match OpToken(s[0])
      case Some(op) => Cons(op, Lex(s[1..]))
      case None =>
        if !IsHandleStart(s[0]) then None
        else
          var n := RunLength(s);
          assert n > 0;
          Cons(Name(s[..n]), Lex(s[n..]))
  }

  function Cons(t: Token, rest: Option<seq<Token>>): Option<seq<Token>> {
    match rest
    case None => None
    case Some(ts) => Some([t] + ts)
  }

  function Prepend(ts: seq<Token>, rest: Option<seq<Token>>): Option<seq<Token>> {
    match rest
    case None => None
    case Some(us) => Some(ts + us)
  }

  lemma PrependSnoc(ts: seq<Token>, t: Token, rest: Option<seq<Token>>)
    ensures Prepend(ts, Cons(t, rest)) == Prepend(ts + [t], rest)
  {
    if rest.Some? {
      assert ts + ([t] + rest.value) == (ts + [t]) + rest.value;
    }
  }

  lemma RunLengthUnique(s: string, n: nat)
    requires n <= |s| && (forall i :: 0 <= i < n ==> IsHandleRest(s[i]))
    requires n < |s| ==> !IsHandleRest(s[n])
    ensures RunLength(s) == n
  {
  }

  // One step of the scan at position `i`.
  lemma LexAtSpace(expr: string, i: nat)
    requires i < |expr| && IsSpace(expr[i])
    ensures Lex(expr[i..]) == Lex(expr[i + 1..])
  {
    assert expr[i..][1..] == expr[i + 1..];
  }

  lemma LexAtSymbol(expr: string, i: nat)
    requires i < |expr| && !IsSpace(expr[i]) && OpToken(expr[i]).Some?
    ensures Lex(expr[i..]) == Cons(OpToken(expr[i]).value, Lex(expr[i + 1..]))
  {
    assert expr[i..][1..] == expr[i + 1..];
  }

  lemma LexAtName(expr: string, i: nat, end: nat)
    requires i < end <= |expr| && !IsSpace(expr[i]) && OpToken(expr[i]).None? && IsHandleStart(expr[i])
    requires (forall k :: i <= k < end ==> IsHandleRest(expr[k])) && (end < |expr| ==> !IsHandleRest(expr[end]))
    ensures Lex(expr[i..]) == Cons(Name(expr[i..end]), Lex(expr[end..]))
  {
    var rest := expr[i..];
    RunLengthUnique(rest, end - i);
    assert rest[..end - i] == expr[i..end] && rest[end - i..] == expr[end..];
  }

  /** `tokenize`. */
  method Tokenize(expr: string) returns (r: Option<seq<Token>>)
    ensures r == Lex(expr)
  {
    var toks: seq<Token> := [];
    var i := 0;
    assert expr[0..] == expr;
    PrependNothing(Lex(expr));
    while i < |expr|
      invariant 0 <= i <= |expr|
      invariant Lex(expr) == Prepend(toks, Lex(expr[i..]))
    {
      var c := expr[i];
      if IsSpace(c) {
        LexAtSpace(expr, i);
        i := i + 1;
        continue;
      }
      var op := OpToken(c);
      if op.Some? {
        LexAtSymbol(expr, i);
        PrependSnoc(toks, op.value, Lex(expr[i + 1..]));
        toks := toks + [op.value];
        i := i + 1;
        continue;
      }
      if IsHandleStart(c) {
        var start := i;
        i := i + 1;
        while i < |expr| && IsHandleRest(expr[i])
          invariant start < i <= |expr|
          invariant forall k :: start <= k < i ==> IsHandleRest(expr[k])
        {
          i := i + 1;
        }
        LexAtName(expr, start, i);
        PrependSnoc(toks, Name(expr[start..i]), Lex(expr[i..]));
        toks := toks + [Name(expr[start..i])];
        continue;
      }
      return None;
    }
    assert expr[i..] == "" && toks + [] == toks;
    return Some(toks);
  }

  lemma PrependNothing(rest: Option<seq<Token>>)
    ensures Prepend([], rest) == rest
  {
    if rest.Some? { assert [] + rest.value == rest.value; }
  }

  // ------------------------------------------------------------------ tokenizer theorem

  lemma {:induction false} LexSkipsSpace(gap: string, s: string)
    requires AllSpace(gap)
    ensures Lex(gap + s) == Lex(s)
  {
    if gap == "" {
      assert gap + s == s;
    } else {
      LexSkipsSpace(gap[1..], s);
      assert (gap + s)[1..] == gap[1..] + s;
      assert IsSpace((gap + s)[0]);
    }
  }

  lemma LexName(v: string, s: string)
    requires IsHandle(v) && (s == "" || !IsHandleRest(s[0]))
    ensures Lex(v + s) == Cons(Name(v), Lex(s))
  {
    var text := v + s;
    RunLengthUnique(text, |v|);
    assert text[0] == v[0] && text[..|v|] == v && text[|v|..] == s;
    assert IsHandleStart(text[0]);
  }

  lemma SymbolText(t: Token)
    requires !t.Name?
    ensures |TokenText(t)| == 1 && !IsSpace(TokenText(t)[0]) && OpToken(TokenText(t)[0]) == Some(t)
  {
  }

  lemma LexSymbol(c: char, t: Token, s: string)
    requires !IsSpace(c) && OpToken(c) == Some(t)
    ensures Lex([c] + s) == Cons(t, Lex(s))
  {
    assert ([c] + s)[1..] == s;
  }

  lemma LexToken(t: Token, s: string)
    requires t.Name? ==> IsHandle(t.v) && (s == "" || !IsHandleRest(s[0]))
    ensures Lex(TokenText(t) + s) == Cons(t, Lex(s))
  {
    if t.Name? {
      LexName(t.v, s);
    } else {
      SymbolText(t);
      var c := TokenText(t)[0];
      LexSymbol(c, t, s);
      assert TokenText(t) == [c];
    }
  }

  /** What follows a rendered name never extends it. */
  lemma RenderHead(ts: seq<Token>, gaps: seq<string>)
    requires |gaps| == |ts| + 1 && AllSpace(gaps[0])
    requires ts != [] && ts[0].Name? ==> gaps[0] != ""
    ensures var s := Render(ts, gaps); s == "" || !IsHandleRest(s[0])
  {
    var s := Render(ts, gaps);
    if gaps[0] != "" {
      assert s[0] == gaps[0][0];
    } else if ts != [] {
      assert s[0] == TokenText(ts[0])[0];
    }
  }

  lemma RestLegal(ts: seq<Token>, gaps: seq<string>)
    requires ts != [] && LegalGaps(ts, gaps) && NamesAreHandles(ts)
    ensures LegalGaps(ts[1..], gaps[1..]) && NamesAreHandles(ts[1..])
    ensures ts[0].Name? ==> IsHandle(ts[0].v)
    ensures ts[0].Name? && |ts| > 1 && ts[1].Name? ==> gaps[1] != ""
  {
    assert forall i :: 0 <= i < |gaps[1..]| ==> gaps[1..][i] == gaps[i + 1];
    if ts[0].Name? && |ts| > 1 && ts[1].Name? { assert gaps[0 + 1] != ""; }
  }

  lemma LexStep(gap: string, t: Token, rest: string, more: seq<Token>)
    requires AllSpace(gap) && Lex(rest) == Some(more)
    requires t.Name? ==> IsHandle(t.v) && (rest == "" || !IsHandleRest(rest[0]))
    ensures Lex(gap + TokenText(t) + rest) == Some([t] + more)
  {
    LexToken(t, rest);
    LexSkipsSpace(gap, TokenText(t) + rest);
    ConcatAssociative(gap, TokenText(t), rest);
  }

  /** Printing then tokenizing gives the tokens back, for every legal choice of gaps. */
  lemma {:induction false} LexOfRender(ts: seq<Token>, gaps: seq<string>)
    requires LegalGaps(ts, gaps) && NamesAreHandles(ts)
    ensures Lex(Render(ts, gaps)) == Some(ts)
  {
    if ts == [] {
      LexSkipsSpace(gaps[0], "");
      assert gaps[0] + "" == gaps[0];
    } else {
      RestLegal(ts, gaps);
      LexOfRender(ts[1..], gaps[1..]);
      if ts[0].Name? { RenderHead(ts[1..], gaps[1..]); }
      LexStep(gaps[0], ts[0], Render(ts[1..], gaps[1..]), ts[1..]);
      assert [ts[0]] + ts[1..] == ts;
    }
  }

  /** A space may be put in front of a printing. */
  lemma RenderAfterSpace(c: char, ts: seq<Token>, g: seq<string>)
    requires IsSpace(c) && LegalGaps(ts, g)
    ensures var gaps := [[c] + g[0]] + g[1..];
      LegalGaps(ts, gaps) && Render(ts, gaps) == [c] + Render(ts, g)
  {
    var gaps := [[c] + g[0]] + g[1..];
    assert gaps[1..] == g[1..];
    assert forall i :: 1 <= i < |gaps| ==> gaps[i] == g[i];
    assert AllSpace([c] + g[0]);
    if ts != [] {
      assert [c] + (g[0] + TokenText(ts[0]) + Render(ts[1..], g[1..]))
          == ([c] + g[0]) + TokenText(ts[0]) + Render(ts[1..], g[1..]);
    }
  }

  /** A token may be put in front of a printing unless it is a name that would run on. */
  lemma RenderAfterToken(t: Token, ts: seq<Token>, g: seq<string>)
    requires LegalGaps(ts, g) && NamesAreHandles(ts)
    requires t.Name? ==> IsHandle(t.v) && var s := Render(ts, g); s == "" || !IsHandleRest(s[0])
    ensures LegalGaps([t] + ts, [""] + g) && NamesAreHandles([t] + ts)
    ensures Render([t] + ts, [""] + g) == TokenText(t) + Render(ts, g)
  {
    var us, gaps := [t] + ts, [""] + g;
    assert us[1..] == ts && gaps[1..] == g;
    assert forall i :: 1 <= i < |us| ==> us[i] == ts[i - 1];
    assert forall i :: 1 <= i < |gaps| ==> gaps[i] == g[i - 1];
    assert us != ts;
    if ts != [] && ts[0].Name? && g[0] == "" {
      assert Render(ts, g)[0] == ts[0].v[0];
    }
  }

  /** One step of the scan on text that starts with a token. */
  lemma LexSplit(s: string) returns (t: Token, n: nat)
    requires Lex(s).Some? && s != "" && !IsSpace(s[0])
    ensures 0 < n <= |s| && TokenText(t) == s[..n] && Lex(s) == Cons(t, Lex(s[n..]))
    ensures t.Name? ==> IsHandle(t.v) && (n < |s| ==> !IsHandleRest(s[n]))
  {
    if OpToken(s[0]).Some? {
      t, n := OpToken(s[0]).value, 1;
    } else {
      n := RunLength(s);
      t := Name(s[..n]);
    }
  }

  /** Tokenizing succeeds only on text that is such a printing of its result. */
  lemma {:induction false} RenderOfLex(s: string) returns (gaps: seq<string>)
    requires Lex(s).Some?
    ensures LegalGaps(Lex(s).value, gaps) && NamesAreHandles(Lex(s).value)
    ensures Render(Lex(s).value, gaps) == s
    decreases |s|
  {
    if s == "" {
      gaps := [""];
    } else if IsSpace(s[0]) {
      var g := RenderOfLex(s[1..]);
      RenderAfterSpace(s[0], Lex(s).value, g);
      gaps := [[s[0]] + g[0]] + g[1..];
      assert s == [s[0]] + s[1..];
    } else {
      var t, n := LexSplit(s);
      var g := RenderOfLex(s[n..]);
      RenderAfterToken(t, Lex(s[n..]).value, g);
      gaps := [""] + g;
      assert s == s[..n] + s[n..];
    }
  }

  /** `tokenize` accepts exactly the printings of token lists, and returns the list. */
  lemma TokenizerExact(s: string, ts: seq<Token>)
    ensures Lex(s) == Some(ts) <==>
      exists gaps :: LegalGaps(ts, gaps) && NamesAreHandles(ts) && Render(ts, gaps) == s
  {
    if Lex(s) == Some(ts) {
      var gaps := RenderOfLex(s);
    }
    forall gaps | LegalGaps(ts, gaps) && NamesAreHandles(ts) && Render(ts, gaps) == s
      ensures Lex(s) == Some(ts)
    {
      LexOfRender(ts, gaps);
    }
  }
}
