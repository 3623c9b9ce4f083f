/** For an expression that uses each handle once, the lowered graph is the series-parallel
    order of the expression: one node reaches another exactly when their lowest common
    operator is `>` with the first on its left. */
module SeriesParallel {
  import opened Lists
  import opened ChainGrammar
  import opened ChainMeaning
  import opened Graph

  function Handles(e: Expr): seq<string> {
    Mean(e).handles
  }

  /** The lowest operator above both `x` and `y` is `>`, with `x` on its left and `y` on its
      right. */
  predicate Before(e: Expr, x: string, y: string) {
    match e
    case Leaf(_, _) => false
    case Group(i) => Before(i, x, y)
    case _ =>
      var l, r := e.left, e.right;
      if x in Handles(l) && y in Handles(l) then Before(l, x, y)
      else if x in Handles(r) && y in Handles(r) then Before(r, x, y)
      else e.Seq? && x in Handles(l) && y in Handles(r)
  }

  ghost predicate Reaches(edges: seq<Edge>, x: string, y: string) {
    exists w :: |w| > 1 && Walk(edges, w) && w[0] == x && w[|w| - 1] == y
  }

  /** Each handle is used once. */
  ghost predicate Linear(e: Expr) {
    Distinct(Handles(e))
  }

  lemma {:induction false} LinearParts(e: Expr)
    requires Linear(e) && (e.Seq? || e.And? || e.Or?)
    ensures Linear(e.left) && Linear(e.right)
    ensures forall x :: x in Handles(e) <==> x in Handles(e.left) || x in Handles(e.right)
    ensures forall x :: x in Handles(e.left) ==> x !in Handles(e.right)
  {
    var a, b := Handles(e.left), Handles(e.right);
    assert Handles(e) == a + b;
    DistinctConcat(a, b);
  }

  // ------------------------------------------------------------------ walks

  lemma {:induction false} WalkMore<T>(edges: seq<(T, T)>, more: seq<(T, T)>, w: seq<T>)
    requires Walk(edges, w) && forall e :: e in edges ==> e in more
    ensures Walk(more, w)
  {
    if |w| > 1 { WalkMore(edges, more, w[1..]); }
  }

  lemma {:induction false} WalkConcat<T>(edges: seq<(T, T)>, a: seq<T>, b: seq<T>)
    requires Walk(edges, a) && Walk(edges, b) && (a[|a| - 1], b[0]) in edges
    ensures Walk(edges, a + b)
  {
    if |a| == 1 {
      assert (a + b)[1..] == b;
    } else {
      WalkConcat(edges, a[1..], b);
      assert (a + b)[1..] == a[1..] + b;
    }
  }

  /** Every edge of an operand is an edge of the join. */
  lemma {:induction false} OperandEdges(e: Expr)
    requires e.Seq? || e.And? || e.Or?
    ensures forall d :: d in Mean(e.left).edges || d in Mean(e.right).edges ==> d in Mean(e).edges
    ensures e.Seq? ==> forall x, y :: x in Mean(e.left).exits && y in Mean(e.right).entries
                                 ==> (x, y) in Mean(e).edges
  {
    CrossElems(Mean(e.left).exits, Mean(e.right).entries);
  }

  predicate Binary(e: Expr) {
    e.Seq? || e.And? || e.Or?
  }

  lemma {:induction false} OperandWalk(e: Expr, w: seq<string>)
    requires Binary(e) && (Walk(Mean(e.left).edges, w) || Walk(Mean(e.right).edges, w))
    ensures Walk(Mean(e).edges, w)
  {
    OperandEdges(e);
    if Walk(Mean(e.left).edges, w) {
      WalkMore(Mean(e.left).edges, Mean(e).edges, w);
    } else {
      WalkMore(Mean(e.right).edges, Mean(e).edges, w);
    }
  }

  /** A walk to an exit of the left operand goes on at any entry of the right one. */
  lemma {:induction false} AcrossWalk(e: Expr, w: seq<string>, v: seq<string>)
    requires e.Seq? && Walk(Mean(e.left).edges, w) && Walk(Mean(e.right).edges, v)
    requires w[|w| - 1] in Mean(e.left).exits && v[0] in Mean(e.right).entries
    ensures Walk(Mean(e).edges, w + v)
  {
    OperandWalk(e, w);
    OperandWalk(e, v);
    OperandEdges(e);
    WalkConcat(Mean(e).edges, w, v);
  }

  lemma {:induction false} OperandExits(e: Expr, x: string)
    requires Binary(e) && (x in Mean(e.right).exits || (!e.Seq? && x in Mean(e.left).exits))
    ensures x in Mean(e).exits
  {
    if !e.Seq? { DedupElem(Mean(e.left).exits + Mean(e.right).exits); }
  }

  lemma {:induction false} OperandEntries(e: Expr, x: string)
    requires Binary(e) && (x in Mean(e.left).entries || (!e.Seq? && x in Mean(e.right).entries))
    ensures x in Mean(e).entries
  {
    if !e.Seq? { DedupElem(Mean(e.left).entries + Mean(e.right).entries); }
  }

  lemma {:induction false} OperandHandles(e: Expr, x: string)
    requires Binary(e) && x in Handles(e)
    ensures x in Handles(e.left) || x in Handles(e.right)
  {
  }

  /** A walk from `x` to an exit. */
  ghost predicate Leaves(e: Expr, x: string, w: seq<string>) {
    Walk(Mean(e).edges, w) && w[0] == x && w[|w| - 1] in Mean(e).exits
  }

  /** A walk from an entry to `y`. */
  ghost predicate Arrives(e: Expr, y: string, w: seq<string>) {
    Walk(Mean(e).edges, w) && w[0] in Mean(e).entries && w[|w| - 1] == y
  }

  lemma {:induction false} LeavesOperand(e: Expr, x: string, w: seq<string>)
    requires Binary(e) && (Leaves(e.right, x, w) || (!e.Seq? && Leaves(e.left, x, w)))
    ensures Leaves(e, x, w)
  {
    OperandWalk(e, w);
    OperandExits(e, w[|w| - 1]);
  }

  lemma {:induction false} ArrivesOperand(e: Expr, y: string, w: seq<string>)
    requires Binary(e) && (Arrives(e.left, y, w) || (!e.Seq? && Arrives(e.right, y, w)))
    ensures Arrives(e, y, w)
  {
    OperandWalk(e, w);
    OperandEntries(e, w[0]);
  }

  lemma {:induction false} LeavesAcross(e: Expr, x: string, w: seq<string>, y: string, v: seq<string>)
    requires e.Seq? && Leaves(e.left, x, w) && y in Mean(e.right).entries && Leaves(e.right, y, v)
    ensures Leaves(e, x, w + v)
  {
    AcrossWalk(e, w, v);
    OperandExits(e, v[|v| - 1]);
  }

  lemma {:induction false} ArrivesAcross(e: Expr, y: string, w: seq<string>, x: string, v: seq<string>)
    requires e.Seq? && Arrives(e.right, y, w) && x in Mean(e.left).exits && Arrives(e.left, x, v)
    ensures Arrives(e, y, v + w)
  {
    AcrossWalk(e, v, w);
    OperandEntries(e, v[0]);
  }

  lemma {:induction false} EndsAmongHandles(e: Expr) returns (x: string, y: string)
    ensures x in Mean(e).entries && x in Handles(e) && y in Mean(e).exits && y in Handles(e)
  {
    MeanWellFormed(e);
    x, y := Mean(e).entries[0], Mean(e).exits[0];
  }

  /** Every node leads to some exit. */
  lemma {:induction false} ToExit(e: Expr, x: string) returns (w: seq<string>)
    requires x in Handles(e)
    ensures Leaves(e, x, w)
  {
    if e.Leaf? {
      w := [x];
    } else if e.Group? {
      w := ToExit(e.inner, x);
    } else if x in Handles(e.right) {
      w := ToExit(e.right, x);
      LeavesOperand(e, x, w);
    } else {
      OperandHandles(e, x);
      w := ToExit(e.left, x);
      if e.Seq? {
        var y, _ := EndsAmongHandles(e.right);
        var v := ToExit(e.right, y);
        LeavesAcross(e, x, w, y, v);
        w := w + v;
      } else {
        LeavesOperand(e, x, w);
      }
    }
  }

  /** Every node is led to from some entry. */
  lemma {:induction false} FromEntry(e: Expr, y: string) returns (w: seq<string>)
    requires y in Handles(e)
    ensures Arrives(e, y, w)
  {
    if e.Leaf? {
      w := [y];
    } else if e.Group? {
      w := FromEntry(e.inner, y);
    } else if y in Handles(e.left) {
      w := FromEntry(e.left, y);
      ArrivesOperand(e, y, w);
    } else {
      OperandHandles(e, y);
      w := FromEntry(e.right, y);
      if e.Seq? {
        var _, x := EndsAmongHandles(e.left);
        var v := FromEntry(e.left, x);
        ArrivesAcross(e, y, w, x, v);
        w := v + w;
      } else {
        ArrivesOperand(e, y, w);
      }
    }
  }

  // ------------------------------------------------------------------ the theorem

  lemma {:induction false} BeforeReaches(e: Expr, x: string, y: string)
    requires Before(e, x, y)
    ensures Reaches(Mean(e).edges, x, y)
  {
    if e.Leaf? {
    } else if e.Group? {
      BeforeReaches(e.inner, x, y);
    } else {
      var l, r, all := e.left, e.right, Mean(e).edges;
      OperandEdges(e);
      if x in Handles(l) && y in Handles(l) {
        BeforeReaches(l, x, y);
        ReachesMore(Mean(l).edges, all, x, y);
      } else if x in Handles(r) && y in Handles(r) {
        BeforeReaches(r, x, y);
        ReachesMore(Mean(r).edges, all, x, y);
      } else {
        var a := ToExit(l, x);
        var b := FromEntry(r, y);
        WalkMore(Mean(l).edges, all, a);
        WalkMore(Mean(r).edges, all, b);
        WalkConcat(all, a, b);
        var w := a + b;
        assert w[0] == x && w[|w| - 1] == y;
      }
    }
  }

  lemma ReachesMore(edges: seq<Edge>, more: seq<Edge>, x: string, y: string)
    requires Reaches(edges, x, y) && forall e :: e in edges ==> e in more
    ensures Reaches(more, x, y)
  {
    var w :| |w| > 1 && Walk(edges, w) && w[0] == x && w[|w| - 1] == y;
    WalkMore(edges, more, w);
  }

  lemma {:induction false} EdgeBefore(e: Expr, x: string, y: string)
    requires Linear(e) && (x, y) in Mean(e).edges
    ensures Before(e, x, y)
  {
    if e.Leaf? {
    } else if e.Group? {
      EdgeBefore(e.inner, x, y);
    } else {
      var l, r := e.left, e.right;
      LinearParts(e);
      MeanWellFormed(l);
      MeanWellFormed(r);
      CrossElems(Mean(l).exits, Mean(r).entries);
      if (x, y) in Mean(l).edges {
        EdgeBefore(l, x, y);
      } else if (x, y) in Mean(r).edges {
        EdgeBefore(r, x, y);
      }
    }
  }

  lemma {:induction false} BeforeAmongHandles(e: Expr, x: string, y: string)
    requires Before(e, x, y)
    ensures x in Handles(e) && y in Handles(e)
  {
    if e.Leaf? {
    } else if e.Group? {
      BeforeAmongHandles(e.inner, x, y);
    } else {
      assert Handles(e) == Handles(e.left) + Handles(e.right);
    }
  }

  lemma {:induction false} BeforeTransitive(e: Expr, x: string, y: string, z: string)
    requires Linear(e) && Before(e, x, y) && Before(e, y, z)
    ensures Before(e, x, z)
  {
    if e.Leaf? {
    } else if e.Group? {
      BeforeTransitive(e.inner, x, y, z);
    } else {
      var l, r := e.left, e.right;
      LinearParts(e);
      if x in Handles(l) && y in Handles(l) && z in Handles(l) {
        BeforeTransitive(l, x, y, z);
      } else if x in Handles(r) && y in Handles(r) && z in Handles(r) {
        BeforeTransitive(r, x, y, z);
      }
    }
  }

  lemma {:induction false} WalkBefore(e: Expr, w: seq<string>)
    requires Linear(e) && |w| > 1 && Walk(Mean(e).edges, w)
    ensures Before(e, w[0], w[|w| - 1])
  {
    EdgeBefore(e, w[0], w[1]);
    if |w| > 2 {
      WalkBefore(e, w[1..]);
      BeforeTransitive(e, w[0], w[1], w[|w| - 1]);
    }
  }

  /** Reachability in the lowered graph is the expression's series-parallel order. */
  lemma ReachesIffBefore(e: Expr, x: string, y: string)
    requires Linear(e)
    ensures Reaches(Mean(e).edges, x, y) <==> Before(e, x, y)
  {
    if Before(e, x, y) { BeforeReaches(e, x, y); }
    forall w | |w| > 1 && Walk(Mean(e).edges, w) && w[0] == x && w[|w| - 1] == y
      ensures Before(e, x, y)
    {
      WalkBefore(e, w);
    }
  }

  /** Entries are exactly the sources. */
  lemma {:induction false} EntriesAreSources(e: Expr, x: string)
    requires Linear(e) && x in Handles(e)
    ensures x in Mean(e).entries <==> forall p :: (p, x) !in Mean(e).edges
  {
    if e.Leaf? {
    } else if e.Group? {
      EntriesAreSources(e.inner, x);
    } else {
      var l, r := e.left, e.right;
      LinearParts(e);
      MeanWellFormed(l);
      MeanWellFormed(r);
      CrossElems(Mean(l).exits, Mean(r).entries);
      OperandEdges(e);
      DedupElem(Mean(l).entries + Mean(r).entries);
      if x in Handles(l) { EntriesAreSources(l, x); } else { EntriesAreSources(r, x); }
      if e.Seq? && x in Mean(r).entries {
        assert (Mean(l).exits[0], x) in Mean(e).edges;
      }
    }
  }

  /** Exits are exactly the sinks. */
  lemma {:induction false} ExitsAreSinks(e: Expr, x: string)
    requires Linear(e) && x in Handles(e)
    ensures x in Mean(e).exits <==> forall c :: (x, c) !in Mean(e).edges
  {
    if e.Leaf? {
    } else if e.Group? {
      ExitsAreSinks(e.inner, x);
    } else {
      var l, r := e.left, e.right;
      LinearParts(e);
      MeanWellFormed(l);
      MeanWellFormed(r);
      CrossElems(Mean(l).exits, Mean(r).entries);
      OperandEdges(e);
      DedupElem(Mean(l).exits + Mean(r).exits);
      if x in Handles(l) { ExitsAreSinks(l, x); } else { ExitsAreSinks(r, x); }
      if e.Seq? && x in Mean(l).exits {
        assert (x, Mean(r).entries[0]) in Mean(e).edges;
      }
    }
  }
}
