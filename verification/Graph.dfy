/** The lowered graph: canonical edge lists and the Kahn cycle check, proved sound and
    complete against topological numberings and against closed walks. */
module Graph {
  import opened Lists
  import opened Sorting

  type Arc = (nat, nat)

  predicate ArcLess(a: Arc, b: Arc) {
    a.0 < b.0 || (a.0 == b.0 && a.1 < b.1)
  }

  lemma ArcLessIsOrder()
    ensures Order(ArcLess)
  {
  }

  ghost predicate InRange(n: nat, edges: seq<Arc>) {
    forall e :: e in edges ==> e.0 < n && e.1 < n
  }

  /** `canonicalizeEdges`: drop repeats, then sort by parent and child. */
  method CanonicalizeEdges(pairs: seq<Arc>) returns (out: seq<Arc>)
    ensures Ascending(ArcLess, out) && Elems(out) == Elems(pairs)
    ensures out == SortDistinct(ArcLess, pairs)
    ensures forall i, j :: 0 <= i < j < |out| ==> out[i].0 < out[j].0 || (out[i].0 == out[j].0 && out[i].1 < out[j].1)
  {
    var seen: set<Arc> := {};
    var unique: seq<Arc> := [];
    for i := 0 to |pairs|
      invariant seen == Elems(unique) == Elems(pairs[..i])
    {
      assert pairs[..i + 1] == pairs[..i] + [pairs[i]];
      if pairs[i] !in seen {
        seen := seen + {pairs[i]};
        unique := unique + [pairs[i]];
      }
    }
    assert pairs[..|pairs|] == pairs;
    ArcLessIsOrder();
    out := SortDistinct(ArcLess, unique);
    SortMeaning(ArcLess, unique);
    SortDependsOnSet(ArcLess, unique, pairs);
  }

  // ------------------------------------------------------------------ acyclicity

  /** Every edge goes up. */
  ghost predicate Topological(n: nat, edges: seq<Arc>, rank: seq<nat>) {
    |rank| == n && InRange(n, edges) && forall e :: e in edges ==> rank[e.0] < rank[e.1]
  }

  ghost predicate HasNumbering(n: nat, edges: seq<Arc>) {
    exists rank :: Topological(n, edges, rank)
  }

  /** Each node of `w` has an edge to the next. */
  ghost predicate Walk<T>(edges: seq<(T, T)>, w: seq<T>) {
    |w| > 0 && (|w| > 1 ==> (w[0], w[1]) in edges && Walk(edges, w[1..]))
  }

  /** A walk of at least one edge back to its start. */
  ghost predicate Closed(edges: seq<Arc>, w: seq<nat>) {
    |w| > 1 && Walk(edges, w) && w[0] == w[|w| - 1]
  }

  ghost predicate HasCycle(edges: seq<Arc>) {
    exists w :: Closed(edges, w)
  }

  lemma {:induction false} RankGrows(n: nat, edges: seq<Arc>, rank: seq<nat>, w: seq<nat>)
    requires Topological(n, edges, rank) && Walk(edges, w) && |w| > 1
    ensures w[0] < n && w[|w| - 1] < n && rank[w[0]] < rank[w[|w| - 1]]
  {
    assert (w[0], w[1]) in edges;
    if |w| > 2 {
      RankGrows(n, edges, rank, w[1..]);
    }
  }

  lemma NumberingExcludesCycle(n: nat, edges: seq<Arc>)
    requires HasNumbering(n, edges)
    ensures !HasCycle(edges)
  {
    var rank :| Topological(n, edges, rank);
    forall w | |w| > 1 && Walk(edges, w) ensures w[0] != w[|w| - 1] {
      RankGrows(n, edges, rank, w);
    }
  }

  /** Nodes none of which can come first. */
  ghost predicate Stuck(edges: seq<Arc>, s: set<nat>) {
    s != {} && forall x {:trigger HasParent(edges, s, x)} :: x in s ==> HasParent(edges, s, x)
  }

  ghost predicate HasParent(edges: seq<Arc>, s: set<nat>, x: nat) {
    exists e :: e in edges && e.0 in s && e.1 == x
  }

  lemma DistinctLength<T>(w: seq<T>)
    requires Distinct(w)
    ensures |Elems(w)| == |w|
  {
    if w != [] {
      var init, x := w[..|w| - 1], w[|w| - 1];
      DistinctLength(init);
      assert w == init + [x];
      assert Elems(w) == Elems(init) + {x};
    }
  }

  lemma SubsetSize<T>(a: set<T>, b: set<T>)
    requires a <= b
    ensures |a| <= |b| && (|a| == |b| ==> a == b)
  {
    assert b == a + (b - a);
  }

  lemma WalkBack(edges: seq<Arc>, p: nat, w: seq<nat>)
    requires Walk(edges, w) && (p, w[0]) in edges
    ensures Walk(edges, [p] + w)
  {
    assert ([p] + w)[1..] == w;
  }

  lemma {:induction false} WalkPrefix(edges: seq<Arc>, w: seq<nat>, k: nat)
    requires Walk(edges, w) && 0 < k <= |w|
    ensures Walk(edges, w[..k])
  {
    if k > 1 {
      WalkPrefix(edges, w[1..], k - 1);
      assert w[..k][1..] == w[1..][..k - 1];
    }
  }

  /** A list without repeats is no longer than the set it is drawn from, and lists all of it
      when it is as long. */
  lemma FitsIn<T>(w: seq<T>, s: set<T>)
    requires Distinct(w) && forall x :: x in w ==> x in s
    ensures |w| <= |s| && (|w| == |s| ==> forall x :: x in s ==> x in w)
  {
    DistinctLength(w);
    assert Elems(w) <= s;
    SubsetSize(Elems(w), s);
    assert forall x :: x in w <==> x in Elems(w);
  }

  ghost function ParentIn(edges: seq<Arc>, s: set<nat>, x: nat): (p: nat)
    requires Stuck(edges, s) && x in s
    ensures p in s && (p, x) in edges
  {
    assert HasParent(edges, s, x);
    var e :| e in edges && e.0 in s && e.1 == x;
    e.0
  }

  /** Going back from parent to parent inside a stuck set must close a walk. */
  lemma {:induction false} StuckHasCycle(edges: seq<Arc>, s: set<nat>, w: seq<nat>) returns (c: seq<nat>)
    requires Stuck(edges, s) && Walk(edges, w) && Distinct(w) && forall x :: x in w ==> x in s
    ensures Closed(edges, c)
    decreases |s| - |w|
  {
    var p := ParentIn(edges, s, w[0]);
    var longer := [p] + w;
    WalkBack(edges, p, w);
    if p in w {
      var j := IndexOf(w, p);
      c := longer[..j + 2];
      WalkPrefix(edges, longer, j + 2);
    } else {
      FitsIn(longer, s);
      c := StuckHasCycle(edges, s, longer);
    }
  }

  /** The node indices. */
  function Upto(n: nat): (s: set<nat>)
    ensures |s| == n && forall m: nat :: m in s <==> m < n
  {
    if n == 0 then {} else Upto(n - 1) + {n - 1}
  }

  /** Without closed walks, taking away a node that no other leads to numbers the rest. */
  lemma {:induction false} Peel(edges: seq<Arc>, s: set<nat>) returns (rank: map<nat, nat>)
    requires !HasCycle(edges)
    ensures rank.Keys == s
    ensures forall e :: e in edges && e.0 in s && e.1 in s ==> rank[e.0] < rank[e.1]
    decreases |s|
  {
    if s == {} {
      rank := map[];
    } else {
      if forall x :: x in s ==> HasParent(edges, s, x) {
        var x :| x in s;
        var c := StuckHasCycle(edges, s, [x]);
        assert false;
      }
      var x :| x in s && !HasParent(edges, s, x);
      var rest := Peel(edges, s - {x});
      rank := map y | y in s :: if y == x then 0 else rest[y] + 1;
      forall e | e in edges && e.0 in s && e.1 in s ensures rank[e.0] < rank[e.1] {
        assert e.1 != x;
      }
    }
  }

  /** A numbering exists exactly when no walk closes. */
  lemma NumberingIffNoCycle(n: nat, edges: seq<Arc>)
    requires InRange(n, edges)
    ensures HasNumbering(n, edges) <==> !HasCycle(edges)
  {
    if HasNumbering(n, edges) {
      NumberingExcludesCycle(n, edges);
    } else if !HasCycle(edges) {
      var m := Peel(edges, Upto(n));
      var rank: seq<nat> := seq(n, i requires 0 <= i < n => m[i]);
      assert Topological(n, edges, rank);
    }
  }

  // ------------------------------------------------------------------ Kahn's bookkeeping

  /** The children of `p`, one per edge, in edge order. */
  function Children(edges: seq<Arc>, p: nat): seq<nat> {
    if edges == [] then []
    else
      var rest, e := Children(edges[..|edges| - 1], p), edges[|edges| - 1];
      if e.0 == p then rest + [e.1] else rest
  }

  /** How many edges enter `c` from outside `done`. */
  function Pending(edges: seq<Arc>, c: nat, done: set<nat>): nat {
    if edges == [] then 0
    else
      var rest, e := Pending(edges[..|edges| - 1], c, done), edges[|edges| - 1];
      if e.1 == c && e.0 !in done then rest + 1 else rest
  }

  function Count(s: seq<nat>, x: nat): nat {
    if s == [] then 0
    else Count(s[..|s| - 1], x) + if s[|s| - 1] == x then 1 else 0
  }

  lemma {:induction false} CountPrefix(s: seq<nat>, k: nat, x: nat)
    requires k <= |s|
    ensures Count(s[..k], x) <= Count(s, x)
    ensures k < |s| && s[k] == x ==> Count(s[..k], x) < Count(s, x)
  {
    if k == |s| {
      assert s[..k] == s;
    } else {
      CountPrefix(s[..|s| - 1], k, x);
      assert s[..|s| - 1][..k] == s[..k];
    }
  }

  lemma CountPush(s: seq<nat>, y: nat, x: nat)
    ensures Count(s + [y], x) == Count(s, x) + if y == x then 1 else 0
  {
    assert (s + [y])[..|s|] == s;
  }

  /** Finishing `p` releases exactly its edges. */
  lemma {:induction false} PendingAfter(edges: seq<Arc>, c: nat, done: set<nat>, p: nat)
    requires p !in done
    ensures Pending(edges, c, done) == Pending(edges, c, done + {p}) + Count(Children(edges, p), c)
  {
    if edges != [] {
      var init, e := edges[..|edges| - 1], edges[|edges| - 1];
      PendingAfter(init, c, done, p);
      if e.0 == p { CountPush(Children(init, p), e.1, c); }
    }
  }

  lemma {:induction false} PendingZero(edges: seq<Arc>, c: nat, done: set<nat>)
    ensures Pending(edges, c, done) == 0 <==> forall p :: (p, c) in edges ==> p in done
  {
    if edges != [] {
      var init, e := edges[..|edges| - 1], edges[|edges| - 1];
      PendingZero(init, c, done);
      assert edges == init + [e];
      if e.1 == c && e.0 !in done { assert (e.0, c) in edges; }
      else {
        forall p | (p, c) in edges && p !in done ensures (p, c) in init {
          assert (p, c) != e;
        }
      }
    }
  }

  lemma {:induction false} ChildInRange(n: nat, edges: seq<Arc>, p: nat)
    requires InRange(n, edges)
    ensures forall m :: m in Children(edges, p) ==> m < n
  {
    if edges != [] {
      var init, e := edges[..|edges| - 1], edges[|edges| - 1];
      assert edges == init + [e];
      assert forall x :: x in init ==> x in edges;
      ChildInRange(n, init, p);
    }
  }

  /** Nodes finished so far, then those waiting: exactly the nodes with nothing pending. */
  ghost predicate Frontier(n: nat, indegree: seq<int>, done: seq<nat>, queue: seq<nat>) {
    && |indegree| == n && Distinct(done + queue)
    && (forall m: nat :: m in done + queue <==> m < n && indegree[m] == 0)
  }

  /** A finishing order in which parents come first. */
  ghost predicate ParentsFirst(edges: seq<Arc>, done: seq<nat>) {
    forall i, p :: 0 <= i < |done| && (p, done[i]) in edges ==> p in done[..i]
  }

  ghost function PlaceOf(n: nat, done: seq<nat>, m: nat): (i: nat)
    requires (forall k: nat :: k in Upto(n) ==> k in done) && m < n
    ensures i < |done| && done[i] == m
  {
    IndexOf(done, m)
  }

  lemma OrderGivesNumbering(n: nat, edges: seq<Arc>, done: seq<nat>)
    requires InRange(n, edges) && ParentsFirst(edges, done)
    requires Distinct(done) && (forall m :: m in done ==> m < n) && |done| == n
    ensures HasNumbering(n, edges)
  {
    FitsIn(done, Upto(n));
    var rank := seq(n, m requires 0 <= m < n => PlaceOf(n, done, m));
    forall e | e in edges ensures rank[e.0] < rank[e.1] {
      var i := PlaceOf(n, done, e.1);
      assert (e.0, done[i]) in edges;
      var j :| 0 <= j < i && done[j] == e.0;
      assert PlaceOf(n, done, e.0) == j;
    }
    assert Topological(n, edges, rank);
  }

  ghost function Leftover(n: nat, done: seq<nat>): set<nat> {
    Upto(n) - Elems(done)
  }

  lemma LeftoverNonempty(n: nat, done: seq<nat>)
    requires Distinct(done) && (forall m: nat :: m in done ==> m < n) && |done| != n
    ensures Leftover(n, done) != {}
  {
    DistinctLength(done);
    assert Elems(done) <= Upto(n);
    SubsetSize(Elems(done), Upto(n));
    assert Upto(n) == Leftover(n, done) + Elems(done);
  }

  lemma LeftoverHasParent(n: nat, edges: seq<Arc>, done: seq<nat>, x: nat)
    requires InRange(n, edges) && Pending(edges, x, Elems(done)) != 0
    ensures HasParent(edges, Leftover(n, done), x)
  {
    PendingZero(edges, x, Elems(done));
    var p :| (p, x) in edges && p !in Elems(done);
    var e := (p, x);
    assert e in edges && e.0 in Leftover(n, done) && e.1 == x;
  }

  lemma LeftoverIsStuck(n: nat, edges: seq<Arc>, indegree: seq<int>, done: seq<nat>)
    requires InRange(n, edges) && Frontier(n, indegree, done, []) && |done| != n
    requires forall m :: 0 <= m < n ==> indegree[m] == Pending(edges, m, Elems(done))
    ensures HasCycle(edges)
  {
    assert done + [] == done;
    var left := Leftover(n, done);
    LeftoverNonempty(n, done);
    forall x | x in left ensures HasParent(edges, left, x) {
      assert x !in done;
      LeftoverHasParent(n, edges, done, x);
    }
    var x :| x in left;
    var c := StuckHasCycle(edges, left, [x]);
  }

  // ------------------------------------------------------------------ the check

  /** `assertAcyclic`; `false` is its `ChainCycleError`. */
  method AssertAcyclic(n: nat, edges: seq<Arc>) returns (ok: bool)
    requires InRange(n, edges)
    ensures ok <==> HasNumbering(n, edges)
    ensures ok <==> !HasCycle(edges)
  {
    var indegree := new int[n](_ => 0);
    var adj := new seq<nat>[n](_ => []);
    for k := 0 to |edges|
      invariant forall m :: 0 <= m < n ==> indegree[m] == Pending(edges[..k], m, {})
      invariant forall m :: 0 <= m < n ==> adj[m] == Children(edges[..k], m)
      invariant forall e :: e in edges[..k] ==> e.0 != e.1
    {
      var e := edges[k];
      assert e in edges;
      if e.0 == e.1 {
        assert Closed(edges, [e.0, e.1]);
        if HasNumbering(n, edges) { NumberingExcludesCycle(n, edges); }
        return false;
      }
      assert edges[..k + 1][..k] == edges[..k];
      adj[e.0] := adj[e.0] + [e.1];
      indegree[e.1] := indegree[e.1] + 1;
    }
    assert edges[..|edges|] == edges;
    var queue: seq<nat> := [];
    for i := 0 to n
      invariant Distinct(queue)
      invariant forall m: nat :: m in queue <==> m < i && indegree[m] == 0
    {
      if indegree[i] == 0 { queue := queue + [i]; }
    }
    var visited := 0;
    ghost var done: seq<nat> := [];
    assert done + queue == queue && Elems(done) == {};
    while |queue| > 0
      invariant visited == |done| && ParentsFirst(edges, done)
      invariant Frontier(n, indegree[..], done, queue)
      invariant forall m :: 0 <= m < n ==> indegree[m] == Pending(edges, m, Elems(done))
      invariant forall m :: 0 <= m < n ==> adj[m] == Children(edges, m)
      decreases n - |done|
    {
      queue, visited, done := Finish(n, edges, indegree, adj, queue, visited, done);
    }
    ok := visited == n;
    assert done + queue == done;
    if ok {
      OrderGivesNumbering(n, edges, done);
      NumberingExcludesCycle(n, edges);
    } else {
      assert queue == [];
      LeftoverIsStuck(n, edges, indegree[..], done);
      if HasNumbering(n, edges) { NumberingExcludesCycle(n, edges); }
    }
  }

  /** One turn of the main loop: take the first waiting node and release its children. */
  method Finish(n: nat, edges: seq<Arc>, indegree: array<int>, adj: array<seq<nat>>,
                queue: seq<nat>, visited: nat, ghost done: seq<nat>)
    returns (queue': seq<nat>, visited': nat, ghost done': seq<nat>)
    requires InRange(n, edges) && indegree.Length == n && adj.Length == n && |queue| > 0
    requires visited == |done| && ParentsFirst(edges, done) && Frontier(n, indegree[..], done, queue)
    requires forall m :: 0 <= m < n ==> indegree[m] == Pending(edges, m, Elems(done))
    requires forall m :: 0 <= m < n ==> adj[m] == Children(edges, m)
    modifies indegree
    ensures visited' == visited + 1 == |done'| && done' == done + [queue[0]] && |done'| <= n
    ensures ParentsFirst(edges, done') && Frontier(n, indegree[..], done', queue')
    ensures forall m :: 0 <= m < n ==> indegree[m] == Pending(edges, m, Elems(done'))
  {
    var p := queue[0];
    assert (done + queue)[|done|] == p;
    assert p in done + queue && indegree[..][p] == 0;
    assert p !in Elems(done) by {
      forall i | 0 <= i < |done| ensures done[i] != p { assert (done + queue)[i] == done[i]; }
    }
    done' := done + [p];
    assert Elems(done') == Elems(done) + {p};
    assert done' + queue[1..] == done + queue;
    PendingZero(edges, p, Elems(done));
    assert ParentsFirst(edges, done') by {
      forall i, q | 0 <= i < |done'| && (q, done'[i]) in edges ensures q in done'[..i] {
        if i < |done| { assert done'[..i] == done[..i] && done'[i] == done[i]; }
        else { assert done'[..i] == done; }
      }
    }
    queue', visited' := queue[1..], visited + 1;
    var kids := adj[p];
    ChildInRange(n, edges, p);
    for k := 0 to |kids|
      invariant forall m :: 0 <= m < n ==> indegree[m] == Pending(edges, m, Elems(done)) - Count(kids[..k], m)
      invariant Frontier(n, indegree[..], done', queue')
    {
      var m := kids[k];
      assert m in kids;
      PendingAfter(edges, m, Elems(done), p);
      CountPrefix(kids, k, m);
      assert kids[..k + 1] == kids[..k] + [m];
      forall x ensures Count(kids[..k + 1], x) == Count(kids[..k], x) + if m == x then 1 else 0 {
        CountPush(kids[..k], m, x);
      }
      ghost var before := indegree[..];
      var d := indegree[m] - 1;
      indegree[m] := d;
      assert before[m] != 0 && m !in done' + queue';
      if d == 0 {
        assert done' + (queue' + [m]) == (done' + queue') + [m];
        queue' := queue' + [m];
      }
    }
    assert kids[..|kids|] == kids;
    forall m | 0 <= m < n ensures indegree[m] == Pending(edges, m, Elems(done')) {
      PendingAfter(edges, m, Elems(done), p);
    }
    FinishedInRange(n, indegree[..], done', queue');
  }

  lemma FinishedInRange(n: nat, indegree: seq<int>, done: seq<nat>, queue: seq<nat>)
    requires Frontier(n, indegree, done, queue)
    ensures |done| <= n
  {
    var both := done + queue;
    FitsIn(both, Upto(n));
  }
}
