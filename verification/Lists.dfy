/** Order-preserving list operations shared by the chain compiler: the "append unless
    present" fold that the parser's handle registry, its grant lists, `NodeAccumulator`
    and both `dedup` helpers all perform. */
module Lists {

  datatype Option<+T> = None | Some(value: T)

  /** The elements of a list. */
  function Elems<T>(s: seq<T>): set<T> {
    set x | x in s
  }

  ghost predicate Distinct<T>(s: seq<T>) {
    forall i, j :: 0 <= i < j < |s| ==> s[i] != s[j]
  }

  /** Append `x` unless it is already present. */
  function AddNew<T(==)>(acc: seq<T>, x: T): seq<T> {
    if x in acc then acc else acc + [x]
  }

  /** Append every element of `s` in turn, skipping those already present. */
  function AddAll<T(==)>(acc: seq<T>, s: seq<T>): seq<T> {
    if s == [] then acc else AddNew(AddAll(acc, s[..|s| - 1]), s[|s| - 1])
  }

  /** Order-preserving removal of repeats: first occurrences, in order. */
  function Dedup<T(==)>(s: seq<T>): seq<T> {
    AddAll([], s)
  }

  lemma {:induction false} AddAllConcat<T>(acc: seq<T>, a: seq<T>, b: seq<T>)
    ensures AddAll(acc, a + b) == AddAll(AddAll(acc, a), b)
  {
    if b == [] {
      assert a + b == a;
    } else {
      AddAllConcat(acc, a, b[..|b| - 1]);
      assert (a + b)[..|a + b| - 1] == a + b[..|b| - 1];
    }
  }

  lemma AddAllOne<T>(acc: seq<T>, x: T)
    ensures AddAll(acc, [x]) == AddNew(acc, x)
  {
    assert [x][..0] == [];
  }

  lemma {:induction false} AddAllElems<T>(acc: seq<T>, s: seq<T>)
    ensures Elems(AddAll(acc, s)) == Elems(acc) + Elems(s)
  {
    if s != [] {
      AddAllElems(acc, s[..|s| - 1]);
      assert s == s[..|s| - 1] + [s[|s| - 1]];
      var d := AddAll(acc, s[..|s| - 1]);
      var x := s[|s| - 1];
      assert x in d <==> x in Elems(d);
      assert Elems(d + [x]) == Elems(d) + {x};
      assert Elems(s) == Elems(s[..|s| - 1]) + {x};
    }
  }

  lemma {:induction false} AddAllDistinct<T>(acc: seq<T>, s: seq<T>)
    requires Distinct(acc)
    ensures Distinct(AddAll(acc, s))
  {
    if s != [] {
      AddAllDistinct(acc, s[..|s| - 1]);
    }
  }

  /** Adding elements that are all present changes nothing. */
  lemma {:induction false} AddAllPresent<T>(acc: seq<T>, s: seq<T>)
    requires forall x :: x in s ==> x in acc
    ensures AddAll(acc, s) == acc
  {
    if s != [] {
      AddAllPresent(acc, s[..|s| - 1]);
    }
  }

  /** Removing repeats from a list before adding it makes no difference. */
  lemma {:induction false} AddAllDedup<T>(acc: seq<T>, s: seq<T>)
    ensures AddAll(acc, Dedup(s)) == AddAll(acc, s)
  {
    if s != [] {
      var init, x := s[..|s| - 1], s[|s| - 1];
      AddAllDedup(acc, init);
      AddAllElems([], init);
      AddAllElems(acc, init);
      assert x in Dedup(init) <==> x in Elems(Dedup(init));
      assert x in init <==> x in Elems(init);
      if x in Dedup(init) {
        assert x in Elems(AddAll(acc, init));
      } else {
        AddAllConcat(acc, Dedup(init), [x]);
        AddAllOne(AddAll(acc, Dedup(init)), x);
      }
    }
  }

  /** `dedup` holds the input's elements, each once. */
  lemma DedupMeaning<T>(s: seq<T>)
    ensures Distinct(Dedup(s)) && Elems(Dedup(s)) == Elems(s)
    ensures FirstAppearance(s, Dedup(s))
  {
    AddAllDistinct([], s);
    AddAllElems([], s);
    DedupOrder(s);
  }

  /** The elements of `r` stand in the order in which they first appear in `s`. */
  ghost predicate FirstAppearance<T>(s: seq<T>, r: seq<T>) {
    && (forall i :: 0 <= i < |r| ==> r[i] in s)
    && forall i, j :: 0 <= i < j < |r| ==> IndexOf(s, r[i]) < IndexOf(s, r[j])
  }

  lemma IndexPush<T>(s: seq<T>, x: T, y: T)
    ensures y in s ==> IndexOf(s + [x], y) == IndexOf(s, y)
    ensures x !in s ==> IndexOf(s + [x], x) == |s|
  {
    var more := s + [x];
    if y in s {
      var i := IndexOf(s, y);
      assert more[i] == y && forall j :: 0 <= j < i ==> more[j] == s[j];
    }
    if x !in s {
      assert more[|s|] == x && forall j :: 0 <= j < |s| ==> more[j] == s[j];
    }
  }

  lemma {:induction false} DedupOrder<T>(s: seq<T>)
    ensures FirstAppearance(s, Dedup(s))
  {
    if s != [] {
      var init, x := s[..|s| - 1], s[|s| - 1];
      assert s == init + [x];
      DedupOrder(init);
      var before, r := Dedup(init), Dedup(s);
      AddAllElems([], init);
      assert x in before <==> x in Elems(before);
      assert x in init <==> x in Elems(init);
      forall i | 0 <= i < |before| ensures before[i] in s && IndexOf(s, before[i]) == IndexOf(init, before[i]) {
        IndexPush(init, x, before[i]);
      }
      IndexPush(init, x, x);
      forall i, j | 0 <= i < j < |r| ensures IndexOf(s, r[i]) < IndexOf(s, r[j]) {
        assert r[i] == before[i];
        if j < |before| { assert r[j] == before[j]; }
      }
    }
  }

  /** `dedup` leaves a list without repeats alone. */
  lemma {:induction false} DedupOfDistinct<T>(s: seq<T>)
    requires Distinct(s)
    ensures Dedup(s) == s
  {
    if s != [] {
      DedupOfDistinct(s[..|s| - 1]);
      assert s == s[..|s| - 1] + [s[|s| - 1]];
    }
  }

  /** `dedup` and `dedupRefs`: keep each element the first time it is seen. */
  method DedupList<T(==)>(s: seq<T>) returns (out: seq<T>)
    ensures out == Dedup(s) && Distinct(out) && Elems(out) == Elems(s) && FirstAppearance(s, out)
  {
    DedupMeaning(s);
    out := [];
    var seen: set<T> := {};
    for i := 0 to |s|
      invariant out == Dedup(s[..i]) && seen == Elems(out)
    {
      assert s[..i + 1][..i] == s[..i];
      assert s[i] in out <==> s[i] in Elems(out);
      if s[i] !in seen {
        seen := seen + {s[i]};
        ElemsConcat(out, [s[i]]);
        out := out + [s[i]];
      }
    }
    assert s[..|s|] == s;
  }

  lemma ElemsConcat<T>(a: seq<T>, b: seq<T>)
    ensures Elems(a + b) == Elems(a) + Elems(b)
  {
  }

  /** The position of the first occurrence of `x`. */
  function IndexOf<T(==)>(s: seq<T>, x: T): (i: nat)
    requires x in s
    ensures i < |s| && s[i] == x
    ensures forall j :: 0 <= j < i ==> s[j] != x
  {
    if s[0] == x then 0 else 1 + IndexOf(s[1..], x)
  }

  function Rename<S, T>(g: S -> T, s: seq<S>): (r: seq<T>)
    ensures |r| == |s| && forall i :: 0 <= i < |s| ==> r[i] == g(s[i])
  {
    seq(|s|, i requires 0 <= i < |s| => g(s[i]))
  }

  ghost predicate InjectiveOn<S, T>(g: S -> T, s: seq<S>) {
    forall x, y :: x in s && y in s && g(x) == g(y) ==> x == y
  }

  lemma RenameConcat<S, T>(g: S -> T, a: seq<S>, b: seq<S>)
    ensures Rename(g, a + b) == Rename(g, a) + Rename(g, b)
  {
  }

  lemma RenameMember<S, T>(g: S -> T, s: seq<S>, x: S)
    ensures x in s ==> g(x) in Rename(g, s)
    ensures InjectiveOn(g, s + [x]) && g(x) in Rename(g, s) ==> x in s
  {
    if x in s {
      var i :| 0 <= i < |s| && s[i] == x;
      assert Rename(g, s)[i] == g(x);
    } else {
      assert forall i :: 0 <= i < |s| ==> s[i] in s + [x];
      assert x in s + [x];
    }
  }

  lemma AddedInjective<S, T>(g: S -> T, acc: seq<S>, init: seq<S>, x: S)
    requires InjectiveOn(g, acc + (init + [x]))
    ensures InjectiveOn(g, acc + init) && InjectiveOn(g, AddAll(acc, init) + [x])
  {
    var d, all := AddAll(acc, init), acc + (init + [x]);
    AddAllElems(acc, init);
    forall y | y in d + [x] ensures y in all {
      if y in d { assert y in Elems(d); }
    }
    assert forall y :: y in acc + init ==> y in all;
  }

  /** Renaming that keeps elements apart commutes with `AddAll`. */
  lemma {:induction false} RenameAddAll<S, T>(g: S -> T, acc: seq<S>, s: seq<S>)
    requires InjectiveOn(g, acc + s)
    ensures Rename(g, AddAll(acc, s)) == AddAll(Rename(g, acc), Rename(g, s))
  {
    if s != [] {
      var init, x := s[..|s| - 1], s[|s| - 1];
      assert s == init + [x];
      RenameAddAll(g, acc, init);
      assert Rename(g, s)[..|s| - 1] == Rename(g, init);
      AddedInjective(g, acc, init, x);
      RenameMember(g, AddAll(acc, init), x);
    }
  }

  lemma RenameDedup<S, T>(g: S -> T, s: seq<S>)
    requires InjectiveOn(g, s)
    ensures Rename(g, Dedup(s)) == Dedup(Rename(g, s))
  {
    assert [] + s == s;
    RenameAddAll(g, [], s);
    assert Rename<S, T>(g, []) == [];
  }

  /** The renamed list has as many distinct elements exactly when the renaming keeps the
      listed elements apart. */
  lemma {:induction false} RenameDedupLength<S, T>(g: S -> T, s: seq<S>)
    ensures |Dedup(Rename(g, s))| <= |Dedup(s)|
    ensures |Dedup(Rename(g, s))| == |Dedup(s)| <==> InjectiveOn(g, s)
  {
    if s != [] {
      var init, x := s[..|s| - 1], s[|s| - 1];
      assert s == init + [x];
      RenameDedupLength(g, init);
      assert Rename(g, s)[..|s| - 1] == Rename(g, init);
      DedupMeaning(init);
      DedupMeaning(Rename(g, init));
      assert x in Dedup(init) <==> x in Elems(Dedup(init));
      assert x in init <==> x in Elems(init);
      assert g(x) in Dedup(Rename(g, init)) <==> g(x) in Elems(Dedup(Rename(g, init)));
      assert g(x) in Rename(g, init) <==> g(x) in Elems(Rename(g, init));
      RenameMember(g, init, x);
      InjectiveStep(g, init, x);
    }
  }

  lemma InjectiveStep<S, T>(g: S -> T, init: seq<S>, x: S)
    ensures InjectiveOn(g, init + [x]) <==>
      InjectiveOn(g, init) && (g(x) in Rename(g, init) ==> x in init)
  {
    if InjectiveOn(g, init + [x]) {
      assert forall y :: y in init ==> y in init + [x];
      RenameMember(g, init, x);
    }
    if InjectiveOn(g, init) && (g(x) in Rename(g, init) ==> x in init) {
      forall y | y in init && g(y) == g(x) ensures y == x {
        RenameMember(g, init, y);
      }
    }
  }

  lemma DistinctConcat<T>(a: seq<T>, b: seq<T>)
    requires Distinct(a + b)
    ensures Distinct(a) && Distinct(b) && forall x :: x in a ==> x !in b
  {
    forall i, j | 0 <= i < j < |a| ensures a[i] != a[j] {
      assert (a + b)[i] == a[i] && (a + b)[j] == a[j];
    }
    forall i, j | 0 <= i < j < |b| ensures b[i] != b[j] {
      assert (a + b)[|a| + i] == b[i] && (a + b)[|a| + j] == b[j];
    }
    forall i, j | 0 <= i < |a| && 0 <= j < |b| ensures a[i] != b[j] {
      assert (a + b)[i] == a[i] && (a + b)[|a| + j] == b[j];
    }
  }

  lemma ConcatAssociative<T>(a: seq<T>, b: seq<T>, c: seq<T>)
    ensures (a + b) + c == a + (b + c)
  {
  }

  lemma PushTwo<T>(s: seq<T>, x: T, y: T)
    ensures s + [x] + [y] == s + [x, y]
  {
  }
}
