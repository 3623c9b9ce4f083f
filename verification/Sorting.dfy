/** Sorted lists of distinct elements, the canonical form of every set the SDK emits: edge
    lists, reference closures, object keys. Library sorts are modelled by insertion. */
module Sorting {
  import opened Lists

  /** A strict total order. */
  ghost predicate Order<T(!new)>(lt: (T, T) -> bool) {
    && (forall a :: !lt(a, a))
    && (forall a, b, c :: lt(a, b) && lt(b, c) ==> lt(a, c))
    && (forall a, b :: a == b || lt(a, b) || lt(b, a))
  }

  ghost predicate Ascending<T>(lt: (T, T) -> bool, s: seq<T>) {
    forall i, j :: 0 <= i < j < |s| ==> lt(s[i], s[j])
  }

  /** Insert into a sorted list unless present. */
  function Insert<T(==)>(lt: (T, T) -> bool, x: T, s: seq<T>): seq<T> {
    if s == [] then [x]
    else if s[0] == x then s
    else if lt(x, s[0]) then [x] + s
    else [s[0]] + Insert(lt, x, s[1..])
  }

  /** The sorted list of the distinct elements. */
  function SortDistinct<T(==)>(lt: (T, T) -> bool, s: seq<T>): seq<T> {
    if s == [] then [] else Insert(lt, s[|s| - 1], SortDistinct(lt, s[..|s| - 1]))
  }

  lemma {:induction false} InsertMeaning<T(!new)>(lt: (T, T) -> bool, x: T, s: seq<T>)
    requires Order(lt) && Ascending(lt, s)
    ensures Ascending(lt, Insert(lt, x, s))
    ensures forall y :: y in Insert(lt, x, s) <==> y == x || y in s
  {
    if s != [] && s[0] != x && !lt(x, s[0]) {
      InsertMeaning(lt, x, s[1..]);
      var rest := Insert(lt, x, s[1..]);
      forall j | 0 <= j < |rest| ensures lt(s[0], rest[j]) {
        assert rest[j] in rest;
        if rest[j] != x {
          var k :| 0 <= k < |s[1..]| && s[1..][k] == rest[j];
          assert s[k + 1] == rest[j];
        }
      }
      assert s == [s[0]] + s[1..];
    }
  }

  /** Sorting keeps the elements and orders them strictly. */
  lemma {:induction false} SortMeaning<T(!new)>(lt: (T, T) -> bool, s: seq<T>)
    requires Order(lt)
    ensures Ascending(lt, SortDistinct(lt, s)) && Elems(SortDistinct(lt, s)) == Elems(s)
  {
    if s != [] {
      SortMeaning(lt, s[..|s| - 1]);
      InsertMeaning(lt, s[|s| - 1], SortDistinct(lt, s[..|s| - 1]));
      var init, rest := s[..|s| - 1], SortDistinct(lt, s[..|s| - 1]);
      assert s == init + [s[|s| - 1]];
      assert forall y :: y in rest <==> y in Elems(rest);
      assert forall y :: y in init <==> y in Elems(init);
    }
  }

  /** A set has one strictly sorted listing. */
  lemma {:induction false} AscendingUnique<T(!new)>(lt: (T, T) -> bool, a: seq<T>, b: seq<T>)
    requires Order(lt) && Ascending(lt, a) && Ascending(lt, b)
    requires forall x :: x in a <==> x in b
    ensures a == b
  {
    if a == [] {
      assert forall x :: x !in b;
    } else {
      assert a[0] in b && b != [];
      assert b[0] in a;
      var i :| 0 <= i < |b| && b[i] == a[0];
      var j :| 0 <= j < |a| && a[j] == b[0];
      assert a[0] == b[0];
      forall x ensures x in a[1..] <==> x in b[1..] {
        if x in a[1..] {
          assert x in b && lt(a[0], x);
        }
        if x in b[1..] {
          assert x in a && lt(b[0], x);
        }
      }
      AscendingUnique(lt, a[1..], b[1..]);
      assert a == [a[0]] + a[1..] && b == [b[0]] + b[1..];
    }
  }

  /** The canonical form depends only on the set of elements. */
  lemma SortDependsOnSet<T(!new)>(lt: (T, T) -> bool, a: seq<T>, b: seq<T>)
    requires Order(lt)
    ensures SortDistinct(lt, a) == SortDistinct(lt, b) <==> Elems(a) == Elems(b)
  {
    SortMeaning(lt, a);
    SortMeaning(lt, b);
    if Elems(a) == Elems(b) {
      var x, y := SortDistinct(lt, a), SortDistinct(lt, b);
      assert forall e :: e in x <==> e in Elems(x);
      assert forall e :: e in y <==> e in Elems(y);
      AscendingUnique(lt, x, y);
    }
  }

  // ------------------------------------------------------------------ strings

  /** If `bad` marks the pairs of a list that an order puts the other way round, the list
      is in that order exactly when no pair of its elements is bad. */
  lemma AscendingUnlessBad<T>(lt: (T, T) -> bool, bad: (T, T) -> bool, s: seq<T>)
    requires forall i, j :: 0 <= i < j < |s| ==> (lt(s[i], s[j]) <==> !bad(s[i], s[j])) && !bad(s[j], s[i])
    requires forall i :: 0 <= i < |s| ==> !bad(s[i], s[i])
    ensures Ascending(lt, s) <==> forall a, b :: a in s && b in s ==> !bad(a, b)
  {
    if Ascending(lt, s) {
      forall i, j | 0 <= i < |s| && 0 <= j < |s| ensures !bad(s[i], s[j]) {
        if i < j { assert lt(s[i], s[j]); }
      }
    }
  }

  /** Lexicographic order of code points. */
  predicate TextLess(a: string, b: string) {
    if b == "" then false
    else if a == "" then true
    else a[0] < b[0] || (a[0] == b[0] && TextLess(a[1..], b[1..]))
  }

  lemma {:induction false} TextLessTotal(a: string, b: string)
    ensures a == b || TextLess(a, b) || TextLess(b, a)
    ensures !(TextLess(a, b) && TextLess(b, a)) && !TextLess(a, a)
  {
    if a != "" {
      if b == "" {
        TextLessTotal(a[1..], "");
      } else {
        TextLessTotal(a[1..], b[1..]);
      }
      assert a == [a[0]] + a[1..];
    }
    if b != "" { assert b == [b[0]] + b[1..]; }
  }

  lemma {:induction false} TextLessTransitive(a: string, b: string, c: string)
    requires TextLess(a, b) && TextLess(b, c)
    ensures TextLess(a, c)
  {
    if a != "" && a[0] == b[0] == c[0] {
      TextLessTransitive(a[1..], b[1..], c[1..]);
    }
  }

  lemma TextLessIsOrder()
    ensures Order(TextLess)
  {
    forall a, b ensures a == b || TextLess(a, b) || TextLess(b, a) { TextLessTotal(a, b); }
    forall a ensures !TextLess(a, a) { TextLessTotal(a, a); }
    forall a, b, c | TextLess(a, b) && TextLess(b, c) ensures TextLess(a, c) {
      TextLessTransitive(a, b, c);
    }
  }
}
