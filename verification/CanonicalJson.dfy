/** `sortValue`, the key-sorting step of `canonicalJson`, on JavaScript objects with their
    enumeration order: integer-like keys first, in numeric order, then the others as they were
    added. */
module CanonicalJson {
  import opened Lists
  import opened Sorting
  import opened Utf16
  import opened Decimals
  import opened Serde

  datatype Entry = Entry(key: string, value: Tree)
  datatype Tree = Scalar(json: Json) | List(items: seq<Tree>) | Record(entries: seq<Entry>)

  function Keys(es: seq<Entry>): (ks: seq<string>)
    ensures |ks| == |es| && forall i :: 0 <= i < |es| ==> ks[i] == es[i].key
  {
    seq(|es|, i requires 0 <= i < |es| => es[i].key)
  }

  function Lookup(es: seq<Entry>, k: string): (i: nat)
    requires k in Keys(es)
    ensures i < |es| && es[i].key == k
  {
    IndexOf(Keys(es), k)
  }

  /** A value `JSON.parse` can give: scalars are scalars, and no object has a key twice. */
  ghost predicate Plain(t: Tree) {
    match t
    case Scalar(j) => !j.Arr? && !j.Obj?
    case List(items) => forall i :: 0 <= i < |items| ==> Plain(items[i])
    case Record(es) => Distinct(Keys(es)) && forall i :: 0 <= i < |es| ==> Plain(es[i].value)
  }

  /** The JSON value a tree denotes: objects lose their order. */
  function Meaning(t: Tree): Json {
    match t
    case Scalar(j) => j
    case List(items) => Arr(seq(|items|, i requires 0 <= i < |items| => Meaning(items[i])))
    case Record(es) => Obj(map k | k in Keys(es) :: Meaning(es[Lookup(es, k)].value))
  }

  // ------------------------------------------------------------------ objects

  /** An array index: a decimal without leading zeros below 2^32 - 1. */
  predicate IntegerLike(k: string) {
    && k != "" && (forall i :: 0 <= i < |k| ==> '0' <= k[i] <= '9') && (k[0] == '0' ==> |k| == 1)
    && (|k| < 10 || (|k| == 10 && TextLess(k, "4294967295")))
  }

  predicate NumberLess(a: string, b: string) {
    |a| < |b| || (|a| == |b| && TextLess(a, b))
  }

  function InsertIndex(es: seq<Entry>, e: Entry): seq<Entry> {
    if es == [] || !IntegerLike(es[0].key) || NumberLess(e.key, es[0].key) then [e] + es
    else [es[0]] + InsertIndex(es[1..], e)
  }

  /** The assignment `out[k] = v`. */
  function Assign(es: seq<Entry>, k: string, v: Tree): seq<Entry> {
    if k in Keys(es) then es[Lookup(es, k) := Entry(k, v)]
    else if IntegerLike(k) then InsertIndex(es, Entry(k, v))
    else es + [Entry(k, v)]
  }

  /** The entries assigned key by key. */
  function Filled(es: seq<Entry>, ks: seq<string>): seq<Entry>
    requires forall k :: k in ks ==> k in Keys(es)
  {
    if ks == [] then []
    else
      var k := ks[|ks| - 1];
      Assign(Filled(es, ks[..|ks| - 1]), k, es[Lookup(es, k)].value)
  }

  function SortedKeys(es: seq<Entry>): (ks: seq<string>)
    ensures Elems(ks) == Elems(Keys(es)) && forall k :: k in ks <==> k in Keys(es)
  {
    UnitLessIsOrder();
    SortMeaning(UnitLess, Keys(es));
    var ks := SortDistinct(UnitLess, Keys(es));
    assert forall k :: k in ks <==> k in Elems(ks);
    assert forall k :: k in Keys(es) <==> k in Elems(Keys(es));
    ks
  }

  /** The object filled in sorted key order. */
  function Arranged(es: seq<Entry>): seq<Entry> {
    Filled(es, SortedKeys(es))
  }

  // ------------------------------------------------------------------ sortValue

  function SortValue(t: Tree): Tree {
    match t
    case Scalar(_) => t
    case List(items) => List(seq(|items|, i requires 0 <= i < |items| => SortValue(items[i])))
    case Record(es) => Record(Arranged(Children(t)))
  }

  function Children(t: Tree): (es: seq<Entry>)
    requires t.Record?
    ensures |es| == |t.entries| && Keys(es) == Keys(t.entries)
    ensures forall i :: 0 <= i < |es| ==> es[i] == Entry(t.entries[i].key, SortValue(t.entries[i].value))
    decreases t, 0
  {
    seq(|t.entries|, i requires 0 <= i < |t.entries| => Entry(t.entries[i].key, SortValue(t.entries[i].value)))
  }

  /** `sortValue`. */
  method Sort(t: Tree) returns (out: Tree)
    ensures out == SortValue(t)
    decreases t
  {
    match t
    case Scalar(_) => out := t;
    case List(items) =>
      var acc: seq<Tree> := [];
      for i := 0 to |items|
        invariant |acc| == i && forall k :: 0 <= k < i ==> acc[k] == SortValue(items[k])
      {
        var item := Sort(items[i]);
        acc := acc + [item];
      }
      out := List(acc);
    case Record(es) =>
      var ks := SortedKeys(es);
      var acc: seq<Entry> := [];
      assert SortedKeys(Children(t)) == ks;
      for i := 0 to |ks|
        invariant acc == Filled(Children(t), ks[..i])
      {
        var value := Sort(es[Lookup(es, ks[i])].value);
        acc := Assign(acc, ks[i], value);
        assert ks[..i + 1][..i] == ks[..i];
      }
      assert ks[..|ks|] == ks;
      out := Record(acc);
  }

  // ------------------------------------------------------------------ filling an object

  lemma KeyOfEntry(es: seq<Entry>, e: Entry)
    requires e in es
    ensures e.key in Keys(es)
  {
    var i :| 0 <= i < |es| && es[i] == e;
    assert Keys(es)[i] == e.key;
  }

  /** With distinct keys, an entry is found under its key. */
  lemma Found(es: seq<Entry>, e: Entry)
    requires Distinct(Keys(es)) && e in es
    ensures e.key in Keys(es) && es[Lookup(es, e.key)] == e
  {
    KeyOfEntry(es, e);
    var i :| 0 <= i < |es| && es[i] == e;
    assert Keys(es)[i] == Keys(es)[Lookup(es, e.key)];
  }

  lemma {:induction false} InsertIndexKeeps(es: seq<Entry>, e: Entry)
    ensures forall x :: x in InsertIndex(es, e) <==> x == e || x in es
    ensures e.key !in Keys(es) && Distinct(Keys(es)) ==> Distinct(Keys(InsertIndex(es, e)))
  {
    if es == [] || !IntegerLike(es[0].key) || NumberLess(e.key, es[0].key) {
      PrependKeeps(e, es);
    } else {
      var rest := InsertIndex(es[1..], e);
      InsertIndexKeeps(es[1..], e);
      assert es == [es[0]] + es[1..];
      assert Keys(es)[1..] == Keys(es[1..]);
      if e.key !in Keys(es) && Distinct(Keys(es)) {
        TailDistinct(es);
        assert es[0].key != e.key by { assert Keys(es)[0] == es[0].key; }
        forall x | x in rest ensures x.key != es[0].key {
          if x in es[1..] { KeyOfEntry(es[1..], x); }
        }
        FreshKey(es[0].key, rest);
      }
      PrependKeeps(es[0], rest);
    }
  }

  lemma PrependKeeps(e: Entry, es: seq<Entry>)
    ensures forall x :: x in [e] + es <==> x == e || x in es
    ensures e.key !in Keys(es) && Distinct(Keys(es)) ==> Distinct(Keys([e] + es))
  {
    assert Keys([e] + es) == [e.key] + Keys(es);
  }

  lemma TailDistinct(es: seq<Entry>)
    requires es != [] && Distinct(Keys(es))
    ensures Distinct(Keys(es[1..])) && es[0].key !in Keys(es[1..])
  {
    assert Keys(es) == [es[0].key] + Keys(es[1..]);
  }

  lemma FreshKey(k: string, es: seq<Entry>)
    requires forall x :: x in es ==> x.key != k
    ensures k !in Keys(es)
  {
  }

  /** Assigning a new key adds its entry and keeps the others. */
  lemma AssignNew(es: seq<Entry>, k: string, v: Tree)
    requires k !in Keys(es) && Distinct(Keys(es))
    ensures var r := Assign(es, k, v);
      Distinct(Keys(r)) && forall x :: x in r <==> x == Entry(k, v) || x in es
  {
    if IntegerLike(k) {
      InsertIndexKeeps(es, Entry(k, v));
    } else {
      assert Keys(es + [Entry(k, v)]) == Keys(es) + [k];
    }
  }

  /** Filling with distinct keys gives exactly the entries under them. */
  lemma {:induction false} FilledEntries(es: seq<Entry>, ks: seq<string>)
    requires Distinct(ks) && forall k :: k in ks ==> k in Keys(es)
    ensures Distinct(Keys(Filled(es, ks)))
    ensures forall x :: x in Filled(es, ks) <==> x.key in ks && x == es[Lookup(es, x.key)]
  {
    if ks != [] {
      var n := |ks| - 1;
      var k, init := ks[n], ks[..n];
      FilledEntries(es, init);
      assert ks == init + [k];
      assert k !in init;
      FreshKey(k, Filled(es, init));
      AssignNew(Filled(es, init), k, es[Lookup(es, k)].value);
      assert es[Lookup(es, k)] == Entry(k, es[Lookup(es, k)].value);
    }
  }

  lemma SortedKeysDistinct(es: seq<Entry>)
    ensures Distinct(SortedKeys(es))
  {
    UnitLessIsOrder();
    SortMeaning(UnitLess, Keys(es));
    var ks := SortedKeys(es);
    forall i, j | 0 <= i < j < |ks| ensures ks[i] != ks[j] {
      assert UnitLess(ks[i], ks[j]);
    }
  }

  /** Sorting an object keeps its entries. */
  lemma ArrangedEntries(es: seq<Entry>)
    requires Distinct(Keys(es))
    ensures Distinct(Keys(Arranged(es))) && forall x :: x in Arranged(es) <==> x in es
  {
    SortedKeysDistinct(es);
    FilledEntries(es, SortedKeys(es));
    forall x | x in es ensures x in Arranged(es) {
      Found(es, x);
    }
  }

  lemma {:induction false} FilledSame(a: seq<Entry>, b: seq<Entry>, ks: seq<string>)
    requires forall k :: k in ks ==> k in Keys(a) && k in Keys(b) && a[Lookup(a, k)] == b[Lookup(b, k)]
    ensures Filled(a, ks) == Filled(b, ks)
  {
    if ks != [] {
      FilledSame(a, b, ks[..|ks| - 1]);
    }
  }

  /** The sorted object depends only on the entries, not on their order. */
  lemma ArrangedSame(a: seq<Entry>, b: seq<Entry>)
    requires Distinct(Keys(a)) && Distinct(Keys(b)) && forall x :: x in a <==> x in b
    ensures Arranged(a) == Arranged(b)
  {
    forall k | k in Keys(a) ensures k in Keys(b) && a[Lookup(a, k)] == b[Lookup(b, k)] {
      Found(b, a[Lookup(a, k)]);
    }
    forall k | k in Keys(b) ensures k in Keys(a) {
      Found(a, b[Lookup(b, k)]);
    }
    assert Elems(Keys(a)) == Elems(Keys(b));
    UnitLessIsOrder();
    SortDependsOnSet(UnitLess, Keys(a), Keys(b));
    FilledSame(a, b, SortedKeys(a));
  }

  // ------------------------------------------------------------------ theorems

  lemma ObjectMeaning(es: seq<Entry>, e: Entry)
    requires Distinct(Keys(es)) && e in es
    ensures e.key in Meaning(Record(es)).fields && Meaning(Record(es)).fields[e.key] == Meaning(e.value)
  {
    Found(es, e);
  }

  lemma SameEntriesSameMeaning(a: seq<Entry>, b: seq<Entry>)
    requires Distinct(Keys(a)) && Distinct(Keys(b)) && forall x :: x in a <==> x in b
    ensures Meaning(Record(a)) == Meaning(Record(b))
  {
    var m, n := Meaning(Record(a)).fields, Meaning(Record(b)).fields;
    forall k | k in Keys(a) ensures k in n && m[k] == n[k] {
      ObjectMeaning(b, a[Lookup(a, k)]);
    }
    forall k | k in Keys(b) ensures k in m {
      ObjectMeaning(a, b[Lookup(b, k)]);
    }
    assert m == n;
  }

  /** Sorting changes no content, at any depth. */
  lemma {:induction false} SortKeepsMeaning(t: Tree)
    requires Plain(t)
    ensures Plain(SortValue(t)) && Meaning(SortValue(t)) == Meaning(t)
    decreases t
  {
    match t
    case Scalar(_) =>
    case List(items) =>
      forall i | 0 <= i < |items| ensures Plain(SortValue(items[i])) && Meaning(SortValue(items[i])) == Meaning(items[i]) {
        SortKeepsMeaning(items[i]);
      }
      assert Meaning(SortValue(t)).items == Meaning(t).items;
    case Record(es) =>
      var cs := Children(t);
      forall i | 0 <= i < |es| ensures Plain(cs[i].value) && Meaning(cs[i].value) == Meaning(es[i].value) {
        SortKeepsMeaning(es[i].value);
      }
      ChildrenMeaning(t);
      ArrangedEntries(cs);
      SameEntriesSameMeaning(Arranged(cs), cs);
      ArrangedPlain(cs);
  }

  lemma ArrangedPlain(es: seq<Entry>)
    requires Distinct(Keys(es)) && forall i :: 0 <= i < |es| ==> Plain(es[i].value)
    ensures Plain(Record(Arranged(es)))
  {
    ArrangedEntries(es);
    var r := Arranged(es);
    forall i | 0 <= i < |r| ensures Plain(r[i].value) {
      assert r[i] in es;
    }
  }

  lemma SameFields(a: seq<Entry>, b: seq<Entry>)
    requires |a| == |b| && Keys(a) == Keys(b)
    requires forall i :: 0 <= i < |a| ==> Meaning(b[i].value) == Meaning(a[i].value)
    ensures Meaning(Record(b)) == Meaning(Record(a))
  {
    forall k | k in Keys(a) ensures Lookup(a, k) == Lookup(b, k) {
    }
    assert Meaning(Record(b)).fields == Meaning(Record(a)).fields;
  }

  lemma ChildrenMeaning(t: Tree)
    requires t.Record? && forall i :: 0 <= i < |t.entries| ==> Meaning(Children(t)[i].value) == Meaning(t.entries[i].value)
    ensures Meaning(Record(Children(t))) == Meaning(t)
  {
    SameFields(t.entries, Children(t));
  }

  /** Sorting is a canonical form: two values sort alike exactly when they have the same
      content up to the order of keys, at every depth. */
  lemma {:induction false} SortIsCanonical(a: Tree, b: Tree)
    requires Plain(a) && Plain(b)
    ensures SortValue(a) == SortValue(b) <==> Meaning(a) == Meaning(b)
  {
    SortKeepsMeaning(a);
    SortKeepsMeaning(b);
    if Meaning(a) == Meaning(b) {
      SameMeaningSameSort(a, b);
    }
  }

  lemma {:induction false} SameMeaningSameSort(a: Tree, b: Tree)
    requires Plain(a) && Plain(b) && Meaning(a) == Meaning(b)
    ensures SortValue(a) == SortValue(b)
    decreases a
  {
    if a.List? {
      forall i | 0 <= i < |a.items| ensures SortValue(a.items[i]) == SortValue(b.items[i]) {
        assert Meaning(a).items[i] == Meaning(b).items[i];
        SameMeaningSameSort(a.items[i], b.items[i]);
      }
    } else if a.Record? {
      forall i, j | 0 <= i < |a.entries| && 0 <= j < |b.entries| && a.entries[i].key == b.entries[j].key
        ensures SortValue(a.entries[i].value) == SortValue(b.entries[j].value)
      {
        ObjectMeaning(a.entries, a.entries[i]);
        ObjectMeaning(b.entries, b.entries[j]);
        SameMeaningSameSort(a.entries[i].value, b.entries[j].value);
      }
      SameChildren(a, b);
      ArrangedSame(Children(a), Children(b));
    }
  }

  lemma SameChildren(a: Tree, b: Tree)
    requires a.Record? && b.Record? && Meaning(a) == Meaning(b)
    requires forall i, j :: 0 <= i < |a.entries| && 0 <= j < |b.entries| && a.entries[i].key == b.entries[j].key ==>
               SortValue(a.entries[i].value) == SortValue(b.entries[j].value)
    ensures forall x :: x in Children(a) <==> x in Children(b)
  {
    var m, n := Meaning(a).fields, Meaning(b).fields;
    forall i | 0 <= i < |a.entries| ensures Children(a)[i] in Children(b) {
      var k := a.entries[i].key;
      assert Keys(a.entries)[i] == k && k in m;
      assert Children(b)[Lookup(b.entries, k)] == Children(a)[i];
    }
    forall j | 0 <= j < |b.entries| ensures Children(b)[j] in Children(a) {
      var k := b.entries[j].key;
      assert Keys(b.entries)[j] == k && k in n;
      assert Children(a)[Lookup(a.entries, k)] == Children(b)[j];
    }
  }

  /** Sorting twice is sorting once. */
  lemma SortIdempotent(t: Tree)
    requires Plain(t)
    ensures SortValue(SortValue(t)) == SortValue(t)
  {
    SortKeepsMeaning(t);
    SortIsCanonical(SortValue(t), t);
  }

  // ------------------------------------------------------------------ the order of the keys

  lemma LargestIndex()
    ensures |"4294967295"| == 10 && AllDigits("4294967295") && DigitsValue("4294967295") == 4294967295
  {
    var s := "4294967295";
    assert s[..9] == "429496729" && s[..9][..8] == "42949672" && "42949672"[..7] == "4294967" && "4294967"[..6] == "429496";
    assert "429496"[..5] == "42949" && "42949"[..4] == "4294" && "4294"[..3] == "429" && "429"[..2] == "42" && "42"[..1] == "4" && "4"[..0] == "";
    assert DigitsValue("4") == 4 && DigitsValue("42") == 42 && DigitsValue("429") == 429 && DigitsValue("4294") == 4294;
    assert DigitsValue("42949") == 42949 && DigitsValue("429496") == 429496 && DigitsValue("4294967") == 4294967;
    assert DigitsValue("42949672") == 42949672 && DigitsValue("429496729") == 429496729;
  }

  /** The integer-like keys are the array indices: the numbers below 2^32 - 1 as JavaScript
      writes them. */
  lemma IntegerLikeMeaning(k: string)
    ensures IntegerLike(k) <==> k != "" && AllDigits(k) && (k[0] == '0' ==> |k| == 1) && DigitsValue(k) < 4294967295
    ensures IntegerLike(k) ==> k == Decimal(DigitsValue(k))
  {
    if k != "" && AllDigits(k) && (k[0] == '0' ==> |k| == 1) {
      LargestIndex();
      NumeralOrder(k, "4294967295");
      ReadsDecimal(k);
    }
  }

  /** Integer-like keys are ordered by their values. */
  lemma NumberLessMeaning(a: string, b: string)
    requires IntegerLike(a) && IntegerLike(b)
    ensures AllDigits(a) && AllDigits(b) && (NumberLess(a, b) <==> DigitsValue(a) < DigitsValue(b))
  {
    NumeralOrder(a, b);
  }

  /** JavaScript's order of own keys added in sorted order: integer-like keys by value, then the
      others by UTF-16 unit. */
  predicate ScriptLess(a: string, b: string) {
    if IntegerLike(a) then !IntegerLike(b) || NumberLess(a, b) else !IntegerLike(b) && UnitLess(a, b)
  }

  lemma ScriptLessIsOrder()
    ensures Order(ScriptLess)
  {
    TextLessIsOrder();
    UnitLessIsOrder();
  }

  lemma PrependAscends(e: Entry, es: seq<Entry>)
    requires Ascending(ScriptLess, Keys(es)) && forall x :: x in es ==> ScriptLess(e.key, x.key)
    ensures Ascending(ScriptLess, Keys([e] + es))
  {
    var r := [e] + es;
    forall i, j | 0 <= i < j < |r| ensures ScriptLess(Keys(r)[i], Keys(r)[j]) {
      if i == 0 {
        assert es[j - 1] in es;
      } else {
        assert Keys(es)[i - 1] == Keys(r)[i] && Keys(es)[j - 1] == Keys(r)[j];
      }
    }
  }

  lemma TailAscends(es: seq<Entry>)
    requires es != [] && Ascending(ScriptLess, Keys(es))
    ensures Ascending(ScriptLess, Keys(es[1..])) && forall x :: x in es[1..] ==> ScriptLess(es[0].key, x.key)
  {
    assert Keys(es) == [es[0].key] + Keys(es[1..]);
    forall x | x in es[1..] ensures ScriptLess(es[0].key, x.key) {
      KeyOfEntry(es[1..], x);
    }
  }

  lemma ScriptLessFrom(a: string, b: string, c: string)
    requires ScriptLess(a, b) && ScriptLess(b, c)
    ensures ScriptLess(a, c)
  {
    ScriptLessIsOrder();
  }

  lemma NumbersTotal(a: string, b: string)
    ensures a == b || NumberLess(a, b) || NumberLess(b, a)
  {
    TextLessTotal(a, b);
  }

  /** An entry that belongs before the first one belongs before all. */
  lemma BeforeAll(e: Entry, es: seq<Entry>)
    requires es != [] && Ascending(ScriptLess, Keys(es)) && ScriptLess(e.key, es[0].key)
    ensures forall x :: x in es ==> ScriptLess(e.key, x.key)
  {
    TailAscends(es);
    assert es == [es[0]] + es[1..];
    forall x | x in es[1..] ensures ScriptLess(e.key, x.key) {
      ScriptLessFrom(e.key, es[0].key, x.key);
    }
  }

  lemma {:induction false} InsertIndexAscends(es: seq<Entry>, e: Entry)
    requires IntegerLike(e.key) && e.key !in Keys(es) && Ascending(ScriptLess, Keys(es))
    ensures Ascending(ScriptLess, Keys(InsertIndex(es, e)))
  {
    if es == [] {
      PrependAscends(e, es);
    } else if !IntegerLike(es[0].key) || NumberLess(e.key, es[0].key) {
      BeforeAll(e, es);
      PrependAscends(e, es);
    } else {
      TailAscends(es);
      assert Keys(es) == [es[0].key] + Keys(es[1..]);
      InsertIndexAscends(es[1..], e);
      InsertIndexKeeps(es[1..], e);
      NumbersTotal(e.key, es[0].key);
      PrependAscends(es[0], InsertIndex(es[1..], e));
    }
  }

  lemma AppendAscends(es: seq<Entry>, e: Entry)
    requires Ascending(ScriptLess, Keys(es)) && forall x :: x in es ==> ScriptLess(x.key, e.key)
    ensures Ascending(ScriptLess, Keys(es + [e]))
  {
    var r := es + [e];
    forall i, j | 0 <= i < j < |r| ensures ScriptLess(Keys(r)[i], Keys(r)[j]) {
      assert r[i] == es[i] && es[i] in es;
      if j < |es| { assert Keys(es)[i] == Keys(r)[i] && Keys(es)[j] == Keys(r)[j]; }
    }
  }

  lemma AssignAscends(es: seq<Entry>, k: string, v: Tree)
    requires k !in Keys(es) && Ascending(ScriptLess, Keys(es))
    requires forall x :: x in es && !IntegerLike(x.key) ==> UnitLess(x.key, k)
    ensures Ascending(ScriptLess, Keys(Assign(es, k, v)))
  {
    if IntegerLike(k) {
      InsertIndexAscends(es, Entry(k, v));
    } else {
      AppendAscends(es, Entry(k, v));
    }
  }

  lemma {:induction false} FilledAscends(es: seq<Entry>, ks: seq<string>)
    requires Ascending(UnitLess, ks) && Distinct(ks) && forall k :: k in ks ==> k in Keys(es)
    ensures Ascending(ScriptLess, Keys(Filled(es, ks)))
  {
    if ks != [] {
      var n := |ks| - 1;
      var k, init := ks[n], ks[..n];
      var before := Filled(es, init);
      FilledAscends(es, init);
      FilledEntries(es, init);
      forall x | x in before ensures UnitLess(x.key, k) && x.key != k {
        var i :| 0 <= i < |init| && init[i] == x.key;
        assert UnitLess(ks[i], ks[n]) && ks[i] != ks[n];
      }
      FreshKey(k, before);
      AssignAscends(before, k, es[Lookup(es, k)].value);
    }
  }

  lemma ArrangedKeys(es: seq<Entry>)
    ensures Ascending(ScriptLess, Keys(Arranged(es)))
    ensures forall k :: k in Keys(Arranged(es)) <==> k in Keys(es)
  {
    var ks, out := SortedKeys(es), Keys(Arranged(es));
    UnitLessIsOrder();
    SortMeaning(UnitLess, Keys(es));
    SortedKeysDistinct(es);
    FilledAscends(es, ks);
    FilledEntries(es, ks);
    forall k | k in ks ensures k in out {
      KeyOfEntry(Arranged(es), es[Lookup(es, k)]);
    }
    forall k | k in out ensures k in ks {
      assert Arranged(es)[Lookup(Arranged(es), k)] in Arranged(es);
    }
  }

  lemma SortedBy(lt: (string, string) -> bool, s: seq<string>, out: seq<string>)
    requires Order(lt) && Ascending(lt, out) && forall k :: k in out <==> k in s
    ensures out == SortDistinct(lt, s)
  {
    SortMeaning(lt, s);
    var sorted := SortDistinct(lt, s);
    assert forall k :: k in sorted <==> k in Elems(sorted);
    assert forall k :: k in s <==> k in Elems(s);
    AscendingUnique(lt, out, sorted);
  }

  /** Every object comes out with exactly its keys, in JavaScript's order. */
  lemma KeysInScriptOrder(t: Tree)
    requires t.Record?
    ensures Keys(SortValue(t).entries) == SortDistinct(ScriptLess, Keys(t.entries))
  {
    ArrangedKeys(Children(t));
    ScriptLessIsOrder();
    SortedBy(ScriptLess, Keys(t.entries), Keys(SortValue(t).entries));
  }

  /** `b` belongs before `a` by code point, but JavaScript puts it after: before an
      integer-like key stands one that is not integer-like, or a longer number; or neither is
      integer-like and the planes swap. */
  predicate Misplaced(b: string, a: string) {
    if IntegerLike(a) then TextLess(b, a) && (!IntegerLike(b) || |b| > |a|)
    else !IntegerLike(b) && PlanesSwap(b, a)
  }

  /** An object comes out with its keys strictly ascending, the order of the Rust serializer,
      exactly when no key is misplaced. */
  lemma KeysAscend(t: Tree)
    requires t.Record?
    ensures Elems(Keys(SortValue(t).entries)) == Elems(Keys(t.entries))
    ensures Ascending(TextLess, Keys(SortValue(t).entries)) <==>
              forall a, b :: a in Keys(t.entries) && b in Keys(t.entries) ==> !Misplaced(b, a)
  {
    ArrangedKeys(Children(t));
    AscendingIff(Keys(SortValue(t).entries));
  }

  /** For keys in JavaScript's order, code-point order is the absence of a misplaced one. */
  lemma PairInOrder(a: string, b: string)
    requires ScriptLess(a, b)
    ensures (TextLess(a, b) <==> !Misplaced(b, a)) && !Misplaced(a, b)
  {
    TextLessTotal(a, b);
    UnitLessTotal(a, b);
    OrdersDiffer(a, b);
    OrdersDiffer(b, a);
  }

  lemma NeverMisplaced(a: string)
    ensures !Misplaced(a, a)
  {
    TextLessTotal(a, a);
    OrdersDiffer(a, a);
  }

  lemma AscendingIff(out: seq<string>)
    requires Ascending(ScriptLess, out)
    ensures Ascending(TextLess, out) <==> forall a, b :: a in out && b in out ==> !Misplaced(b, a)
  {
    forall i, j | 0 <= i < j < |out|
      ensures (TextLess(out[i], out[j]) <==> !Misplaced(out[j], out[i])) && !Misplaced(out[i], out[j])
    {
      PairInOrder(out[i], out[j]);
    }
    forall i | 0 <= i < |out| ensures !Misplaced(out[i], out[i]) {
      NeverMisplaced(out[i]);
    }
    AscendingUnlessBad(TextLess, (a, b) => Misplaced(b, a), out);
  }

  /** The step keys "2" and "10" come out in the other order. */
  lemma StepKeysMisplaced(x: Tree, y: Tree)
    ensures Keys(SortValue(Record([Entry("10", x), Entry("2", y)])).entries) == ["2", "10"] && Misplaced("10", "2")
  {
    var t := Record([Entry("10", x), Entry("2", y)]);
    KeysInScriptOrder(t);
    assert Keys(t.entries) == ["10", "2"];
    assert IntegerLike("2") && IntegerLike("10") && NumberLess("2", "10");
    assert ["10", "2"][..1] == ["10"] && ["10"][..0] == [];
    assert ["10"][1..] == [];
    assert TextLess("10", "2");
  }
}
