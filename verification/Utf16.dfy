/** The order of JavaScript's default sort: strings compared by their UTF-16 units. Rust orders
    them by code point. */
module Utf16 {
  import opened Sorting

  /** A character above the first plane takes two units, a lead and a trail surrogate. */
  function UnitsOf(c: char): (us: seq<nat>)
    ensures us != []
  {
    var n := c as nat;
    if n < 0x10000 then [n] else [0xD800 + (n - 0x10000) / 0x400, 0xDC00 + (n - 0x10000) % 0x400]
  }

  /** One unit below the surrogates or above them; else a lead and a trail that spell the code
      point, ten bits each. */
  lemma UnitsMeaning(c: char)
    ensures |UnitsOf(c)| == 1 ==> UnitsOf(c) == [c as nat] && (UnitsOf(c)[0] < 0xD800 || 0xE000 <= UnitsOf(c)[0] < 0x10000)
    ensures |UnitsOf(c)| != 1 ==>
      && |UnitsOf(c)| == 2 && 0xD800 <= UnitsOf(c)[0] < 0xDC00 && 0xDC00 <= UnitsOf(c)[1] < 0xE000
      && c as nat == 0x10000 + (UnitsOf(c)[0] - 0xD800) * 0x400 + (UnitsOf(c)[1] - 0xDC00)
  {
  }

  function Units(s: string): seq<nat> {
    if s == "" then [] else UnitsOf(s[0]) + Units(s[1..])
  }

  predicate NatsLess(a: seq<nat>, b: seq<nat>) {
    if b == [] then false
    else if a == [] then true
    else a[0] < b[0] || (a[0] == b[0] && NatsLess(a[1..], b[1..]))
  }

  predicate UnitLess(a: string, b: string) {
    NatsLess(Units(a), Units(b))
  }

  /** The units of `c` come first: by code point, except that two units sort below the top of
      the first plane. */
  predicate CharBefore(c: char, d: char) {
    if c as nat < 0x10000 <= d as nat then (c as nat) < 0xD800
    else if d as nat < 0x10000 <= c as nat then 0xE000 <= d as nat
    else c < d
  }

  /** The strings part at a character from the top of the first plane in `a` and one above
      that plane in `b`: the two orders disagree. */
  predicate PlanesSwap(a: string, b: string) {
    a != "" && b != "" &&
    if a[0] == b[0] then PlanesSwap(a[1..], b[1..]) else 0xE000 <= a[0] as nat < 0x10000 <= b[0] as nat
  }

  lemma UnitsStart(c: char, d: char, x: seq<nat>, y: seq<nat>)
    requires c != d
    ensures NatsLess(UnitsOf(c) + x, UnitsOf(d) + y) <==> CharBefore(c, d)
  {
    var a, b := UnitsOf(c) + x, UnitsOf(d) + y;
    var m, n := c as nat, d as nat;
    assert a[0] == UnitsOf(c)[0] && b[0] == UnitsOf(d)[0];
    if m >= 0x10000 && n >= 0x10000 && a[0] == b[0] {
      assert a[1..][0] == UnitsOf(c)[1] && b[1..][0] == UnitsOf(d)[1];
    }
  }

  lemma {:induction false} CommonStart(u: seq<nat>, x: seq<nat>, y: seq<nat>)
    ensures NatsLess(u + x, u + y) <==> NatsLess(x, y)
  {
    if u == [] {
      assert u + x == x && u + y == y;
    } else {
      CommonStart(u[1..], x, y);
      assert (u + x)[1..] == u[1..] + x && (u + y)[1..] == u[1..] + y;
    }
  }

  /** Units compare like characters under `CharBefore`. */
  lemma UnitLessStep(a: string, b: string)
    ensures UnitLess(a, b) <==>
      if b == "" then false
      else if a == "" then true
      else if a[0] == b[0] then UnitLess(a[1..], b[1..])
      else CharBefore(a[0], b[0])
  {
    if a != "" && b != "" {
      if a[0] == b[0] {
        CommonStart(UnitsOf(a[0]), Units(a[1..]), Units(b[1..]));
      } else {
        UnitsStart(a[0], b[0], Units(a[1..]), Units(b[1..]));
      }
    }
  }

  lemma {:induction false} UnitLessTotal(a: string, b: string)
    ensures a == b || UnitLess(a, b) || UnitLess(b, a)
    ensures !(UnitLess(a, b) && UnitLess(b, a)) && !UnitLess(a, a)
    decreases |a|
  {
    UnitLessStep(a, b);
    UnitLessStep(b, a);
    UnitLessStep(a, a);
    if a != "" {
      UnitLessTotal(a[1..], if b == "" then "" else b[1..]);
      assert a == [a[0]] + a[1..];
    }
    if b != "" { assert b == [b[0]] + b[1..]; }
  }

  lemma {:induction false} UnitLessTransitive(a: string, b: string, c: string)
    requires UnitLess(a, b) && UnitLess(b, c)
    ensures UnitLess(a, c)
    decreases |a|
  {
    UnitLessStep(a, b);
    UnitLessStep(b, c);
    UnitLessStep(a, c);
    if a != "" && a[0] == b[0] == c[0] {
      UnitLessTransitive(a[1..], b[1..], c[1..]);
    }
  }

  lemma UnitLessIsOrder()
    ensures Order(UnitLess)
  {
    forall a, b ensures a == b || UnitLess(a, b) || UnitLess(b, a) { UnitLessTotal(a, b); }
    forall a ensures !UnitLess(a, a) { UnitLessTotal(a, a); }
    forall a, b, c | UnitLess(a, b) && UnitLess(b, c) ensures UnitLess(a, c) {
      UnitLessTransitive(a, b, c);
    }
  }

  /** The two orders disagree on a pair exactly when the planes are swapped at its first
      difference. */
  lemma {:induction false} OrdersDiffer(a: string, b: string)
    ensures TextLess(a, b) && UnitLess(b, a) <==> PlanesSwap(a, b)
    decreases |a|
  {
    UnitLessStep(b, a);
    if a != "" && b != "" && a[0] == b[0] {
      OrdersDiffer(a[1..], b[1..]);
    }
  }

  lemma PairAgrees(a: string, b: string)
    ensures TextLess(a, b) ==> (UnitLess(a, b) <==> !PlanesSwap(a, b)) && !PlanesSwap(b, a)
    ensures !PlanesSwap(a, a)
  {
    OrdersDiffer(a, b);
    OrdersDiffer(b, a);
    OrdersDiffer(a, a);
    UnitLessTotal(a, b);
    TextLessTotal(a, b);
    TextLessTotal(a, a);
  }

  /** A list in code-point order is in unit order exactly when no two of its strings swap. */
  lemma OrdersAgree(s: seq<string>)
    requires Ascending(TextLess, s)
    ensures Ascending(UnitLess, s) <==> forall a, b :: a in s && b in s ==> !PlanesSwap(a, b)
  {
    forall i, j | 0 <= i <= j < |s|
      ensures i < j ==> (UnitLess(s[i], s[j]) <==> !PlanesSwap(s[i], s[j])) && !PlanesSwap(s[j], s[i])
      ensures !PlanesSwap(s[i], s[i])
    {
      PairAgrees(s[i], s[j]);
    }
    AscendingUnlessBad(UnitLess, PlanesSwap, s);
  }
}
