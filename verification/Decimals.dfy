/** Decimal numerals: how the SDK writes numbers into text, and how they are read back. */
module Decimals {
  import opened Sorting

  function Digit(n: nat): char
    requires n < 10
  {
    "0123456789"[n]
  }

  /** `String(n)`. */
  function Decimal(n: nat): string {
    if n < 10 then [Digit(n)] else Decimal(n / 10) + [Digit(n % 10)]
  }

  predicate AllDigits(s: string) {
    forall i :: 0 <= i < |s| ==> '0' <= s[i] <= '9'
  }

  function DigitsValue(s: string): nat
    requires AllDigits(s)
  {
    if s == "" then 0 else DigitsValue(s[..|s| - 1]) * 10 + (s[|s| - 1] as int - '0' as int)
  }

  lemma DigitValue(n: nat)
    requires n < 10
    ensures '0' <= Digit(n) <= '9' && Digit(n) as int - '0' as int == n
  {
    assert "0123456789"[0] == '0' && "0123456789"[1] == '1' && "0123456789"[2] == '2' && "0123456789"[3] == '3';
    assert "0123456789"[4] == '4' && "0123456789"[5] == '5' && "0123456789"[6] == '6' && "0123456789"[7] == '7';
  }

  /** A written number reads back as itself, and has no leading zero but in `0`. */
  lemma {:induction false} DecimalReads(n: nat)
    ensures Decimal(n) != "" && AllDigits(Decimal(n)) && DigitsValue(Decimal(n)) == n
    ensures Decimal(n)[0] == '0' ==> n == 0
  {
    if n < 10 {
      DigitValue(n);
      assert Decimal(n)[..0] == "";
    } else {
      DecimalReads(n / 10);
      DigitValue(n % 10);
      assert Decimal(n)[..|Decimal(n)| - 1] == Decimal(n / 10);
    }
  }

  /** And any digits without a leading zero are what their value is written as. */
  lemma {:induction false} ReadsDecimal(s: string)
    requires s != "" && AllDigits(s) && (s[0] == '0' ==> |s| == 1)
    ensures Decimal(DigitsValue(s)) == s
  {
    var n, last := |s| - 1, s[|s| - 1] as int - '0' as int;
    DigitValue(last);
    assert Digit(last) == s[n];
    if n == 0 {
      assert s[..0] == "" && s == [s[0]];
    } else {
      var init := s[..n];
      ReadsDecimal(init);
      Positive(init);
      DecimalPush(DigitsValue(init), last);
      assert s == init + [s[n]];
    }
  }

  lemma DecimalPush(q: nat, r: nat)
    requires q > 0 && r < 10
    ensures Decimal(q * 10 + r) == Decimal(q) + [Digit(r)]
  {
    assert (q * 10 + r) / 10 == q && (q * 10 + r) % 10 == r;
  }

  lemma {:induction false} Positive(s: string)
    requires s != "" && AllDigits(s) && s[0] != '0'
    ensures DigitsValue(s) > 0
  {
    if |s| > 1 { Positive(s[..|s| - 1]); }
  }

  // ------------------------------------------------------------------ order

  function PowerOfTen(n: nat): nat {
    if n == 0 then 1 else 10 * PowerOfTen(n - 1)
  }

  lemma {:induction false} DigitsBound(s: string)
    requires AllDigits(s)
    ensures DigitsValue(s) < PowerOfTen(|s|)
    ensures s != "" && s[0] != '0' ==> PowerOfTen(|s| - 1) <= DigitsValue(s)
  {
    if s != "" {
      var init := s[..|s| - 1];
      DigitsBound(init);
      if init != "" { assert init[0] == s[0]; }
    }
  }

  lemma {:induction false} PowerGrows(a: nat, b: nat)
    requires a <= b
    ensures PowerOfTen(a) <= PowerOfTen(b)
  {
    if a < b { PowerGrows(a, b - 1); }
  }

  lemma {:induction false} TextLessPush(a: string, b: string, x: char, y: char)
    requires |a| == |b|
    ensures TextLess(a + [x], b + [y]) <==> TextLess(a, b) || (a == b && x < y)
  {
    if a == "" {
      assert a + [x] == [x] && b + [y] == [y];
    } else {
      TextLessPush(a[1..], b[1..], x, y);
      assert (a + [x])[1..] == a[1..] + [x] && (b + [y])[1..] == b[1..] + [y];
      assert a == [a[0]] + a[1..] && b == [b[0]] + b[1..];
    }
  }

  /** Digits of one length compare as text like their values. */
  lemma {:induction false} SameLengthOrder(a: string, b: string)
    requires AllDigits(a) && AllDigits(b) && |a| == |b|
    ensures TextLess(a, b) <==> DigitsValue(a) < DigitsValue(b)
    ensures DigitsValue(a) == DigitsValue(b) ==> a == b
  {
    if a != "" {
      var n := |a| - 1;
      SameLengthOrder(a[..n], b[..n]);
      TextLessPush(a[..n], b[..n], a[n], b[n]);
      assert a == a[..n] + [a[n]] && b == b[..n] + [b[n]];
    }
  }

  /** Numerals without leading zeros compare by length, then as text. */
  lemma NumeralOrder(a: string, b: string)
    requires a != "" && b != "" && AllDigits(a) && AllDigits(b) && (a[0] == '0' ==> |a| == 1) && (b[0] == '0' ==> |b| == 1)
    ensures DigitsValue(a) < DigitsValue(b) <==> |a| < |b| || (|a| == |b| && TextLess(a, b))
  {
    DigitsBound(a);
    DigitsBound(b);
    if |a| == |b| {
      SameLengthOrder(a, b);
    } else if |a| < |b| {
      PowerGrows(|a|, |b| - 1);
    } else {
      PowerGrows(|b|, |a| - 1);
    }
  }
}
