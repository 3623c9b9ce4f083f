/** The hand-written base64 codec (section 4 of RFC 4648). Shifts and masks are written as
    division and remainder; the decoder's accumulator is a wrapping 32-bit integer. */
module Base64 {
  import opened Lists

  type Byte = x: int | 0 <= x < 256
  type Sextet = x: int | 0 <= x < 64

  const UPPER := "ABCDEFGHIJKLMNOPQRSTUVWXYZ"
  const LOWER := "abcdefghijklmnopqrstuvwxyz"
  const REST := "0123456789+/"
  const B64 := UPPER + LOWER + REST

  // ------------------------------------------------------------------ the alphabet

  /** The character of a sextet. */
  function CharOf(v: Sextet): char {
    if v < 26 then ('A' as int + v) as char
    else if v < 52 then ('a' as int + v - 26) as char
    else if v < 62 then ('0' as int + v - 52) as char
    else if v == 62 then '+' else '/'
  }

  /** The sextet of a character, or -1. */
  function ValueOf(c: char): (v: int)
    ensures -1 <= v < 64
  {
    if 'A' <= c <= 'Z' then c as int - 'A' as int
    else if 'a' <= c <= 'z' then c as int - 'a' as int + 26
    else if '0' <= c <= '9' then c as int - '0' as int + 52
    else if c == '+' then 62 else if c == '/' then 63 else -1
  }

  lemma ValueOfChar(v: Sextet)
    ensures ValueOf(CharOf(v)) == v && CharOf(v) != '='
  {
  }

  lemma CharOfValue(c: char)
    requires ValueOf(c) >= 0
    ensures CharOf(ValueOf(c)) == c
  {
  }

  lemma UpperRange(i: int)
    requires 0 <= i < 26
    ensures |UPPER| == 26 && UPPER[i] == ('A' as int + i) as char
  {
  }

  lemma LowerRange(i: int)
    requires 0 <= i < 26
    ensures |LOWER| == 26 && LOWER[i] == ('a' as int + i) as char
  {
  }

  lemma RestRange(i: int)
    requires 0 <= i < 12
    ensures |REST| == 12 && REST[i] == if i < 10 then ('0' as int + i) as char else if i == 10 then '+' else '/'
  {
  }

  lemma PartLengths()
    ensures |UPPER| == 26 && |LOWER| == 26 && |REST| == 12
  {
  }

  /** `CharOf` is `B64.charAt`. */
  lemma CharOfIsCharAt(v: Sextet)
    ensures |B64| == 64 && CharOf(v) == B64[v]
    ensures v == 62 ==> CharOf(v) == '+'
    ensures v == 63 ==> CharOf(v) == '/'
  {
    PartLengths();
    if v < 26 {
      UpperRange(v);
    } else if v < 52 {
      LowerRange(v - 26);
    } else {
      RestRange(v - 52);
    }
  }

  /** `ValueOf` is `B64.indexOf`. */
  lemma ValueOfIsIndexOf(c: char)
    ensures c in B64 <==> ValueOf(c) >= 0
    ensures c in B64 ==> IndexOf(B64, c) == ValueOf(c)
  {
    if c in B64 {
      var i := IndexOf(B64, c);
      CharOfIsCharAt(0);
      CharOfIsCharAt(i);
      ValueOfChar(i);
    } else if ValueOf(c) >= 0 {
      CharOfValue(c);
      CharOfIsCharAt(ValueOf(c));
    }
  }

  // ------------------------------------------------------------------ groups

  // The four sextets of three bytes, and the three bytes of four sextets.
  function S0(x: Byte): Sextet { x / 4 }
  function S1(x: Byte, y: Byte): Sextet { (x % 4) * 16 + y / 16 }
  function S2(y: Byte, z: Byte): Sextet { (y % 16) * 4 + z / 64 }
  function S3(z: Byte): Sextet { z % 64 }
  function B0(v: Sextet, w: Sextet): Byte { (v as int) * 4 + (w as int) / 16 }
  function B1(w: Sextet, x: Sextet): Byte { (w as int % 16) * 16 + (x as int) / 4 }
  function B2(x: Sextet, y: Sextet): Byte { (x as int % 4) * 64 + y as int }

  /** The sextets that hold the bits of `b`: four per three bytes, the last group filled up
      with zero bits. */
  function Sextets(b: seq<Byte>): seq<Sextet> {
    if |b| == 0 then []
    else if |b| == 1 then [S0(b[0]), S1(b[0], 0)]
    else if |b| == 2 then [S0(b[0]), S1(b[0], b[1]), S2(b[1], 0)]
    else [S0(b[0]), S1(b[0], b[1]), S2(b[1], b[2]), S3(b[2])] + Sextets(b[3..])
  }

  /** The whole bytes held by `vs`: three per four sextets; left-over bits are dropped. */
  function Bytes(vs: seq<Sextet>): seq<Byte> {
    if |vs| < 2 then []
    else if |vs| == 2 then [B0(vs[0], vs[1])]
    else if |vs| == 3 then [B0(vs[0], vs[1]), B1(vs[1], vs[2])]
    else [B0(vs[0], vs[1]), B1(vs[1], vs[2]), B2(vs[2], vs[3])] + Bytes(vs[4..])
  }

  lemma ByteBack(x: Byte, y: Byte, z: Byte)
    ensures B0(S0(x), S1(x, y)) == x && B1(S1(x, y), S2(y, z)) == y && B2(S2(y, z), S3(z)) == z
  {
  }

  lemma BytesOfTwo(v: Sextet, w: Sextet)
    ensures Bytes([v, w]) == [B0(v, w)]
  {
  }

  lemma BytesOfThree(v: Sextet, w: Sextet, x: Sextet)
    ensures Bytes([v, w, x]) == [B0(v, w), B1(w, x)]
  {
  }

  lemma BytesOfFour(v: Sextet, w: Sextet, x: Sextet, y: Sextet, rest: seq<Sextet>)
    ensures Bytes([v, w, x, y] + rest) == [B0(v, w), B1(w, x), B2(x, y)] + Bytes(rest)
  {
    assert ([v, w, x, y] + rest)[4..] == rest;
  }

  /** Cutting bytes into sextets and back is the identity. */
  lemma {:induction false} Regroup(b: seq<Byte>)
    ensures Bytes(Sextets(b)) == b
  {
    if |b| > 2 {
      Regroup(b[3..]);
      ByteBack(b[0], b[1], b[2]);
      BytesOfFour(S0(b[0]), S1(b[0], b[1]), S2(b[1], b[2]), S3(b[2]), Sextets(b[3..]));
      assert b == [b[0], b[1], b[2]] + b[3..];
    } else {
      RegroupTail(b);
    }
  }

  lemma SextetsOfOne(x: Byte)
    ensures Sextets([x]) == [S0(x), S1(x, 0)]
  {
  }

  lemma RegroupOne(x: Byte)
    ensures Bytes(Sextets([x])) == [x]
  {
    SextetsOfOne(x);
    BytesOfTwo(S0(x), S1(x, 0));
    assert B0(S0(x), S1(x, 0)) == x by { ByteBack(x, 0, 0); }
  }

  lemma RegroupTwo(x: Byte, y: Byte)
    ensures Bytes(Sextets([x, y])) == [x, y]
  {
    ByteBack(x, y, 0);
    BytesOfThree(S0(x), S1(x, y), S2(y, 0));
    assert Sextets([x, y]) == [S0(x), S1(x, y), S2(y, 0)];
  }

  lemma {:induction false} RegroupTail(b: seq<Byte>)
    requires |b| <= 2
    ensures Bytes(Sextets(b)) == b
  {
    if |b| == 1 {
      RegroupOne(b[0]);
      assert b == [b[0]];
    } else if |b| == 2 {
      RegroupTwo(b[0], b[1]);
      assert b == [b[0], b[1]];
    }
  }

  /** A sextet string an encoder can produce: no lone sextet, no stray trailing bits. */
  predicate Canonical(vs: seq<Sextet>) {
    if |vs| < 4 then |vs| != 1 && (|vs| == 2 ==> vs[1] % 16 == 0) && (|vs| == 3 ==> vs[2] % 4 == 0)
    else Canonical(vs[4..])
  }

  lemma SextetBack(v: Sextet, w: Sextet, x: Sextet, y: Sextet)
    ensures S0(B0(v, w)) == v && S1(B0(v, w), B1(w, x)) == w && S2(B1(w, x), B2(x, y)) == x && S3(B2(x, y)) == y
    ensures S1(B0(v, w), 0) == w <==> w % 16 == 0
    ensures S2(B1(w, x), 0) == x <==> x % 4 == 0
  {
  }

  lemma ReencodeTwo(v: Sextet, w: Sextet)
    ensures Sextets(Bytes([v, w])) == [v, w] <==> w % 16 == 0
  {
    SextetBack(v, w, 0, 0);
    BytesOfTwo(v, w);
    var b := [B0(v, w)];
    assert Sextets(b) == [S0(b[0]), S1(b[0], 0)];
    assert Sextets(b) == [v, w] <==> S1(b[0], 0) == w;
  }

  lemma ReencodeThree(v: Sextet, w: Sextet, x: Sextet)
    ensures Sextets(Bytes([v, w, x])) == [v, w, x] <==> x % 4 == 0
  {
    SextetBack(v, w, x, 0);
    BytesOfThree(v, w, x);
    var b := [B0(v, w), B1(w, x)];
    assert Sextets(b) == [S0(b[0]), S1(b[0], b[1]), S2(b[1], 0)];
    assert Sextets(b) == [v, w, x] <==> S2(b[1], 0) == x;
  }

  lemma {:induction false} ReencodeTail(vs: seq<Sextet>)
    requires |vs| < 4
    ensures Sextets(Bytes(vs)) == vs <==> Canonical(vs)
  {
    if |vs| == 2 {
      ReencodeTwo(vs[0], vs[1]);
      assert vs == [vs[0], vs[1]];
    } else if |vs| == 3 {
      ReencodeThree(vs[0], vs[1], vs[2]);
      assert vs == [vs[0], vs[1], vs[2]];
    }
  }

  lemma {:induction false} ReencodeGroup(vs: seq<Sextet>)
    requires |vs| > 3
    ensures Sextets(Bytes(vs)) == vs <==> Sextets(Bytes(vs[4..])) == vs[4..]
  {
    SextetBack(vs[0], vs[1], vs[2], vs[3]);
    var b, four := Bytes(vs), [vs[0], vs[1], vs[2], vs[3]];
    assert b[3..] == Bytes(vs[4..]);
    assert vs == four + vs[4..];
    assert Sextets(b) == four + Sextets(b[3..]);
    assert Sextets(b)[4..] == Sextets(b[3..]);
  }

  /** Regrouping sextets into bytes and back returns them exactly when they are canonical:
      left-over bits are dropped. */
  lemma {:induction false} CanonicalIffRegroups(vs: seq<Sextet>)
    ensures Sextets(Bytes(vs)) == vs <==> Canonical(vs)
  {
    if |vs| < 4 {
      ReencodeTail(vs);
    } else {
      ReencodeGroup(vs);
      CanonicalIffRegroups(vs[4..]);
    }
  }

  // ------------------------------------------------------------------ text

  /** What the encoder writes: the characters of the sextets, padded to a multiple of four. */
  function Encoded(b: seq<Byte>): string {
    Chars(Sextets(b)) + Padding(|b|)
  }

  function Chars(vs: seq<Sextet>): (s: string)
    ensures |s| == |vs| && forall i :: 0 <= i < |vs| ==> s[i] == CharOf(vs[i])
  {
    seq(|vs|, i requires 0 <= i < |vs| => CharOf(vs[i]))
  }

  function Padding(n: nat): string {
    if n % 3 == 0 then "" else if n % 3 == 1 then "==" else "="
  }

  function StripPadding(s: string): string {
    if s != "" && s[|s| - 1] == '=' then StripPadding(s[..|s| - 1]) else s
  }

  predicate AllInAlphabet(s: string) {
    forall i :: 0 <= i < |s| ==> ValueOf(s[i]) >= 0
  }

  function Values(s: string): (vs: seq<Sextet>)
    requires AllInAlphabet(s)
    ensures |vs| == |s| && forall i :: 0 <= i < |s| ==> vs[i] == ValueOf(s[i])
  {
    seq(|s|, i requires 0 <= i < |s| => ValueOf(s[i]))
  }

  /** What the decoder computes: an error on a character outside the alphabet (padding inside
      the text included), else the whole bytes. */
  function Decoded(s: string): Option<seq<Byte>> {
    var clean := StripPadding(s);
    if AllInAlphabet(clean) then Some(Bytes(Values(clean))) else None
  }

  lemma {:induction false} StripPadded(s: string, pad: string)
    requires (s == "" || s[|s| - 1] != '=') && forall i :: 0 <= i < |pad| ==> pad[i] == '='
    ensures StripPadding(s + pad) == s
  {
    if pad == "" {
      assert s + pad == s;
    } else {
      StripPadded(s, pad[..|pad| - 1]);
      assert (s + pad)[..|s + pad| - 1] == s + pad[..|pad| - 1];
    }
  }

  /** Every byte string survives encoding and decoding. */
  lemma RoundTrip(b: seq<Byte>)
    ensures Decoded(Encoded(b)) == Some(b)
  {
    var vs := Sextets(b);
    var text := Chars(vs);
    forall i | 0 <= i < |vs| ensures ValueOf(text[i]) == vs[i] && text[i] != '=' {
      ValueOfChar(vs[i]);
    }
    StripPadded(text, Padding(|b|));
    assert Values(text) == vs;
    Regroup(b);
  }

  lemma CharsOfValues(s: string)
    requires AllInAlphabet(s)
    ensures Chars(Values(s)) == s
  {
    forall i | 0 <= i < |s| ensures Chars(Values(s))[i] == s[i] {
      CharOfValue(s[i]);
    }
  }

  lemma StripChars(vs: seq<Sextet>, n: nat)
    ensures StripPadding(Chars(vs) + Padding(n)) == Chars(vs)
    ensures AllInAlphabet(Chars(vs)) && Values(Chars(vs)) == vs
  {
    var text := Chars(vs);
    forall i | 0 <= i < |vs| ensures ValueOf(text[i]) == vs[i] && text[i] != '=' {
      ValueOfChar(vs[i]);
    }
    StripPadded(text, Padding(n));
  }

  /** Encoding what was decoded gives the text back exactly when its characters leave no stray
      bits and its padding is the encoder's; the decoder accepts any padding. */
  lemma CanonicalIffReencodes(s: string)
    requires Decoded(s).Some?
    ensures Encoded(Decoded(s).value) == s <==>
              Canonical(Values(StripPadding(s))) && s == StripPadding(s) + Padding(|Decoded(s).value|)
  {
    var clean := StripPadding(s);
    var vs := Values(clean);
    var b := Bytes(vs);
    CanonicalIffRegroups(vs);
    CharsOfValues(clean);
    if Encoded(b) == s {
      StripChars(Sextets(b), |b|);
    }
  }

  // ------------------------------------------------------------------ the encoder

  function ByteOr0(b: seq<Byte>, i: nat): Byte {
    if i < |b| then b[i] else 0
  }

  /** Up to four digits as a number, most significant first. */
  function Number(base: int, a: int, b: int, c: int, d: int): int {
    ((a * base + b) * base + c) * base + d
  }

  lemma TripleBits(x: Byte, y: Byte, z: Byte)
    ensures Number(64, S0(x), S1(x, y), S2(y, z), S3(z)) == Number(256, 0, x, y, z)
  {
  }

  lemma DoubleBits(x: Byte, y: Byte)
    ensures Number(64, 0, S0(x), S1(x, y), S2(y, 0)) == 4 * Number(256, 0, 0, x, y)
  {
  }

  lemma SingleBits(x: Byte)
    ensures Number(64, 0, 0, S0(x), S1(x, 0)) == 16 * Number(256, 0, 0, 0, x)
  {
  }

  lemma {:induction false} SextetsFrom(b: seq<Byte>, k: nat)
    requires 3 * k <= |b|
    ensures |Sextets(b)| == 4 * k + |Sextets(b[3 * k..])| && Sextets(b)[4 * k..] == Sextets(b[3 * k..])
    decreases k
  {
    if k == 0 {
      assert b[0..] == b;
    } else {
      var s, rest := Sextets(b), b[3..];
      SextetsFrom(rest, k - 1);
      assert rest[3 * (k - 1)..] == b[3 * k..];
      assert s[4..] == Sextets(rest);
      assert s[4 * k..] == s[4..][4 * (k - 1)..];
    }
  }

  /** Group by group, the sextets are the bits of the bytes, most significant first: four sextets
      and three bytes are the same 24-bit number; a last group is shifted up to whole sextets. */
  lemma GroupBits(b: seq<Byte>, k: nat)
    requires 3 * k < |b|
    ensures var s, n := Sextets(b), |b| - 3 * k;
      && |s| >= 4 * k + (if n >= 3 then 4 else n + 1) && (n < 3 ==> |s| == 4 * k + n + 1)
      && (if n >= 3 then Number(64, s[4 * k], s[4 * k + 1], s[4 * k + 2], s[4 * k + 3]) == Number(256, 0, b[3 * k], b[3 * k + 1], b[3 * k + 2])
          else if n == 2 then Number(64, 0, s[4 * k], s[4 * k + 1], s[4 * k + 2]) == 4 * Number(256, 0, 0, b[3 * k], b[3 * k + 1])
          else Number(64, 0, 0, s[4 * k], s[4 * k + 1]) == 16 * Number(256, 0, 0, 0, b[3 * k]))
  {
    var s, c := Sextets(b), b[3 * k..];
    SextetsFrom(b, k);
    var t := Sextets(c);
    assert forall i :: 0 <= i < |t| ==> s[4 * k..][i] == s[4 * k + i];
    if |c| >= 3 {
      TripleBits(c[0], c[1], c[2]);
    } else if |c| == 2 {
      DoubleBits(c[0], c[1]);
    } else {
      SingleBits(c[0]);
    }
  }

  /** The text of one group of up to three bytes. */
  function GroupText(b0: Byte, b1: Byte, b2: Byte, n: nat): string {
    [CharOf(S0(b0)), CharOf(S1(b0, b1))] +
    (if n > 1 then [CharOf(S2(b1, b2))] else "=") + (if n > 2 then [CharOf(S3(b2))] else "=")
  }

  lemma CharsConcat(a: seq<Sextet>, b: seq<Sextet>)
    ensures Chars(a + b) == Chars(a) + Chars(b)
  {
  }

  lemma FourChars(v: Sextet, w: Sextet, x: Sextet, y: Sextet)
    ensures Chars([v, w, x, y]) == [CharOf(v), CharOf(w), CharOf(x), CharOf(y)]
  {
  }

  lemma GroupOfThree(x: Byte, y: Byte, z: Byte, n: nat)
    requires n > 2
    ensures Chars([S0(x), S1(x, y), S2(y, z), S3(z)]) == GroupText(x, y, z, n)
  {
    FourChars(S0(x), S1(x, y), S2(y, z), S3(z));
  }

  lemma PaddingRepeats(n: nat)
    ensures Padding(n + 3) == Padding(n)
  {
  }

  lemma {:induction false} FullGroup(b: seq<Byte>)
    requires |b| > 2
    ensures Encoded(b) == GroupText(b[0], b[1], b[2], |b|) + Encoded(b[3..])
  {
    var four: seq<Sextet> := [S0(b[0]), S1(b[0], b[1]), S2(b[1], b[2]), S3(b[2])];
    CharsConcat(four, Sextets(b[3..]));
    GroupOfThree(b[0], b[1], b[2], |b|);
    PaddingRepeats(|b[3..]|);
  }

  /** The text after the first group. */
  function AfterGroup(b: seq<Byte>): string {
    if |b| >= 3 then Encoded(b[3..]) else ""
  }

  lemma {:induction false} EncodedGroup(b: seq<Byte>)
    requires b != []
    ensures Encoded(b) == GroupText(b[0], ByteOr0(b, 1), ByteOr0(b, 2), |b|) + AfterGroup(b)
  {
    if |b| > 2 {
      FullGroup(b);
    } else if |b| == 1 {
      assert Encoded(b) == GroupText(b[0], 0, 0, 1);
    } else {
      assert Encoded(b) == GroupText(b[0], b[1], 0, 2);
    }
  }

  /** `base64Encode`. */
  method Encode(bytes: seq<Byte>) returns (out: string)
    ensures out == Encoded(bytes)
  {
    out := "";
    var i := 0;
    assert bytes[0..] == bytes && "" + Encoded(bytes) == Encoded(bytes);
    while i < |bytes|
      invariant 0 <= i
      invariant Encoded(bytes) == out + (if i <= |bytes| then Encoded(bytes[i..]) else "")
    {
      var b0 := bytes[i];
      var b1 := ByteOr0(bytes, i + 1);
      var b2 := ByteOr0(bytes, i + 2);
      var text := [CharOf(S0(b0)), CharOf(S1(b0, b1))];
      text := text + if i + 1 < |bytes| then [CharOf(S2(b1, b2))] else "=";
      text := text + if i + 2 < |bytes| then [CharOf(S3(b2))] else "=";
      AppendGroup(bytes, i, out, text);
      out := out + text;
      i := i + 3;
    }
    if i == |bytes| { assert Encoded(bytes[i..]) == ""; }
  }

  lemma AppendGroup(bytes: seq<Byte>, i: nat, out: string, text: string)
    requires i < |bytes| && Encoded(bytes) == out + Encoded(bytes[i..])
    requires text == GroupText(bytes[i], ByteOr0(bytes, i + 1), ByteOr0(bytes, i + 2), |bytes| - i)
    ensures Encoded(bytes) == (out + text) + (if i + 3 <= |bytes| then Encoded(bytes[i + 3..]) else "")
  {
    var b := bytes[i..];
    EncodedGroup(b);
    assert |b| >= 3 ==> b[3..] == bytes[i + 3..];
    assert ByteOr0(b, 1) == ByteOr0(bytes, i + 1) && ByteOr0(b, 2) == ByteOr0(bytes, i + 2);
    assert out + (text + AfterGroup(b)) == (out + text) + AfterGroup(b);
  }

  // ------------------------------------------------------------------ the decoder

  /** JavaScript's ToInt32. */
  function ToInt32(x: int): int {
    var m := x % 0x1_0000_0000;
    if m < 0x8000_0000 then m else m - 0x1_0000_0000
  }

  lemma ToInt32Shift(x: int) returns (w: int)
    ensures ToInt32(x) == x - w * 0x1_0000_0000
  {
    w := if x % 0x1_0000_0000 < 0x8000_0000 then x / 0x1_0000_0000 else x / 0x1_0000_0000 + 1;
  }

  /** Bits that can wait in the accumulator between characters. */
  predicate Waiting(bits: int) {
    bits == 0 || bits == 2 || bits == 4 || bits == 6
  }

  /** The bits waiting after one more sextet. */
  function NextBits(bits: nat): nat {
    if bits + 6 >= 8 then bits + 6 - 8 else bits + 6
  }

  /** How many bits wait after `k` sextets. */
  function BitsAfter(k: nat): (bits: nat)
    ensures Waiting(bits)
  {
    if k == 0 then 0 else NextBits(BitsAfter(k - 1))
  }

  // `buf & (2^bits - 1)` and `buf >> bits`.
  function LowBits(buf: int, bits: nat): int
    requires Waiting(bits)
  {
    if bits == 0 then 0 else if bits == 2 then buf % 4 else if bits == 4 then buf % 16 else buf % 64
  }

  function ShiftRight(buf: int, bits: nat): int
    requires Waiting(bits)
  {
    if bits == 0 then buf else if bits == 2 then buf / 4 else if bits == 4 then buf / 16 else buf / 64
  }

  /** The value of the waiting bits: the low bits of the last sextet. */
  function Low(vs: seq<Sextet>): int {
    if vs == [] then 0 else LowBits(vs[|vs| - 1], BitsAfter(|vs|))
  }

  /** The byte completed by one more sextet, if any. */
  function Completes(bits: nat, low: int, v: Sextet): Option<int>
    requires Waiting(bits)
  {
    if bits == 0 then None
    else if bits == 6 then Some(low * 4 + v / 16)
    else if bits == 4 then Some(low * 16 + v / 4)
    else Some(low * 64 + v)
  }

  predicate Pushes(vs: seq<Sextet>, v: Sextet, c: Option<int>) {
    && (c.Some? ==> 0 <= c.value < 256)
    && Bytes(vs + [v]) == Bytes(vs) + if c.Some? then [c.value] else []
  }

  lemma SmallBits()
    ensures BitsAfter(0) == 0 && BitsAfter(1) == 6 && BitsAfter(2) == 4 && BitsAfter(3) == 2
  {
    assert BitsAfter(1) == NextBits(BitsAfter(0));
    assert BitsAfter(2) == NextBits(BitsAfter(1));
  }

  lemma BitsPeriod(k: nat)
    ensures BitsAfter(k + 4) == BitsAfter(k)
  {
    assert BitsAfter(k + 2) == NextBits(BitsAfter(k + 1));
    assert BitsAfter(k + 3) == NextBits(BitsAfter(k + 2));
  }

  lemma PushSecond(x: Sextet, v: Sextet)
    ensures Pushes([x], v, Completes(6, x % 64, v))
  {
    assert [x] + [v] == [x, v];
    BytesOfTwo(x, v);
  }

  lemma PushThird(x: Sextet, y: Sextet, v: Sextet)
    ensures Pushes([x, y], v, Completes(4, y % 16, v))
  {
    assert [x, y] + [v] == [x, y, v];
    BytesOfTwo(x, y);
    BytesOfThree(x, y, v);
  }

  lemma PushFourth(x: Sextet, y: Sextet, z: Sextet, v: Sextet)
    ensures Pushes([x, y, z], v, Completes(2, z % 4, v))
  {
    assert [x, y, z] + [v] == [x, y, z, v] + [];
    BytesOfThree(x, y, z);
    BytesOfFour(x, y, z, v, []);
  }

  lemma {:induction false} PushTail(vs: seq<Sextet>, v: Sextet)
    requires |vs| < 4
    ensures Pushes(vs, v, Completes(BitsAfter(|vs|), Low(vs), v))
  {
    SmallBits();
    if |vs| == 1 {
      PushSecond(vs[0], v);
      assert vs == [vs[0]];
    } else if |vs| == 2 {
      PushThird(vs[0], vs[1], v);
      assert vs == [vs[0], vs[1]];
    } else if |vs| == 3 {
      PushFourth(vs[0], vs[1], vs[2], v);
      assert vs == [vs[0], vs[1], vs[2]];
    }
  }

  lemma {:induction false} PushAfterFour(vs: seq<Sextet>, v: Sextet, c: Option<int>)
    requires |vs| >= 4 && Pushes(vs[4..], v, c)
    ensures Pushes(vs, v, c)
  {
    var rest := vs[4..];
    BytesOfFour(vs[0], vs[1], vs[2], vs[3], rest);
    BytesOfFour(vs[0], vs[1], vs[2], vs[3], rest + [v]);
    assert vs == [vs[0], vs[1], vs[2], vs[3]] + rest;
    assert vs + [v] == [vs[0], vs[1], vs[2], vs[3]] + (rest + [v]);
  }

  lemma LowAfterFour(vs: seq<Sextet>)
    requires |vs| >= 4
    ensures Low(vs) == Low(vs[4..]) && BitsAfter(|vs|) == BitsAfter(|vs| - 4)
  {
    BitsPeriod(|vs| - 4);
  }

  /** One more sextet adds its completed byte and nothing else. */
  lemma {:induction false} BytesPush(vs: seq<Sextet>, v: Sextet)
    ensures Pushes(vs, v, Completes(BitsAfter(|vs|), Low(vs), v))
  {
    if |vs| < 4 {
      PushTail(vs, v);
    } else {
      BytesPush(vs[4..], v);
      LowAfterFour(vs);
      PushAfterFour(vs, v, Completes(BitsAfter(|vs|), Low(vs), v));
    }
  }

  lemma Quotient(x: int, n: int, q: int, r: int)
    requires n in {1, 4, 16, 64, 256} && x == q * n + r && 0 <= r < n
    ensures x / n == q && x % n == r
  {
    if n == 1 {} else if n == 4 {} else if n == 16 {} else if n == 64 {} else {}
  }

  /** One step on an accumulator: the bits kept, and the byte completed. */
  ghost predicate Stepped(bits: nat, buf: int, v: Sextet, next: int)
    requires Waiting(bits) && Waiting(NextBits(bits))
  {
    && LowBits(next, NextBits(bits)) == LowBits(v, NextBits(bits))
    && (bits != 0 ==> Completes(bits, LowBits(buf, bits), v) == Some(ShiftRight(next, NextBits(bits)) % 256))
  }

  lemma StepFrom0(buf: int, v: Sextet, w: int)
    ensures Stepped(0, buf, v, buf * 64 - w * 0x1_0000_0000 + v)
  {
    Quotient(buf * 64 - w * 0x1_0000_0000 + v, 64, buf - w * 67108864, v);
  }

  lemma StepFrom6(buf: int, v: Sextet, w: int)
    ensures Stepped(6, buf, v, buf * 64 - w * 0x1_0000_0000 + v)
  {
    var next, c, l := buf * 64 - w * 0x1_0000_0000 + v, buf / 64, buf % 64;
    Quotient(next, 16, c * 256 + l * 4 - w * 268435456 + v / 16, v % 16);
    Quotient(next / 16, 256, c - w * 1048576, l * 4 + v / 16);
  }

  lemma StepFrom4(buf: int, v: Sextet, w: int)
    ensures Stepped(4, buf, v, buf * 64 - w * 0x1_0000_0000 + v)
  {
    var next, c, l := buf * 64 - w * 0x1_0000_0000 + v, buf / 16, buf % 16;
    Quotient(next, 4, c * 256 + l * 16 - w * 1073741824 + v / 4, v % 4);
    Quotient(next / 4, 256, c - w * 4194304, l * 16 + v / 4);
  }

  lemma StepFrom2(buf: int, v: Sextet, w: int)
    ensures Stepped(2, buf, v, buf * 64 - w * 0x1_0000_0000 + v)
  {
    var next, c, l := buf * 64 - w * 0x1_0000_0000 + v, buf / 4, buf % 4;
    Quotient(next, 256, c - w * 16777216, l * 64 + v);
  }

  /** The accumulator wraps at 32 bits, but no step reads more than 14 of its low bits. */
  lemma StepBits(bits: nat, buf: int, v: Sextet)
    requires Waiting(bits)
    ensures Waiting(NextBits(bits)) && Stepped(bits, buf, v, ToInt32(buf * 64) + v)
  {
    var w := ToInt32Shift(buf * 64);
    if bits == 0 {
      StepFrom0(buf, v, w);
    } else if bits == 6 {
      StepFrom6(buf, v, w);
    } else if bits == 4 {
      StepFrom4(buf, v, w);
    } else {
      StepFrom2(buf, v, w);
    }
  }

  /** What the loop has done after `k` characters. */
  ghost predicate Progress(clean: string, k: nat, buf: int, bits: nat, written: seq<Byte>)
    requires k <= |clean|
  {
    && AllInAlphabet(clean[..k])
    && bits == BitsAfter(k)
    && LowBits(buf, bits) == Low(Values(clean[..k]))
    && written == Bytes(Values(clean[..k]))
  }

  lemma ValuesPush(clean: string, k: nat)
    requires k < |clean| && AllInAlphabet(clean[..k]) && ValueOf(clean[k]) >= 0
    ensures AllInAlphabet(clean[..k + 1])
    ensures Values(clean[..k + 1]) == Values(clean[..k]) + [ValueOf(clean[k])]
  {
    assert clean[..k + 1] == clean[..k] + [clean[k]];
  }

  lemma StepProgress(clean: string, k: nat, buf: int, bits: nat, written: seq<Byte>, next: int)
    requires k < |clean| && Progress(clean, k, buf, bits, written) && ValueOf(clean[k]) >= 0
    requires next == ToInt32(buf * 64) + ValueOf(clean[k])
    ensures Waiting(NextBits(bits))
    ensures bits + 6 < 8 ==> Progress(clean, k + 1, next, NextBits(bits), written)
    ensures bits + 6 >= 8 ==>
              Progress(clean, k + 1, next, NextBits(bits), written + [ShiftRight(next, NextBits(bits)) % 256])
  {
    var v: Sextet := ValueOf(clean[k]);
    var vs := Values(clean[..k]);
    ValuesPush(clean, k);
    BytesPush(vs, v);
    StepBits(bits, buf, v);
    assert Low(vs + [v]) == LowBits(v, NextBits(bits));
  }

  /** `base64Decode`: the output array has exactly the right size, every cell is written once,
      and none is written past its end. */
  method Decode(s: string) returns (r: Option<seq<Byte>>)
    ensures r == Decoded(s)
  {
    var clean := Strip(s);
    var out := new Byte[|clean| * 3 / 4](_ => 0);
    var oi := 0;
    var buf := 0;
    var bits := 0;
    for k := 0 to |clean|
      invariant 0 <= oi <= out.Length && 0 <= bits < 8 && 8 * oi + bits == 6 * k
      invariant Progress(clean, k, buf, bits, out[..oi])
    {
      var v := ValueOf(clean[k]);
      if v < 0 { return None; }
      var next := ToInt32(buf * 64) + v;
      StepProgress(clean, k, buf, bits, out[..oi], next);
      buf := next;
      bits := bits + 6;
      if bits >= 8 {
        bits := bits - 8;
        out[oi] := ShiftRight(buf, bits) % 256;
        oi := oi + 1;
        assert out[..oi] == out[..oi - 1] + [out[oi - 1]];
      }
    }
    assert clean[..|clean|] == clean && out[..oi] == out[..];
    return Some(out[..]);
  }

  method Strip(s: string) returns (r: string)
    ensures r == StripPadding(s)
  {
    r := s;
    while r != "" && r[|r| - 1] == '='
      invariant StripPadding(r) == StripPadding(s)
      decreases |r|
    {
      r := r[..|r| - 1];
    }
  }
}
