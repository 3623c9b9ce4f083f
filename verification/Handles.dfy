/** Catalog handles and tool ids: the checks an envelope applies, and the default handle
    derived from an App name. */
module Handles {
  import opened Lists

  // ------------------------------------------------------------------ checks

  /** `str::split` on one character. */
  function Split(s: string, sep: char): (parts: seq<string>)
    ensures parts != []
    decreases |s|
  {
    if sep !in s then [s]
    else
      var i := IndexOf(s, sep);
      [s[..i]] + Split(s[i + 1..], sep)
  }

  predicate HandleChar(c: char) {
    'a' <= c <= 'z' || '0' <= c <= '9' || c == '.' || c == '_' || c == '-'
  }

  predicate Edge(c: char) {
    c == '.' || c == '-'
  }

  predicate ValidSegment(s: string) {
    && s != "" && |s| <= 128
    && (forall i :: 0 <= i < |s| ==> HandleChar(s[i]))
    && !Edge(s[0]) && !Edge(s[|s| - 1])
  }

  /** `check_app_handle`. */
  predicate ValidHandle(handle: string) {
    var segments := Split(handle, '/');
    |segments| == 3 && forall i :: 0 <= i < 3 ==> ValidSegment(segments[i])
  }

  /** `check_tool_id`. */
  predicate ValidToolId(id: string) {
    var segments := Split(id, '/');
    && |id| <= 128 && 1 <= |segments| <= 2
    && forall i :: 0 <= i < |segments| ==> segments[i] != "" && forall k :: 0 <= k < |segments[i]| ==> HandleChar(segments[i][k])
  }

  // ------------------------------------------------------------------ the default handle

  function Sanitized(c: char): char {
    if HandleChar(c) then c
    else if 'A' <= c <= 'Z' then (c as int - 'A' as int + 'a' as int) as char
    else '-'
  }

  function TrimStart(s: string): string {
    if s != "" && Edge(s[0]) then TrimStart(s[1..]) else s
  }

  function TrimEnd(s: string): string {
    if s != "" && Edge(s[|s| - 1]) then TrimEnd(s[..|s| - 1]) else s
  }

  /** The sanitized name without leading and trailing dots and dashes. */
  function Trimmed(name: string): string {
    TrimEnd(TrimStart(Rename(Sanitized, name)))
  }

  function Slice128(s: string): string {
    if |s| <= 128 then s else s[..128]
  }

  function HandleOf(name: string): string {
    var san := Slice128(Trimmed(name));
    "apps/local/" + if san == "" then "app" else san
  }

  /** `defaultHandle`. */
  method DefaultHandle(name: string) returns (handle: string)
    ensures handle == HandleOf(name)
  {
    var san := "";
    for i := 0 to |name|
      invariant san == Rename(Sanitized, name[..i])
    {
      var c := name[i];
      assert name[..i + 1] == name[..i] + [c];
      if HandleChar(c) {
        san := san + [c];
      } else if 'A' <= c <= 'Z' {
        san := san + [(c as int - 'A' as int + 'a' as int) as char];
      } else {
        san := san + ['-'];
      }
    }
    assert name[..|name|] == name;
    san := Slice128(TrimEnd(TrimStart(san)));
    handle := "apps/local/" + if san == "" then "app" else san;
  }

  ghost predicate AllHandleChars(s: string) {
    forall i :: 0 <= i < |s| ==> HandleChar(s[i])
  }

  lemma SanitizedIsHandleChar(c: char)
    ensures HandleChar(Sanitized(c))
  {
    if !HandleChar(c) && 'A' <= c <= 'Z' {
      assert 'a' <= Sanitized(c) <= 'z';
    }
  }

  lemma {:induction false} TrimStartKeeps(s: string)
    requires AllHandleChars(s)
    ensures AllHandleChars(TrimStart(s)) && (TrimStart(s) == "" || !Edge(TrimStart(s)[0]))
  {
    if s != "" && Edge(s[0]) {
      TrimStartKeeps(s[1..]);
    }
  }

  lemma {:induction false} TrimEndKeeps(s: string)
    requires AllHandleChars(s)
    ensures var t := TrimEnd(s);
      && AllHandleChars(t) && |t| <= |s| && t == s[..|t|]
      && (t == "" || !Edge(t[|t| - 1]))
  {
    if s != "" && Edge(s[|s| - 1]) {
      TrimEndKeeps(s[..|s| - 1]);
    }
  }

  lemma TrimmedShape(name: string)
    ensures var t := Trimmed(name);
      AllHandleChars(t) && (t == "" || (!Edge(t[0]) && !Edge(t[|t| - 1])))
  {
    var san := Rename(Sanitized, name);
    forall i | 0 <= i < |san| ensures HandleChar(san[i]) { SanitizedIsHandleChar(name[i]); }
    TrimStartKeeps(san);
    TrimEndKeeps(TrimStart(san));
  }

  /** What becomes of a character: a lower-case letter, digit, dot, underscore or dash stays; a
      capital becomes its lower case, 32 further on; anything else becomes a dash. */
  lemma SanitizedMeaning(c: char)
    ensures 'a' <= c <= 'z' || '0' <= c <= '9' || c == '.' || c == '_' || c == '-' ==> Sanitized(c) == c
    ensures 'A' <= c <= 'Z' ==> Sanitized(c) as int == c as int + 32
    ensures !('a' <= c <= 'z' || 'A' <= c <= 'Z' || '0' <= c <= '9' || c == '.' || c == '_' || c == '-') ==> Sanitized(c) == '-'
  {
  }

  ghost predicate DotsAndDashes(s: string) {
    forall i :: 0 <= i < |s| ==> s[i] == '.' || s[i] == '-'
  }

  lemma {:induction false} TrimStartDrops(s: string) returns (n: nat)
    ensures n <= |s| && TrimStart(s) == s[n..] && DotsAndDashes(s[..n])
  {
    n := 0;
    if s != "" && Edge(s[0]) {
      var k := TrimStartDrops(s[1..]);
      n := k + 1;
      assert s[1..][k..] == s[n..] && s[..n] == [s[0]] + s[1..][..k];
    }
  }

  lemma {:induction false} TrimEndDrops(s: string) returns (n: nat)
    ensures n <= |s| && TrimEnd(s) == s[..n] && DotsAndDashes(s[n..])
  {
    n := |s|;
    if s != "" && Edge(s[|s| - 1]) {
      var init := s[..|s| - 1];
      n := TrimEndDrops(init);
      assert init[..n] == s[..n] && s[n..] == init[n..] + [s[|s| - 1]];
    } else {
      assert s[..n] == s;
    }
  }

  /** The trimmed name: each character sanitized in place, and only dots and dashes taken off the
      two ends, all of them. */
  lemma TrimmedMeaning(name: string) returns (a: nat, b: nat)
    ensures a <= b <= |name| && |Trimmed(name)| == b - a
    ensures forall i :: a <= i < b ==> Trimmed(name)[i - a] == Sanitized(name[i])
    ensures forall i :: 0 <= i < a || b <= i < |name| ==> Sanitized(name[i]) == '.' || Sanitized(name[i]) == '-'
    ensures a < b ==> Sanitized(name[a]) !in {'.', '-'} && Sanitized(name[b - 1]) !in {'.', '-'}
  {
    var san := Rename(Sanitized, name);
    a := TrimStartDrops(san);
    var mid := TrimStart(san);
    var n := TrimEndDrops(mid);
    b := a + n;
    forall i | 0 <= i < a || b <= i < |name| ensures Sanitized(name[i]) == '.' || Sanitized(name[i]) == '-' {
      assert san[i] == Sanitized(name[i]);
      if i < a { assert san[..a][i] == san[i]; } else { assert mid[n..][i - b] == san[i]; }
    }
    TrimmedShape(name);
    if a < b {
      assert Trimmed(name)[0] == Sanitized(name[a]) && Trimmed(name)[b - a - 1] == Sanitized(name[b - 1]);
    }
  }

  /** The default handle is the trimmed name, or `app` if nothing is left of it, cut to 128
      characters, under `apps/local`. */
  lemma HandleMeaning(name: string)
    ensures Trimmed(name) == "" ==> HandleOf(name) == "apps/local/app"
    ensures 0 < |Trimmed(name)| <= 128 ==> HandleOf(name) == "apps/local/" + Trimmed(name)
    ensures |Trimmed(name)| > 128 ==> |HandleOf(name)| == 139 && HandleOf(name) <= "apps/local/" + Trimmed(name)
  {
    assert |"apps/local/"| == 11;
  }

  lemma SplitFirst(a: string, rest: string, sep: char)
    requires sep !in a
    ensures Split(a + [sep] + rest, sep) == [a] + Split(rest, sep)
  {
    var s := a + [sep] + rest;
    assert s[|a|] == sep;
    var i := IndexOf(s, sep);
    assert forall k :: 0 <= k < |a| ==> s[k] == a[k];
    assert i == |a| && s[..i] == a && s[i + 1..] == rest;
  }

  lemma LocalPrefix(name: string)
    ensures "apps/local/" + name == "apps" + ['/'] + ("local" + ['/'] + name)
  {
    assert "apps/local/" == "apps" + ['/'] + "local" + ['/'];
  }

  lemma ThreeSegments(a: string, b: string, c: string, sep: char)
    requires sep !in a && sep !in b && sep !in c
    ensures Split(a + [sep] + (b + [sep] + c), sep) == [a, b, c]
  {
    SplitFirst(a, b + [sep] + c, sep);
    SplitFirst(b, c, sep);
  }

  lemma LocalSegments(name: string)
    requires '/' !in name
    ensures Split("apps/local/" + name, '/') == ["apps", "local", name]
  {
    LocalPrefix(name);
    ThreeSegments("apps", "local", name, '/');
  }

  lemma HandleOfSegments(handle: string, a: string, b: string, c: string)
    requires Split(handle, '/') == [a, b, c]
    ensures ValidHandle(handle) <==> ValidSegment(a) && ValidSegment(b) && ValidSegment(c)
  {
    var segments := [a, b, c];
    assert segments[0] == a && segments[1] == b && segments[2] == c;
  }

  lemma LocalWords()
    ensures ValidSegment("apps") && ValidSegment("local")
  {
  }

  lemma LocalHandle(name: string)
    requires '/' !in name
    ensures ValidHandle("apps/local/" + name) <==> ValidSegment(name)
  {
    LocalSegments(name);
    LocalWords();
    HandleOfSegments("apps/local/" + name, "apps", "local", name);
  }

  /** The default handle is valid exactly when the trimmed name fits in 128 characters, or
      does not get cut right after a dot or a dash: truncation runs after trimming. */
  lemma DefaultHandleValid(name: string)
    ensures ValidHandle(HandleOf(name)) <==> (|Trimmed(name)| <= 128 || !Edge(Trimmed(name)[127]))
  {
    var t := Trimmed(name);
    TrimmedShape(name);
    var san := if Slice128(t) == "" then "app" else Slice128(t);
    assert AllHandleChars(san);
    assert '/' !in san;
    LocalHandle(san);
    if |t| > 128 {
      assert san == t[..128];
    } else if t == "" {
      assert ValidSegment("app");
    }
  }

  lemma {:induction false} TrimNothing(s: string)
    requires s != "" && !Edge(s[0]) && !Edge(s[|s| - 1])
    ensures TrimEnd(TrimStart(s)) == s
  {
  }

  /** Every name of 127 letters, a dash and anything not trimmed off gets an invalid handle. */
  lemma LongNamesCanFail(a: string, b: string)
    requires |a| == 127 && b != "" && AllHandleChars(a) && AllHandleChars(b)
    requires !Edge(a[0]) && !Edge(b[|b| - 1])
    ensures !ValidHandle(HandleOf(a + "-" + b))
  {
    var name := a + "-" + b;
    assert Rename(Sanitized, name) == name;
    TrimNothing(name);
    assert name[127] == '-';
    DefaultHandleValid(name);
  }
}
