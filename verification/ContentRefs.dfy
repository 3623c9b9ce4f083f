/** The content closure of an App: the refs its envelope names, sorted and without repeats. */
module ContentRefs {
  import opened Lists
  import opened Sorting
  import opened EnvelopeTypes
  import opened EnvelopeCodec
  import opened Envelope

  // ------------------------------------------------------------------ the Rust walk

  function NonEmpty(xs: seq<string>): seq<string> {
    if xs == [] then []
    else NonEmpty(xs[..|xs| - 1]) + if xs[|xs| - 1] == "" then [] else [xs[|xs| - 1]]
  }

  function ContextContents(xs: seq<ContextRef>): seq<string> { Rename((x: ContextRef) => x.contentRef, xs) }
  function ArtifactContents(xs: seq<ArtifactRef>): seq<string> { Rename((x: ArtifactRef) => x.contentRef, xs) }
  function Instructions(xs: seq<SkillRef>): seq<string> { Rename((x: SkillRef) => x.instructionsRef, xs) }

  function Payloads(xs: seq<DatasetRef>): seq<string> {
    if xs == [] then [] else Payloads(xs[..|xs| - 1]) + xs[|xs| - 1].casRefs
  }

  /** The refs that always travel, rail by rail. */
  function ArtifactRails(e: AppEnvelope): seq<string> {
    var r := e.references;
    ContextContents(r.context) + ArtifactContents(r.prompts) + ArtifactContents(r.rules) +
    ArtifactContents(r.memory) + Instructions(r.skills) + e.steering.context.contextRefs
  }

  /** Every ref the envelope names. */
  function Rails(e: AppEnvelope, datasets: bool): seq<string> {
    ArtifactRails(e) + if datasets then Payloads(e.references.datasets) else []
  }

  /** What `AppEnvelope::content_refs` returns. */
  function Closure(e: AppEnvelope, datasets: bool): seq<string> {
    NonEmpty(SortDistinct(TextLess, Rails(e, datasets)))
  }

  /** Insert a list of refs into the ordered set. */
  method InsertAll(acc: seq<string>, ghost before: seq<string>, xs: seq<string>) returns (out: seq<string>)
    requires acc == SortDistinct(TextLess, before)
    ensures out == SortDistinct(TextLess, before + xs)
  {
    out := acc;
    assert before + xs[..0] == before;
    for i := 0 to |xs|
      invariant out == SortDistinct(TextLess, before + xs[..i])
    {
      out := Insert(TextLess, xs[i], out);
      assert (before + xs[..i + 1])[..|before| + i] == before + xs[..i];
    }
    assert xs[..|xs|] == xs;
  }

  method InsertArtifacts(e: AppEnvelope) returns (found: seq<string>)
    ensures found == SortDistinct(TextLess, ArtifactRails(e))
  {
    var r := e.references;
    ghost var done := ContextContents(r.context);
    assert [] + done == done;
    found := InsertAll([], [], ContextContents(r.context));
    found := InsertAll(found, done, ArtifactContents(r.prompts));
    done := done + ArtifactContents(r.prompts);
    found := InsertAll(found, done, ArtifactContents(r.rules));
    done := done + ArtifactContents(r.rules);
    found := InsertAll(found, done, ArtifactContents(r.memory));
    done := done + ArtifactContents(r.memory);
    found := InsertAll(found, done, Instructions(r.skills));
    done := done + Instructions(r.skills);
    found := InsertAll(found, done, e.steering.context.contextRefs);
  }

  method InsertPayloads(acc: seq<string>, ghost base: seq<string>, ds: seq<DatasetRef>) returns (found: seq<string>)
    requires acc == SortDistinct(TextLess, base)
    ensures found == SortDistinct(TextLess, base + Payloads(ds))
  {
    found := acc;
    assert base + Payloads(ds[..0]) == base;
    for i := 0 to |ds|
      invariant found == SortDistinct(TextLess, base + Payloads(ds[..i]))
    {
      found := InsertAll(found, base + Payloads(ds[..i]), ds[i].casRefs);
      assert ds[..i + 1][..i] == ds[..i];
      assert base + Payloads(ds[..i]) + ds[i].casRefs == base + Payloads(ds[..i + 1]);
    }
    assert ds[..|ds|] == ds;
  }

  /** `AppEnvelope::content_refs`. */
  method ContentRefsOf(e: AppEnvelope, datasets: bool) returns (out: seq<string>)
    ensures out == Closure(e, datasets)
  {
    var found := InsertArtifacts(e);
    if datasets {
      found := InsertPayloads(found, ArtifactRails(e), e.references.datasets);
    } else {
      assert ArtifactRails(e) + [] == ArtifactRails(e);
    }
    out := NonEmpty(found);
  }

  lemma {:induction false} NonEmptyElems(xs: seq<string>)
    ensures Elems(NonEmpty(xs)) == Elems(xs) - {""}
  {
    if xs != [] {
      var init, last := xs[..|xs| - 1], xs[|xs| - 1];
      NonEmptyElems(init);
      assert xs == init + [last];
      ElemsConcat(init, [last]);
      ElemsConcat(NonEmpty(init), if last == "" then [] else [last]);
      assert Elems([last]) == {last};
    }
  }

  lemma {:induction false} NonEmptyAscending(xs: seq<string>)
    requires Ascending(TextLess, xs)
    ensures Ascending(TextLess, NonEmpty(xs)) && forall x :: x in NonEmpty(xs) ==> x in xs
  {
    if xs != [] {
      var init, last := xs[..|xs| - 1], xs[|xs| - 1];
      NonEmptyAscending(init);
      assert forall x :: x in init ==> TextLess(x, last);
    }
  }

  /** The closure is the strictly ascending list of the non-empty refs of all rails. */
  lemma ClosureMeaning(e: AppEnvelope, datasets: bool)
    ensures Ascending(TextLess, Closure(e, datasets))
    ensures Elems(Closure(e, datasets)) == Elems(Rails(e, datasets)) - {""}
  {
    TextLessIsOrder();
    SortMeaning(TextLess, Rails(e, datasets));
    var sorted := SortDistinct(TextLess, Rails(e, datasets));
    NonEmptyAscending(sorted);
    NonEmptyElems(sorted);
  }

  /** The envelope names a ref: in its context, prompts, rules, memory or skills, in its steering
      context, or, if asked, among its dataset payloads. */
  ghost predicate Names(e: AppEnvelope, datasets: bool, x: string) {
    var r := e.references;
    || (exists i :: 0 <= i < |r.context| && r.context[i].contentRef == x)
    || (exists i :: 0 <= i < |r.prompts| && r.prompts[i].contentRef == x)
    || (exists i :: 0 <= i < |r.rules| && r.rules[i].contentRef == x)
    || (exists i :: 0 <= i < |r.memory| && r.memory[i].contentRef == x)
    || (exists i :: 0 <= i < |r.skills| && r.skills[i].instructionsRef == x)
    || x in e.steering.context.contextRefs
    || (datasets && exists i :: 0 <= i < |r.datasets| && x in r.datasets[i].casRefs)
  }

  lemma {:induction false} PayloadElems(xs: seq<DatasetRef>, x: string)
    ensures x in Payloads(xs) <==> exists i :: 0 <= i < |xs| && x in xs[i].casRefs
  {
    if xs != [] {
      var n := |xs| - 1;
      PayloadElems(xs[..n], x);
      if x in Payloads(xs[..n]) {
        var i :| 0 <= i < n && x in xs[..n][i].casRefs;
        assert x in xs[i].casRefs;
      }
    }
  }

  lemma RenamedElems<S(!new), T(!new)>(g: S -> T, xs: seq<S>, y: T)
    ensures y in Rename(g, xs) <==> exists i :: 0 <= i < |xs| && g(xs[i]) == y
  {
    if y in Rename(g, xs) {
      var i :| 0 <= i < |xs| && Rename(g, xs)[i] == y;
      assert g(xs[i]) == y;
    } else {
      forall i | 0 <= i < |xs| ensures g(xs[i]) != y { assert Rename(g, xs)[i] == g(xs[i]); }
    }
  }

  lemma ContextElems(xs: seq<ContextRef>, y: string)
    ensures y in ContextContents(xs) <==> exists i :: 0 <= i < |xs| && xs[i].contentRef == y
  {
    RenamedElems((x: ContextRef) => x.contentRef, xs, y);
  }

  lemma ArtifactElems(xs: seq<ArtifactRef>, y: string)
    ensures y in ArtifactContents(xs) <==> exists i :: 0 <= i < |xs| && xs[i].contentRef == y
  {
    RenamedElems((x: ArtifactRef) => x.contentRef, xs, y);
  }

  lemma InstructionElems(xs: seq<SkillRef>, y: string)
    ensures y in Instructions(xs) <==> exists i :: 0 <= i < |xs| && xs[i].instructionsRef == y
  {
    RenamedElems((x: SkillRef) => x.instructionsRef, xs, y);
  }

  lemma RailsName(e: AppEnvelope, datasets: bool, x: string)
    ensures x in Rails(e, datasets) <==> Names(e, datasets, x)
  {
    var r := e.references;
    ContextElems(r.context, x);
    ArtifactElems(r.prompts, x);
    ArtifactElems(r.rules, x);
    ArtifactElems(r.memory, x);
    InstructionElems(r.skills, x);
    PayloadElems(r.datasets, x);
  }

  /** The closure holds exactly the non-empty refs the envelope names. */
  lemma ClosureNames(e: AppEnvelope, datasets: bool, x: string)
    ensures x in Closure(e, datasets) <==> x != "" && Names(e, datasets, x)
  {
    ClosureMeaning(e, datasets);
    RailsName(e, datasets, x);
    var refs, rails := Closure(e, datasets), Rails(e, datasets);
    assert x in refs <==> x in Elems(refs);
    assert x in rails <==> x in Elems(rails);
  }

  lemma RailElems(e: AppEnvelope)
    ensures Elems(Rails(e, false)) == Elems(ArtifactRails(e))
    ensures Elems(Rails(e, true)) == Elems(ArtifactRails(e)) + Elems(Payloads(e.references.datasets))
  {
    assert ArtifactRails(e) + [] == ArtifactRails(e);
    ElemsConcat(ArtifactRails(e), Payloads(e.references.datasets));
  }

  /** Asking for the dataset payloads adds exactly those. */
  lemma ClosureMonotone(e: AppEnvelope)
    ensures Elems(Closure(e, true)) == Elems(Closure(e, false)) + (Elems(Payloads(e.references.datasets)) - {""})
  {
    assert Elems(Closure(e, false)) == Elems(Rails(e, false)) - {""} by { ClosureMeaning(e, false); }
    assert Elems(Closure(e, true)) == Elems(Rails(e, true)) - {""} by { ClosureMeaning(e, true); }
    RailElems(e);
  }

  lemma {:induction false} PayloadsHex(xs: seq<DatasetRef>)
    requires forall i :: 0 <= i < |xs| ==> AllHex(xs[i].casRefs)
    ensures AllHex(Payloads(xs))
  {
    if xs != [] {
      PayloadsHex(xs[..|xs| - 1]);
    }
  }

  lemma HexConcat(a: seq<string>, b: seq<string>)
    requires AllHex(a) && AllHex(b)
    ensures AllHex(a + b)
  {
  }

  /** On a valid envelope every ref of the closure is 64 lowercase hexadecimal digits, and none
      of the refs named is missing. */
  lemma ValidClosure(e: AppEnvelope, conn: Connections, datasets: bool)
    requires Verdict(e, conn).Accept?
    ensures AllHex(Closure(e, datasets)) && Elems(Closure(e, datasets)) == Elems(Rails(e, datasets))
  {
    PayloadsHex(e.references.datasets);
    ArtifactsHex(e);
    var rails, refs := Rails(e, datasets), Closure(e, datasets);
    HexConcat(ArtifactRails(e), if datasets then Payloads(e.references.datasets) else []);
    ClosureMeaning(e, datasets);
    assert "" !in rails;
    forall i | 0 <= i < |refs| ensures HexRef(refs[i]) {
      assert refs[i] in Elems(refs);
      assert refs[i] in rails;
    }
  }

  lemma ArtifactsHex(e: AppEnvelope)
    requires ContentOk(e.references, e.steering.context.contextRefs)
    ensures AllHex(ArtifactRails(e))
  {
    var r := e.references;
    HexConcat(ContextContents(r.context), ArtifactContents(r.prompts));
    HexConcat(ContextContents(r.context) + ArtifactContents(r.prompts), ArtifactContents(r.rules));
  }
}
