/** App bundles: the document both SDKs write, and the two readers. UTF-8 and JavaScript's
    string coercion are parameters. */
module AppBundles {
  import opened Lists
  import opened Serde
  import opened EnvelopeCodec
  import Base64
  import opened Envelope
  import opened TreeRefs

  type Blob = seq<Base64.Byte>

  datatype AppBundle = AppBundle(
    appDigest: string, envelope: Blob, blobs: map<string, Blob>, sourceDigest: Option<string>)

  const BUNDLE_SCHEMA := "kortecx.appbundle/v1"

  /** `TextDecoder`, `TextEncoder`, `String::from_utf8` and `String(…)`. */
  datatype Platform = Platform(
    decode: Blob -> string,
    encode: string -> Blob,
    strict: Blob -> Option<string>,
    coerce: Option<Json> -> string)
  {
    /** The strict decoder inverts the encoder; on what it takes, `TextDecoder` differs from it
        by dropping a leading byte-order mark. */
    ghost predicate Standard() {
      && (forall s :: coerce(Some(Str(s))) == s) && coerce(Some(Null)) == "null"
      && (forall b, s :: strict(b) == Some(s) <==> encode(s) == b)
      && (forall b :: strict(b).Some? ==> decode(b) == if Marked(strict(b).value) then strict(b).value[1..] else strict(b).value)
    }
  }

  /** The text starts with a byte-order mark. */
  predicate Marked(s: string) {
    s != "" && s[0] == '\U{FEFF}'
  }

  // ------------------------------------------------------------------ writing

  function EncodedBlobs(blobs: map<string, Blob>): map<string, Json> {
    map k | k in blobs :: Str(Base64.Encoded(blobs[k]))
  }

  /** The document `toJson` writes. */
  function Document(b: AppBundle, text: string): map<string, Json> {
    var doc := map["app_digest" := Str(b.appDigest), "envelope" := Str(text), "schema" := Str(BUNDLE_SCHEMA)];
    var withBlobs := if |b.blobs| > 0 then doc["blobs" := Obj(EncodedBlobs(b.blobs))] else doc;
    if b.sourceDigest.Some? then withBlobs["source_digest" := Str(b.sourceDigest.value)] else withBlobs
  }

  /** `AppBundle.toJson`. */
  method ToJson(pf: Platform, b: AppBundle) returns (doc: Json)
    ensures doc == Obj(Document(b, pf.decode(b.envelope)))
  {
    var fields: map<string, Json> :=
      map["app_digest" := Str(b.appDigest), "envelope" := Str(pf.decode(b.envelope)), "schema" := Str(BUNDLE_SCHEMA)];
    if |b.blobs| > 0 {
      var blobs: map<string, Json> := map[];
      var left := b.blobs.Keys;
      while left != {}
        invariant left <= b.blobs.Keys && blobs.Keys == b.blobs.Keys - left
        invariant forall k :: k in blobs ==> blobs[k] == Str(Base64.Encoded(b.blobs[k]))
        decreases left
      {
        var k :| k in left;
        var text := Base64.Encode(b.blobs[k]);
        blobs := blobs[k := Str(text)];
        left := left - {k};
      }
      assert blobs == EncodedBlobs(b.blobs);
      fields := fields["blobs" := Obj(blobs)];
    }
    if b.sourceDigest.Some? {
      fields := fields["source_digest" := Str(b.sourceDigest.value)];
    }
    doc := Obj(fields);
  }

  // ------------------------------------------------------------------ reading in TypeScript

  /** The entries of `doc.blobs ?? {}`; None stands for the index keys of a list or a string,
      which no ref check passes. */
  function Entries(o: Option<Json>): Option<map<string, Json>> {
    match o
    case None => Some(map[])
    case Some(j) =>
      if j.Obj? then Some(j.fields)
      else if (j.Arr? && j.items != []) || (j.Str? && j.s != "") then None
      else Some(map[])
  }

  predicate BlobOk(k: string, j: Json) {
    HexRef(k) && j.Str? && Base64.Decoded(j.s).Some?
  }

  predicate BlobsOk(m: map<string, Json>) {
    forall k :: k in m ==> BlobOk(k, m[k])
  }

  function DecodedBlobs(m: map<string, Json>): map<string, Blob>
    requires BlobsOk(m)
  {
    map k | k in m :: Base64.Decoded(m[k].s).value
  }

  /** What `AppBundle.fromJson` returns; None where it throws. */
  function Parsed(pf: Platform, doc: Json): Option<AppBundle> {
    var d := Some(doc);
    var digest := pf.coerce(Child(d, "app_digest"));
    var source := Child(d, "source_digest");
    var entries := Entries(Child(d, "blobs"));
    if Child(d, "schema") != Some(Str(BUNDLE_SCHEMA)) || !HexRef(digest) then None
    else if source.Some? && !HexRef(pf.coerce(source)) then None
    else if entries.None? || !BlobsOk(entries.value) then None
    else Some(AppBundle(digest, pf.encode(pf.coerce(Child(d, "envelope"))), DecodedBlobs(entries.value),
                        if source.Some? then Some(pf.coerce(source)) else None))
  }

  /** `AppBundle.fromJson`. */
  method FromJson(pf: Platform, doc: Json) returns (r: Option<AppBundle>)
    ensures r == Parsed(pf, doc)
  {
    var d := Some(doc);
    if Child(d, "schema") != Some(Str(BUNDLE_SCHEMA)) { return None; }
    var digest := pf.coerce(Child(d, "app_digest"));
    if !HexRef(digest) { return None; }
    var source := if Child(d, "source_digest").None? then None else Some(pf.coerce(Child(d, "source_digest")));
    if source.Some? && !HexRef(source.value) { return None; }
    var raw := Entries(Child(d, "blobs"));
    if raw.None? { return None; }
    var blobs := DecodeAll(raw.value);
    if blobs.None? { return None; }
    return Some(AppBundle(digest, pf.encode(pf.coerce(Child(d, "envelope"))), blobs.value, source));
  }

  method DecodeAll(m: map<string, Json>) returns (r: Option<map<string, Blob>>)
    ensures r == if BlobsOk(m) then Some(DecodedBlobs(m)) else None
  {
    var blobs: map<string, Blob> := map[];
    var left := m.Keys;
    while left != {}
      invariant left <= m.Keys && blobs.Keys == m.Keys - left
      invariant forall k :: k in blobs ==> BlobOk(k, m[k]) && blobs[k] == Base64.Decoded(m[k].s).value
      decreases left
    {
      var k :| k in left;
      if !HexRef(k) || !m[k].Str? { return None; }
      var bytes := Base64.Decode(m[k].s);
      if bytes.None? { return None; }
      blobs := blobs[k := bytes.value];
      left := left - {k};
    }
    assert blobs == DecodedBlobs(m);
    return Some(blobs);
  }

  // ------------------------------------------------------------------ the round trip

  predicate NamesHex(b: AppBundle) {
    && HexRef(b.appDigest)
    && (b.sourceDigest.Some? ==> HexRef(b.sourceDigest.value))
    && (forall k :: k in b.blobs ==> HexRef(k))
  }

  /** UTF-8 without a byte-order mark. */
  predicate PlainText(pf: Platform, b: Blob) {
    pf.strict(b).Some? && !Marked(pf.strict(b).value)
  }

  /** What a caller can check before writing. */
  predicate Portable(pf: Platform, b: AppBundle) {
    NamesHex(b) && PlainText(pf, b.envelope)
  }

  /** Decoding and encoding again gives the bytes back exactly on plain text. */
  lemma PlainTextBack(pf: Platform, b: Blob)
    requires pf.Standard()
    ensures pf.encode(pf.decode(b)) == b <==> PlainText(pf, b)
    ensures PlainText(pf, b) ==> pf.strict(b) == Some(pf.decode(b))
  {
    if pf.strict(b).Some? && Marked(pf.strict(b).value) {
      assert |pf.decode(b)| < |pf.strict(b).value|;
    }
  }

  lemma BlobsBack(blobs: map<string, Blob>)
    ensures BlobsOk(EncodedBlobs(blobs)) <==> forall k :: k in blobs ==> HexRef(k)
    ensures BlobsOk(EncodedBlobs(blobs)) ==> DecodedBlobs(EncodedBlobs(blobs)) == blobs
  {
    var m := EncodedBlobs(blobs);
    forall k | k in blobs ensures Base64.Decoded(m[k].s) == Some(blobs[k]) {
      Base64.RoundTrip(blobs[k]);
    }
    if BlobsOk(m) {
      forall k | k in blobs ensures HexRef(k) {
        assert BlobOk(k, m[k]);
      }
    }
  }

  lemma DocumentFields(b: AppBundle, text: string)
    ensures var d := Some(Obj(Document(b, text)));
      && Child(d, "app_digest") == Some(Str(b.appDigest))
      && Child(d, "envelope") == Some(Str(text))
      && Child(d, "schema") == Some(Str("kortecx.appbundle/v1"))
      && Child(d, "blobs") == (if |b.blobs| > 0 then Some(Obj(EncodedBlobs(b.blobs))) else None)
      && Child(d, "source_digest") == (if b.sourceDigest.Some? then Some(Str(b.sourceDigest.value)) else None)
  {
    assert |"blobs"| == 5 && |"schema"| == 6 && |"envelope"| == 8 && |"app_digest"| == 10 && |"source_digest"| == 13;
  }

  /** A bundle survives writing and reading exactly when it is portable. */
  lemma BundleRoundTrip(pf: Platform, b: AppBundle)
    requires pf.Standard()
    ensures Parsed(pf, Obj(Document(b, pf.decode(b.envelope)))) == Some(b) <==> Portable(pf, b)
  {
    DocumentFields(b, pf.decode(b.envelope));
    BlobsBack(b.blobs);
    PlainTextBack(pf, b.envelope);
    assert |b.blobs| == 0 <==> b.blobs == map[];
  }

  // ------------------------------------------------------------------ the Rust codec

  const WIRE := TStruct([
    Field("app_digest", TStr, Required), Field("blobs", TDict(TStr), OmitEmpty), Field("envelope", TStr, Required),
    Field("schema", TStr, Required), Field("source_digest", TOpt(TStr), OmitEmpty)])

  lemma WireShape()
    ensures WellFormed(WIRE)
  {
  }

  function EncodedTexts(blobs: map<string, Blob>): map<string, string> {
    map k | k in blobs :: Base64.Encoded(blobs[k])
  }

  function WireOf(b: AppBundle, text: string): Val {
    VStruct([VStr(b.appDigest), Pairs(EncodedTexts(b.blobs)), VStr(text), VStr(BUNDLE_SCHEMA),
             OptTo(b.sourceDigest, x => VStr(x))])
  }

  lemma OptText(o: Option<string>)
    ensures HasShape(TOpt(TStr), OptTo(o, x => VStr(x)))
  {
    if o.Some? { TextFits(o.value); }
  }

  lemma WireFits(b: AppBundle, text: string)
    ensures HasShape(WIRE, WireOf(b, text))
  {
    TextFits(b.appDigest);
    PairsCodec(EncodedTexts(b.blobs));
    TextFits(text);
    TextFits(BUNDLE_SCHEMA);
    OptText(b.sourceDigest);
  }

  /** `AppBundle::to_json`; None when the envelope is not UTF-8. */
  function RustDocument(pf: Platform, b: AppBundle): Option<Json> {
    WireShape();
    match pf.strict(b.envelope)
    case None => None
    case Some(text) => WireFits(b, text); Some(Write(WIRE, WireOf(b, text)))
  }

  /** The strict decoder of the `base64` crate: it accepts exactly what an encoder writes. */
  function Strict(s: string): (r: Option<Blob>)
    ensures r.Some? ==> Base64.Encoded(r.value) == s
  {
    var r := Base64.Decoded(s);
    if r.Some? && Base64.Encoded(r.value) == s then r else None
  }

  lemma StrictExact(s: string, b: Blob)
    ensures Strict(s) == Some(b) <==> Base64.Encoded(b) == s
  {
    Base64.RoundTrip(b);
  }

  predicate StrictBlobs(m: map<string, string>) {
    forall k :: k in m ==> HexRef(k) && Strict(m[k]).Some?
  }

  function StrictDecoded(m: map<string, string>): map<string, Blob>
    requires StrictBlobs(m)
  {
    map k | k in m :: Strict(m[k]).value
  }

  /** `AppBundle::from_json`; None where it errs. */
  function RustParsed(pf: Platform, doc: Json): Option<AppBundle> {
    WireShape();
    match Read(WIRE, doc)
    case None => None
    case Some(v) =>
      var digest, blobs, source := Text(At(v, 0)), ToPairs(At(v, 1)), OptFrom(At(v, 4), x => Text(x));
      if At(v, 3) != VStr(BUNDLE_SCHEMA) || !HexRef(digest) then None
      else if source.Some? && !HexRef(source.value) then None
      else if !StrictBlobs(blobs) then None
      else Some(AppBundle(digest, pf.encode(Text(At(v, 2))), StrictDecoded(blobs), source))
  }

  /** Both SDKs write the same document exactly when the envelope is UTF-8 without a
      byte-order mark. */
  lemma SameDocument(pf: Platform, b: AppBundle)
    requires pf.Standard()
    ensures RustDocument(pf, b) == Some(Obj(Document(b, pf.decode(b.envelope)))) <==> PlainText(pf, b.envelope)
  {
    PlainTextBack(pf, b.envelope);
    if pf.strict(b.envelope).Some? {
      var text := pf.strict(b.envelope).value;
      WireShape();
      WireFits(b, text);
      WrittenFields(b, text);
      DocumentFields(b, text);
      DocumentFields(b, pf.decode(b.envelope));
    }
  }

  lemma WrittenPairs(m: map<string, string>)
    requires HasShape(TDict(TStr), Pairs(m))
    ensures Write(TDict(TStr), Pairs(m)) == Obj(map k | k in m :: Str(m[k]))
    ensures IsEmpty(TDict(TStr), Pairs(m)) <==> m == map[]
  {
    var v := Pairs(m);
    assert v.entries.Keys == m.Keys;
    assert Write(TDict(TStr), v).fields == map k | k in m :: Str(m[k]);
  }

  lemma WrittenBlobs(blobs: map<string, Blob>)
    requires HasShape(TDict(TStr), Pairs(EncodedTexts(blobs)))
    ensures Write(TDict(TStr), Pairs(EncodedTexts(blobs))) == Obj(EncodedBlobs(blobs))
    ensures IsEmpty(TDict(TStr), Pairs(EncodedTexts(blobs))) <==> |blobs| == 0
  {
    WrittenPairs(EncodedTexts(blobs));
    assert EncodedTexts(blobs).Keys == blobs.Keys;
    assert |blobs| == 0 <==> blobs.Keys == {};
  }

  lemma WrittenSource(o: Option<string>)
    requires HasShape(TOpt(TStr), OptTo(o, x => VStr(x)))
    ensures var v := OptTo(o, x => VStr(x));
      && Write(TOpt(TStr), v) == (if o.Some? then Str(o.value) else Null)
      && (IsEmpty(TOpt(TStr), v) <==> o.None?)
  {
    if o.Some? { TextFits(o.value); }
  }

  /** One more field of a record is written, or omitted. */
  lemma WriteNext(s: Shape, v: Val, k: nat, f: Field, x: Val)
    requires s.TStruct? && WellFormed(s) && HasShape(s, v) && k < |s.fields|
    requires s.fields[k] == f && v.vals[k] == x
    ensures FieldWellFormed(f) && HasShape(f.shape, x)
    ensures var m := WriteFields(s, v, k);
      WriteFields(s, v, k + 1) == if Kept(f, x) then m[f.name := Write(f.shape, x)] else m
  {
  }

  lemma WrittenFields(b: AppBundle, text: string)
    requires WellFormed(WIRE) && HasShape(WIRE, WireOf(b, text))
    ensures Write(WIRE, WireOf(b, text)) == Obj(Document(b, text))
  {
    var v := WireOf(b, text);
    PairsCodec(EncodedTexts(b.blobs));
    WrittenBlobs(b.blobs);
    OptText(b.sourceDigest);
    WrittenSource(b.sourceDigest);
    WriteNext(WIRE, v, 0, Field("app_digest", TStr, Required), VStr(b.appDigest));
    WriteNext(WIRE, v, 1, Field("blobs", TDict(TStr), OmitEmpty), Pairs(EncodedTexts(b.blobs)));
    WriteNext(WIRE, v, 2, Field("envelope", TStr, Required), VStr(text));
    WriteNext(WIRE, v, 3, Field("schema", TStr, Required), VStr(BUNDLE_SCHEMA));
    WriteNext(WIRE, v, 4, Field("source_digest", TOpt(TStr), OmitEmpty), OptTo(b.sourceDigest, x => VStr(x)));
    OrderIrrelevant(b, text, WriteFields(WIRE, v, 2));
  }

  lemma OrderIrrelevant(b: AppBundle, text: string, two: map<string, Json>)
    requires var one := map["app_digest" := Str(b.appDigest)];
      two == if |b.blobs| > 0 then one["blobs" := Obj(EncodedBlobs(b.blobs))] else one
    ensures var four := two["envelope" := Str(text)]["schema" := Str(BUNDLE_SCHEMA)];
      Document(b, text) == if b.sourceDigest.Some? then four["source_digest" := Str(b.sourceDigest.value)] else four
  {
    var four := two["envelope" := Str(text)]["schema" := Str(BUNDLE_SCHEMA)];
    var doc := map["app_digest" := Str(b.appDigest), "envelope" := Str(text), "schema" := Str(BUNDLE_SCHEMA)];
    assert |"blobs"| == 5 && |"schema"| == 6 && |"envelope"| == 8;
    assert four == if |b.blobs| > 0 then doc["blobs" := Obj(EncodedBlobs(b.blobs))] else doc;
  }

  // ------------------------------------------------------------------ the readers agree

  lemma WireNames()
    ensures |WIRE.fields| == 5
    ensures WIRE.fields[0] == Field("app_digest", TStr, Required)
    ensures WIRE.fields[1] == Field("blobs", TDict(TStr), OmitEmpty)
    ensures WIRE.fields[2] == Field("envelope", TStr, Required)
    ensures WIRE.fields[3] == Field("schema", TStr, Required)
    ensures WIRE.fields[4] == Field("source_digest", TOpt(TStr), OmitEmpty)
  {
  }

  function Quoted(m: map<string, string>): map<string, Json> {
    map k | k in m :: Str(m[k])
  }

  lemma EntriesDecode(o: Option<Json>, v: Val)
    requires Decodes(TDict(TStr), o, v)
    ensures Entries(o) == Some(Quoted(ToPairs(v)))
  {
    if o.Some? {
      var m := o.value.fields;
      forall k | k in m ensures m[k] == Str(ToPairs(v)[k]) {
        assert Read(TStr, m[k]).Some?;
      }
      assert m == Quoted(ToPairs(v));
    } else {
      assert Quoted(ToPairs(v)) == map[];
    }
  }

  lemma SourceDecodes(o: Option<Json>, v: Val)
    requires Decodes(TOpt(TStr), o, v)
    ensures o == None || o == Some(Null) ==> v == VNone
    ensures o != None && o != Some(Null) ==> o == Some(Str(Text(v.some))) && v.VSome?
  {
  }

  lemma StrictIsDecoded(s: string)
    requires Strict(s).Some?
    ensures Base64.Decoded(s) == Strict(s)
  {
  }

  lemma StrictIsLenient(m: map<string, string>)
    requires StrictBlobs(m)
    ensures BlobsOk(Quoted(m)) && DecodedBlobs(Quoted(m)) == StrictDecoded(m)
  {
    var q := Quoted(m);
    forall k | k in q ensures BlobOk(k, q[k]) && Base64.Decoded(q[k].s) == Strict(m[k]) {
      StrictIsDecoded(m[k]);
    }
  }

  lemma WireChild(doc: Json, v: Val, i: nat)
    requires WellFormed(WIRE) && Read(WIRE, doc) == Some(v) && i < |WIRE.fields| && WIRE.fields[i].rule == OmitEmpty
    ensures v.VStruct? && |v.vals| == |WIRE.fields| && WellFormed(WIRE.fields[i].shape)
    ensures Decodes(WIRE.fields[i].shape, Child(Some(doc), WIRE.fields[i].name), At(v, i))
  {
    ChildDecodes(WIRE, Some(doc), v, i);
  }

  lemma WireText(doc: Json, v: Val, i: nat)
    requires WellFormed(WIRE) && Read(WIRE, doc) == Some(v) && i < |WIRE.fields|
    requires WIRE.fields[i].shape == TStr && WIRE.fields[i].rule == Required
    ensures Child(Some(doc), WIRE.fields[i].name) == Some(Str(Text(At(v, i))))
  {
    TextChild(WIRE, doc, i);
  }

  /** The parts of a document the Rust reader decodes, as the TypeScript reader sees them. */
  lemma WireTexts(doc: Json, v: Val)
    requires WellFormed(WIRE) && Read(WIRE, doc) == Some(v)
    ensures Child(Some(doc), "app_digest") == Some(Str(Text(At(v, 0))))
    ensures Child(Some(doc), "envelope") == Some(Str(Text(At(v, 2))))
    ensures Child(Some(doc), "schema") == Some(Str(Text(At(v, 3))))
    ensures Entries(Child(Some(doc), "blobs")) == Some(Quoted(ToPairs(At(v, 1))))
    ensures Decodes(TOpt(TStr), Child(Some(doc), "source_digest"), At(v, 4))
  {
    WireNames();
    WireText(doc, v, 0);
    WireText(doc, v, 2);
    WireText(doc, v, 3);
    WireChild(doc, v, 1);
    EntriesDecode(Child(Some(doc), "blobs"), At(v, 1));
    WireChild(doc, v, 4);
  }

  /** Whatever the Rust reader accepts, the TypeScript reader accepts as the same bundle,
      exactly unless the document spells out a null source digest. */
  lemma ReadersAgree(pf: Platform, doc: Json, b: AppBundle)
    requires pf.Standard() && RustParsed(pf, doc) == Some(b)
    ensures Parsed(pf, doc) == Some(b) <==> Child(Some(doc), "source_digest") != Some(Null)
  {
    WireShape();
    var v := Read(WIRE, doc).value;
    WireTexts(doc, v);
    SourceDecodes(Child(Some(doc), "source_digest"), At(v, 4));
    StrictIsLenient(ToPairs(At(v, 1)));
  }

  // ------------------------------------------------------------------ what only TypeScript reads

  predicate IsText(o: Option<Json>) {
    o.Some? && o.value.Str?
  }

  /** The types the Rust reader demands: strings where the TypeScript reader coerces, and an
      object of strings where it takes anything without entries. */
  predicate RustTyped(doc: Json) {
    var d, blobs := Some(doc), Child(Some(doc), "blobs");
    && doc.Obj? && IsText(Child(d, "app_digest")) && IsText(Child(d, "envelope")) && IsText(Child(d, "schema"))
    && (Child(d, "source_digest").Some? ==> IsText(Child(d, "source_digest")) || Child(d, "source_digest") == Some(Null))
    && (blobs.Some? ==> blobs.value.Obj? && forall k :: k in blobs.value.fields ==> blobs.value.fields[k].Str?)
  }

  /** No stray bits, and the padding the length calls for. */
  predicate CanonicalText(s: string)
    requires Base64.Decoded(s).Some?
  {
    var clean := Base64.StripPadding(s);
    Base64.Canonical(Base64.Values(clean)) && s == clean + Base64.Padding(|Base64.Decoded(s).value|)
  }

  predicate CanonicalBlobs(m: map<string, Json>) {
    forall k :: k in m && m[k].Str? && Base64.Decoded(m[k].s).Some? ==> CanonicalText(m[k].s)
  }

  lemma StrictIff(s: string)
    ensures Strict(s).Some? <==> Base64.Decoded(s).Some? && CanonicalText(s)
  {
    if Base64.Decoded(s).Some? { Base64.CanonicalIffReencodes(s); }
  }

  lemma TextReads(name: string, doc: Json)
    requires doc.Obj?
    ensures ReadField(Field(name, TStr, Required), doc.fields).Some? <==> IsText(Child(Some(doc), name))
  {
  }

  lemma BlobsRead(name: string, doc: Json)
    requires doc.Obj?
    ensures var o := Child(Some(doc), name);
      ReadField(Field(name, TDict(TStr), OmitEmpty), doc.fields).Some? <==>
        (o.Some? ==> o.value.Obj? && forall k :: k in o.value.fields ==> o.value.fields[k].Str?)
  {
    var o := Child(Some(doc), name);
    if o.Some? && o.value.Obj? {
      assert forall k :: k in o.value.fields ==> (Read(TStr, o.value.fields[k]).Some? <==> o.value.fields[k].Str?);
    }
  }

  lemma SourceReads(name: string, doc: Json)
    requires doc.Obj?
    ensures var o := Child(Some(doc), name);
      ReadField(Field(name, TOpt(TStr), OmitEmpty), doc.fields).Some? <==> (o.Some? ==> IsText(o) || o == Some(Null))
  {
  }

  lemma FiveFields(s: Shape, doc: Json)
    requires s.TStruct? && WellFormed(s) && |s.fields| == 5 && doc.Obj?
    ensures Read(s, doc).Some? <==>
      && ReadField(s.fields[0], doc.fields).Some? && ReadField(s.fields[1], doc.fields).Some?
      && ReadField(s.fields[2], doc.fields).Some? && ReadField(s.fields[3], doc.fields).Some?
      && ReadField(s.fields[4], doc.fields).Some?
  {
  }

  lemma TypedReads(doc: Json)
    requires WellFormed(WIRE)
    ensures Read(WIRE, doc).Some? <==> RustTyped(doc)
  {
    WireNames();
    if doc.Obj? {
      FiveFields(WIRE, doc);
      TextReads("app_digest", doc);
      BlobsRead("blobs", doc);
      TextReads("envelope", doc);
      TextReads("schema", doc);
      SourceReads("source_digest", doc);
    }
  }

  lemma LenientIsStrict(m: map<string, string>)
    requires BlobsOk(Quoted(m))
    ensures StrictBlobs(m) <==> CanonicalBlobs(Quoted(m))
  {
    var q := Quoted(m);
    forall k | k in m ensures HexRef(k) && q[k] == Str(m[k]) && (Strict(m[k]).Some? <==> CanonicalText(m[k])) {
      assert BlobOk(k, q[k]);
      StrictIff(m[k]);
    }
    if CanonicalBlobs(q) {
      forall k | k in m ensures Strict(m[k]).Some? { assert k in q; }
    } else {
      var k :| k in q && q[k].Str? && Base64.Decoded(q[k].s).Some? && !CanonicalText(q[k].s);
      assert Strict(m[k]).None?;
    }
  }

  /** Whatever the TypeScript reader accepts, the Rust reader reads as the same bundle, exactly
      when the document has the types Rust demands and its blobs are canonical base64; else it
      refuses. */
  lemma OnlyTypeScript(pf: Platform, doc: Json, b: AppBundle)
    requires pf.Standard() && Parsed(pf, doc) == Some(b)
    ensures var canonical := CanonicalBlobs(Entries(Child(Some(doc), "blobs")).value);
      RustParsed(pf, doc) == if RustTyped(doc) && canonical then Some(b) else None
  {
    WireShape();
    TypedReads(doc);
    if RustTyped(doc) {
      var v := Read(WIRE, doc).value;
      WireTexts(doc, v);
      NotNull(pf, doc);
      SourceDecodes(Child(Some(doc), "source_digest"), At(v, 4));
      LenientIsStrict(ToPairs(At(v, 1)));
      if StrictBlobs(ToPairs(At(v, 1))) { StrictIsLenient(ToPairs(At(v, 1))); }
    }
  }

  lemma NotNull(pf: Platform, doc: Json)
    requires pf.Standard() && Parsed(pf, doc).Some?
    ensures Child(Some(doc), "source_digest") != Some(Null)
  {
    assert |"null"| == 4;
  }

  /** A null `blobs` is no blobs to TypeScript and an error to Rust. */
  lemma NullBlobs(pf: Platform, b: AppBundle)
    requires pf.Standard() && Portable(pf, b) && b.blobs == map[]
    ensures var doc := Obj(Document(b, pf.decode(b.envelope))["blobs" := Null]);
      Parsed(pf, doc) == Some(b) && RustParsed(pf, doc) == None
  {
    var text := pf.decode(b.envelope);
    var doc := Obj(Document(b, text)["blobs" := Null]);
    DocumentFields(b, text);
    PlainTextBack(pf, b.envelope);
    assert |"blobs"| == 5 && |"schema"| == 6 && |"envelope"| == 8 && |"app_digest"| == 10 && |"source_digest"| == 13;
    OnlyTypeScript(pf, doc, b);
  }

  // ------------------------------------------------------------------ the Rust round trip

  lemma StrictBack(blobs: map<string, Blob>)
    ensures StrictBlobs(EncodedTexts(blobs)) <==> forall k :: k in blobs ==> HexRef(k)
    ensures StrictBlobs(EncodedTexts(blobs)) ==> StrictDecoded(EncodedTexts(blobs)) == blobs
  {
    var m := EncodedTexts(blobs);
    forall k | k in blobs ensures Strict(m[k]) == Some(blobs[k]) {
      StrictExact(m[k], blobs[k]);
    }
  }

  lemma WireFaithful(b: AppBundle, text: string)
    requires HasShape(WIRE, WireOf(b, text))
    ensures NoSomeNull(WIRE, WireOf(b, text))
  {
    var v := WireOf(b, text);
    WireNames();
    PairsCodec(EncodedTexts(b.blobs));
    if b.sourceDigest.Some? { TextFits(b.sourceDigest.value); }
    forall i | 0 <= i < 5 ensures NoSomeNull(WIRE.fields[i].shape, v.vals[i]) {
    }
  }

  lemma WireBack(b: AppBundle, text: string)
    requires WellFormed(WIRE) && HasShape(WIRE, WireOf(b, text))
    ensures Read(WIRE, Write(WIRE, WireOf(b, text))) == Some(WireOf(b, text))
  {
    WireFaithful(b, text);
    ReadWrite(WIRE, WireOf(b, text));
  }

  lemma WireParts(b: AppBundle, text: string)
    ensures ToPairs(At(WireOf(b, text), 1)) == EncodedTexts(b.blobs)
    ensures OptFrom(At(WireOf(b, text), 4), x => Text(x)) == b.sourceDigest
  {
    PairsCodec(EncodedTexts(b.blobs));
  }

  /** What the Rust reader makes of what the Rust writer wrote. */
  lemma RustReads(pf: Platform, b: AppBundle)
    requires pf.Standard() && RustDocument(pf, b).Some?
    ensures var texts := EncodedTexts(b.blobs);
      RustParsed(pf, RustDocument(pf, b).value) ==
        if HexRef(b.appDigest) && (b.sourceDigest.Some? ==> HexRef(b.sourceDigest.value)) && StrictBlobs(texts)
        then Some(AppBundle(b.appDigest, b.envelope, StrictDecoded(texts), b.sourceDigest)) else None
  {
    var text := pf.strict(b.envelope).value;
    WireShape();
    WireFits(b, text);
    WireBack(b, text);
    WireParts(b, text);
  }

  /** A bundle the Rust writer accepts survives the Rust reader exactly when its names are
      hexadecimal. */
  lemma RustRoundTrip(pf: Platform, b: AppBundle)
    requires pf.Standard() && RustDocument(pf, b).Some?
    ensures RustParsed(pf, RustDocument(pf, b).value) == Some(b) <==> NamesHex(b)
  {
    RustReads(pf, b);
    StrictBack(b.blobs);
  }
}
