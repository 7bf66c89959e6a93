/**
 canonicalize and event_fingerprint: UTF-8 bytes, limits, and the bytes that are hashed. SHA-256 is not
 modelled; fingerprints are compared by what goes into it.
 */
module Fingerprint {
  import opened Wrappers
  import opened CanonicalJson
  import opened Unicode

  // --- canonicalize ---------------------------------------------------------------------------------------

  datatype Refusal = InvalidNumber | TooDeep | TooLarge

  function Canonicalize(doc: Json, sizeLimit: nat, depthLimit: nat): Result<seq<int>, Refusal> {
    var depth := Depth(doc, 1);
    if depth.None? then Err(InvalidNumber)
    else if depth.value > depthLimit then Err(TooDeep)
    else
      var bytes := Utf8(Print(doc));
      if |bytes| > sizeLimit then Err(TooLarge) else Ok(bytes)
  }

  /** Accepted are exactly the finite documents within both limits, and each refusal has its cause. */
  lemma AcceptsExactly(doc: Json, sizeLimit: nat, depthLimit: nat)
    ensures
      var r := Canonicalize(doc, sizeLimit, depthLimit);
      && (r.Ok? <==> Finite(doc) && Height(doc) <= depthLimit && |Utf8(Print(doc))| <= sizeLimit)
      && (r == Err(InvalidNumber) <==> !Finite(doc))
      && (r == Err(TooDeep) <==> Finite(doc) && Height(doc) > depthLimit)
      && (r.Ok? ==> r.value == Utf8(Print(doc)))
  {
    DepthIsHeight(doc, 1);
  }

  /** Two accepted documents have the same bytes if and only if they mean the same. */
  lemma BodiesAgree(a: Json, b: Json, sizeLimit: nat, depthLimit: nat)
    requires Valid(a) && Valid(b)
    requires Canonicalize(a, sizeLimit, depthLimit).Ok? && Canonicalize(b, sizeLimit, depthLimit).Ok?
    ensures Canonicalize(a, sizeLimit, depthLimit) == Canonicalize(b, sizeLimit, depthLimit)
       <==> Denote(a) == Denote(b)
  {
    AcceptsExactly(a, sizeLimit, depthLimit);
    AcceptsExactly(b, sizeLimit, depthLimit);
    PrintIsCanonical(a, b);
    if Utf8(Print(a)) == Utf8(Print(b)) {
      Utf8Injective(Print(a), Print(b));
    }
  }

  // --- event_fingerprint ----------------------------------------------------------------------------------

  const NEWLINE: int := 10

  /** The bytes of the word POST. */
  const POST: seq<int> := [80, 79, 83, 84]

  /** The material that is hashed. */
  function Material(org: string, apiKey: string, body: seq<int>): seq<int> {
    POST + [NEWLINE] + (Utf8(org) + [NEWLINE] + (Utf8(apiKey) + [NEWLINE] + body))
  }

  predicate NewlineFree(s: string) {
    '\n' !in s
  }

  lemma {:induction false} NewlineFreeBytes(s: string)
    requires NewlineFree(s)
    ensures NEWLINE !in Utf8(s)
  {
    if s != "" {
      assert s[0] in s && forall c :: c in s[1..] ==> c in s;
      NewlineFreeBytes(s[1..]);
      assert NEWLINE !in Utf8Char(s[0]);
    }
  }

  /** A separator that neither left part contains splits a sequence in one way only. */
  lemma SplitOnce(a: seq<int>, b: seq<int>, x: seq<int>, y: seq<int>)
    requires NEWLINE !in a && NEWLINE !in b && a + [NEWLINE] + x == b + [NEWLINE] + y
    ensures a == b && x == y
  {
    var s, t := a + [NEWLINE] + x, b + [NEWLINE] + y;
    assert s[|a|] == NEWLINE && t[|b|] == NEWLINE;
    assert |a| == |b|;
    assert a == s[..|a|] && b == t[..|b|];
    assert x == s[|a| + 1..] && y == t[|b| + 1..];
  }

  /** Equal material means equal organization, key and body. */
  lemma MaterialInjective(o: string, p: string, k: string, l: string, x: seq<int>, y: seq<int>)
    requires NewlineFree(o) && NewlineFree(p) && NewlineFree(k) && NewlineFree(l)
    ensures Material(o, k, x) == Material(p, l, y) <==> o == p && k == l && x == y
  {
    if Material(o, k, x) == Material(p, l, y) {
      NewlineFreeBytes(o);
      NewlineFreeBytes(p);
      NewlineFreeBytes(k);
      NewlineFreeBytes(l);
      SplitOnce(POST, POST, Utf8(o) + [NEWLINE] + (Utf8(k) + [NEWLINE] + x),
                Utf8(p) + [NEWLINE] + (Utf8(l) + [NEWLINE] + y));
      SplitOnce(Utf8(o), Utf8(p), Utf8(k) + [NEWLINE] + x, Utf8(l) + [NEWLINE] + y);
      SplitOnce(Utf8(k), Utf8(l), x, y);
      Utf8Injective(o, p);
      Utf8Injective(k, l);
    }
  }

  /** The document that ingest canonicalizes; `occurredAt` is the UTC timestamp text. */
  function Document(data: Fields, occurredAt: string, eventType: string, version: int): Json {
    Obj(FourFields("data", Obj(data), "occurred_at", Str(occurredAt), "type", Str(eventType), "version", Int(version)))
  }

  lemma KeysDiffer()
    ensures "data" != "occurred_at" && "data" != "type" && "data" != "version"
    ensures "occurred_at" != "type" && "occurred_at" != "version" && "type" != "version"
  {
    assert "data"[0] != "type"[0];
    assert |"occurred_at"| == 11 && |"version"| == 7 && |"data"| == 4 && |"type"| == 4;
  }

  /** Chains of four object members with different keys: their meaning, validity and finiteness. */
  predicate Distinct4(k: string, k1: string, k2: string, k3: string) {
    k != k1 && k != k2 && k != k3 && k1 != k2 && k1 != k3 && k2 != k3
  }

  function FourFields(
    k: string, v: Json, k1: string, v1: Json, k2: string, v2: Json, k3: string, v3: Json): Fields
  {
    Field(k, v, Field(k1, v1, Field(k2, v2, Field(k3, v3, NoFields))))
  }

  lemma FourFieldsDenote(
    k: string, v: Json, k1: string, v1: Json, k2: string, v2: Json, k3: string, v3: Json)
    requires Distinct4(k, k1, k2, k3)
    ensures DenoteFields(FourFields(k, v, k1, v1, k2, v2, k3, v3))
         == map[k := Denote(v), k1 := Denote(v1), k2 := Denote(v2), k3 := Denote(v3)]
  {
    var f3 := Field(k3, v3, NoFields);
    var f2 := Field(k2, v2, f3);
    assert DenoteFields(f3) == map[k3 := Denote(v3)];
    assert DenoteFields(f2) == map[k2 := Denote(v2), k3 := Denote(v3)];
    assert DenoteFields(Field(k1, v1, f2)) == map[k1 := Denote(v1), k2 := Denote(v2), k3 := Denote(v3)];
  }

  lemma FourFieldsValid(
    k: string, v: Json, k1: string, v1: Json, k2: string, v2: Json, k3: string, v3: Json)
    requires Distinct4(k, k1, k2, k3)
    ensures ValidFields(FourFields(k, v, k1, v1, k2, v2, k3, v3))
       <==> Valid(v) && Valid(v1) && Valid(v2) && Valid(v3)
  {
    var f3 := Field(k3, v3, NoFields);
    var f2 := Field(k2, v2, f3);
    assert !HasKey(f3, k2) && !HasKey(f3, k1) && !HasKey(f3, k);
    assert ValidFields(f3) <==> Valid(v3);
    assert ValidFields(f2) <==> Valid(v2) && Valid(v3);
    var f1 := Field(k1, v1, f2);
    assert !HasKey(f2, k1) && !HasKey(f2, k) && !HasKey(f1, k);
    assert ValidFields(f1) <==> Valid(v1) && Valid(v2) && Valid(v3);
  }

  lemma FourFieldsFinite(
    k: string, v: Json, k1: string, v1: Json, k2: string, v2: Json, k3: string, v3: Json)
    ensures FiniteFields(FourFields(k, v, k1, v1, k2, v2, k3, v3))
       <==> Finite(v) && Finite(v1) && Finite(v2) && Finite(v3)
  {
    var f3 := Field(k3, v3, NoFields);
    var f2 := Field(k2, v2, f3);
    assert FiniteFields(f3) <==> Finite(v3);
    assert FiniteFields(f2) <==> Finite(v2) && Finite(v3);
  }

  lemma DocumentMeaning(data: Fields, at: string, eventType: string, version: int)
    ensures
      var m := Denote(Document(data, at, eventType, version));
      && m.VObj? && m.fields.Keys == {"data", "occurred_at", "type", "version"}
      && m.fields["data"] == VObj(DenoteFields(data)) && m.fields["occurred_at"] == VStr(at)
      && m.fields["type"] == VStr(eventType) && m.fields["version"] == VInt(version)
    ensures ValidFields(data) ==> Valid(Document(data, at, eventType, version))
    ensures Finite(Document(data, at, eventType, version)) <==> FiniteFields(data)
  {
    KeysDiffer();
    FourFieldsDenote("data", Obj(data), "occurred_at", Str(at), "type", Str(eventType), "version", Int(version));
    FourFieldsValid("data", Obj(data), "occurred_at", Str(at), "type", Str(eventType), "version", Int(version));
    FourFieldsFinite("data", Obj(data), "occurred_at", Str(at), "type", Str(eventType), "version", Int(version));
  }

  /** Everything a fingerprint is computed from. */
  datatype Content = Content(
    org: string, apiKey: string, data: Fields, occurredAt: string, eventType: string, version: int)

  function MaterialOf(c: Content): seq<int> {
    Material(c.org, c.apiKey, Utf8(Print(Document(c.data, c.occurredAt, c.eventType, c.version))))
  }

  predicate Acceptable(c: Content) {
    NewlineFree(c.org) && NewlineFree(c.apiKey) && ValidFields(c.data) && FiniteFields(c.data)
  }

  /** Same content, up to the order of object members anywhere in `data`. */
  predicate SameContent(a: Content, b: Content) {
    && a.org == b.org && a.apiKey == b.apiKey && a.occurredAt == b.occurredAt
    && a.eventType == b.eventType && a.version == b.version && DenoteFields(a.data) == DenoteFields(b.data)
  }

  /** Fingerprint pre-images are equal if and only if organization, API key and content are. */
  lemma SameMaterialSameContent(a: Content, b: Content)
    requires Acceptable(a) && Acceptable(b)
    ensures MaterialOf(a) == MaterialOf(b) <==> SameContent(a, b)
  {
    var p := Document(a.data, a.occurredAt, a.eventType, a.version);
    var q := Document(b.data, b.occurredAt, b.eventType, b.version);
    DocumentMeaning(a.data, a.occurredAt, a.eventType, a.version);
    DocumentMeaning(b.data, b.occurredAt, b.eventType, b.version);
    MaterialInjective(a.org, b.org, a.apiKey, b.apiKey, Utf8(Print(p)), Utf8(Print(q)));
    PrintIsCanonical(p, q);
    if Utf8(Print(p)) == Utf8(Print(q)) {
      Utf8Injective(Print(p), Print(q));
    }
    assert SameContent(a, b) ==> Denote(p) == Denote(q) by {
      if SameContent(a, b) {
        assert Denote(p).fields == Denote(q).fields;
      }
    }
  }
}
