/**
 The exact bytes of a canonical body, which are stored, hashed, signed and sent: the order of object members,
 the characters that are escaped and how, the UTF-8 encoding, and the layout of the hashed material.
 */
module CanonicalText {
  import opened Wrappers
  import opened CanonicalJson
  import opened Fingerprint
  import opened Unicode
  import opened Decimals

  // --- Member order -----------------------------------------------------------------------------------------

  /** `a` and `b` agree before `p`; there `a` ends, or has the smaller code point. */
  predicate DiffersAt(a: string, b: string, p: nat) {
    p <= |a| && p < |b| && a[..p] == b[..p] && (p < |a| ==> a[p] < b[p])
  }

  ghost predicate ByCodePoint(a: string, b: string) {
    exists p: nat :: DiffersAt(a, b, p)
  }

  lemma {:induction false} LessMeansByCodePoint(a: string, b: string)
    requires Less(a, b)
    ensures ByCodePoint(a, b)
  {
    if a == "" {
      assert DiffersAt(a, b, 0);
    } else if a[0] < b[0] {
      assert DiffersAt(a, b, 0);
    } else {
      LessMeansByCodePoint(a[1..], b[1..]);
      var p: nat :| DiffersAt(a[1..], b[1..], p);
      assert a[..p + 1] == [a[0]] + a[1..][..p] && b[..p + 1] == [b[0]] + b[1..][..p];
      assert DiffersAt(a, b, p + 1);
    }
  }

  lemma {:induction false} ByCodePointMeansLess(a: string, b: string, p: nat)
    requires DiffersAt(a, b, p)
    ensures Less(a, b)
    decreases p
  {
    if p > 0 {
      assert a[0] == a[..p][0] && b[0] == b[..p][0];
      assert a[1..][..p - 1] == a[..p][1..] && b[1..][..p - 1] == b[..p][1..];
      ByCodePointMeansLess(a[1..], b[1..], p - 1);
    }
  }

  /** Keys are compared at their first difference, by code point; a prefix comes first. */
  lemma LessIsByCodePoint(a: string, b: string)
    ensures Less(a, b) <==> ByCodePoint(a, b)
  {
    if Less(a, b) {
      LessMeansByCodePoint(a, b);
    }
    if p: nat :| DiffersAt(a, b, p) {
      ByCodePointMeansLess(a, b, p);
    }
  }

  /** Printed members, with a comma between them and a colon in each. */
  function Joined(ms: seq<Member>): string {
    if ms == [] then ""
    else
      var last := ms[|ms| - 1];
      (if |ms| == 1 then "" else Joined(ms[..|ms| - 1]) + ",") + (Quote(last.key) + ":" + last.text)
  }

  lemma Associates<T>(a: seq<T>, b: seq<T>, c: seq<T>)
    ensures a + b + c == a + (b + c)
  {
  }

  lemma RenderCons(m: Member, ms: seq<Member>)
    requires ms != []
    ensures Render([m] + ms) == Render([m]) + "," + Render(ms)
  {
    assert ([m] + ms)[1..] == ms;
  }

  lemma {:induction false} RenderMore(ms: seq<Member>, m: Member)
    requires ms != []
    ensures Render(ms + [m]) == Render(ms) + "," + Render([m])
  {
    if |ms| > 1 {
      var first, others := [ms[0]], ms[1..];
      assert ms == first + others && ms + [m] == first + (others + [m]);
      RenderMore(others, m);
      RenderCons(ms[0], others);
      RenderCons(ms[0], others + [m]);
      Associates(Render(first) + ",", Render(others) + ",", Render([m]));
      Associates(Render(first) + ",", Render(others), ",");
    } else {
      assert ms == [ms[0]] && ms + [m] == [ms[0]] + [m];
      RenderCons(ms[0], [m]);
    }
  }

  lemma {:induction false} RenderIsJoined(ms: seq<Member>)
    ensures Render(ms) == Joined(ms)
  {
    if |ms| > 1 {
      var init, last := ms[..|ms| - 1], ms[|ms| - 1];
      RenderIsJoined(init);
      RenderMore(init, last);
      assert ms == init + [last];
    }
  }

  /** An object is printed with exactly its members, each once, in code point order of their keys. */
  lemma MembersInOrder(f: Fields) returns (ms: seq<Member>)
    requires ValidFields(f)
    ensures Print(Obj(f)) == "{" + Joined(ms) + "}"
    ensures forall m :: m in ms <==> HasKey(f, m.key) && m.text == Print(Lookup(f, m.key))
    ensures forall i, j :: 0 <= i < j < |ms| ==> ByCodePoint(ms[i].key, ms[j].key)
  {
    ms := Sort(Members(f));
    MembersDistinct(f);
    SortSorts(Members(f));
    RenderIsJoined(ms);
    forall m
      ensures m in ms <==> HasKey(f, m.key) && m.text == Print(Lookup(f, m.key))
    {
      MembersAreLookups(f, m);
    }
    forall i, j | 0 <= i < j < |ms|
      ensures ByCodePoint(ms[i].key, ms[j].key)
    {
      LessIsByCodePoint(ms[i].key, ms[j].key);
    }
  }

  lemma FirstDecides(a: string, b: string)
    requires a != "" && b != "" && a[0] < b[0]
    ensures Less(a, b)
  {
  }

  lemma FourMembers(d: string, o: string, t: string, v: string)
    ensures
      Sort([Member("data", d), Member("occurred_at", o), Member("type", t), Member("version", v)])
      == [Member("data", d), Member("occurred_at", o), Member("type", t), Member("version", v)]
  {
    var ms := [Member("data", d), Member("occurred_at", o), Member("type", t), Member("version", v)];
    FirstDecides("data", "occurred_at");
    FirstDecides("data", "type");
    FirstDecides("data", "version");
    FirstDecides("occurred_at", "type");
    FirstDecides("occurred_at", "version");
    FirstDecides("type", "version");
    assert Sorted(ms);
    SortedIsDistinct(ms);
    SortSorts(ms);
    SortedIsUnique(Sort(ms), ms);
  }

  lemma FourFieldsMembers(d: Json, o: Json, t: Json, v: Json)
    ensures Members(FourFields("data", d, "occurred_at", o, "type", t, "version", v))
         == [Member("data", Print(d)), Member("occurred_at", Print(o)), Member("type", Print(t)),
             Member("version", Print(v))]
  {
    var f3 := Field("version", v, NoFields);
    var f2 := Field("type", t, f3);
    assert Members(f3) == [Member("version", Print(v))];
    assert Members(f2) == [Member("type", Print(t)), Member("version", Print(v))];
    assert Members(Field("occurred_at", o, f2))
        == [Member("occurred_at", Print(o)), Member("type", Print(t)), Member("version", Print(v))];
  }

  /** The body of every event: data, occurred_at, type, version, in this order. */
  lemma BodyLayout(data: Fields, occurredAt: string, eventType: string, version: int)
    ensures Print(Document(data, occurredAt, eventType, version))
         == "{" + Joined([Member("data", Print(Obj(data))), Member("occurred_at", Quote(occurredAt)),
                          Member("type", Quote(eventType)), Member("version", PrintInt(version))]) + "}"
  {
    var d, o, t, v := Print(Obj(data)), Quote(occurredAt), Quote(eventType), PrintInt(version);
    FourFieldsMembers(Obj(data), Str(occurredAt), Str(eventType), Int(version));
    FourMembers(d, o, t, v);
    RenderIsJoined([Member("data", d), Member("occurred_at", o), Member("type", t), Member("version", v)]);
  }

  // --- Escapes ----------------------------------------------------------------------------------------------

  /** From the space up, everything but the quote and the backslash stands for itself. */
  predicate Plain(c: char) {
    c as int >= 32 && c as int != 34 && c as int != 92
  }

  /** How each character is written. */
  lemma EscapeTable(c: char)
    ensures Plain(c) ==> EscapeChar(c) == [c]
    ensures c as int == 34 || c as int == 92 ==> EscapeChar(c) == ['\\', c]
    ensures c as int == 8 ==> EscapeChar(c) == ['\\', 'b']
    ensures c as int == 9 ==> EscapeChar(c) == ['\\', 't']
    ensures c as int == 10 ==> EscapeChar(c) == ['\\', 'n']
    ensures c as int == 12 ==> EscapeChar(c) == ['\\', 'f']
    ensures c as int == 13 ==> EscapeChar(c) == ['\\', 'r']
    ensures c as int < 32 && c as int !in {8, 9, 10, 12, 13} ==>
              exists h: nat, l: nat {:trigger "0123456789abcdef"[h], "0123456789abcdef"[l]} ::
                h < 16 && l < 16 && c as int == 16 * h + l
                && EscapeChar(c) == ['\\', 'u', '0', '0', "0123456789abcdef"[h], "0123456789abcdef"[l]]
  {
    if c as int < 32 && c as int !in {8, 9, 10, 12, 13} {
      var h: nat, l: nat := c as int / 16, c as int % 16;
      assert EscapeChar(c) == ['\\', 'u', '0', '0', "0123456789abcdef"[h], "0123456789abcdef"[l]];
    }
  }

  /** Texts without special characters are printed as they are. */
  lemma {:induction false} PlainText(s: string)
    requires forall i :: 0 <= i < |s| ==> Plain(s[i])
    ensures Escape(s) == s
  {
    if s != "" {
      EscapeTable(s[0]);
      PlainText(s[1..]);
      assert s == [s[0]] + s[1..];
    }
  }

  // --- Bytes ------------------------------------------------------------------------------------------------

  /** A trailing byte carries six bits. */
  predicate Trailing(b: int) {
    0x80 <= b < 0xC0
  }

  /** The code point of a character, read from its bytes as section 3 of RFC 3629 lays them out. */
  lemma Utf8Bits(c: char)
    ensures
      var b, n := Utf8Char(c), c as int;
      && (n < 0x80 ==> b == [n])
      && (0x80 <= n < 0x800 ==>
            |b| == 2 && 0xC0 <= b[0] < 0xE0 && Trailing(b[1]) && n == (b[0] - 0xC0) * 64 + (b[1] - 0x80))
      && (0x800 <= n < 0x10000 ==>
            && |b| == 3 && 0xE0 <= b[0] < 0xF0 && Trailing(b[1]) && Trailing(b[2])
            && n == ((b[0] - 0xE0) * 64 + (b[1] - 0x80)) * 64 + (b[2] - 0x80))
      && (0x10000 <= n ==>
            && |b| == 4 && 0xF0 <= b[0] < 0xF8 && Trailing(b[1]) && Trailing(b[2]) && Trailing(b[3])
            && n == (((b[0] - 0xF0) * 64 + (b[1] - 0x80)) * 64 + (b[2] - 0x80)) * 64 + (b[3] - 0x80))
  {
    var n: nat := c as int;
    assert n / 4096 == n / 64 / 64 && n / 262144 == n / 4096 / 64;
  }

  lemma {:induction false} Utf8Concat(s: string, t: string)
    ensures Utf8(s + t) == Utf8(s) + Utf8(t)
  {
    if s == "" {
      assert s + t == t;
    } else {
      Utf8Concat(s[1..], t);
      assert (s + t)[1..] == s[1..] + t;
      Associates(Utf8Char(s[0]), Utf8(s[1..]), Utf8(t));
    }
  }

  lemma FourParts(p: seq<int>, o: seq<int>, k: seq<int>, x: seq<int>)
    ensures
      var m, i, j := p + [10] + (o + [10] + (k + [10] + x)), |p| + 1 + |o|, |p| + 2 + |o| + |k|;
      && |m| == j + 1 + |x| && m[..|p| + 1] == p + [10]
      && m[|p| + 1..i] == o && m[i] == 10 && m[i + 1..j] == k && m[j] == 10 && m[j + 1..] == x
  {
  }

  /** POST, organization, API key and body, with a newline after each but the last. */
  lemma MaterialLayout(org: string, apiKey: string, body: seq<int>)
    ensures
      var m, o, k := Material(org, apiKey, body), 5 + |Utf8(org)|, 6 + |Utf8(org)| + |Utf8(apiKey)|;
      && |m| == k + 1 + |body| && m[..5] == [80, 79, 83, 84, 10]
      && m[5..o] == Utf8(org) && m[o] == 10 && m[o + 1..k] == Utf8(apiKey) && m[k] == 10 && m[k + 1..] == body
  {
    FourParts([80, 79, 83, 84], Utf8(org), Utf8(apiKey), body);
    assert [80, 79, 83, 84] + [10] == [80, 79, 83, 84, 10];
  }
}
