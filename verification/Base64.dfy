/** Base 64 with the URL- and filename-safe alphabet, section 5 of RFC 4648. */
module Base64 {
  import opened Wrappers

  type Bytes = seq<int>

  predicate ValidBytes(b: Bytes) {
    forall i :: 0 <= i < |b| ==> 0 <= b[i] < 256
  }

  function Letter(n: nat): char
    requires n < 64
  {
    if n < 26 then ('A' as int + n) as char
    else if n < 52 then ('a' as int + (n - 26)) as char
    else if n < 62 then ('0' as int + (n - 52)) as char
    else if n == 62 then '-'
    else '_'
  }

  function Sextet(c: char): (n: Option<nat>)
    ensures n.Some? ==> n.value < 64
  {
    if 'A' <= c <= 'Z' then Some(c as int - 'A' as int)
    else if 'a' <= c <= 'z' then Some(c as int - 'a' as int + 26)
    else if '0' <= c <= '9' then Some(c as int - '0' as int + 52)
    else if c == '-' then Some(62)
    else if c == '_' then Some(63)
    else None
  }

  lemma LetterRoundTrip(n: nat)
    requires n < 64
    ensures Sextet(Letter(n)) == Some(n) && Letter(n) != '='
  {
  }

  // --- Encoding -----------------------------------------------------------------------------------------

  /** The sextets of one, two or three bytes. */
  function Split1(a: nat): (r: (nat, nat))
    requires a < 256
    ensures r.0 < 64 && r.1 < 64 && a == r.0 * 4 + r.1 / 16
  {
    (a / 4, a % 4 * 16)
  }

  function Split2(a: nat, b: nat): (r: (nat, nat, nat))
    requires a < 256 && b < 256
    ensures r.0 < 64 && r.1 < 64 && r.2 < 64
    ensures a == r.0 * 4 + r.1 / 16 && b == r.1 % 16 * 16 + r.2 / 4
  {
    (a / 4, a % 4 * 16 + b / 16, b % 16 * 4)
  }

  function Split3(a: nat, b: nat, c: nat): (r: (nat, nat, nat, nat))
    requires a < 256 && b < 256 && c < 256
    ensures r.0 < 64 && r.1 < 64 && r.2 < 64 && r.3 < 64
    ensures a == r.0 * 4 + r.1 / 16 && b == r.1 % 16 * 16 + r.2 / 4 && c == r.2 % 4 * 64 + r.3
  {
    (a / 4, a % 4 * 16 + b / 16, b % 16 * 4 + c / 64, c % 64)
  }

  function Group1(a: nat): string
    requires a < 256
  {
    var (w, x) := Split1(a);
    [Letter(w), Letter(x), '=', '=']
  }

  function Group2(a: nat, b: nat): string
    requires a < 256 && b < 256
  {
    var (w, x, y) := Split2(a, b);
    [Letter(w), Letter(x), Letter(y), '=']
  }

  function Group3(a: nat, b: nat, c: nat): string
    requires a < 256 && b < 256 && c < 256
  {
    var (w, x, y, z) := Split3(a, b, c);
    [Letter(w), Letter(x), Letter(y), Letter(z)]
  }

  /** urlsafe_b64encode: four characters for three bytes, padded with '='. */
  function Encode(b: Bytes): string
    requires ValidBytes(b)
  {
    if |b| == 0 then ""
    else if |b| == 1 then Group1(b[0])
    else if |b| == 2 then Group2(b[0], b[1])
    else Group3(b[0], b[1], b[2]) + Encode(b[3..])
  }

  /** rstrip(b"=") */
  function Strip(s: string): string {
    if s != "" && s[|s| - 1] == '=' then Strip(s[..|s| - 1]) else s
  }

  function Equals(n: nat): string {
    if n == 0 then "" else "=" + Equals(n - 1)
  }

  /** value + "=" * (-len(value) % 4) */
  function Pad(s: string): string {
    s + Equals((0 - |s|) % 4)
  }

  // --- Decoding -----------------------------------------------------------------------------------------

  /** The bytes of one group of four; the unused low bits before a padding character are ignored. */
  function DecodeGroup(s: string, last: bool): Option<Bytes>
    requires |s| == 4
  {
    var a, b, c, d := Sextet(s[0]), Sextet(s[1]), Sextet(s[2]), Sextet(s[3]);
    if a.None? || b.None? then None
    else if last && s[2] == '=' && s[3] == '=' then Some([a.value * 4 + b.value / 16])
    else if c.None? then None
    else if last && s[3] == '=' then
      Some([a.value * 4 + b.value / 16, b.value % 16 * 16 + c.value / 4])
    else if d.None? then None
    else Some([a.value * 4 + b.value / 16, b.value % 16 * 16 + c.value / 4, c.value % 4 * 64 + d.value])
  }

  function Decode(s: string): Option<Bytes> {
    if s == "" then Some([])
    else if |s| < 4 then None
    else
      var first, others := DecodeGroup(s[..4], |s| == 4), Decode(s[4..]);
      if first.None? || others.None? then None else Some(first.value + others.value)
  }

  // --- Round trip ---------------------------------------------------------------------------------------

  lemma Letters1(w: nat, x: nat)
    requires w < 64 && x < 64
    ensures DecodeGroup([Letter(w), Letter(x), '=', '='], true) == Some([w * 4 + x / 16])
  {
    LetterRoundTrip(w);
    LetterRoundTrip(x);
  }

  lemma Letters2(w: nat, x: nat, y: nat)
    requires w < 64 && x < 64 && y < 64
    ensures DecodeGroup([Letter(w), Letter(x), Letter(y), '='], true)
         == Some([w * 4 + x / 16, x % 16 * 16 + y / 4])
  {
    LetterRoundTrip(w);
    LetterRoundTrip(x);
    LetterRoundTrip(y);
  }

  lemma Letters3(w: nat, x: nat, y: nat, z: nat, last: bool)
    requires w < 64 && x < 64 && y < 64 && z < 64
    ensures DecodeGroup([Letter(w), Letter(x), Letter(y), Letter(z)], last)
         == Some([w * 4 + x / 16, x % 16 * 16 + y / 4, y % 4 * 64 + z])
  {
    LetterRoundTrip(w);
    LetterRoundTrip(x);
    LetterRoundTrip(y);
    LetterRoundTrip(z);
  }

  lemma Group1RoundTrip(a: nat)
    requires a < 256
    ensures DecodeGroup(Group1(a), true) == Some([a])
  {
    var (w, x) := Split1(a);
    Letters1(w, x);
  }

  lemma Group2RoundTrip(a: nat, b: nat)
    requires a < 256 && b < 256
    ensures DecodeGroup(Group2(a, b), true) == Some([a, b])
  {
    var (w, x, y) := Split2(a, b);
    Letters2(w, x, y);
  }

  lemma Group3RoundTrip(a: nat, b: nat, c: nat, last: bool)
    requires a < 256 && b < 256 && c < 256
    ensures DecodeGroup(Group3(a, b, c), last) == Some([a, b, c])
  {
    var (w, x, y, z) := Split3(a, b, c);
    Letters3(w, x, y, z, last);
  }

  lemma DecodeStep(group: string, tail: string, bytes: Bytes, others: Bytes)
    requires |group| == 4 && DecodeGroup(group, tail == "") == Some(bytes) && Decode(tail) == Some(others)
    ensures Decode(group + tail) == Some(bytes + others)
  {
    assert (group + tail)[..4] == group && (group + tail)[4..] == tail;
  }

  lemma ShortRoundTrip(b: Bytes)
    requires ValidBytes(b) && 0 < |b| < 3
    ensures Decode(Encode(b)) == Some(b)
  {
    if |b| == 1 {
      Group1RoundTrip(b[0]);
      DecodeStep(Group1(b[0]), "", [b[0]], []);
      assert Group1(b[0]) + "" == Encode(b) && [b[0]] + [] == b;
    } else {
      Group2RoundTrip(b[0], b[1]);
      DecodeStep(Group2(b[0], b[1]), "", [b[0], b[1]], []);
      assert Group2(b[0], b[1]) + "" == Encode(b) && [b[0], b[1]] + [] == b;
    }
  }

  lemma {:induction false} RoundTrip(b: Bytes)
    requires ValidBytes(b)
    ensures Decode(Encode(b)) == Some(b)
  {
    if 0 < |b| < 3 {
      ShortRoundTrip(b);
    } else if |b| >= 3 {
      RoundTrip(b[3..]);
      Group3RoundTrip(b[0], b[1], b[2], Encode(b[3..]) == "");
      DecodeStep(Group3(b[0], b[1], b[2]), Encode(b[3..]), [b[0], b[1], b[2]], b[3..]);
      assert [b[0], b[1], b[2]] + b[3..] == b;
    }
  }

  // --- Padding ------------------------------------------------------------------------------------------

  predicate UrlSafe(s: string) {
    forall i :: 0 <= i < |s| ==> Sextet(s[i]).Some?
  }

  /** Stripping removes a run of '=' after characters of the alphabet, and nothing else. */
  lemma {:induction false} StripRun(s: string, n: nat)
    requires UrlSafe(s)
    ensures Strip(s + Equals(n)) == s
    decreases n
  {
    if n == 0 {
      assert s + Equals(n) == s;
    } else {
      EqualsEnd(n);
      assert (s + Equals(n))[..|s + Equals(n)| - 1] == s + Equals(n - 1);
      StripRun(s, n - 1);
    }
  }

  lemma {:induction false} EqualsEnd(n: nat)
    requires n > 0
    ensures |Equals(n)| == n && Equals(n) == Equals(n - 1) + "="
  {
    if n > 1 {
      EqualsEnd(n - 1);
    }
  }

  lemma GroupsAreSafe(a: nat, b: nat, c: nat)
    requires a < 256 && b < 256 && c < 256
    ensures UrlSafe(Group1(a)[..2]) && UrlSafe(Group2(a, b)[..3]) && UrlSafe(Group3(a, b, c))
  {
    forall n: nat | n < 64
      ensures Sextet(Letter(n)).Some?
    {
      LetterRoundTrip(n);
    }
  }

  /** An encoding is a text over the alphabet followed by the padding its length calls for. */
  lemma {:induction false} EncodingShape(b: Bytes) returns (s: string)
    requires ValidBytes(b)
    ensures UrlSafe(s) && Encode(b) == Pad(s)
    ensures |s| == (|b| * 4 + 2) / 3
  {
    if |b| == 0 {
      s := "";
    } else if |b| == 1 {
      GroupsAreSafe(b[0], 0, 0);
      s := Group1(b[0])[..2];
      Equals2();
    } else if |b| == 2 {
      GroupsAreSafe(b[0], b[1], 0);
      s := Group2(b[0], b[1])[..3];
      Equals2();
    } else {
      var tail := EncodingShape(b[3..]);
      GroupsAreSafe(b[0], b[1], b[2]);
      s := Group3(b[0], b[1], b[2]) + tail;
      PadAfterGroup(Group3(b[0], b[1], b[2]), tail);
    }
  }

  lemma Equals2()
    ensures Equals(1) == "=" && Equals(2) == "=="
  {
    assert Equals(1) == "=" + Equals(0);
    assert Equals(2) == "=" + Equals(1);
  }

  lemma PadAfterGroup(group: string, tail: string)
    requires |group| == 4
    ensures Pad(group + tail) == group + Pad(tail)
  {
    assert (0 - |group + tail|) % 4 == (0 - |tail|) % 4;
  }

  /** Dropping the padding loses nothing: the length tells how much there was. */
  lemma UnpaddedRoundTrip(b: Bytes)
    requires ValidBytes(b)
    ensures Decode(Pad(Strip(Encode(b)))) == Some(b) && UrlSafe(Strip(Encode(b)))
  {
    var s := EncodingShape(b);
    StripRun(s, (0 - |s|) % 4);
    RoundTrip(b);
  }
}
