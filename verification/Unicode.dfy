/** Texts as bytes: str.encode() and bytes.decode() in UTF-8, section 3 of RFC 3629. */
module Unicode {
  import opened Wrappers

  function Utf8Char(c: char): (b: seq<int>)
    ensures forall i :: 0 <= i < |b| ==> 0 <= b[i] < 256
  {
    var n := c as int;
    if n < 0x80 then [n]
    else if n < 0x800 then [0xC0 + n / 64, 0x80 + n % 64]
    else if n < 0x10000 then [0xE0 + n / 4096, 0x80 + n / 64 % 64, 0x80 + n % 64]
    else [0xF0 + n / 262144, 0x80 + n / 4096 % 64, 0x80 + n / 64 % 64, 0x80 + n % 64]
  }

  function Utf8(s: string): (b: seq<int>)
    ensures forall i :: 0 <= i < |b| ==> 0 <= b[i] < 256
  {
    if s == "" then [] else Utf8Char(s[0]) + Utf8(s[1..])
  }

  /** The first character of a text can be told from its bytes. */
  lemma Utf8CharPrefix(c: char, d: char, x: seq<int>, y: seq<int>)
    requires Utf8Char(c) + x == Utf8Char(d) + y
    ensures c == d && x == y
  {
    var a, b := Utf8Char(c), Utf8Char(d);
    assert (a + x)[0] == a[0] && (b + y)[0] == b[0];
    assert |a| == |b|;
    assert a == (a + x)[..|a|] && b == (b + y)[..|b|];
    assert x == (a + x)[|a|..] && y == (b + y)[|b|..];
    SameBytesSameChar(c, d);
  }

  lemma SameBytesSameChar(c: char, d: char)
    requires Utf8Char(c) == Utf8Char(d)
    ensures c == d
  {
    var m, n := c as int, d as int;
    assert forall i :: 0 <= i < |Utf8Char(c)| ==> Utf8Char(c)[i] == Utf8Char(d)[i];
    if |Utf8Char(c)| == 3 {
      assert m / 64 / 64 == m / 4096 && n / 64 / 64 == n / 4096;
    } else if |Utf8Char(c)| == 4 {
      assert m / 4096 / 64 == m / 262144 && n / 4096 / 64 == n / 262144;
      assert m / 64 / 64 == m / 4096 && n / 64 / 64 == n / 4096;
    }
  }

  lemma {:induction false} Utf8Injective(s: string, t: string)
    requires Utf8(s) == Utf8(t)
    ensures s == t
  {
    if s != "" && t != "" {
      Utf8CharPrefix(s[0], t[0], Utf8(s[1..]), Utf8(t[1..]));
      Utf8Injective(s[1..], t[1..]);
      assert s == [s[0]] + s[1..] && t == [t[0]] + t[1..];
    }
  }

  /** The text that these bytes encode, if there is one. */
  ghost function FromUtf8(b: seq<int>): Option<string> {
    if s: string :| Utf8(s) == b then Some(s) else None
  }

  lemma Utf8RoundTrip(s: string)
    ensures FromUtf8(Utf8(s)) == Some(s)
  {
    var t := FromUtf8(Utf8(s)).value;
    Utf8Injective(t, s);
  }
}
