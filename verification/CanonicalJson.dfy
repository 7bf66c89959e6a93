/**
 Canonical JSON (src/webhook_platform/events/domain/canonical_json.py): compact separators, keys sorted
 by code point, non-ASCII characters unescaped, strings escaped per section 7 of RFC 8259.
 */
module CanonicalJson {
  import opened Wrappers
  import opened Decimals

  /**
   A document as the request body was read: objects list their members in insertion order, with distinct
   keys. A finite float stands for its repr(); NonFinite is NaN or an infinity.
   */
  datatype Json =
    | Null
    | Bool(b: bool)
    | Int(n: int)
    | Float(repr: string)
    | NonFinite
    | Str(s: string)
    | Arr(items: Items)
    | Obj(fields: Fields)

  datatype Items = NoItems | Item(head: Json, tail: Items)

  datatype Fields = NoFields | Field(key: string, value: Json, rest: Fields)

  // --- Validity -----------------------------------------------------------------------------------------

  predicate NumberChar(c: char) {
    IsDigit(c) || c in {'-', '+', '.', 'e', 'E'}
  }

  /** The repr of a float is told from an integer by its point or exponent. */
  predicate FloatText(t: string) {
    && t != "" && (t[0] == '-' || IsDigit(t[0]))
    && (forall i :: 0 <= i < |t| ==> NumberChar(t[i]))
    && ('.' in t || 'e' in t)
  }

  predicate HasKey(f: Fields, key: string) {
    f.Field? && (f.key == key || HasKey(f.rest, key))
  }

  /** Distinct keys everywhere, floats in repr form. */
  predicate Valid(j: Json) {
    match j
    case Float(t) => FloatText(t)
    case Arr(items) => ValidItems(items)
    case Obj(fields) => ValidFields(fields)
    case _ => true
  }

  predicate ValidItems(items: Items) {
    items.Item? ==> Valid(items.head) && ValidItems(items.tail)
  }

  predicate ValidFields(f: Fields) {
    f.Field? ==> !HasKey(f.rest, f.key) && Valid(f.value) && ValidFields(f.rest)
  }

  // --- Depth --------------------------------------------------------------------------------------------

  function Larger(a: nat, b: nat): nat {
    if a >= b then a else b
  }

  /** _depth: None when it raises for a NaN or infinity. */
  function Depth(j: Json, current: nat): Option<nat> {
    match j
    case Arr(items) => DepthItems(items, current, current + 1)
    case Obj(fields) => DepthFields(fields, current, current + 1)
    case NonFinite => None
    case _ => Some(current)
  }

  /** max(best, depths of all items at `level`) */
  function DepthItems(items: Items, best: nat, level: nat): Option<nat> {
    match items
    case NoItems => Some(best)
    case Item(head, tail) =>
      var d := Depth(head, level);
      if d.None? then None else DepthItems(tail, Larger(best, d.value), level)
  }

  function DepthFields(f: Fields, best: nat, level: nat): Option<nat> {
    match f
    case NoFields => Some(best)
    case Field(_, value, rest) =>
      var d := Depth(value, level);
      if d.None? then None else DepthFields(rest, Larger(best, d.value), level)
  }

  /** The height of the document tree: a scalar or an empty container has height 1. */
  function Height(j: Json): nat {
    match j
    case Arr(items) => 1 + HeightItems(items)
    case Obj(fields) => 1 + HeightFields(fields)
    case _ => 1
  }

  function HeightItems(items: Items): nat {
    match items
    case NoItems => 0
    case Item(head, tail) => Larger(Height(head), HeightItems(tail))
  }

  function HeightFields(f: Fields): nat {
    match f
    case NoFields => 0
    case Field(_, value, rest) => Larger(Height(value), HeightFields(rest))
  }

  predicate Finite(j: Json) {
    match j
    case NonFinite => false
    case Arr(items) => FiniteItems(items)
    case Obj(fields) => FiniteFields(fields)
    case _ => true
  }

  predicate FiniteItems(items: Items) {
    items.Item? ==> Finite(items.head) && FiniteItems(items.tail)
  }

  predicate FiniteFields(f: Fields) {
    f.Field? ==> Finite(f.value) && FiniteFields(f.rest)
  }

  /** _depth raises exactly on a NaN or infinity, and otherwise computes the height of the tree. */
  lemma {:induction false} DepthIsHeight(j: Json, current: nat)
    ensures Depth(j, current) == if Finite(j) then Some(current + Height(j) - 1) else None
    decreases j
  {
    match j
    case Arr(items) => DepthItemsIsHeight(items, current, current + 1);
    case Obj(fields) => DepthFieldsIsHeight(fields, current, current + 1);
    case _ =>
  }

  lemma {:induction false} DepthItemsIsHeight(items: Items, best: nat, level: nat)
    requires best + 1 >= level >= 1
    ensures DepthItems(items, best, level)
         == if FiniteItems(items) then Some(Larger(best, level + HeightItems(items) - 1)) else None
    decreases items
  {
    if items.Item? {
      DepthIsHeight(items.head, level);
      if Finite(items.head) {
        DepthItemsIsHeight(items.tail, Larger(best, level + Height(items.head) - 1), level);
      }
    }
  }

  lemma {:induction false} DepthFieldsIsHeight(f: Fields, best: nat, level: nat)
    requires best + 1 >= level >= 1
    ensures DepthFields(f, best, level)
         == if FiniteFields(f) then Some(Larger(best, level + HeightFields(f) - 1)) else None
    decreases f
  {
    if f.Field? {
      DepthIsHeight(f.value, level);
      if Finite(f.value) {
        DepthFieldsIsHeight(f.rest, Larger(best, level + Height(f.value) - 1), level);
      }
    }
  }

  // --- Printing -----------------------------------------------------------------------------------------

  const BACKSPACE: char := '\U{8}'
  const FORM_FEED: char := '\U{c}'

  function HexDigit(n: nat): char
    requires n < 16
  {
    "0123456789abcdef"[n]
  }

  function EscapeChar(c: char): string {
    if c == '"' then "\\\""
    else if c == '\\' then "\\\\"
    else if c == '\n' then "\\n"
    else if c == '\r' then "\\r"
    else if c == '\t' then "\\t"
    else if c == BACKSPACE then "\\b"
    else if c == FORM_FEED then "\\f"
    else if c < ' ' then "\\u00" + [HexDigit(c as int / 16), HexDigit(c as int % 16)]
    else [c]
  }

  function Escape(s: string): string {
    if s == "" then "" else EscapeChar(s[0]) + Escape(s[1..])
  }

  function Quote(s: string): string {
    "\"" + Escape(s) + "\""
  }

  function PrintInt(n: int): string {
    if n < 0 then "-" + Decimal(-n) else Decimal(n)
  }

  /** An object member whose value is already printed. */
  datatype Member = Member(key: string, text: string)

  predicate Less(a: string, b: string) {
    b != "" && (a == "" || a[0] < b[0] || (a[0] == b[0] && Less(a[1..], b[1..])))
  }

  function Insert(m: Member, ms: seq<Member>): seq<Member> {
    if ms == [] || !Less(ms[0].key, m.key) then [m] + ms else [ms[0]] + Insert(m, ms[1..])
  }

  function Sort(ms: seq<Member>): seq<Member> {
    if ms == [] then [] else Insert(ms[0], Sort(ms[1..]))
  }

  function Print(j: Json): string {
    match j
    case Null => "null"
    case Bool(b) => if b then "true" else "false"
    case Int(n) => PrintInt(n)
    case Float(t) => t
    case NonFinite => "null"
    case Str(s) => Quote(s)
    case Arr(items) => "[" + PrintItems(items) + "]"
    case Obj(fields) => "{" + Render(Sort(Members(fields))) + "}"
  }

  function PrintItems(items: Items): string {
    match items
    case NoItems => ""
    case Item(head, NoItems) => Print(head)
    case Item(head, tail) => Print(head) + "," + PrintItems(tail)
  }

  function Members(f: Fields): seq<Member> {
    match f
    case NoFields => []
    case Field(key, value, rest) => [Member(key, Print(value))] + Members(rest)
  }

  function Render(ms: seq<Member>): string {
    if ms == [] then ""
    else if |ms| == 1 then Quote(ms[0].key) + ":" + ms[0].text
    else Quote(ms[0].key) + ":" + ms[0].text + "," + Render(ms[1..])
  }

  // --- Meaning ------------------------------------------------------------------------------------------

  /** What a document means: objects are finite maps. */
  datatype Value =
    | VNull
    | VBool(b: bool)
    | VInt(n: int)
    | VFloat(repr: string)
    | VNonFinite
    | VStr(s: string)
    | VArr(items: seq<Value>)
    | VObj(fields: map<string, Value>)

  function Denote(j: Json): Value {
    match j
    case Null => VNull
    case Bool(b) => VBool(b)
    case Int(n) => VInt(n)
    case Float(t) => VFloat(t)
    case NonFinite => VNonFinite
    case Str(s) => VStr(s)
    case Arr(items) => VArr(DenoteItems(items))
    case Obj(fields) => VObj(DenoteFields(fields))
  }

  function DenoteItems(items: Items): seq<Value> {
    match items
    case NoItems => []
    case Item(head, tail) => [Denote(head)] + DenoteItems(tail)
  }

  function DenoteFields(f: Fields): map<string, Value> {
    match f
    case NoFields => map[]
    case Field(key, value, rest) => DenoteFields(rest)[key := Denote(value)]
  }

  // --- A parser -----------------------------------------------------------------------------------------

  function HexValue(c: char): Option<nat> {
    if '0' <= c <= '9' then Some(c as int - '0' as int)
    else if 'a' <= c <= 'f' then Some(c as int - 'a' as int + 10)
    else if 'A' <= c <= 'F' then Some(c as int - 'A' as int + 10)
    else None
  }

  /** The four hexadecimal digits of a \uXXXX escape. */
  function CodeUnit(s: string): (n: Option<nat>)
    ensures n.Some? ==> n.value < 0x10000
  {
    if |s| < 4 then None
    else
      var a, b, c, d := HexValue(s[0]), HexValue(s[1]), HexValue(s[2]), HexValue(s[3]);
      if a.None? || b.None? || c.None? || d.None? then None
      else Some(((a.value * 16 + b.value) * 16 + c.value) * 16 + d.value)
  }

  /** The character of a \uXXXX escape; surrogates are not characters. */
  function UnicodeEscape(s: string): Option<char> {
    var code := CodeUnit(s);
    if code.Some? && (code.value < 0xD800 || 0xE000 <= code.value) then Some(code.value as char) else None
  }

  /** The character above U+FFFF that XXXX\uXXXX, a high and a low surrogate, stand for. */
  function SurrogatePair(s: string): Option<char> {
    if |s| < 10 || s[4] != '\\' || s[5] != 'u' then None
    else
      var high, low := CodeUnit(s), CodeUnit(s[6..]);
      if high.None? || low.None? then None
      else if !(0xD800 <= high.value < 0xDC00 && 0xDC00 <= low.value < 0xE000) then None
      else Some((0x10000 + (high.value - 0xD800) * 0x400 + (low.value - 0xDC00)) as char)
  }

  function SimpleEscape(c: char): Option<char> {
    match c
    case '"' => Some('"')
    case '\\' => Some('\\')
    case '/' => Some('/')
    case 'b' => Some(BACKSPACE)
    case 'f' => Some(FORM_FEED)
    case 'n' => Some('\n')
    case 'r' => Some('\r')
    case 't' => Some('\t')
    case _ => None
  }

  /** The contents of a string literal after its opening quote, and what follows the closing one. */
  function ParseString(s: string): (r: Option<(string, string)>)
    ensures r.Some? ==> |r.value.1| < |s|
  {
    if s == "" then None
    else if s[0] == '"' then Some(("", s[1..]))
    else if s[0] < ' ' then None
    else if s[0] != '\\' then Prepend(s[0], ParseString(s[1..]))
    else if |s| < 2 then None
    else if s[1] == 'u' then
      var c, pair := UnicodeEscape(s[2..]), SurrogatePair(s[2..]);
      if c.Some? then Prepend(c.value, ParseString(s[6..]))
      else if pair.Some? then Prepend(pair.value, ParseString(s[12..]))
      else None
    else
      var c := SimpleEscape(s[1]);
      if c.None? then None else Prepend(c.value, ParseString(s[2..]))
  }

  function Prepend(c: char, r: Option<(string, string)>): Option<(string, string)> {
    if r.None? then None else Some(([c] + r.value.0, r.value.1))
  }

  function NumberLength(s: string): (n: nat)
    ensures n <= |s| && forall i :: 0 <= i < n ==> NumberChar(s[i])
  {
    if s == "" || !NumberChar(s[0]) then 0 else 1 + NumberLength(s[1..])
  }

  function NumberValue(t: string): Option<Value> {
    if '.' in t || 'e' in t || 'E' in t then Some(VFloat(t))
    else if t != "" && AllDigits(t) then Some(VInt(DecimalValue(t)))
    else if |t| > 1 && t[0] == '-' && AllDigits(t[1..]) then Some(VInt(0 - DecimalValue(t[1..])))
    else None
  }

  function ParseNumber(s: string): (r: Option<(Value, string)>)
    ensures r.Some? ==> |r.value.1| < |s|
  {
    var n := NumberLength(s);
    var v := NumberValue(s[..n]);
    if v.None? || n == 0 then None else Some((v.value, s[n..]))
  }

  function ParseValue(s: string): (r: Option<(Value, string)>)
    ensures r.Some? ==> |r.value.1| < |s|
    decreases |s|, 0
  {
    if s == "" then None
    else if "null" <= s then Some((VNull, s[4..]))
    else if "true" <= s then Some((VBool(true), s[4..]))
    else if "false" <= s then Some((VBool(false), s[5..]))
    else if s[0] == '"' then
      var r := ParseString(s[1..]);
      if r.None? then None else Some((VStr(r.value.0), r.value.1))
    else if s[0] == '[' then
      if |s| > 1 && s[1] == ']' then Some((VArr([]), s[2..]))
      else
        var r := ParseItems(s[1..]);
        if r.None? then None else Some((VArr(r.value.0), r.value.1))
    else if s[0] == '{' then
      if |s| > 1 && s[1] == '}' then Some((VObj(map[]), s[2..]))
      else
        var r := ParseMembers(s[1..]);
        if r.None? then None else Some((VObj(r.value.0), r.value.1))
    else ParseNumber(s)
  }

  /** One or more values separated by commas, up to the closing bracket. */
  function ParseItems(s: string): (r: Option<(seq<Value>, string)>)
    ensures r.Some? ==> |r.value.1| < |s|
    decreases |s|, 1
  {
    var first := ParseValue(s);
    if first.None? || first.value.1 == "" then None
    else if first.value.1[0] == ']' then Some(([first.value.0], first.value.1[1..]))
    else if first.value.1[0] != ',' then None
    else
      var others := ParseItems(first.value.1[1..]);
      if others.None? then None else Some(([first.value.0] + others.value.0, others.value.1))
  }

  /** "key": value */
  function ParseMember(s: string): (r: Option<(string, Value, string)>)
    ensures r.Some? ==> |r.value.2| < |s|
    decreases |s|, 1
  {
    if s == "" || s[0] != '"' then None
    else
      var key := ParseString(s[1..]);
      if key.None? || key.value.1 == "" || key.value.1[0] != ':' then None
      else
        var value := ParseValue(key.value.1[1..]);
        if value.None? then None else Some((key.value.0, value.value.0, value.value.1))
  }

  /** One or more members separated by commas, up to the closing brace; a repeated key is refused. */
  function ParseMembers(s: string): (r: Option<(map<string, Value>, string)>)
    ensures r.Some? ==> |r.value.1| < |s|
    decreases |s|, 2
  {
    var first := ParseMember(s);
    if first.None? || first.value.2 == "" then None
    else if first.value.2[0] == '}' then Some((map[first.value.0 := first.value.1], first.value.2[1..]))
    else if first.value.2[0] != ',' then None
    else
      var others := ParseMembers(first.value.2[1..]);
      if others.None? || first.value.0 in others.value.0 then None
      else Some((others.value.0[first.value.0 := first.value.1], others.value.1))
  }

  // --- Strings round-trip -----------------------------------------------------------------------------

  lemma HexRoundTrip(n: nat)
    requires n < 16
    ensures HexValue(HexDigit(n)) == Some(n)
  {
  }

  lemma ControlRoundTrip(c: char, rest: string)
    requires c < ' '
    ensures UnicodeEscape("00" + [HexDigit(c as int / 16), HexDigit(c as int % 16)] + rest) == Some(c)
  {
    HexRoundTrip(c as int / 16);
    HexRoundTrip(c as int % 16);
    HexRoundTrip(0);
  }

  lemma EscapeCharRoundTrip(c: char, rest: string)
    ensures ParseString(EscapeChar(c) + rest) == Prepend(c, ParseString(rest))
  {
    var s := EscapeChar(c) + rest;
    if |EscapeChar(c)| == 2 {
      assert s[2..] == rest;
    } else if |EscapeChar(c)| == 6 {
      ControlRoundTrip(c, rest);
      assert s[2..] == "00" + [HexDigit(c as int / 16), HexDigit(c as int % 16)] + rest;
      assert s[6..] == rest;
    } else {
      assert s[1..] == rest;
    }
  }

  lemma {:induction false} StringRoundTrip(s: string, rest: string)
    ensures ParseString(Escape(s) + "\"" + rest) == Some((s, rest))
  {
    if s == "" {
      assert Escape(s) + "\"" + rest == "\"" + rest;
    } else {
      var tail := Escape(s[1..]) + "\"" + rest;
      assert Escape(s) + "\"" + rest == EscapeChar(s[0]) + tail;
      EscapeCharRoundTrip(s[0], tail);
      StringRoundTrip(s[1..], rest);
      assert [s[0]] + s[1..] == s;
    }
  }

  // --- Numbers round-trip -------------------------------------------------------------------------------

  /** `rest` does not continue a number. */
  predicate Ends(rest: string) {
    rest == "" || !NumberChar(rest[0])
  }

  lemma {:induction false} NumberLengthExact(t: string, rest: string)
    requires (forall i :: 0 <= i < |t| ==> NumberChar(t[i])) && Ends(rest)
    ensures NumberLength(t + rest) == |t|
  {
    if t != "" {
      assert (t + rest)[1..] == t[1..] + rest;
      NumberLengthExact(t[1..], rest);
    } else {
      assert t + rest == rest;
    }
  }

  lemma NumberRoundTrip(t: string, v: Value, rest: string)
    requires t != "" && (t[0] == '-' || IsDigit(t[0])) && (forall i :: 0 <= i < |t| ==> NumberChar(t[i]))
    requires NumberValue(t) == Some(v) && Ends(rest)
    ensures ParseValue(t + rest) == Some((v, rest))
  {
    NumberLengthExact(t, rest);
    assert (t + rest)[..|t|] == t && (t + rest)[|t|..] == rest;
    assert (t + rest)[0] == t[0];
  }

  lemma IntRoundTrip(n: int, rest: string)
    requires Ends(rest)
    ensures ParseValue(PrintInt(n) + rest) == Some((VInt(n), rest))
  {
    var t := PrintInt(n);
    if n < 0 {
      DecimalRoundTrip(-n);
      assert t[1..] == Decimal(-n);
      assert forall i :: 0 < i < |t| ==> t[i] == t[1..][i - 1];
      assert IsDigit(t[1]);
    } else {
      DecimalRoundTrip(n);
    }
    assert !('.' in t) && !('e' in t) && !('E' in t);
    NumberRoundTrip(t, VInt(n), rest);
  }

  // --- Values round-trip --------------------------------------------------------------------------------

  /** Wherever the text stands, it reads back as `v`. */
  ghost predicate ReadsAs(text: string, v: Value) {
    forall rest :: Ends(rest) ==> ParseValue(text + rest) == Some((v, rest))
  }

  lemma ReadsBack(text: string, v: Value, rest: string)
    requires ReadsAs(text, v) && Ends(rest)
    ensures ParseValue(text + rest) == Some((v, rest))
  {
  }

  lemma LiteralRoundTrip(j: Json, rest: string)
    requires j.Null? || j.Bool?
    ensures ParseValue(Print(j) + rest) == Some((Denote(j), rest))
  {
    var s := Print(j) + rest;
    assert s[..|Print(j)|] == Print(j) && s[|Print(j)|..] == rest;
    assert Print(j) <= s;
    if j == Bool(true) {
      assert s[0] == 't' && !("null" <= s);
    } else if j == Bool(false) {
      assert s[0] == 'f' && !("null" <= s) && !("true" <= s);
    }
  }

  lemma ParseQuoted(s: string, t: string, rest: string)
    requires s != "" && s[0] == '"' && ParseString(s[1..]) == Some((t, rest))
    ensures ParseValue(s) == Some((VStr(t), rest))
  {
  }

  lemma StrRoundTrip(t: string, rest: string)
    ensures ParseValue(Quote(t) + rest) == Some((VStr(t), rest))
  {
    var s := Quote(t) + rest;
    assert s[1..] == Escape(t) + "\"" + rest;
    StringRoundTrip(t, rest);
    ParseQuoted(s, t, rest);
  }

  /** Every member's text reads as the value that `fields` has for its key. */
  ghost predicate MembersRead(ms: seq<Member>, fields: map<string, Value>) {
    forall i :: 0 <= i < |ms| ==> ms[i].key in fields && ReadsAs(ms[i].text, fields[ms[i].key])
  }

  predicate DistinctKeys(ms: seq<Member>) {
    forall i, j :: 0 <= i < j < |ms| ==> ms[i].key != ms[j].key
  }

  function Keys(ms: seq<Member>): set<string> {
    set i | 0 <= i < |ms| :: ms[i].key
  }

  lemma ParseMemberSteps(s: string, key: string, after: string, v: Value, rest: string)
    requires s != "" && s[0] == '"' && ParseString(s[1..]) == Some((key, after))
    requires after != "" && after[0] == ':' && ParseValue(after[1..]) == Some((v, rest))
    ensures ParseMember(s) == Some((key, v, rest))
  {
  }

  lemma ParseMembersLast(s: string, key: string, v: Value, rest: string)
    requires ParseMember(s) == Some((key, v, "}" + rest))
    ensures ParseMembers(s) == Some((map[key := v], rest))
  {
    assert ("}" + rest)[1..] == rest;
  }

  lemma ParseMembersMore(s: string, key: string, v: Value, tail: string, others: map<string, Value>, rest: string)
    requires ParseMember(s) == Some((key, v, "," + tail)) && ParseMembers(tail) == Some((others, rest))
    requires key !in others
    ensures ParseMembers(s) == Some((others[key := v], rest))
  {
    assert ("," + tail)[1..] == tail;
  }

  lemma MemberText(key: string, text: string, rest: string)
    ensures "\"" + key + "\"" + ":" + text + rest == "\"" + (key + "\"" + (":" + (text + rest)))
  {
  }

  lemma MemberRoundTrip(m: Member, v: Value, rest: string)
    requires ReadsAs(m.text, v) && Ends(rest)
    ensures ParseMember(Quote(m.key) + ":" + m.text + rest) == Some((m.key, v, rest))
  {
    var after := ":" + (m.text + rest);
    var s := "\"" + (Escape(m.key) + "\"" + after);
    MemberText(Escape(m.key), m.text, rest);
    assert s[1..] == Escape(m.key) + "\"" + after;
    StringRoundTrip(m.key, after);
    assert after[1..] == m.text + rest;
    ReadsBack(m.text, v, rest);
    ParseMemberSteps(s, m.key, after, v, rest);
  }

  function Restricted(fields: map<string, Value>, keys: set<string>): map<string, Value>
    requires keys <= fields.Keys
  {
    map k | k in keys :: fields[k]
  }

  lemma TailKeys(ms: seq<Member>)
    requires ms != [] && DistinctKeys(ms)
    ensures Keys(ms) == {ms[0].key} + Keys(ms[1..]) && ms[0].key !in Keys(ms[1..]) && DistinctKeys(ms[1..])
  {
    assert forall i :: 0 < i < |ms| ==> ms[i] == ms[1..][i - 1];
  }

  lemma {:induction false} MembersRoundTrip(ms: seq<Member>, fields: map<string, Value>, rest: string)
    requires ms != [] && MembersRead(ms, fields) && DistinctKeys(ms) && Keys(ms) <= fields.Keys
    ensures ParseMembers(Render(ms) + "}" + rest) == Some((Restricted(fields, Keys(ms)), rest))
  {
    var m, tail := ms[0], ms[1..];
    TailKeys(ms);
    var s := Render(ms) + "}" + rest;
    if |ms| == 1 {
      assert s == Quote(m.key) + ":" + m.text + ("}" + rest);
      MemberRoundTrip(m, fields[m.key], "}" + rest);
      ParseMembersLast(s, m.key, fields[m.key], rest);
      assert Restricted(fields, Keys(ms)) == map[m.key := fields[m.key]];
    } else {
      MembersRoundTrip(tail, fields, rest);
      SeveralMembers(ms, fields, rest);
    }
  }

  lemma RestrictedStep(fields: map<string, Value>, key: string, keys: set<string>)
    requires key in fields && keys <= fields.Keys
    ensures Restricted(fields, {key} + keys) == Restricted(fields, keys)[key := fields[key]]
  {
  }

  lemma MembersText(first: string, others: string, rest: string)
    ensures first + "," + others + "}" + rest == first + ("," + (others + "}" + rest))
  {
  }

  lemma SeveralMembers(ms: seq<Member>, fields: map<string, Value>, rest: string)
    requires |ms| > 1 && MembersRead(ms, fields) && DistinctKeys(ms) && Keys(ms) <= fields.Keys
    requires Keys(ms[1..]) <= fields.Keys
    requires ParseMembers(Render(ms[1..]) + "}" + rest) == Some((Restricted(fields, Keys(ms[1..])), rest))
    ensures ParseMembers(Render(ms) + "}" + rest) == Some((Restricted(fields, Keys(ms)), rest))
  {
    var m := ms[0];
    var first, tail := Quote(m.key) + ":" + m.text, Render(ms[1..]) + "}" + rest;
    TailKeys(ms);
    MembersText(first, Render(ms[1..]), rest);
    MemberRoundTrip(m, fields[m.key], "," + tail);
    ParseMembersMore(first + ("," + tail), m.key, fields[m.key], tail, Restricted(fields, Keys(ms[1..])), rest);
    RestrictedStep(fields, m.key, Keys(ms[1..]));
  }

  // --- Key order ----------------------------------------------------------------------------------------

  lemma {:induction false} LessTotal(a: string, b: string)
    ensures Less(a, b) || Less(b, a) || a == b
    ensures !(Less(a, b) && Less(b, a))
    ensures !Less(a, a)
  {
    if a != "" && b != "" {
      LessTotal(a[1..], b[1..]);
      if a[0] == b[0] && a[1..] == b[1..] {
        assert a == [a[0]] + a[1..] && b == [b[0]] + b[1..];
      }
    }
    if a != "" {
      LessTotal(a[1..], a[1..]);
    }
  }

  lemma {:induction false} LessTransitive(a: string, b: string, c: string)
    requires Less(a, b) && Less(b, c)
    ensures Less(a, c)
  {
    if a != "" && a[0] == b[0] && b[0] == c[0] {
      LessTransitive(a[1..], b[1..], c[1..]);
    }
  }

  // --- Sorting ------------------------------------------------------------------------------------------

  predicate Sorted(ms: seq<Member>) {
    forall i, j :: 0 <= i < j < |ms| ==> Less(ms[i].key, ms[j].key)
  }

  lemma {:induction false} InsertSorts(m: Member, ms: seq<Member>)
    requires Sorted(ms) && m.key !in Keys(ms)
    ensures Sorted(Insert(m, ms))
    ensures forall x :: x in Insert(m, ms) <==> x == m || x in ms
  {
    if ms != [] {
      assert ms == [ms[0]] + ms[1..];
      assert ms[0].key in Keys(ms);
      LessTotal(ms[0].key, m.key);
      if Less(ms[0].key, m.key) {
        assert forall k :: k in Keys(ms[1..]) ==> k in Keys(ms);
        InsertSorts(m, ms[1..]);
        forall x | x in Insert(m, ms[1..])
          ensures Less(ms[0].key, x.key)
        {
        }
      } else {
        forall i | 0 < i < |ms|
          ensures Less(m.key, ms[i].key)
        {
          LessTransitive(m.key, ms[0].key, ms[i].key);
        }
      }
    }
  }

  lemma {:induction false} SortSorts(ms: seq<Member>)
    requires DistinctKeys(ms)
    ensures Sorted(Sort(ms)) && forall x :: x in Sort(ms) <==> x in ms
  {
    if ms != [] {
      TailKeys(ms);
      SortSorts(ms[1..]);
      assert ms == [ms[0]] + ms[1..];
      forall k | k in Keys(Sort(ms[1..]))
        ensures k in Keys(ms[1..])
      {
        var i :| 0 <= i < |Sort(ms[1..])| && Sort(ms[1..])[i].key == k;
        assert Sort(ms[1..])[i] in ms[1..];
      }
      InsertSorts(ms[0], Sort(ms[1..]));
    }
  }

  lemma SortedIsDistinct(ms: seq<Member>)
    requires Sorted(ms)
    ensures DistinctKeys(ms)
  {
    forall i, j | 0 <= i < j < |ms|
      ensures ms[i].key != ms[j].key
    {
      LessTotal(ms[i].key, ms[j].key);
    }
  }

  /** The least member of a sorted list is its first. */
  lemma SortedHead(a: seq<Member>, b: seq<Member>)
    requires Sorted(a) && Sorted(b) && a != [] && (forall x :: x in a <==> x in b)
    ensures b != [] && a[0] == b[0]
  {
    assert a[0] in b && b[0] in b;
    assert b[0] in a;
    var i :| 0 <= i < |b| && b[i] == a[0];
    var j :| 0 <= j < |a| && a[j] == b[0];
    LessTotal(a[0].key, b[0].key);
  }

  lemma {:induction false} SortedIsUnique(a: seq<Member>, b: seq<Member>)
    requires Sorted(a) && Sorted(b) && (forall x :: x in a <==> x in b)
    ensures a == b
  {
    if a == [] {
      if b != [] {
        SortedHead(b, a);
      }
    } else {
      SortedHead(a, b);
      assert a == [a[0]] + a[1..] && b == [b[0]] + b[1..];
      SortedIsDistinct(a);
      SortedIsDistinct(b);
      forall x
        ensures x in a[1..] <==> x in b[1..]
      {
        TailMember(a, x);
        TailMember(b, x);
      }
      SortedIsUnique(a[1..], b[1..]);
    }
  }

  lemma TailMember(a: seq<Member>, x: Member)
    requires a != [] && DistinctKeys(a)
    ensures x in a[1..] <==> x in a && x != a[0]
  {
    assert a == [a[0]] + a[1..];
    if x in a[1..] {
      var i :| 0 <= i < |a[1..]| && a[1..][i] == x;
      assert a[i + 1] == x;
    }
  }

  // --- The round trip -----------------------------------------------------------------------------------

  function Lookup(f: Fields, key: string): Json
    requires HasKey(f, key)
  {
    if f.key == key then f.value else Lookup(f.rest, key)
  }

  lemma {:induction false} FieldsAreLookups(f: Fields, key: string)
    requires ValidFields(f)
    ensures key in DenoteFields(f) <==> HasKey(f, key)
    ensures HasKey(f, key) ==>
              && Lookup(f, key) < f && Valid(Lookup(f, key)) && DenoteFields(f)[key] == Denote(Lookup(f, key))
              && (FiniteFields(f) ==> Finite(Lookup(f, key)))
  {
    if f.Field? {
      FieldsAreLookups(f.rest, key);
    }
  }

  lemma {:induction false} MembersAreLookups(f: Fields, m: Member)
    requires ValidFields(f)
    ensures m in Members(f) <==> HasKey(f, m.key) && m.text == Print(Lookup(f, m.key))
  {
    if f.Field? {
      MembersAreLookups(f.rest, m);
    }
  }

  lemma {:induction false} MembersDistinct(f: Fields)
    requires ValidFields(f)
    ensures DistinctKeys(Members(f))
  {
    if f.Field? {
      MembersDistinct(f.rest);
      var ms := Members(f);
      forall i | 0 < i < |ms|
        ensures ms[i].key != ms[0].key
      {
        assert ms[i] in Members(f.rest);
        MembersAreLookups(f.rest, ms[i]);
      }
      assert ms[1..] == Members(f.rest);
      assert forall i :: 0 < i < |ms| ==> ms[i] == Members(f.rest)[i - 1];
    }
  }

  lemma PrintStart(j: Json)
    requires Valid(j)
    ensures Print(j) != "" && Print(j)[0] != ']'
  {
    if j.Int? && j.n >= 0 {
      assert IsDigit(Print(j)[0]);
    }
  }

  lemma PrintItemsStart(items: Items)
    requires ValidItems(items) && items.Item?
    ensures PrintItems(items) != "" && PrintItems(items)[0] != ']'
  {
    PrintStart(items.head);
  }

  /** A literal array starts with its bracket; what follows decides. */
  lemma ParseArray(s: string, vs: seq<Value>, rest: string)
    requires |s| > 1 && s[0] == '['
    requires if s[1] == ']' then vs == [] && rest == s[2..] else ParseItems(s[1..]) == Some((vs, rest))
    ensures ParseValue(s) == Some((VArr(vs), rest))
  {
  }

  lemma ArrRoundTrip(items: Items, rest: string)
    requires ValidItems(items)
    requires items.Item? ==> ParseItems(PrintItems(items) + "]" + rest) == Some((DenoteItems(items), rest))
    ensures ParseValue(Print(Arr(items)) + rest) == Some((VArr(DenoteItems(items)), rest))
  {
    var s := "[" + (PrintItems(items) + "]" + rest);
    assert Print(Arr(items)) + rest == s;
    assert s[1..] == PrintItems(items) + "]" + rest;
    if items.NoItems? {
      assert s[1] == ']' && s[2..] == rest;
    } else {
      PrintItemsStart(items);
      assert s[1] == PrintItems(items)[0];
    }
    ParseArray(s, DenoteItems(items), rest);
  }

  lemma ParseItemsLast(s: string, v: Value, rest: string)
    requires ParseValue(s) == Some((v, "]" + rest))
    ensures ParseItems(s) == Some(([v], rest))
  {
    assert ("]" + rest)[1..] == rest;
  }

  lemma ParseItemsMore(s: string, v: Value, tail: string, others: seq<Value>, rest: string)
    requires ParseValue(s) == Some((v, "," + tail)) && ParseItems(tail) == Some((others, rest))
    ensures ParseItems(s) == Some(([v] + others, rest))
  {
    assert ("," + tail)[1..] == tail;
  }

  /** The sorted members of an object read as its fields. */
  lemma SortedMembersRead(f: Fields)
    requires ValidFields(f) && MembersRead(Members(f), DenoteFields(f))
    ensures
      var ms := Sort(Members(f));
      MembersRead(ms, DenoteFields(f)) && DistinctKeys(ms) && Keys(ms) == DenoteFields(f).Keys
  {
    var ms := Sort(Members(f));
    MembersDistinct(f);
    SortSorts(Members(f));
    SortedIsDistinct(ms);
    forall i | 0 <= i < |ms|
      ensures ms[i].key in DenoteFields(f) && ReadsAs(ms[i].text, DenoteFields(f)[ms[i].key])
    {
      assert ms[i] in ms && ms[i] in Members(f);
    }
    forall k | k in DenoteFields(f)
      ensures k in Keys(ms)
    {
      FieldsAreLookups(f, k);
      var m := Member(k, Print(Lookup(f, k)));
      MembersAreLookups(f, m);
      assert m in ms;
    }
  }

  /** A literal object starts with its brace; what follows decides. */
  lemma ParseObject(s: string, fields: map<string, Value>, rest: string)
    requires |s| > 1 && s[0] == '{'
    requires if s[1] == '}' then fields == map[] && rest == s[2..] else ParseMembers(s[1..]) == Some((fields, rest))
    ensures ParseValue(s) == Some((VObj(fields), rest))
  {
  }

  /** Whatever its order, a list of members with readable values reads as the map it lists. */
  lemma RenderedObject(ms: seq<Member>, fields: map<string, Value>, rest: string)
    requires MembersRead(ms, fields) && DistinctKeys(ms) && Keys(ms) == fields.Keys
    ensures ParseValue("{" + Render(ms) + "}" + rest) == Some((VObj(fields), rest))
  {
    var s := "{" + (Render(ms) + "}" + rest);
    assert "{" + Render(ms) + "}" + rest == s;
    assert s[1..] == Render(ms) + "}" + rest;
    if ms == [] {
      assert s[2..] == rest && Keys(ms) == {};
    } else {
      MembersRoundTrip(ms, fields, rest);
      assert Restricted(fields, Keys(ms)) == fields;
    }
    ParseObject(s, fields, rest);
  }

  lemma ObjRoundTrip(f: Fields, rest: string)
    requires ValidFields(f) && MembersRead(Members(f), DenoteFields(f))
    ensures ParseValue(Print(Obj(f)) + rest) == Some((VObj(DenoteFields(f)), rest))
  {
    SortedMembersRead(f);
    RenderedObject(Sort(Members(f)), DenoteFields(f), rest);
  }

  /** The parser recovers every document from its canonical text, wherever the text ends. */
  lemma {:induction false} RoundTrip(j: Json, rest: string)
    requires Valid(j) && Finite(j) && Ends(rest)
    ensures ParseValue(Print(j) + rest) == Some((Denote(j), rest))
    decreases j, 0
  {
    match j
    case Null => LiteralRoundTrip(j, rest);
    case Bool(_) => LiteralRoundTrip(j, rest);
    case Int(n) => IntRoundTrip(n, rest);
    case Float(t) => NumberRoundTrip(t, VFloat(t), rest);
    case Str(t) => StrRoundTrip(t, rest);
    case Arr(items) =>
      if items.Item? {
        ItemsRoundTrip(items, rest);
      }
      ArrRoundTrip(items, rest);
    case Obj(fields) =>
      FieldsRead(fields);
      ObjRoundTrip(fields, rest);
  }

  lemma {:induction false} ItemsRoundTrip(items: Items, rest: string)
    requires ValidItems(items) && FiniteItems(items) && items.Item?
    ensures ParseItems(PrintItems(items) + "]" + rest) == Some((DenoteItems(items), rest))
    decreases items, 0
  {
    var s := PrintItems(items) + "]" + rest;
    if items.tail.NoItems? {
      assert s == Print(items.head) + ("]" + rest);
      RoundTrip(items.head, "]" + rest);
      ParseItemsLast(s, Denote(items.head), rest);
      assert DenoteItems(items) == [Denote(items.head)];
    } else {
      var tail := PrintItems(items.tail) + "]" + rest;
      assert s == Print(items.head) + ("," + tail);
      RoundTrip(items.head, "," + tail);
      ItemsRoundTrip(items.tail, rest);
      ParseItemsMore(s, Denote(items.head), tail, DenoteItems(items.tail), rest);
    }
  }

  lemma {:induction false} FieldsRead(f: Fields)
    requires ValidFields(f) && FiniteFields(f)
    ensures MembersRead(Members(f), DenoteFields(f))
    decreases f, 1
  {
    var ms := Members(f);
    forall i | 0 <= i < |ms|
      ensures ms[i].key in DenoteFields(f) && ReadsAs(ms[i].text, DenoteFields(f)[ms[i].key])
    {
      assert ms[i] in ms;
      MembersAreLookups(f, ms[i]);
      FieldsAreLookups(f, ms[i].key);
      var j := Lookup(f, ms[i].key);
      forall rest | Ends(rest)
        ensures ParseValue(ms[i].text + rest) == Some((DenoteFields(f)[ms[i].key], rest))
      {
        RoundTrip(j, rest);
      }
    }
  }

  // --- Canonical ----------------------------------------------------------------------------------------

  /** Documents that mean the same print the same: insertion order does not matter. */
  lemma {:induction false} PrintDependsOnMeaning(a: Json, b: Json)
    requires Valid(a) && Valid(b) && Denote(a) == Denote(b)
    ensures Print(a) == Print(b)
    decreases a
  {
    match (a, b)
    case (Arr(x), Arr(y)) => PrintItemsDependOnMeaning(x, y);
    case (Obj(f), Obj(g)) =>
      forall m
        ensures m in Members(f) <==> m in Members(g)
      {
        MembersAreLookups(f, m);
        MembersAreLookups(g, m);
        FieldsAreLookups(f, m.key);
        FieldsAreLookups(g, m.key);
        if HasKey(f, m.key) {
          PrintDependsOnMeaning(Lookup(f, m.key), Lookup(g, m.key));
        }
      }
      MembersDistinct(f);
      MembersDistinct(g);
      SortSorts(Members(f));
      SortSorts(Members(g));
      SortedIsUnique(Sort(Members(f)), Sort(Members(g)));
    case _ =>
  }

  lemma {:induction false} PrintItemsDependOnMeaning(x: Items, y: Items)
    requires ValidItems(x) && ValidItems(y) && DenoteItems(x) == DenoteItems(y)
    ensures PrintItems(x) == PrintItems(y)
    decreases x
  {
    if x.Item? {
      assert y.Item? && DenoteItems(x)[0] == DenoteItems(y)[0];
      assert DenoteItems(x)[1..] == DenoteItems(x.tail) && DenoteItems(y)[1..] == DenoteItems(y.tail);
      PrintDependsOnMeaning(x.head, y.head);
      PrintItemsDependOnMeaning(x.tail, y.tail);
      assert x.tail.Item? <==> y.tail.Item? by {
        assert |DenoteItems(x.tail)| == |DenoteItems(y.tail)|;
      }
    } else {
      assert |DenoteItems(y)| == 0;
    }
  }

  /** The canonical text is a faithful name for the document: equal texts, equal documents. */
  lemma PrintIsCanonical(a: Json, b: Json)
    requires Valid(a) && Valid(b) && Finite(a) && Finite(b)
    ensures Print(a) == Print(b) <==> Denote(a) == Denote(b)
  {
    if Print(a) == Print(b) {
      RoundTrip(a, "");
      RoundTrip(b, "");
      assert Print(a) + "" == Print(b) + "";
    } else if Denote(a) == Denote(b) {
      PrintDependsOnMeaning(a, b);
    }
  }
}
