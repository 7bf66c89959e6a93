/**
 Page cursors (src/webhook_platform/shared/domain/pagination.py): a timestamp and an id as ASCII JSON in
 unpadded base64url. A naive timestamp has no offset; offsets are whole minutes.
 */
module Cursors {
  import opened Wrappers
  import opened Decimals
  import opened Unicode
  import Base64
  import CanonicalJson

  // --- Timestamps ---------------------------------------------------------------------------------------

  datatype Stamp = Stamp(
    year: nat, month: nat, day: nat, hour: nat, minute: nat, second: nat, micro: nat, offset: Option<int>)

  predicate LeapYear(y: nat) {
    y % 4 == 0 && (y % 100 != 0 || y % 400 == 0)
  }

  function DaysIn(y: nat, m: nat): nat {
    if m == 2 then if LeapYear(y) then 29 else 28
    else if m in {4, 6, 9, 11} then 30
    else 31
  }

  predicate ValidStamp(t: Stamp) {
    && 1 <= t.year <= 9999 && 1 <= t.month <= 12 && 1 <= t.day <= DaysIn(t.year, t.month)
    && t.hour < 24 && t.minute < 60 && t.second < 60 && t.micro < 1_000_000
    && (t.offset.Some? ==> -1440 < t.offset.value < 1440)
  }

  /** A separator and a number of fixed width. */
  datatype Slot = Slot(sep: string, width: nat)

  const DATE_TIME: seq<Slot> :=
    [Slot("", 4), Slot("-", 2), Slot("-", 2), Slot("T", 2), Slot(":", 2), Slot(":", 2)]

  const MICROS: seq<Slot> := [Slot(".", 6)]

  const OFFSET: seq<Slot> := [Slot("", 2), Slot(":", 2)]

  function Power10(n: nat): nat {
    if n == 0 then 1 else 10 * Power10(n - 1)
  }

  /** n in `width` digits, with leading zeros. */
  function Fixed(n: nat, width: nat): (s: string)
    ensures |s| == width && AllDigits(s)
  {
    if width == 0 then "" else Fixed(n / 10, width - 1) + [Digit(n % 10)]
  }

  lemma {:induction false} FixedRoundTrip(n: nat, width: nat)
    requires n < Power10(width)
    ensures DecimalValue(Fixed(n, width)) == n
    decreases width
  {
    if width > 0 {
      assert n < 10 * Power10(width - 1);
      FixedRoundTrip(n / 10, width - 1);
      assert DigitValue(Digit(n % 10)) == n % 10;
      assert Fixed(n, width)[..width - 1] == Fixed(n / 10, width - 1);
    }
  }

  function PrintSlots(slots: seq<Slot>, values: seq<nat>): string
    requires |values| == |slots|
  {
    if slots == [] then ""
    else slots[0].sep + Fixed(values[0], slots[0].width) + PrintSlots(slots[1..], values[1..])
  }

  function ReadSlot(slot: Slot, s: string): Option<(nat, string)> {
    var k := |slot.sep|;
    if !(slot.sep <= s) || |s| < k + slot.width || !AllDigits(s[k..k + slot.width]) then None
    else Some((DecimalValue(s[k..k + slot.width]), s[k + slot.width..]))
  }

  function ReadSlots(slots: seq<Slot>, s: string): (r: Option<(seq<nat>, string)>)
    ensures r.Some? ==> |r.value.0| == |slots|
  {
    if slots == [] then Some(([], s))
    else
      var first := ReadSlot(slots[0], s);
      if first.None? then None
      else
        var others := ReadSlots(slots[1..], first.value.1);
        if others.None? then None else Some(([first.value.0] + others.value.0, others.value.1))
  }

  predicate Fits(slots: seq<Slot>, values: seq<nat>) {
    |values| == |slots| && forall i :: 0 <= i < |slots| ==> values[i] < Power10(slots[i].width)
  }

  lemma SlotRoundTrip(slot: Slot, n: nat, rest: string)
    requires n < Power10(slot.width)
    ensures ReadSlot(slot, slot.sep + Fixed(n, slot.width) + rest) == Some((n, rest))
  {
    var s, k := slot.sep + Fixed(n, slot.width) + rest, |slot.sep|;
    FixedRoundTrip(n, slot.width);
    assert s[k..k + slot.width] == Fixed(n, slot.width) && s[k + slot.width..] == rest;
  }

  lemma SlotsText(first: string, others: string, rest: string)
    ensures first + others + rest == first + (others + rest)
  {
  }

  lemma ReadMore(slots: seq<Slot>, s: string, n: nat, tail: string, values: seq<nat>, rest: string)
    requires slots != [] && ReadSlot(slots[0], s) == Some((n, tail))
    requires ReadSlots(slots[1..], tail) == Some((values, rest))
    ensures ReadSlots(slots, s) == Some(([n] + values, rest))
  {
  }

  lemma {:induction false} SlotsRoundTrip(slots: seq<Slot>, values: seq<nat>, rest: string)
    requires Fits(slots, values)
    ensures ReadSlots(slots, PrintSlots(slots, values) + rest) == Some((values, rest))
  {
    if slots == [] {
      assert PrintSlots(slots, values) + rest == rest;
    } else {
      var first, others := slots[0].sep + Fixed(values[0], slots[0].width), PrintSlots(slots[1..], values[1..]);
      SlotsText(first, others, rest);
      SlotRoundTrip(slots[0], values[0], others + rest);
      SlotsRoundTrip(slots[1..], values[1..], rest);
      ReadMore(slots, first + (others + rest), values[0], others + rest, values[1..], rest);
      assert [values[0]] + values[1..] == values;
    }
  }

  // --- datetime.isoformat and fromisoformat ---------------------------------------------------------------

  function Absolute(n: int): nat {
    if n < 0 then -n else n
  }

  function PrintOffset(offset: Option<int>): string {
    if offset.None? then ""
    else (if offset.value < 0 then "-" else "+")
         + PrintSlots(OFFSET, [Absolute(offset.value) / 60, Absolute(offset.value) % 60])
  }

  function PrintMicros(micro: nat): string {
    if micro == 0 then "" else PrintSlots(MICROS, [micro])
  }

  /** YYYY-MM-DDTHH:MM:SS[.ffffff][+HH:MM]; zero microseconds are not written. */
  function IsoFormat(t: Stamp): string {
    PrintSlots(DATE_TIME, [t.year, t.month, t.day, t.hour, t.minute, t.second])
    + (PrintMicros(t.micro) + PrintOffset(t.offset))
  }

  function ReadMicros(s: string): Option<(nat, string)> {
    if s == "" || s[0] != '.' then Some((0, s))
    else
      var r := ReadSlots(MICROS, s);
      if r.None? then None else Some((r.value.0[0], r.value.1))
  }

  function ReadOffset(s: string): Option<Option<int>> {
    if s == "" then Some(None)
    else if s[0] != '+' && s[0] != '-' then None
    else
      var r := ReadSlots(OFFSET, s[1..]);
      if r.None? || r.value.1 != "" || r.value.0[1] >= 60 then None
      else
        var minutes: int := r.value.0[0] * 60 + r.value.0[1];
        Some(Some(if s[0] == '-' then -minutes else minutes))
  }

  function FromIsoFormat(s: string): (t: Option<Stamp>)
    ensures t.Some? ==> ValidStamp(t.value)
  {
    var fields := ReadSlots(DATE_TIME, s);
    if fields.None? then None
    else
      var micro := ReadMicros(fields.value.1);
      if micro.None? then None
      else
        var offset, v := ReadOffset(micro.value.1), fields.value.0;
        if offset.None? then None
        else
          var t := Stamp(v[0], v[1], v[2], v[3], v[4], v[5], micro.value.0, offset.value);
          if ValidStamp(t) then Some(t) else None
  }

  lemma SignedOffset(sign: char, text: string, hours: nat, minutes: nat)
    requires sign in {'+', '-'} && ReadSlots(OFFSET, text) == Some(([hours, minutes], "")) && minutes < 60
    ensures ReadOffset([sign] + text)
         == Some(Some(if sign == '-' then 0 - (hours * 60 + minutes) else hours * 60 + minutes))
  {
    assert ([sign] + text)[1..] == text;
  }

  lemma OffsetRoundTrip(offset: Option<int>)
    requires offset.Some? ==> -1440 < offset.value < 1440
    ensures ReadOffset(PrintOffset(offset)) == Some(offset)
    ensures PrintOffset(offset) == "" || PrintOffset(offset)[0] != '.'
  {
    if offset.Some? {
      var hours, minutes := Absolute(offset.value) / 60, Absolute(offset.value) % 60;
      assert Power10(2) == 100;
      SlotsRoundTrip(OFFSET, [hours, minutes], "");
      var text := PrintSlots(OFFSET, [hours, minutes]);
      assert text + "" == text;
      SignedOffset(if offset.value < 0 then '-' else '+', text, hours, minutes);
    }
  }

  lemma MicrosRoundTrip(micro: nat, rest: string)
    requires micro < 1_000_000 && (rest == "" || rest[0] != '.')
    ensures ReadMicros(PrintMicros(micro) + rest) == Some((micro, rest))
  {
    if micro == 0 {
      assert PrintMicros(micro) + rest == rest;
    } else {
      assert Power10(6) == 1_000_000 by {
        assert Power10(4) == 100 * Power10(2) == 10_000;
      }
      SlotsRoundTrip(MICROS, [micro], rest);
      assert PrintMicros(micro)[0] == '.';
    }
  }

  lemma IsoRoundTrip(t: Stamp)
    requires ValidStamp(t)
    ensures FromIsoFormat(IsoFormat(t)) == Some(t)
  {
    var values := [t.year, t.month, t.day, t.hour, t.minute, t.second];
    assert Power10(2) == 100 && Power10(4) == 100 * Power10(2);
    assert DaysIn(t.year, t.month) <= 31;
    assert Fits(DATE_TIME, values);
    OffsetRoundTrip(t.offset);
    MicrosRoundTrip(t.micro, PrintOffset(t.offset));
    SlotsRoundTrip(DATE_TIME, values, PrintMicros(t.micro) + PrintOffset(t.offset));
  }

  // --- ASCII JSON strings (json.dumps with ensure_ascii) ---------------------------------------------------

  function Hex4(n: nat): string
    requires n < 0x10000
  {
    [CanonicalJson.HexDigit(n / 16 / 16 / 16), CanonicalJson.HexDigit(n / 16 / 16 % 16),
     CanonicalJson.HexDigit(n / 16 % 16), CanonicalJson.HexDigit(n % 16)]
  }

  function EscapeUnit(n: nat): string
    requires n < 0x10000
  {
    "\\u" + Hex4(n)
  }

  /** The surrogates of a character above U+FFFF. */
  function HighUnit(c: char): (n: nat)
    requires 0x10000 <= c as int
    ensures 0xD800 <= n < 0xDC00
  {
    0xD800 + (c as int - 0x10000) / 0x400
  }

  function LowUnit(c: char): (n: nat)
    requires 0x10000 <= c as int
    ensures 0xDC00 <= n < 0xE000
  {
    0xDC00 + (c as int - 0x10000) % 0x400
  }

  function PairOf(high: nat, low: nat): char
    requires 0xD800 <= high < 0xDC00 && 0xDC00 <= low < 0xE000
  {
    (0x10000 + (high - 0xD800) * 0x400 + (low - 0xDC00)) as char
  }

  /** Characters outside printable ASCII become \u escapes, above U+FFFF a pair of surrogates. */
  function EscapeAsciiChar(c: char): string {
    if c <= '~' then CanonicalJson.EscapeChar(c)
    else if c as int < 0x10000 then EscapeUnit(c as int)
    else EscapeUnit(HighUnit(c)) + EscapeUnit(LowUnit(c))
  }

  function EscapeAscii(s: string): string {
    if s == "" then "" else EscapeAsciiChar(s[0]) + EscapeAscii(s[1..])
  }

  function QuoteAscii(s: string): string {
    "\"" + EscapeAscii(s) + "\""
  }

  lemma HexDigitsRead(a: nat, b: nat, c: nat, d: nat, rest: string)
    requires a < 16 && b < 16 && c < 16 && d < 16
    ensures CanonicalJson.CodeUnit([CanonicalJson.HexDigit(a), CanonicalJson.HexDigit(b),
                                    CanonicalJson.HexDigit(c), CanonicalJson.HexDigit(d)] + rest)
         == Some(((a * 16 + b) * 16 + c) * 16 + d)
  {
    CanonicalJson.HexRoundTrip(a);
    CanonicalJson.HexRoundTrip(b);
    CanonicalJson.HexRoundTrip(c);
    CanonicalJson.HexRoundTrip(d);
  }

  lemma Hex4RoundTrip(n: nat, rest: string)
    requires n < 0x10000
    ensures CanonicalJson.CodeUnit(Hex4(n) + rest) == Some(n)
  {
    HexDigitsRead(n / 16 / 16 / 16, n / 16 / 16 % 16, n / 16 % 16, n % 16, rest);
  }

  lemma UnitRoundTrip(c: char, rest: string)
    requires c as int < 0x10000
    ensures CanonicalJson.ParseString(EscapeUnit(c as int) + rest)
         == CanonicalJson.Prepend(c, CanonicalJson.ParseString(rest))
  {
    var s := EscapeUnit(c as int) + rest;
    assert s[2..] == Hex4(c as int) + rest && s[6..] == rest;
    Hex4RoundTrip(c as int, rest);
  }

  lemma PairSteps(s: string, high: nat, low: nat)
    requires |s| >= 12 && s[0] == '\\' && s[1] == 'u' && s[6] == '\\' && s[7] == 'u'
    requires CanonicalJson.CodeUnit(s[2..]) == Some(high) && CanonicalJson.CodeUnit(s[8..]) == Some(low)
    requires 0xD800 <= high < 0xDC00 && 0xDC00 <= low < 0xE000
    ensures CanonicalJson.ParseString(s)
         == CanonicalJson.Prepend(PairOf(high, low), CanonicalJson.ParseString(s[12..]))
  {
    assert s[2..][6..] == s[8..];
    assert CanonicalJson.UnicodeEscape(s[2..]).None?;
    assert CanonicalJson.SurrogatePair(s[2..]) == Some(PairOf(high, low));
  }

  lemma PairText(high: nat, low: nat, rest: string)
    requires high < 0x10000 && low < 0x10000
    ensures
      var s := EscapeUnit(high) + EscapeUnit(low) + rest;
      && |s| >= 12 && s[0] == '\\' && s[1] == 'u' && s[6] == '\\' && s[7] == 'u'
      && s[2..] == Hex4(high) + (EscapeUnit(low) + rest) && s[8..] == Hex4(low) + rest && s[12..] == rest
  {
  }

  /** Two surrogate escapes read as the character they were made from. */
  lemma PairReads(high: nat, low: nat, rest: string)
    requires 0xD800 <= high < 0xDC00 && 0xDC00 <= low < 0xE000
    ensures CanonicalJson.ParseString(EscapeUnit(high) + EscapeUnit(low) + rest)
         == CanonicalJson.Prepend(PairOf(high, low), CanonicalJson.ParseString(rest))
  {
    Hex4RoundTrip(high, EscapeUnit(low) + rest);
    Hex4RoundTrip(low, rest);
    PairText(high, low, rest);
    PairSteps(EscapeUnit(high) + EscapeUnit(low) + rest, high, low);
  }

  lemma PairCode(c: char)
    requires 0x10000 <= c as int
    ensures PairOf(HighUnit(c), LowUnit(c)) == c
  {
    var n := c as int - 0x10000;
    assert n / 0x400 * 0x400 + n % 0x400 == n;
  }

  lemma PairRoundTrip(c: char, rest: string)
    requires 0x10000 <= c as int
    ensures CanonicalJson.ParseString(EscapeUnit(HighUnit(c)) + EscapeUnit(LowUnit(c)) + rest)
         == CanonicalJson.Prepend(c, CanonicalJson.ParseString(rest))
  {
    PairCode(c);
    PairReads(HighUnit(c), LowUnit(c), rest);
  }

  lemma {:induction false} EscapeAsciiRoundTrip(s: string, rest: string)
    ensures CanonicalJson.ParseString(EscapeAscii(s) + "\"" + rest) == Some((s, rest))
  {
    if s == "" {
      assert EscapeAscii(s) + "\"" + rest == "\"" + rest;
    } else {
      var tail := EscapeAscii(s[1..]) + "\"" + rest;
      assert EscapeAscii(s) + "\"" + rest == EscapeAsciiChar(s[0]) + tail;
      if s[0] <= '~' {
        CanonicalJson.EscapeCharRoundTrip(s[0], tail);
      } else if s[0] as int < 0x10000 {
        UnitRoundTrip(s[0], tail);
      } else {
        PairRoundTrip(s[0], tail);
      }
      EscapeAsciiRoundTrip(s[1..], rest);
      assert [s[0]] + s[1..] == s;
    }
  }

  lemma QuoteAsciiRoundTrip(s: string, rest: string)
    ensures CanonicalJson.ParseValue(QuoteAscii(s) + rest) == Some((CanonicalJson.VStr(s), rest))
  {
    var text := QuoteAscii(s) + rest;
    var after := EscapeAscii(s) + "\"" + rest;
    assert text[0] == '"' && text[1..] == after;
    EscapeAsciiRoundTrip(s, rest);
    CanonicalJson.ParseQuoted(text, s, rest);
  }

  lemma QuoteAsciiReads(s: string)
    ensures CanonicalJson.ReadsAs(QuoteAscii(s), CanonicalJson.VStr(s))
  {
    forall rest | CanonicalJson.Ends(rest)
      ensures CanonicalJson.ParseValue(QuoteAscii(s) + rest) == Some((CanonicalJson.VStr(s), rest))
    {
      QuoteAsciiRoundTrip(s, rest);
    }
  }

  // --- Cursors --------------------------------------------------------------------------------------------

  datatype CursorError = InvalidCursor

  function Payload(createdAt: string, id: string): string {
    "{" + CanonicalJson.Render([CanonicalJson.Member("created_at", QuoteAscii(createdAt)),
                                CanonicalJson.Member("id", QuoteAscii(id))]) + "}"
  }

  function EncodeCursor(createdAt: Stamp, id: string): string {
    Base64.Strip(Base64.Encode(Utf8(Payload(IsoFormat(createdAt), id))))
  }

  function DecodePayload(fields: map<string, CanonicalJson.Value>): Result<(Stamp, string), CursorError> {
    if "created_at" !in fields || "id" !in fields then Err(InvalidCursor)
    else if !fields["created_at"].VStr? then Err(InvalidCursor)
    else
      var createdAt, id := FromIsoFormat(fields["created_at"].s), fields["id"];
      if createdAt.None? || createdAt.value.offset.None? || !id.VStr? || id.s == "" then Err(InvalidCursor)
      else Ok((createdAt.value, id.s))
  }

  ghost function DecodeCursor(value: Option<string>): Result<Option<(Stamp, string)>, CursorError> {
    if value.None? then Ok(None)
    else
      var bytes := Base64.Decode(Base64.Pad(value.value));
      var text := if bytes.None? then None else FromUtf8(bytes.value);
      var json := if text.None? then None else CanonicalJson.ParseValue(text.value);
      if json.None? || json.value.1 != "" || !json.value.0.VObj? then Err(InvalidCursor)
      else
        var r := DecodePayload(json.value.0.fields);
        if r.Err? then Err(r.error) else Ok(Some(r.value))
  }

  function Fields(createdAt: string, id: string): map<string, CanonicalJson.Value> {
    map["created_at" := CanonicalJson.VStr(createdAt), "id" := CanonicalJson.VStr(id)]
  }

  lemma PayloadReads(createdAt: string, id: string)
    ensures CanonicalJson.ParseValue(Payload(createdAt, id))
         == Some((CanonicalJson.VObj(Fields(createdAt, id)), ""))
  {
    var ms := [CanonicalJson.Member("created_at", QuoteAscii(createdAt)),
               CanonicalJson.Member("id", QuoteAscii(id))];
    var fields := Fields(createdAt, id);
    QuoteAsciiReads(createdAt);
    QuoteAsciiReads(id);
    assert CanonicalJson.Keys(ms) == fields.Keys by {
      assert ms[0].key in CanonicalJson.Keys(ms) && ms[1].key in CanonicalJson.Keys(ms);
    }
    CanonicalJson.RenderedObject(ms, fields, "");
    assert Payload(createdAt, id) + "" == Payload(createdAt, id);
  }

  /** Reading the cursor's bytes gives the payload back. */
  lemma CursorBytes(createdAt: Stamp, id: string)
    ensures
      var bytes := Base64.Decode(Base64.Pad(EncodeCursor(createdAt, id)));
      bytes.Some? && FromUtf8(bytes.value) == Some(Payload(IsoFormat(createdAt), id))
    ensures Base64.UrlSafe(EncodeCursor(createdAt, id))
  {
    var text := Payload(IsoFormat(createdAt), id);
    Base64.UnpaddedRoundTrip(Utf8(text));
    Utf8RoundTrip(text);
  }

  lemma PayloadDecodes(createdAt: Stamp, id: string)
    requires ValidStamp(createdAt)
    ensures DecodePayload(Fields(IsoFormat(createdAt), id))
         == if createdAt.offset.Some? && id != "" then Ok((createdAt, id)) else Err(InvalidCursor)
  {
    IsoRoundTrip(createdAt);
  }

  lemma DecodeSteps(value: string, bytes: Base64.Bytes, text: string, fields: map<string, CanonicalJson.Value>)
    requires Base64.Decode(Base64.Pad(value)) == Some(bytes) && FromUtf8(bytes) == Some(text)
    requires CanonicalJson.ParseValue(text) == Some((CanonicalJson.VObj(fields), ""))
    ensures DecodeCursor(Some(value))
         == match DecodePayload(fields) case Ok(r) => Ok(Some(r)) case Err(e) => Err(e)
  {
  }

  /** A cursor decodes to what it was made from, exactly when the timestamp is aware and the id not empty. */
  lemma CursorRoundTrip(createdAt: Stamp, id: string)
    requires ValidStamp(createdAt)
    ensures DecodeCursor(Some(EncodeCursor(createdAt, id)))
         == if createdAt.offset.Some? && id != "" then Ok(Some((createdAt, id))) else Err(InvalidCursor)
  {
    var value, iso := EncodeCursor(createdAt, id), IsoFormat(createdAt);
    CursorBytes(createdAt, id);
    PayloadReads(iso, id);
    DecodeSteps(value, Base64.Decode(Base64.Pad(value)).value, Payload(iso, id), Fields(iso, id));
    PayloadDecodes(createdAt, id);
  }

  /** Different rows never share a cursor. */
  lemma CursorIsInjective(a: Stamp, aId: string, b: Stamp, bId: string)
    requires ValidStamp(a) && ValidStamp(b)
    ensures EncodeCursor(a, aId) == EncodeCursor(b, bId) <==> a == b && aId == bId
  {
    if EncodeCursor(a, aId) == EncodeCursor(b, bId) {
      CursorBytes(a, aId);
      CursorBytes(b, bId);
      SamePayload(IsoFormat(a), aId, IsoFormat(b), bId);
      IsoRoundTrip(a);
      IsoRoundTrip(b);
    }
  }

  lemma SamePayload(iso: string, id: string, iso1: string, id1: string)
    requires Payload(iso, id) == Payload(iso1, id1)
    ensures iso == iso1 && id == id1
  {
    PayloadReads(iso, id);
    PayloadReads(iso1, id1);
    var m, n := Fields(iso, id), Fields(iso1, id1);
    assert m["created_at"] == n["created_at"] && m["id"] == n["id"];
  }
}
