/** The exact text of timestamps and cursor payloads, as other readers of the API see them. */
module CursorText {
  import opened Wrappers
  import opened Cursors
  import opened Decimals
  import CanonicalJson
  import opened CanonicalText

  // --- Timestamps -------------------------------------------------------------------------------------------

  /** At `i` the text has this separator and then n in `width` digits. */
  predicate NumberAt(s: string, i: nat, sep: string, n: nat, width: nat) {
    && i + |sep| + width <= |s| && s[i..i + |sep|] == sep
    && AllDigits(s[i + |sep|..i + |sep| + width]) && DecimalValue(s[i + |sep|..i + |sep| + width]) == n
  }

  lemma FixedAt(before: string, sep: string, n: nat, width: nat, after: string)
    requires n < Power10(width)
    ensures NumberAt(before + (sep + Fixed(n, width) + after), |before|, sep, n, width)
  {
    FixedRoundTrip(n, width);
    var s, i := before + (sep + Fixed(n, width) + after), |before|;
    assert s[i..i + |sep|] == sep && s[i + |sep|..i + |sep| + width] == Fixed(n, width);
  }

  lemma Regroup<T>(p: seq<T>, a: seq<T>, o: seq<T>, q: seq<T>)
    ensures p + (a + o + q) == p + (a + (o + q)) == (p + a) + (o + q)
  {
  }

  /** The first slot comes first; what follows it moves by its length. */
  lemma FirstSlot(before: string, slots: seq<Slot>, values: seq<nat>, after: string) returns (next: string)
    requires Fits(slots, values) && slots != []
    ensures
      var s := before + (PrintSlots(slots, values) + after);
      && NumberAt(s, |before|, slots[0].sep, values[0], slots[0].width)
      && s == next + (PrintSlots(slots[1..], values[1..]) + after)
      && |next| == |before| + |slots[0].sep| + slots[0].width
  {
    var slot, n := slots[0], values[0];
    var first, others := slot.sep + Fixed(n, slot.width), PrintSlots(slots[1..], values[1..]);
    assert PrintSlots(slots, values) == first + others;
    FixedAt(before, slot.sep, n, slot.width, others + after);
    Regroup(before, first, others, after);
    next := before + first;
  }

  lemma Powers()
    ensures Power10(2) == 100 && Power10(4) == 10_000 && Power10(6) == 1_000_000
  {
    assert Power10(1) == 10 && Power10(3) == 1000 && Power10(5) == 100_000;
  }

  function Numbers(t: Stamp): seq<nat> {
    [t.year, t.month, t.day, t.hour, t.minute, t.second]
  }

  /** The first `i` numbers of YYYY-MM-DDTHH:MM:SS stand where they belong. */
  predicate Written(t: Stamp, s: string, i: nat) {
    && (i > 0 ==> NumberAt(s, 0, "", t.year, 4)) && (i > 1 ==> NumberAt(s, 4, "-", t.month, 2))
    && (i > 2 ==> NumberAt(s, 7, "-", t.day, 2)) && (i > 3 ==> NumberAt(s, 10, "T", t.hour, 2))
    && (i > 4 ==> NumberAt(s, 13, ":", t.minute, 2)) && (i > 5 ==> NumberAt(s, 16, ":", t.second, 2))
  }

  function Position(i: nat): nat {
    if i == 0 then 0 else 3 * i + 1
  }

  lemma SlotAt(t: Stamp, i: nat)
    requires ValidStamp(t) && i < 6
    ensures
      var slot := DATE_TIME[i];
      && Numbers(t)[i] < Power10(slot.width) && Position(i) + |slot.sep| + slot.width == Position(i + 1)
      && forall s :: Written(t, s, i) && NumberAt(s, Position(i), slot.sep, Numbers(t)[i], slot.width) ==>
           Written(t, s, i + 1)
  {
    Powers();
  }

  lemma {:induction false} DateTimeFrom(t: Stamp, s: string, i: nat, before: string, after: string)
    requires ValidStamp(t) && i <= 6 && Written(t, s, i) && |before| == Position(i)
    requires s == before + (PrintSlots(DATE_TIME[i..], Numbers(t)[i..]) + after)
    ensures Written(t, s, 6) && |s| == 19 + |after| && s[19..] == after
    decreases 6 - i
  {
    if i < 6 {
      var slots, values := DATE_TIME[i..], Numbers(t)[i..];
      forall k | 0 <= k < |slots|
        ensures values[k] < Power10(slots[k].width)
      {
        SlotAt(t, i + k);
      }
      SlotAt(t, i);
      var next := FirstSlot(before, slots, values, after);
      assert slots[1..] == DATE_TIME[i + 1..] && values[1..] == Numbers(t)[i + 1..];
      DateTimeFrom(t, s, i + 1, next, after);
    }
  }

  /** What follows the seconds: the microseconds unless they are zero, and the offset of an aware timestamp. */
  predicate Ending(t: Stamp, s: string) {
    && (t.micro == 0 && t.offset.None? ==> s == "")
    && (t.micro != 0 ==> NumberAt(s, 0, ".", t.micro, 6))
    && (t.micro != 0 && t.offset.None? ==> |s| == 7)
    && (t.offset.Some? ==>
          var i, minutes := if t.micro == 0 then 0 else 7, Absolute(t.offset.value);
          && |s| == i + 6 && s[i] == (if t.offset.value < 0 then '-' else '+')
          && NumberAt(s, i + 1, "", minutes / 60, 2) && NumberAt(s, i + 3, ":", minutes % 60, 2))
  }

  lemma MicrosLayout(micro: nat, after: string)
    requires 0 < micro < 1_000_000
    ensures NumberAt(PrintMicros(micro) + after, 0, ".", micro, 6)
    ensures |PrintMicros(micro)| == 7
  {
    Powers();
    var next := FirstSlot("", MICROS, [micro], after);
    var text := PrintMicros(micro);
    assert "" + (text + after) == text + after;
    assert PrintSlots(MICROS[1..], [micro][1..]) == "";
    assert |text + after| == |next| + |after|;
  }

  lemma HoursAndMinutes(before: string, hours: nat, minutes: nat)
    requires hours < 100 && minutes < 100
    ensures
      var s := before + PrintSlots(OFFSET, [hours, minutes]);
      |s| == |before| + 5 && NumberAt(s, |before|, "", hours, 2) && NumberAt(s, |before| + 2, ":", minutes, 2)
  {
    Powers();
    var values := [hours, minutes];
    var first := FirstSlot(before, OFFSET, values, "");
    var second := FirstSlot(first, OFFSET[1..], values[1..], "");
    assert PrintSlots(OFFSET[1..][1..], values[1..][1..]) == "";
    assert before + PrintSlots(OFFSET, values) == before + (PrintSlots(OFFSET, values) + "");
  }

  lemma OffsetLayout(before: string, offset: int)
    requires -1440 < offset < 1440
    ensures
      var minutes := if offset < 0 then -offset else offset;
      var s := before + PrintOffset(Some(offset));
      && |s| == |before| + 6 && s[|before|] == (if offset < 0 then '-' else '+')
      && NumberAt(s, |before| + 1, "", minutes / 60, 2) && NumberAt(s, |before| + 3, ":", minutes % 60, 2)
  {
    var minutes: nat := if offset < 0 then -offset else offset;
    var sign := if offset < 0 then "-" else "+";
    HoursAndMinutes(before + sign, minutes / 60, minutes % 60);
    var text := PrintSlots(OFFSET, [minutes / 60, minutes % 60]);
    assert before + (sign + text) == (before + sign) + text;
  }

  /** isoformat, position by position. */
  lemma IsoLayout(t: Stamp)
    requires ValidStamp(t)
    ensures |IsoFormat(t)| >= 19 && Written(t, IsoFormat(t), 6) && Ending(t, IsoFormat(t)[19..])
  {
    var after := PrintMicros(t.micro) + PrintOffset(t.offset);
    assert IsoFormat(t) == "" + (PrintSlots(DATE_TIME[0..], Numbers(t)[0..]) + after);
    DateTimeFrom(t, IsoFormat(t), 0, "", after);
    if t.micro != 0 {
      MicrosLayout(t.micro, PrintOffset(t.offset));
    }
    if t.offset.Some? {
      OffsetLayout(PrintMicros(t.micro), t.offset.value);
    }
  }

  // --- Cursors ----------------------------------------------------------------------------------------------

  /** A code unit outside printable ASCII is written with four lower-case hexadecimal digits. */
  lemma UnitLayout(n: nat)
    requires n < 0x10000
    ensures |EscapeUnit(n)| == 6 && EscapeUnit(n)[..2] == "\\u"
    ensures forall i :: 2 <= i < 6 ==> '0' <= EscapeUnit(n)[i] <= '9' || 'a' <= EscapeUnit(n)[i] <= 'f'
  {
  }

  /** The payload names the timestamp and then the id, without spaces. */
  lemma PayloadLayout(createdAt: string, id: string)
    ensures Payload(createdAt, id)
         == "{" + Joined([CanonicalJson.Member("created_at", QuoteAscii(createdAt)),
                          CanonicalJson.Member("id", QuoteAscii(id))]) + "}"
  {
    RenderIsJoined([CanonicalJson.Member("created_at", QuoteAscii(createdAt)),
                    CanonicalJson.Member("id", QuoteAscii(id))]);
  }
}
