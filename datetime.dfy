/**
 * The calendar date value of the rule model (lib/rrule/datetime.rs and lib/rrule/time.rs):
 * a date with an optional wall-clock time, whose offset `Some(0)` marks UTC.  Its text
 * form is the DATE / DATE-TIME literal of sections 3.3.4 and 3.3.5 of RFC 5545
 * (`YYYYMMDD` or `YYYYMMDDTHHMMSS[Z]`), and it also travels to the host as seven
 * 32-bit integers with -1 for an absent part.
 */
module DateTimes {
  import opened Wrappers
  import opened Strings
  import opened Ints
  import ValueTypes

  const U32_MAX: int := 0xFFFF_FFFF
  const I32_MAX: int := 0x7FFF_FFFF

  /** `Time`: the offset is in seconds east of UTC when known. */
  datatype Time = Time(hour: U32, minute: U32, second: U32, offset: Option<I32>)

  datatype DateTime = DateTime(year: U32, month: U32, day: U32, time: Option<Time>)

  /** The UTC convention of the text form: a time whose offset is zero. */
  predicate IsUtc(d: DateTime) {
    d.time.Some? && d.time.value.offset == Some(0)
  }

  /** `derive_value_type`: a date without a time is a DATE, one with a time a DATE-TIME. */
  function DeriveValueType(d: DateTime): (v: ValueTypes.ValueType)
    ensures v == ValueTypes.Date <==> d.time.None?
    ensures v == ValueTypes.DateTime <==> d.time.Some?
  {
    match d.time
    case Some(_) => ValueTypes.DateTime
    case None => ValueTypes.Date
  }

  // ---------------------------------------------------------------------------
  // Text form

  /** `str::parse::<u32>()` on one fixed-position field; the error names the field and its text. */
  function Field(t: string, name: string): Result<U32, string> {
    match ParseInteger(t, 0, U32_MAX)
    case Some(v) => Ok(v)
    case None => Err("Invalid " + name + ": " + t)
  }

  /** Whether the text has one of the three accepted lengths: 8, 15 or 16. */
  predicate GoodLength(s: string) {
    |s| == 8 || (|s| <= 16 && |s| >= 15)
  }

  /**
   * `DateTime::from_str`: the length must be 8, 15 or 16; year, month and day are
   * read from positions 0..4, 4..6 and 6..8; a longer text also has hour, minute and
   * second at 9..11, 11..13 and 13..15, and is UTC when the character at 15
   * upper-cases to "Z".  The character at 8 is not looked at.
   */
  function FromStr(s: string): Result<DateTime, string> {
    if !GoodLength(s) then Err("Invalid datetime string: " + s)
    else
      var year :- Field(s[0..4], "year");
      var month :- Field(s[4..6], "month");
      var day :- Field(s[6..8], "day");
      if |s| > 8 then
        var hour :- Field(s[9..11], "hour");
        var minute :- Field(s[11..13], "minute");
        var second :- Field(s[13..15], "second");
        var utc := Upper(if |s| >= 16 then s[15..16] else "") == "Z";
        var offset: Option<I32> := if utc then Some(0) else None;
        Ok(DateTime(year, month, day, Some(Time(hour, minute, second, offset))))
      else
        Ok(DateTime(year, month, day, None))
  }

  function DatePart(d: DateTime): string {
    ZeroPad(d.year, 4) + ZeroPad(d.month, 2) + ZeroPad(d.day, 2)
  }

  function TimePart(t: Time): string {
    "T" + ZeroPad(t.hour, 2) + ZeroPad(t.minute, 2) + ZeroPad(t.second, 2) + (if t.offset == Some(0) then "Z" else "")
  }

  /** `Display`: zero-padded fields, with "Z" exactly when the offset is zero. */
  function ToText(d: DateTime): string {
    match d.time
    case None => DatePart(d)
    case Some(t) => DatePart(d) + TimePart(t)
  }

  /** Fields narrow enough for their fixed widths: a four-digit year and two-digit others. */
  predicate FitsWidths(d: DateTime) {
    d.year <= 9999 && d.month <= 99 && d.day <= 99 &&
    (d.time.Some? ==> d.time.value.hour <= 99 && d.time.value.minute <= 99 && d.time.value.second <= 99)
  }

  /** What the text form keeps of a date: every field, with a non-zero offset forgotten. */
  function WithoutOffset(d: DateTime): DateTime {
    match d.time
    case None => d
    case Some(t) => d.(time := Some(t.(offset := if t.offset == Some(0) then Some(0) else None)))
  }

  // ---------------------------------------------------------------------------
  // Properties of the text form

  /** Any length other than 8, 15 or 16 is rejected, naming the text. */
  lemma {:induction false} FromStrLength(s: string)
    ensures !GoodLength(s) ==> FromStr(s) == Err("Invalid datetime string: " + s)
    ensures FromStr(s).Ok? ==> GoodLength(s)
  {
  }

  /** A date-only text reads into a date without a time, a longer one into a date with a time. */
  lemma {:induction false} FromStrShape(s: string)
    ensures FromStr(s).Ok? ==> (FromStr(s).value.time.None? <==> |s| == 8)
    ensures FromStr(s).Ok? && |s| > 8 ==>
      (IsUtc(FromStr(s).value) <==> |s| == 16 && Upper(s[15..16]) == "Z") && (FromStr(s).value.time.value.offset.None? <==> !IsUtc(FromStr(s).value))
  {
  }

  /** Each field that does not parse is reported by name and text, the earlier field first: year, month, day, then hour, minute, second. */
  lemma {:induction false} FromStrFieldErrors(s: string)
    requires GoodLength(s)
    ensures Field(s[0..4], "year").Err? ==> FromStr(s) == Err("Invalid year: " + s[0..4])
    ensures Field(s[0..4], "year").Ok? && Field(s[4..6], "month").Err? ==> FromStr(s) == Err("Invalid month: " + s[4..6])
    ensures Field(s[0..4], "year").Ok? && Field(s[4..6], "month").Ok? && Field(s[6..8], "day").Err? ==>
      FromStr(s) == Err("Invalid day: " + s[6..8])
    ensures |s| >= 15 && DateFieldsRead(s) && Field(s[9..11], "hour").Err? ==>
      FromStr(s) == Err("Invalid hour: " + s[9..11])
    ensures |s| >= 15 && DateFieldsRead(s) && Field(s[9..11], "hour").Ok? && Field(s[11..13], "minute").Err? ==>
      FromStr(s) == Err("Invalid minute: " + s[11..13])
    ensures |s| >= 15 && DateFieldsRead(s) && Field(s[9..11], "hour").Ok? && Field(s[11..13], "minute").Ok? && Field(s[13..15], "second").Err? ==>
      FromStr(s) == Err("Invalid second: " + s[13..15])
  {
    assert "Invalid " + "year" + ": " + s[0..4] == "Invalid year: " + s[0..4];
    assert "Invalid " + "month" + ": " + s[4..6] == "Invalid month: " + s[4..6];
    assert "Invalid " + "day" + ": " + s[6..8] == "Invalid day: " + s[6..8];
    if |s| >= 15 {
      assert "Invalid " + "hour" + ": " + s[9..11] == "Invalid hour: " + s[9..11];
      assert "Invalid " + "minute" + ": " + s[11..13] == "Invalid minute: " + s[11..13];
      assert "Invalid " + "second" + ": " + s[13..15] == "Invalid second: " + s[13..15];
    }
  }

  /** Whether the year, month and day of a text of an accepted length all read. */
  predicate DateFieldsRead(s: string)
    requires GoodLength(s)
  {
    Field(s[0..4], "year").Ok? && Field(s[4..6], "month").Ok? && Field(s[6..8], "day").Ok?
  }

  /** The character between date and time is never checked: any character there reads the same. */
  lemma {:induction false} FromStrIgnoresSeparator(s: string, c: char)
    requires 15 <= |s| <= 16
    ensures FromStr(s[..8] + [c] + s[9..]) == FromStr(s)
  {
    var t := s[..8] + [c] + s[9..];
    assert |t| == |s|;
    assert t[0..4] == s[0..4] && t[4..6] == s[4..6] && t[6..8] == s[6..8];
    assert t[9..11] == s[9..11] && t[11..13] == s[11..13] && t[13..15] == s[13..15];
    if |s| >= 16 {
      assert t[15..16] == s[15..16];
    }
  }

  lemma {:induction false} FromStrOfDateFields(s: string, y: U32, m: U32, d: U32)
    requires |s| == 8
    requires ParseInteger(s[0..4], 0, U32_MAX) == Some(y as int)
    requires ParseInteger(s[4..6], 0, U32_MAX) == Some(m as int)
    requires ParseInteger(s[6..8], 0, U32_MAX) == Some(d as int)
    ensures FromStr(s) == Ok(DateTime(y, m, d, None))
  {
  }

  lemma {:induction false} FromStrOfTimeFields(s: string, y: U32, m: U32, d: U32, h: U32, mi: U32, sec: U32, utc: bool)
    requires 15 <= |s| <= 16
    requires ParseInteger(s[0..4], 0, U32_MAX) == Some(y as int)
    requires ParseInteger(s[4..6], 0, U32_MAX) == Some(m as int)
    requires ParseInteger(s[6..8], 0, U32_MAX) == Some(d as int)
    requires ParseInteger(s[9..11], 0, U32_MAX) == Some(h as int)
    requires ParseInteger(s[11..13], 0, U32_MAX) == Some(mi as int)
    requires ParseInteger(s[13..15], 0, U32_MAX) == Some(sec as int)
    requires utc <==> |s| == 16 && Upper(s[15..16]) == "Z"
    ensures FromStr(s) == Ok(DateTime(y, m, d, Some(Time(h, mi, sec, if utc then Some(0) else None))))
  {
  }

  /** A date-only text: three zero-padded fields read back from their positions. */
  lemma {:induction false} FromStrOfDatePart(d: DateTime)
    requires FitsWidths(d) && d.time.None?
    ensures FromStr(ToText(d)) == Ok(d)
  {
    var y, m, dd := ZeroPad(d.year, 4), ZeroPad(d.month, 2), ZeroPad(d.day, 2);
    ParseIntegerOfZeroPad(d.year, 4, U32_MAX);
    ParseIntegerOfZeroPad(d.month, 2, U32_MAX);
    ParseIntegerOfZeroPad(d.day, 2, U32_MAX);
    var s := ToText(d);
    assert s == [] + y + (m + dd);
    SliceOfMiddle([], y, m + dd);
    assert s == y + m + dd;
    SliceOfMiddle(y, m, dd);
    assert s == (y + m) + dd + [];
    SliceOfMiddle(y + m, dd, []);
    FromStrOfDateFields(s, d.year, d.month, d.day);
  }

  /** Where the fields of the date part sit: at 0, 4 and 6. */
  lemma {:induction false} DateTextSlices(y: string, m: string, dd: string)
    requires |y| == 4 && |m| == 2 && |dd| == 2
    ensures var s := y + m + dd; |s| == 8 && s[0..4] == y && s[4..6] == m && s[6..8] == dd
  {
    SliceOfAppend(y + m, dd, 0, 4);
    SliceOfAppend(y + m, dd, 4, 6);
    SliceOfAppend(y + m, dd, 6, 8);
    SliceOfAppend(y, m, 0, 4);
    SliceOfAppend(y, m, 4, 6);
    assert y[0..4] == y && m[0..2] == m && dd[0..2] == dd;
  }

  /** The prefix of a concatenation that stops inside its left part is a prefix of that part. */
  lemma {:induction false} PrefixOfAppend(a: string, b: string, i: nat, j: nat)
    requires i <= j <= |a|
    ensures (a + b)[i..j] == a[i..j]
  {
    SliceOfAppend(a, b, i, j);
  }

  /** Where the fields of the time part sit: at 1, 3 and 5 after the "T", then the zone. */
  lemma {:induction false} ClockTextSlices(h: string, mi: string, sec: string, z: string)
    requires |h| == 2 && |mi| == 2 && |sec| == 2
    ensures var t := "T" + h + mi + sec + z; |t| == 7 + |z| && t[1..3] == h && t[3..5] == mi && t[5..7] == sec && t[7..7 + |z|] == z
  {
    var p1 := "T" + h;
    var p2 := p1 + mi;
    var p3 := p2 + sec;
    assert (p3 + z)[7..7 + |z|] == z by {
      SliceOfAppend(p3, z, 7, 7 + |z|);
    }
    assert p3[5..7] == sec by {
      SliceOfAppend(p2, sec, 5, 7);
    }
    assert p2[3..5] == mi by {
      SliceOfAppend(p1, mi, 3, 5);
    }
    assert p1[1..3] == h by {
      SliceOfAppend("T", h, 1, 3);
    }
    PrefixOfAppend(p1, mi, 1, 3);
    PrefixOfAppend(p2, sec, 1, 3);
    PrefixOfAppend(p2, sec, 3, 5);
    PrefixOfAppend(p3, z, 1, 3);
    PrefixOfAppend(p3, z, 3, 5);
    PrefixOfAppend(p3, z, 5, 7);
  }

  /** Where the fields of a text with a time sit: at 0, 4, 6, 9, 11, 13 and 15. */
  lemma {:induction false} TimeTextSlices(y: string, m: string, dd: string, h: string, mi: string, sec: string, z: string)
    requires |y| == 4 && |m| == 2 && |dd| == 2 && |h| == 2 && |mi| == 2 && |sec| == 2
    ensures var s := (y + m + dd) + ("T" + h + mi + sec + z); |s| == 15 + |z| && s[0..4] == y && s[4..6] == m && s[6..8] == dd && s[9..11] == h && s[11..13] == mi && s[13..15] == sec && s[15..15 + |z|] == z
  {
    var date := y + m + dd;
    var time := "T" + h + mi + sec + z;
    DateTextSlices(y, m, dd);
    ClockTextSlices(h, mi, sec, z);
    SliceOfAppend(date, time, 0, 4);
    SliceOfAppend(date, time, 4, 6);
    SliceOfAppend(date, time, 6, 8);
    SliceOfAppend(date, time, 9, 11);
    SliceOfAppend(date, time, 11, 13);
    SliceOfAppend(date, time, 13, 15);
    SliceOfAppend(date, time, 15, 15 + |z|);
  }

  /** A text with a time whose fields parse reads as those fields, UTC exactly when it ends in "Z". */
  lemma {:induction false} FromStrOfFieldTexts(y: string, m: string, dd: string, h: string, mi: string, sec: string, z: string, d: DateTime)
    requires |y| == 4 && |m| == 2 && |dd| == 2 && |h| == 2 && |mi| == 2 && |sec| == 2 && (z == "Z" || z == "")
    requires d.time.Some?
    requires ParseInteger(y, 0, U32_MAX) == Some(d.year as int)
    requires ParseInteger(m, 0, U32_MAX) == Some(d.month as int)
    requires ParseInteger(dd, 0, U32_MAX) == Some(d.day as int)
    requires ParseInteger(h, 0, U32_MAX) == Some(d.time.value.hour as int)
    requires ParseInteger(mi, 0, U32_MAX) == Some(d.time.value.minute as int)
    requires ParseInteger(sec, 0, U32_MAX) == Some(d.time.value.second as int)
    ensures FromStr((y + m + dd) + ("T" + h + mi + sec + z)) == Ok(d.(time := Some(d.time.value.(offset := if z == "Z" then Some(0) else None))))
  {
    var s := (y + m + dd) + ("T" + h + mi + sec + z);
    TimeTextSlices(y, m, dd, h, mi, sec, z);
    assert z == "Z" ==> Upper(s[15..16]) == "Z";
    var t := d.time.value;
    FromStrOfTimeFields(s, d.year, d.month, d.day, t.hour, t.minute, t.second, z == "Z");
  }

  /** A text with a time: six zero-padded fields and, for a zero offset, the "Z" at position 15. */
  lemma {:induction false} FromStrOfTimePart(d: DateTime)
    requires FitsWidths(d) && d.time.Some?
    ensures FromStr(ToText(d)) == Ok(WithoutOffset(d))
  {
    var t := d.time.value;
    ParseIntegerOfZeroPad(d.year, 4, U32_MAX);
    ParseIntegerOfZeroPad(d.month, 2, U32_MAX);
    ParseIntegerOfZeroPad(d.day, 2, U32_MAX);
    ParseIntegerOfZeroPad(t.hour, 2, U32_MAX);
    ParseIntegerOfZeroPad(t.minute, 2, U32_MAX);
    ParseIntegerOfZeroPad(t.second, 2, U32_MAX);
    var z := if t.offset == Some(0) then "Z" else "";
    var y, m, dd := ZeroPad(d.year, 4), ZeroPad(d.month, 2), ZeroPad(d.day, 2);
    var h, mi, sec := ZeroPad(t.hour, 2), ZeroPad(t.minute, 2), ZeroPad(t.second, 2);
    FromStrOfFieldTexts(y, m, dd, h, mi, sec, z, d);
    assert ToText(d) == (y + m + dd) + ("T" + h + mi + sec + z);
    assert WithoutOffset(d) == d.(time := Some(t.(offset := if z == "Z" then Some(0) else None)));
  }

  /**
   * The text of a date whose fields fit their widths reads back as that date,
   * except that an offset other than zero is not written and so reads back absent.
   */
  lemma {:induction false} FromStrToText(d: DateTime)
    requires FitsWidths(d)
    ensures FromStr(ToText(d)) == Ok(WithoutOffset(d))
  {
    if d.time.None? {
      FromStrOfDatePart(d);
    } else {
      FromStrOfTimePart(d);
    }
  }

  /** Forgetting a non-zero offset changes nothing exactly when there is none to forget. */
  lemma {:induction false} WithoutOffsetFixed(d: DateTime)
    ensures WithoutOffset(d) == d <==> (d.time.Some? ==> d.time.value.offset in {None, Some(0)})
  {
    if d.time.Some? && d.time.value.offset !in {None, Some(0)} {
      assert WithoutOffset(d).time.value.offset != d.time.value.offset;
    }
  }

  /** Hence the text round trip is exact precisely when the offset is absent or zero. */
  lemma {:induction false} TextRoundTripExact(d: DateTime)
    requires FitsWidths(d)
    ensures FromStr(ToText(d)) == Ok(d) <==> (d.time.Some? ==> d.time.value.offset in {None, Some(0)})
  {
    FromStrToText(d);
    WithoutOffsetFixed(d);
  }

  /** The text form holds digits, 'T' and 'Z' only, so never the ',' that separates a list of dates. */
  lemma {:induction false} TextHasNoComma(d: DateTime)
    ensures ',' !in ToText(d)
  {
    var y, m, dd := ZeroPad(d.year, 4), ZeroPad(d.month, 2), ZeroPad(d.day, 2);
    DigitsHaveNoComma(y);
    DigitsHaveNoComma(m);
    DigitsHaveNoComma(dd);
    if d.time.Some? {
      var t := d.time.value;
      var h, mi, sec := ZeroPad(t.hour, 2), ZeroPad(t.minute, 2), ZeroPad(t.second, 2);
      DigitsHaveNoComma(h);
      DigitsHaveNoComma(mi);
      DigitsHaveNoComma(sec);
    }
  }

  lemma {:induction false} DigitsHaveNoComma(s: string)
    requires AllDigits(s)
    ensures ',' !in s
  {
  }

  /** A date printed in a zone one hour east of UTC reads back with no offset at all. */
  lemma {:induction false} OffsetIsLost()
    ensures FromStr(ToText(DateTime(2024, 1, 2, Some(Time(3, 4, 5, Some(3600)))))) == Ok(DateTime(2024, 1, 2, Some(Time(3, 4, 5, None))))
  {
    FromStrToText(DateTime(2024, 1, 2, Some(Time(3, 4, 5, Some(3600)))));
  }

  // ---------------------------------------------------------------------------
  // The seven-integer form

  /** `as u32` on an `i32`: negative values wrap around. */
  function U32Of(x: I32): U32 {
    if x < 0 then x + 0x1_0000_0000 else x
  }

  /** `as i32` on a `u32`: values from 2^31 on wrap around to negatives. */
  function I32Of(x: U32): I32 {
    if x > I32_MAX then x - 0x1_0000_0000 else x
  }

  lemma {:induction false} CastsInverse(x: U32, y: I32)
    ensures U32Of(I32Of(x)) == x && I32Of(U32Of(y)) == y
  {
  }

  /** `From<(i32, ..., i32)>`: hour -1 means no time and offset -1 means no offset. */
  function FromTuple(a: (I32, I32, I32, I32, I32, I32, I32)): DateTime {
    DateTime(U32Of(a.0), U32Of(a.1), U32Of(a.2),
      if a.3 == -1 then None
      else Some(Time(U32Of(a.3), U32Of(a.4), U32Of(a.5), if a.6 == -1 then None else Some(a.6))))
  }

  /** `From<Int32Array>`: the same reading of the first seven elements (fewer would panic). */
  function FromArray(a: seq<I32>): DateTime
    requires |a| >= 7
  {
    var offset: Option<I32> := if a[6] == -1 then None else Some(a[6]);
    var time := if a[3] == -1 then None else Some(Time(U32Of(a[3]), U32Of(a[4]), U32Of(a[5]), offset));
    DateTime(U32Of(a[0]), U32Of(a[1]), U32Of(a[2]), time)
  }

  /** `From<&DateTime> for Int32Array`: seven integers with -1 for each absent part. */
  function ToArray(d: DateTime): (a: seq<I32>)
    ensures |a| == 7
  {
    match d.time
    case None => [I32Of(d.year), I32Of(d.month), I32Of(d.day), -1, -1, -1, -1]
    case Some(t) =>
      [I32Of(d.year), I32Of(d.month), I32Of(d.day), I32Of(t.hour), I32Of(t.minute), I32Of(t.second),
       match t.offset case Some(o) => o case None => -1]
  }

  /** The tuple and the array are read the same way. */
  lemma {:induction false} TupleMatchesArray(a: (I32, I32, I32, I32, I32, I32, I32))
    ensures FromTuple(a) == FromArray([a.0, a.1, a.2, a.3, a.4, a.5, a.6])
  {
  }

  /** Encoding then decoding gives the date back, unless a present part collides with the -1 sentinel. */
  lemma {:induction false} ArrayRoundTrip(d: DateTime)
    ensures FromArray(ToArray(d)) == d <==> (d.time.Some? ==> d.time.value.hour != U32_MAX && d.time.value.offset != Some(-1))
  {
    CastsInverse(d.year, 0);
    CastsInverse(d.month, 0);
    CastsInverse(d.day, 0);
    if d.time.Some? {
      var t := d.time.value;
      CastsInverse(t.hour, 0);
      CastsInverse(t.minute, 0);
      CastsInverse(t.second, 0);
      if t.hour == U32_MAX {
        assert I32Of(t.hour) == -1;
        assert FromArray(ToArray(d)).time.None?;
      }
    }
  }

  /** Decoding then encoding gives the array back exactly when nothing was dropped: a time, or all -1 after the date. */
  lemma {:induction false} ArrayOfFromArray(a: seq<I32>)
    requires |a| >= 7
    ensures ToArray(FromArray(a)) == a[..7] <==> a[3] != -1 || (a[4] == -1 && a[5] == -1 && a[6] == -1)
  {
    CastsInverse(0, a[0]);
    CastsInverse(0, a[1]);
    CastsInverse(0, a[2]);
    CastsInverse(0, a[3]);
    CastsInverse(0, a[4]);
    CastsInverse(0, a[5]);
    var b := ToArray(FromArray(a));
    if a[3] == -1 && !(a[4] == -1 && a[5] == -1 && a[6] == -1) {
      assert b[4] == -1 && b[5] == -1 && b[6] == -1;
      assert b[4] != a[..7][4] || b[5] != a[..7][5] || b[6] != a[..7][6];
    }
  }
}
