/**
 * The date-time of the TypeScript layer (src/datetime.ts). A value is one decimal number,
 * YYYY·10^11 + MM·10^9 + DD·10^7 + hh·10^5 + mm·10^3 + ss·10 + k, whose last digit k is
 * 0 for a local time, 1 for UTC and 2 for a date alone. The getters cut the fields back
 * out and remember them in the object the first time they are read.
 *
 * JavaScript numbers are taken as exact integers here; `Math.floor`, `/` and `%` are
 * written out as the integer operations they amount to on those.
 */
module TsDateTimes {
  import opened Wrappers
  import opened Strings
  import JsDateTimes
  import Lists

  /** The time of day of a value with a time. */
  datatype Time = Time(hour: int, minute: int, second: int, utc: bool)

  // ---------------------------------------------------------------------------
  // The number and its fields

  /**
   * `Math.floor((numeric / b) % 100)`. The JavaScript `%` keeps the sign of its left
   * operand, so in exact arithmetic this is floor(numeric / b) - 100·trunc(numeric / 100b).
   */
  function FloorField(numeric: int, b: int): int
    requires b > 0
  {
    numeric / b - 100 * JsDateTimes.Quot(numeric, 100 * b)
  }

  /** The `year` getter: `Math.floor(numeric / 10^11)`. */
  function YearOf(numeric: int): int {
    numeric / 100000000000
  }

  /** The `month` getter. */
  function MonthOf(numeric: int): int {
    FloorField(numeric, 1000000000)
  }

  /** The `day` getter. */
  function DayOf(numeric: int): int {
    FloorField(numeric, 10000000)
  }

  /** The `time` getter: none when `numeric % 10` is 2; otherwise the three time fields, UTC when it is 1. */
  function TimeOf(numeric: int): Option<Time> {
    var kind := JsDateTimes.Rem(numeric, 10);
    if kind == 2 then None
    else Some(Time(FloorField(numeric, 100000), FloorField(numeric, 1000), FloorField(numeric, 10), kind == 1))
  }

  /**
   * `DateTime.create`: the date fields always; the time fields and the UTC digit when
   * all four of them are given, and otherwise 1, 1, 1 and the date-only digit 2.
   */
  function CreateNumeric(year: int, month: int, day: int, hour: Option<int>, minute: Option<int>, second: Option<int>, utc: Option<bool>): int {
    var numeric := year * 100000000000 + month * 1000000000 + day * 10000000;
    if hour.Some? && minute.Some? && second.Some? && utc.Some? then
      numeric + hour.value * 100000 + minute.value * 1000 + second.value * 10 + (if utc.value then 1 else 0)
    else
      numeric + 100000 + 1000 + 10 + 2
  }

  /**
   * A number `create` can give for fields in range: non-negative, and ending in 0 or 1,
   * or in the date-only time fields 1, 1, 1 and the digit 2.
   */
  predicate Canonical(numeric: int) {
    numeric >= 0 &&
    (numeric % 10 == 0 || numeric % 10 == 1 ||
     (numeric % 10 == 2 && FloorField(numeric, 100000) == 1 && FloorField(numeric, 1000) == 1 && FloorField(numeric, 10) == 1))
  }

  // ---------------------------------------------------------------------------
  // Text (`toString`, `fromString`)

  /** `x.toString().padStart(k, '0')`. */
  function NumberText(x: int, k: nat): string {
    var digits := IntToString(x);
    if |digits| >= k then digits else Zeros(k - |digits|) + digits
  }

  /** `toString`: the padded date fields, then for a time 'T', the padded time fields and a 'Z' for UTC. */
  function TextOf(numeric: int): string {
    var date := NumberText(YearOf(numeric), 4) + NumberText(MonthOf(numeric), 2) + NumberText(DayOf(numeric), 2);
    match TimeOf(numeric)
    case None => date
    case Some(t) => date + "T" + NumberText(t.hour, 2) + NumberText(t.minute, 2) + NumberText(t.second, 2) + (if t.utc then "Z" else "")
  }

  /** The characters JavaScript skips before a number: the white space and line terminators of ECMAScript. */
  predicate IsJsSpace(c: char) {
    c == '\t' || c == '\n' || c == '\U{B}' || c == '\U{C}' || c == '\r' || c == ' ' || c == '\U{A0}' || c == '\U{1680}' ||
    ('\U{2000}' <= c <= '\U{200A}') || c == '\U{2028}' || c == '\U{2029}' || c == '\U{202F}' || c == '\U{205F}' ||
    c == '\U{3000}' || c == '\U{FEFF}'
  }

  function SkipSpace(s: string): string {
    if |s| > 0 && IsJsSpace(s[0]) then SkipSpace(s[1..]) else s
  }

  predicate IsRadixDigit(c: char, radix: int) {
    IsDigit(c) || (radix == 16 && (('a' <= c <= 'f') || ('A' <= c <= 'F')))
  }

  function RadixValue(c: char, radix: int): nat
    requires IsRadixDigit(c, radix)
  {
    if IsDigit(c) then DigitValue(c)
    else if 'a' <= c <= 'f' then c as int - 'a' as int + 10
    else c as int - 'A' as int + 10
  }

  /** The length of the leading run of digits of the radix. */
  function RunLength(s: string, radix: int): (k: nat)
    ensures k <= |s| && forall i :: 0 <= i < k ==> IsRadixDigit(s[i], radix)
  {
    if |s| > 0 && IsRadixDigit(s[0], radix) then 1 + RunLength(s[1..], radix) else 0
  }

  /** The value of a run of digits, most significant first. */
  function RunValue(s: string, radix: nat): nat
    requires forall i :: 0 <= i < |s| ==> IsRadixDigit(s[i], radix)
  {
    if |s| == 0 then 0 else RunValue(s[..|s| - 1], radix) * radix + RadixValue(s[|s| - 1], radix)
  }

  /**
   * `parseInt` with no radix: leading white space skipped, an optional sign, a "0x" or
   * "0X" prefix switching to base 16, then the longest run of digits. No digits is NaN.
   */
  function ParseInt(s: string): Option<int> {
    var t := SkipSpace(s);
    var negative := |t| > 0 && t[0] == '-';
    var unsigned := if |t| > 0 && (t[0] == '-' || t[0] == '+') then t[1..] else t;
    var hex := |unsigned| >= 2 && unsigned[0] == '0' && (unsigned[1] == 'x' || unsigned[1] == 'X');
    var radix: nat := if hex then 16 else 10;
    var digits := if hex then unsigned[2..] else unsigned;
    var k := RunLength(digits, radix);
    if k == 0 then None
    else
      var magnitude: int := RunValue(digits[..k], radix);
      Some(if negative then -magnitude else magnitude)
  }

  /**
   * `fromString`: a length of 8, 15 or 16, or "Invalid date time string"; the date fields
   * from characters 0-3, 4-5 and 6-7, or "Invalid date"; for a longer text, the time
   * fields from characters 9-10, 11-12 and 13-14, or "Invalid time", and UTC when the
   * text ends in 'Z'. A thrown `TypeError` is an `Err` with its message.
   */
  function ParseNumeric(s: string): Result<int, string> {
    ReadNumeric(s, ParseInt)
  }

  /** The layout of `fromString`, with the reader of each field (`parseInt`) as a parameter. */
  function ReadNumeric(s: string, read: string -> Option<int>): Result<int, string> {
    if !(|s| == 8 || (|s| <= 16 && |s| >= 15)) then Err("Invalid date time string")
    else
      var year := read(s[0..4]);
      var month := read(s[4..6]);
      var day := read(s[6..8]);
      if year.None? || month.None? || day.None? then Err("Invalid date")
      else if |s| > 8 then
        var hour := read(s[9..11]);
        var minute := read(s[11..13]);
        var second := read(s[13..15]);
        var utc := s[|s| - 1] == 'Z';
        if hour.None? || minute.None? || second.None? then Err("Invalid time")
        else Ok(CreateNumeric(year.value, month.value, day.value, hour, minute, second, Some(utc)))
      else
        Ok(CreateNumeric(year.value, month.value, day.value, None, None, None, None))
  }

  // ---------------------------------------------------------------------------
  // Plain objects (`toPlain`, `fromPlain`)

  /** The time fields of a plain object; `utc` is absent when it was stripped. */
  datatype PlainTime = PlainTime(hour: int, minute: int, second: int, utc: Option<bool>)

  /** `DateLike` (no time) or `DateTimeLike` (a time). */
  datatype Plain = Plain(year: int, month: int, day: int, time: Option<PlainTime>)

  /** `toPlain`: the getters' values, without `utc` when `stripUtc` is set. */
  function PlainOf(numeric: int, stripUtc: bool): Plain {
    var time := match TimeOf(numeric)
      case None => None
      case Some(t) => Some(PlainTime(t.hour, t.minute, t.second, if stripUtc then None else Some(t.utc)));
    Plain(YearOf(numeric), MonthOf(numeric), DayOf(numeric), time)
  }

  /** `toPlain()` with no options, as the entities call it on each of their values. */
  function PlainValue(numeric: int): Plain {
    PlainOf(numeric, false)
  }

  /** `fromPlain`: `create` with the time fields when the object has an hour, and with the date fields only otherwise. */
  function NumericOfPlain(plain: Plain): int {
    match plain.time
    case None => CreateNumeric(plain.year, plain.month, plain.day, None, None, None, None)
    case Some(t) => CreateNumeric(plain.year, plain.month, plain.day, Some(t.hour), Some(t.minute), Some(t.second), t.utc)
  }

  // ---------------------------------------------------------------------------
  // The object, with its memo of the fields read so far

  class DateTime {
    const numeric: int
    var year: Option<int>
    var month: Option<int>
    var day: Option<int>
    /** `None` until `time` is read; then the value read, which is `None` for a date alone. */
    var time: Option<Option<Time>>

    /** Every remembered field is the one the number holds. */
    ghost predicate Valid()
      reads this
    {
      (year.Some? ==> year.value == YearOf(numeric)) &&
      (month.Some? ==> month.value == MonthOf(numeric)) &&
      (day.Some? ==> day.value == DayOf(numeric)) &&
      (time.Some? ==> time.value == TimeOf(numeric))
    }

    /** Nothing read yet. */
    ghost predicate Unread()
      reads this
    {
      year.None? && month.None? && day.None? && time.None?
    }

    /** Every field read and remembered. */
    ghost predicate AllRead()
      reads this
    {
      year.Some? && month.Some? && day.Some? && time.Some?
    }

    constructor FromNumeric(numeric: int)
      ensures this.numeric == numeric && Unread() && Valid()
    {
      this.numeric := numeric;
      year := None;
      month := None;
      day := None;
      time := None;
    }

    method GetYear() returns (r: int)
      requires Valid()
      modifies this
      ensures Valid() && r == YearOf(numeric) && year == Some(r)
      ensures month == old(month) && day == old(day) && time == old(time)
    {
      if year.None? {
        year := Some(numeric / 100000000000);
      }
      r := year.value;
    }

    method GetMonth() returns (r: int)
      requires Valid()
      modifies this
      ensures Valid() && r == MonthOf(numeric) && month == Some(r)
      ensures year == old(year) && day == old(day) && time == old(time)
    {
      if month.None? {
        month := Some(FloorField(numeric, 1000000000));
      }
      r := month.value;
    }

    method GetDay() returns (r: int)
      requires Valid()
      modifies this
      ensures Valid() && r == DayOf(numeric) && day == Some(r)
      ensures year == old(year) && month == old(month) && time == old(time)
    {
      if day.None? {
        day := Some(FloorField(numeric, 10000000));
      }
      r := day.value;
    }

    /** The `time` getter: the remembered value when there is one; otherwise it is computed and remembered, a date alone included. */
    method GetTime() returns (r: Option<Time>)
      requires Valid()
      modifies this
      ensures Valid() && r == TimeOf(numeric) && time == Some(r)
      ensures year == old(year) && month == old(month) && day == old(day)
    {
      if time.Some? {
        return time.value;
      }
      var kind := JsDateTimes.Rem(numeric, 10);
      if kind == 2 {
        time := Some(None);
      } else {
        time := Some(Some(Time(FloorField(numeric, 100000), FloorField(numeric, 1000), FloorField(numeric, 10), kind == 1)));
      }
      r := time.value;
    }

    method ToString() returns (s: string)
      requires Valid()
      modifies this
      ensures Valid() && AllRead() && s == TextOf(numeric)
    {
      var y := GetYear();
      var m := GetMonth();
      var d := GetDay();
      s := NumberText(y, 4) + NumberText(m, 2) + NumberText(d, 2);
      var t := GetTime();
      if t.Some? {
        s := s + "T" + NumberText(t.value.hour, 2) + NumberText(t.value.minute, 2) + NumberText(t.value.second, 2) + (if t.value.utc then "Z" else "");
      }
    }

    method ToPlain(stripUtc: bool) returns (p: Plain)
      requires Valid()
      modifies this
      ensures Valid() && AllRead() && p == PlainOf(numeric, stripUtc)
    {
      var t := GetTime();
      var y := GetYear();
      var m := GetMonth();
      var d := GetDay();
      match t
      case None =>
        p := Plain(y, m, d, None);
      case Some(time) =>
        p := Plain(y, m, d, Some(PlainTime(time.hour, time.minute, time.second, if stripUtc then None else Some(time.utc))));
    }

    static method Create(year: int, month: int, day: int, hour: Option<int>, minute: Option<int>, second: Option<int>, utc: Option<bool>) returns (d: DateTime)
      ensures fresh(d) && d.numeric == CreateNumeric(year, month, day, hour, minute, second, utc) && d.Unread() && d.Valid()
    {
      d := new DateTime.FromNumeric(CreateNumeric(year, month, day, hour, minute, second, utc));
    }

    /** `DateTime.date`: a date alone. */
    static method Date(year: int, month: int, day: int) returns (d: DateTime)
      ensures fresh(d) && d.numeric == CreateNumeric(year, month, day, None, None, None, None) && d.Unread() && d.Valid()
    {
      d := Create(year, month, day, None, None, None, None);
    }

    /** `DateTime.local`: a local time. */
    static method Local(year: int, month: int, day: int, hour: int, minute: int, second: int) returns (d: DateTime)
      ensures fresh(d) && d.numeric == CreateNumeric(year, month, day, Some(hour), Some(minute), Some(second), Some(false)) && d.Unread() && d.Valid()
    {
      d := Create(year, month, day, Some(hour), Some(minute), Some(second), Some(false));
    }

    /** `DateTime.utc`: a UTC time. */
    static method Utc(year: int, month: int, day: int, hour: int, minute: int, second: int) returns (d: DateTime)
      ensures fresh(d) && d.numeric == CreateNumeric(year, month, day, Some(hour), Some(minute), Some(second), Some(true)) && d.Unread() && d.Valid()
    {
      d := Create(year, month, day, Some(hour), Some(minute), Some(second), Some(true));
    }

    static method FromPlain(plain: Plain) returns (d: DateTime)
      ensures fresh(d) && d.numeric == NumericOfPlain(plain) && d.Unread() && d.Valid()
    {
      d := new DateTime.FromNumeric(NumericOfPlain(plain));
    }

    static method FromString(s: string) returns (r: Result<DateTime, string>)
      ensures ParseNumeric(s).Err? ==> r == Err(ParseNumeric(s).error)
      ensures ParseNumeric(s).Ok? ==> r.Ok? && fresh(r.value) && r.value.numeric == ParseNumeric(s).value && r.value.Unread() && r.value.Valid()
    {
      var parsed := ParseNumeric(s);
      if parsed.Err? {
        r := Err(parsed.error);
      } else {
        var d := new DateTime.FromNumeric(parsed.value);
        r := Ok(d);
      }
    }
  }

  // ---------------------------------------------------------------------------
  // Properties

  /** Cutting a two-digit field out of a non-negative number. */
  lemma {:induction false} FieldAt(n: int, a: int, f: int, r: int, b: int)
    requires b > 0 && 0 <= r < b && 0 <= f < 100 && a >= 0 && n == (a * 100 + f) * b + r
    ensures n / b == a * 100 + f && FloorField(n, b) == f
  {
    JsDateTimes.DivAdd(a * 100 + f, r, b);
    assert (99 - f) * b >= 0;
    assert f * b + r < 100 * b;
    assert n == a * (100 * b) + (f * b + r);
    JsDateTimes.DivAdd(a, f * b + r, 100 * b);
  }

  /** The getters of a number spelled out from in-range fields give those fields. */
  lemma {:induction false} Fields(n: int, y: int, mo: int, d: int, h: int, mi: int, s: int, u: int)
    requires y >= 0 && 0 <= mo < 100 && 0 <= d < 100 && 0 <= h < 100 && 0 <= mi < 100 && 0 <= s < 100 && 0 <= u < 10
    requires n == ((((((y * 100 + mo) * 100 + d) * 100 + h) * 100 + mi) * 100 + s) * 10 + u)
    ensures YearOf(n) == y && MonthOf(n) == mo && DayOf(n) == d
    ensures FloorField(n, 100000) == h && FloorField(n, 1000) == mi && FloorField(n, 10) == s
    ensures n % 10 == u && JsDateTimes.Rem(n, 10) == u
  {
    var a5 := y * 100 + mo;
    var a4 := a5 * 100 + d;
    var a3 := a4 * 100 + h;
    var a2 := a3 * 100 + mi;
    var a1 := a2 * 100 + s;
    JsDateTimes.DivAdd(y, n - y * 100000000000, 100000000000);
    FieldAt(n, y, mo, n - a5 * 1000000000, 1000000000);
    FieldAt(n, a5, d, n - a4 * 10000000, 10000000);
    FieldAt(n, a4, h, n - a3 * 100000, 100000);
    FieldAt(n, a3, mi, n - a2 * 1000, 1000);
    FieldAt(n, a2, s, u, 10);
    JsDateTimes.DivAdd(a1, u, 10);
  }

  /** A non-negative number spelled out as its fields, each of them in range. */
  lemma {:induction false} Digits(n: int) returns (y: int, mo: int, d: int, h: int, mi: int, s: int, u: int)
    requires n >= 0
    ensures y >= 0 && 0 <= mo < 100 && 0 <= d < 100 && 0 <= h < 100 && 0 <= mi < 100 && 0 <= s < 100 && 0 <= u < 10
    ensures n == ((((((y * 100 + mo) * 100 + d) * 100 + h) * 100 + mi) * 100 + s) * 10 + u)
    ensures YearOf(n) == y && MonthOf(n) == mo && DayOf(n) == d
    ensures FloorField(n, 100000) == h && FloorField(n, 1000) == mi && FloorField(n, 10) == s
    ensures n % 10 == u && JsDateTimes.Rem(n, 10) == u
  {
    var a1 := n / 10;
    u := n % 10;
    var a2 := a1 / 100;
    s := a1 % 100;
    var a3 := a2 / 100;
    mi := a2 % 100;
    var a4 := a3 / 100;
    h := a3 % 100;
    var a5 := a4 / 100;
    d := a4 % 100;
    y := a5 / 100;
    mo := a5 % 100;
    Fields(n, y, mo, d, h, mi, s, u);
  }

  /** `create` with a time: the getters give back the fields passed in, and the number is canonical. */
  lemma {:induction false} CreateReadsBack(y: int, mo: int, d: int, h: int, mi: int, s: int, utc: bool)
    requires y >= 0 && 0 <= mo < 100 && 0 <= d < 100 && 0 <= h < 100 && 0 <= mi < 100 && 0 <= s < 100
    ensures var n := CreateNumeric(y, mo, d, Some(h), Some(mi), Some(s), Some(utc));
      YearOf(n) == y && MonthOf(n) == mo && DayOf(n) == d && TimeOf(n) == Some(Time(h, mi, s, utc)) && Canonical(n)
  {
    var u := if utc then 1 else 0;
    Fields(CreateNumeric(y, mo, d, Some(h), Some(mi), Some(s), Some(utc)), y, mo, d, h, mi, s, u);
  }

  /** `create` with a date alone: the getters give back the date, there is no time, and the last digit is 2. */
  lemma {:induction false} DateReadsBack(y: int, mo: int, d: int)
    requires y >= 0 && 0 <= mo < 100 && 0 <= d < 100
    ensures var n := CreateNumeric(y, mo, d, None, None, None, None);
      YearOf(n) == y && MonthOf(n) == mo && DayOf(n) == d && TimeOf(n).None? && n % 10 == 2 && Canonical(n)
  {
    Fields(CreateNumeric(y, mo, d, None, None, None, None), y, mo, d, 1, 1, 1, 2);
  }

  /** `local` and `utc` differ only in the UTC flag of the time, and `date` has no time. */
  lemma {:induction false} ShorthandsFlag(y: int, mo: int, d: int, h: int, mi: int, s: int)
    requires y >= 0 && 0 <= mo < 100 && 0 <= d < 100 && 0 <= h < 100 && 0 <= mi < 100 && 0 <= s < 100
    ensures TimeOf(CreateNumeric(y, mo, d, Some(h), Some(mi), Some(s), Some(false))) == Some(Time(h, mi, s, false))
    ensures TimeOf(CreateNumeric(y, mo, d, Some(h), Some(mi), Some(s), Some(true))) == Some(Time(h, mi, s, true))
    ensures TimeOf(CreateNumeric(y, mo, d, None, None, None, None)) == None
  {
    CreateReadsBack(y, mo, d, h, mi, s, false);
    CreateReadsBack(y, mo, d, h, mi, s, true);
    DateReadsBack(y, mo, d);
  }

  /** For a non-negative number, there is no time exactly when the last digit is 2. */
  lemma {:induction false} TimeAbsentIffTwo(n: int)
    requires n >= 0
    ensures TimeOf(n).None? <==> n % 10 == 2
    ensures TimeOf(n).Some? ==> (TimeOf(n).value.utc <==> n % 10 == 1)
  {
    var y, mo, d, h, mi, s, u := Digits(n);
  }

  /** `fromPlain(toPlain(x))` is x, with or without a time. */
  lemma {:induction false} PlainRoundTrip(n: int)
    requires Canonical(n)
    ensures NumericOfPlain(PlainOf(n, false)) == n
  {
    var y, mo, d, h, mi, s, u := Digits(n);
  }

  /** A plain object whose `utc` was stripped has an hour but no flag, so `fromPlain` makes a date alone of it. */
  lemma {:induction false} StrippedReadsAsDate(n: int)
    requires Canonical(n) && TimeOf(n).Some?
    ensures NumericOfPlain(PlainOf(n, true)) == CreateNumeric(YearOf(n), MonthOf(n), DayOf(n), None, None, None, None)
    ensures NumericOfPlain(PlainOf(n, true)) != n
  {
    var y, mo, d, h, mi, s, u := Digits(n);
    DateReadsBack(y, mo, d);
  }

  lemma {:induction false} RunLengthOfRun(s: string, radix: int)
    requires forall i :: 0 <= i < |s| ==> IsRadixDigit(s[i], radix)
    ensures RunLength(s, radix) == |s|
    decreases |s|
  {
    if |s| > 0 {
      RunLengthOfRun(s[1..], radix);
    }
  }

  lemma {:induction false} RunValueOfDigits(s: string)
    requires AllDigits(s)
    ensures RunValue(s, 10) == DigitsValue(s)
    decreases |s|
  {
    if |s| > 0 {
      RunValueOfDigits(s[..|s| - 1]);
    }
  }

  /** `parseInt` of a run of decimal digits is their value, leading zeros and all. */
  lemma {:induction false} ParseIntOfDigits(t: string)
    requires |t| >= 1 && AllDigits(t)
    ensures ParseInt(t) == Some(DigitsValue(t))
  {
    assert IsDigit(t[0]);
    assert SkipSpace(t) == t;
    if |t| >= 2 {
      assert IsDigit(t[1]);
    }
    RunLengthOfRun(t, 10);
    RunValueOfDigits(t);
    assert t[..|t|] == t;
  }

  /** A field padded to a width it fits has exactly that width and reads back with `parseInt`. */
  lemma {:induction false} PaddedReads(x: int, k: nat)
    requires k >= 1 && 0 <= x < Pow10(k)
    ensures |NumberText(x, k)| == k && ParseInt(NumberText(x, k)) == Some(x)
  {
    assert NumberText(x, k) == ZeroPad(x, k);
    ZeroPadFits(x, k);
    ParseIntOfDigits(ZeroPad(x, k));
  }

  /** Where the fields sit in a text of the `toString` layout. */
  lemma {:induction false} Slices(a: string, b: string, c: string, rest: string)
    requires |a| == 4 && |b| == 2 && |c| == 2
    ensures var t := a + b + c + rest;
      |t| == 8 + |rest| && t[0..4] == a && t[4..6] == b && t[6..8] == c && t[..8] == a + b + c && t[8..] == rest
  {
  }

  lemma {:induction false} TimeSlices(date: string, h: string, mi: string, s: string, z: string)
    requires |date| == 8 && |h| == 2 && |mi| == 2 && |s| == 2
    ensures var t := date + "T" + h + mi + s + z;
      |t| == 15 + |z| && t[9..11] == h && t[11..13] == mi && t[13..15] == s && t[..8] == date && t[8..] == "T" + h + mi + s + z
  {
  }

  /** The eight characters of the date part read back as the three date fields. */
  lemma {:induction false} DatePartReads(y: int, mo: int, d: int, rest: string)
    requires 0 <= y < 10000 && 0 <= mo < 100 && 0 <= d < 100
    ensures var t := NumberText(y, 4) + NumberText(mo, 2) + NumberText(d, 2) + rest;
      |t| == 8 + |rest| && ParseInt(t[0..4]) == Some(y) && ParseInt(t[4..6]) == Some(mo) && ParseInt(t[6..8]) == Some(d)
  {
    assert Pow10(2) == 100 && Pow10(4) == 10000;
    PaddedReads(y, 4);
    PaddedReads(mo, 2);
    PaddedReads(d, 2);
    Slices(NumberText(y, 4), NumberText(mo, 2), NumberText(d, 2), rest);
  }

  /** The time part after the date and 'T' reads back as the three time fields, and ends in 'Z' exactly for UTC. */
  lemma {:induction false} TimePartReads(date: string, h: int, mi: int, s: int, utc: bool)
    requires |date| == 8 && 0 <= h < 100 && 0 <= mi < 100 && 0 <= s < 100
    ensures var t := date + "T" + NumberText(h, 2) + NumberText(mi, 2) + NumberText(s, 2) + (if utc then "Z" else "");
      (|t| == 15 || |t| == 16) && t[..8] == date &&
      ParseInt(t[9..11]) == Some(h) && ParseInt(t[11..13]) == Some(mi) && ParseInt(t[13..15]) == Some(s) &&
      (t[|t| - 1] == 'Z' <==> utc)
  {
    assert Pow10(2) == 100;
    PaddedReads(h, 2);
    PaddedReads(mi, 2);
    PaddedReads(s, 2);
    var z := if utc then "Z" else "";
    TimeSlices(date, NumberText(h, 2), NumberText(mi, 2), NumberText(s, 2), z);
    var t := date + "T" + NumberText(h, 2) + NumberText(mi, 2) + NumberText(s, 2) + z;
    if !utc {
      assert t[14] == t[13..15][1];
      assert IsDigit(NumberText(s, 2)[1]);
    }
  }

  /** `fromString` of an eight-character text whose three date fields read. */
  lemma {:induction false} ParseDate(t: string, y: int, mo: int, d: int)
    requires |t| == 8 && ParseInt(t[0..4]) == Some(y) && ParseInt(t[4..6]) == Some(mo) && ParseInt(t[6..8]) == Some(d)
    ensures ParseNumeric(t) == Ok(CreateNumeric(y, mo, d, None, None, None, None))
  {
    ReadDate(t, ParseInt, y, mo, d);
  }

  lemma {:induction false} ReadDate(t: string, read: string -> Option<int>, y: int, mo: int, d: int)
    requires |t| == 8 && read(t[0..4]) == Some(y) && read(t[4..6]) == Some(mo) && read(t[6..8]) == Some(d)
    ensures ReadNumeric(t, read) == Ok(CreateNumeric(y, mo, d, None, None, None, None))
  {
  }

  /** `fromString` of a 15- or 16-character text whose six fields read. */
  lemma {:induction false} ParseDateTime(t: string, y: int, mo: int, d: int, h: int, mi: int, s: int)
    requires |t| == 15 || |t| == 16
    requires ParseInt(t[0..4]) == Some(y) && ParseInt(t[4..6]) == Some(mo) && ParseInt(t[6..8]) == Some(d)
    requires ParseInt(t[9..11]) == Some(h) && ParseInt(t[11..13]) == Some(mi) && ParseInt(t[13..15]) == Some(s)
    ensures ParseNumeric(t) == Ok(CreateNumeric(y, mo, d, Some(h), Some(mi), Some(s), Some(t[|t| - 1] == 'Z')))
  {
    ReadDateTime(t, ParseInt, y, mo, d, h, mi, s);
  }

  lemma {:induction false} ReadDateTime(t: string, read: string -> Option<int>, y: int, mo: int, d: int, h: int, mi: int, s: int)
    requires |t| == 15 || |t| == 16
    requires read(t[0..4]) == Some(y) && read(t[4..6]) == Some(mo) && read(t[6..8]) == Some(d)
    requires read(t[9..11]) == Some(h) && read(t[11..13]) == Some(mi) && read(t[13..15]) == Some(s)
    ensures ReadNumeric(t, read) == Ok(CreateNumeric(y, mo, d, Some(h), Some(mi), Some(s), Some(t[|t| - 1] == 'Z')))
  {
  }

  /** The text of a date alone reads back as that date. */
  lemma {:induction false} DateTextReads(y: int, mo: int, d: int)
    requires 0 <= y < 10000 && 0 <= mo < 100 && 0 <= d < 100
    ensures ParseNumeric(NumberText(y, 4) + NumberText(mo, 2) + NumberText(d, 2)) == Ok(CreateNumeric(y, mo, d, None, None, None, None))
  {
    var date := NumberText(y, 4) + NumberText(mo, 2) + NumberText(d, 2);
    DatePartReads(y, mo, d, []);
    assert date + [] == date;
    ParseDate(date, y, mo, d);
  }

  /** A text of the `toString` layout whose six fields read, reads as the date and time they give. */
  lemma {:induction false} LayoutReads(a: string, b: string, c: string, h: string, mi: string, s: string, utc: bool,
                                       y: int, mo: int, d: int, hh: int, mm: int, ss: int)
    requires |a| == 4 && |b| == 2 && |c| == 2 && |h| == 2 && |mi| == 2 && |s| == 2 && s[1] != 'Z'
    requires ParseInt(a) == Some(y) && ParseInt(b) == Some(mo) && ParseInt(c) == Some(d)
    requires ParseInt(h) == Some(hh) && ParseInt(mi) == Some(mm) && ParseInt(s) == Some(ss)
    ensures ParseNumeric(a + b + c + "T" + h + mi + s + (if utc then "Z" else "")) == Ok(CreateNumeric(y, mo, d, Some(hh), Some(mm), Some(ss), Some(utc)))
  {
    var z := if utc then "Z" else "";
    var rest := "T" + h + mi + s + z;
    Slices(a, b, c, rest);
    TimeSlices(a + b + c, h, mi, s, z);
    var t := a + b + c + "T" + h + mi + s + z;
    assert t == a + b + c + rest;
    if !utc {
      assert t[14] == t[13..15][1];
    }
    ParseDateTime(t, y, mo, d, hh, mm, ss);
  }

  /** The text of a date and time reads back as that date and time. */
  lemma {:induction false} DateTimeTextReads(y: int, mo: int, d: int, h: int, mi: int, s: int, utc: bool)
    requires 0 <= y < 10000 && 0 <= mo < 100 && 0 <= d < 100 && 0 <= h < 100 && 0 <= mi < 100 && 0 <= s < 100
    ensures ParseNumeric(NumberText(y, 4) + NumberText(mo, 2) + NumberText(d, 2) + "T" + NumberText(h, 2) + NumberText(mi, 2) + NumberText(s, 2) + (if utc then "Z" else "")) ==
      Ok(CreateNumeric(y, mo, d, Some(h), Some(mi), Some(s), Some(utc)))
  {
    assert Pow10(2) == 100 && Pow10(4) == 10000;
    PaddedReads(y, 4);
    PaddedReads(mo, 2);
    PaddedReads(d, 2);
    PaddedReads(h, 2);
    PaddedReads(mi, 2);
    PaddedReads(s, 2);
    assert IsDigit(NumberText(s, 2)[1]);
    LayoutReads(NumberText(y, 4), NumberText(mo, 2), NumberText(d, 2), NumberText(h, 2), NumberText(mi, 2), NumberText(s, 2), utc, y, mo, d, h, mi, s);
  }

  /** The getters' values, given the fields the number holds. */
  lemma {:induction false} GettersOfFields(n: int, h: int, mi: int, s: int, u: int)
    requires FloorField(n, 100000) == h && FloorField(n, 1000) == mi && FloorField(n, 10) == s && JsDateTimes.Rem(n, 10) == u
    ensures TimeOf(n) == (if u == 2 then None else Some(Time(h, mi, s, u == 1)))
  {
  }

  /** The text of a number, given its getters' values. */
  lemma {:induction false} TextOfFields(n: int, y: int, mo: int, d: int, time: Option<Time>)
    requires YearOf(n) == y && MonthOf(n) == mo && DayOf(n) == d && TimeOf(n) == time
    ensures var date := NumberText(y, 4) + NumberText(mo, 2) + NumberText(d, 2);
      TextOf(n) == match time
        case None => date
        case Some(t) => date + "T" + NumberText(t.hour, 2) + NumberText(t.minute, 2) + NumberText(t.second, 2) + (if t.utc then "Z" else "")
  {
  }

  /** `fromString(toString(x))` is x for a canonical number whose year has at most four digits. */
  lemma {:induction false} TextRoundTrip(n: int)
    requires Canonical(n) && n < 1_000_000_000_000_000
    ensures ParseNumeric(TextOf(n)) == Ok(n)
  {
    var y, mo, d, h, mi, s, u := Digits(n);
    GettersOfFields(n, h, mi, s, u);
    if u == 2 {
      DateRoundTrip(n, y, mo, d);
    } else {
      DateTimeRoundTrip(n, y, mo, d, h, mi, s, u == 1);
    }
  }

  lemma {:induction false} DateRoundTrip(n: int, y: int, mo: int, d: int)
    requires 0 <= y < 10000 && 0 <= mo < 100 && 0 <= d < 100
    requires YearOf(n) == y && MonthOf(n) == mo && DayOf(n) == d && TimeOf(n) == None
    requires n == CreateNumeric(y, mo, d, None, None, None, None)
    ensures ParseNumeric(TextOf(n)) == Ok(n)
  {
    TextOfFields(n, y, mo, d, None);
    DateTextReads(y, mo, d);
  }

  lemma {:induction false} DateTimeRoundTrip(n: int, y: int, mo: int, d: int, h: int, mi: int, s: int, utc: bool)
    requires 0 <= y < 10000 && 0 <= mo < 100 && 0 <= d < 100 && 0 <= h < 100 && 0 <= mi < 100 && 0 <= s < 100
    requires YearOf(n) == y && MonthOf(n) == mo && DayOf(n) == d && TimeOf(n) == Some(Time(h, mi, s, utc))
    requires n == CreateNumeric(y, mo, d, Some(h), Some(mi), Some(s), Some(utc))
    ensures ParseNumeric(TextOf(n)) == Ok(n)
  {
    TextOfFields(n, y, mo, d, Some(Time(h, mi, s, utc)));
    DateTimeTextReads(y, mo, d, h, mi, s, utc);
  }

  /** The last digit `create` writes: 2 unless all four time arguments are given, and then the UTC digit. */
  lemma {:induction false} CreateLastDigit(y: int, mo: int, d: int, hour: Option<int>, minute: Option<int>, second: Option<int>, utc: Option<bool>)
    ensures CreateNumeric(y, mo, d, hour, minute, second, utc) % 10 ==
      (if hour.Some? && minute.Some? && second.Some? && utc.Some? then (if utc.value then 1 else 0) else 2)
  {
    var head := y * 10000000000 + mo * 100000000 + d * 1000000;
    if hour.Some? && minute.Some? && second.Some? && utc.Some? {
      var u := if utc.value then 1 else 0;
      JsDateTimes.DivAdd(head + hour.value * 10000 + minute.value * 100 + second.value, u, 10);
    } else {
      JsDateTimes.DivAdd(head + 10101, 2, 10);
    }
  }

  /** What `fromString` accepts: the three date fields read, and so do the time fields of a longer text. */
  lemma {:induction false} ParseNumericOk(s: string)
    requires ParseNumeric(s).Ok?
    ensures |s| == 8 || |s| == 15 || |s| == 16
    ensures ParseInt(s[0..4]).Some? && ParseInt(s[4..6]).Some? && ParseInt(s[6..8]).Some?
    ensures |s| == 8 ==> ParseNumeric(s).value == CreateNumeric(ParseInt(s[0..4]).value, ParseInt(s[4..6]).value, ParseInt(s[6..8]).value, None, None, None, None)
    ensures |s| > 8 ==> ParseInt(s[9..11]).Some? && ParseInt(s[11..13]).Some? && ParseInt(s[13..15]).Some?
    ensures |s| > 8 ==> ParseNumeric(s).value == CreateNumeric(ParseInt(s[0..4]).value, ParseInt(s[4..6]).value, ParseInt(s[6..8]).value,
        ParseInt(s[9..11]), ParseInt(s[11..13]), ParseInt(s[13..15]), Some(s[|s| - 1] == 'Z'))
  {
    ReadNumericOk(s, ParseInt);
  }

  lemma {:induction false} ReadNumericOk(s: string, read: string -> Option<int>)
    requires ReadNumeric(s, read).Ok?
    ensures |s| == 8 || |s| == 15 || |s| == 16
    ensures read(s[0..4]).Some? && read(s[4..6]).Some? && read(s[6..8]).Some?
    ensures |s| == 8 ==> ReadNumeric(s, read).value == CreateNumeric(read(s[0..4]).value, read(s[4..6]).value, read(s[6..8]).value, None, None, None, None)
    ensures |s| > 8 ==> read(s[9..11]).Some? && read(s[11..13]).Some? && read(s[13..15]).Some?
    ensures |s| > 8 ==> ReadNumeric(s, read).value == CreateNumeric(read(s[0..4]).value, read(s[4..6]).value, read(s[6..8]).value,
        read(s[9..11]), read(s[11..13]), read(s[13..15]), Some(s[|s| - 1] == 'Z'))
  {
  }

  /**
   * What `fromString` accepts has a length of 8, 15 or 16, and its last digit is 2 for
   * 8 characters and otherwise 1 exactly when the text ends in 'Z'. What it refuses is
   * refused with one of its three messages.
   */
  lemma {:induction false} ParseNumericShape(s: string)
    ensures ParseNumeric(s).Ok? ==> |s| == 8 || |s| == 15 || |s| == 16
    ensures ParseNumeric(s).Ok? ==> ParseNumeric(s).value % 10 == (if |s| == 8 then 2 else if s[|s| - 1] == 'Z' then 1 else 0)
    ensures ParseNumeric(s).Err? ==> ParseNumeric(s).error in {"Invalid date time string", "Invalid date", "Invalid time"}
  {
    if ParseNumeric(s).Ok? {
      ParseNumericOk(s);
      var y, mo, d := ParseInt(s[0..4]).value, ParseInt(s[4..6]).value, ParseInt(s[6..8]).value;
      if |s| == 8 {
        CreateLastDigit(y, mo, d, None, None, None, None);
      } else {
        CreateLastDigit(y, mo, d, ParseInt(s[9..11]), ParseInt(s[11..13]), ParseInt(s[13..15]), Some(s[|s| - 1] == 'Z'));
      }
    }
  }

  /** Converting a list of canonical values to plain objects and back gives the list back. */
  lemma {:induction false} PlainValuesRoundTrip(values: seq<int>)
    requires forall i :: 0 <= i < |values| ==> Canonical(values[i])
    ensures Lists.Map(Lists.Map(values, PlainValue), NumericOfPlain) == values
  {
    var back := Lists.Map(Lists.Map(values, PlainValue), NumericOfPlain);
    forall i | 0 <= i < |values|
      ensures back[i] == values[i]
    {
      PlainRoundTrip(values[i]);
    }
  }
}
