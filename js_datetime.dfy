/**
 * The host date-time (lib/js/datetime.rs): six calendar fields and a UTC flag, packed
 * into one decimal integer as YYYY·10^11 + MM·10^9 + DD·10^7 + hh·10^5 + mm·10^3 +
 * ss·10 + u, where the last digit u is 1 for UTC and 0 otherwise.
 *
 * The Rust operators are written out: `/` and `%` on `i64` truncate toward zero, an
 * `as u32` cast keeps the low 32 bits, and the packing sum wraps to 64 bits.
 */
module JsDateTimes {
  import opened Wrappers
  import opened Ints
  import DateTimes
  import Strings

  datatype DateTime = DateTime(year: U32, month: U32, day: U32, hour: U32, minute: U32, second: U32, utc: bool)

  /** Rust's `/` on integers: the quotient truncated toward zero. */
  function Quot(a: int, b: int): int
    requires b > 0
  {
    if a >= 0 then a / b else -((-a) / b)
  }

  /** Rust's `%` on integers: the remainder has the sign of the dividend. */
  function Rem(a: int, b: int): int
    requires b > 0
  {
    a - b * Quot(a, b)
  }

  /** An `as u32` cast: the value modulo 2^32. */
  function AsU32(x: int): U32 {
    x % 0x1_0000_0000
  }

  /** Two's-complement wrap-around of a sum to `i64`. */
  function WrapI64(x: int): I64 {
    (x + 0x8000_0000_0000_0000) % 0x1_0000_0000_0000_0000 - 0x8000_0000_0000_0000
  }

  /** `From<i64> for DateTime`: each field cut out of the decimal packing. */
  function FromI64(numeric: I64): DateTime {
    DateTime(
      AsU32(Quot(numeric, 100000000000)),
      AsU32(Rem(Quot(numeric, 1000000000), 100)),
      AsU32(Rem(Quot(numeric, 10000000), 100)),
      AsU32(Rem(Quot(numeric, 100000), 100)),
      AsU32(Rem(Quot(numeric, 1000), 100)),
      AsU32(Rem(Quot(numeric, 10), 100)),
      Rem(numeric, 10) == 1)
  }

  /** The decimal packing in unbounded integers. */
  function Packed(d: DateTime): nat {
    d.year * 100000000000 + d.month * 1000000000 + d.day * 10000000 + d.hour * 100000 + d.minute * 1000 + d.second * 10 + (if d.utc then 1 else 0)
  }

  /** `Into<i64> for DateTime`: the decimal packing, in 64-bit arithmetic. */
  function ToI64(d: DateTime): I64 {
    WrapI64(Packed(d))
  }

  /** The fields the packing keeps apart: two digits each below the year, and a sum within `i64`. */
  predicate Packable(d: DateTime) {
    d.month < 100 && d.day < 100 && d.hour < 100 && d.minute < 100 && d.second < 100 && Packed(d) < 0x8000_0000_0000_0000
  }

  /**
   * The host date-time of a parsed text date: a date alone has the time 00:00:00, and
   * the time is UTC exactly when the text ends in 'Z'.  lib/js/datetime.rs defines no
   * text conversion, though lib/serialization calls `parse` and `into::<String>` on it;
   * this model takes them to be the rule date-time's text form with UTC as offset 0.
   */
  function OfText(d: DateTimes.DateTime): DateTime {
    match d.time
    case None => DateTime(d.year, d.month, d.day, 0, 0, 0, false)
    case Some(t) => DateTime(d.year, d.month, d.day, t.hour, t.minute, t.second, DateTimes.IsUtc(d))
  }

  /**
   * `str::parse` into a host date-time (lib/serialization/calendar.rs:154,
   * lib/serialization/rrule.rs:185): assumed to read the text as a rule date-time and
   * keep its fields, with UTC exactly when the text ends in 'Z'.  A date alone is read
   * as midnight.
   */
  function Parse(s: string): Result<DateTime, string> {
    match DateTimes.FromStr(s)
    case Err(e) => Err(e)
    case Ok(d) => Ok(OfText(d))
  }

  /** The rule date-time with the same fields: a zero offset for UTC, none otherwise. */
  function ToRule(d: DateTime): DateTimes.DateTime {
    DateTimes.DateTime(d.year, d.month, d.day, Some(DateTimes.Time(d.hour, d.minute, d.second, if d.utc then Some(0) else None)))
  }

  /**
   * The host date-time's text, as lib/serialization/rrule_set.rs:77 and 103 ask for it:
   * assumed to be the RFC 5545 form "YYYYMMDDTHHMMSS", with a trailing 'Z' for UTC.
   */
  function ToText(d: DateTime): string {
    DateTimes.ToText(ToRule(d))
  }

  /** The text written for a packed number: `DateTime::from(n)`, then its (assumed) string. */
  function StampText(n: I64): string {
    ToText(FromI64(n))
  }

  /** A number the packing can have produced from a date-time that prints in its widths. */
  predicate Stamp(n: I64) {
    0 <= n < 1_000_000_000_000_000 && (n % 10 == 0 || n % 10 == 1)
  }

  // ---------------------------------------------------------------------------
  // Properties

  /** Euclidean division by a positive number has a unique quotient and remainder. */
  lemma {:induction false} DivAdd(q: int, r: int, b: int)
    requires b > 0 && 0 <= r < b
    ensures (q * b + r) / b == q && (q * b + r) % b == r
  {
    var n := q * b + r;
    var q', r' := n / b, n % b;
    assert (q - q') * b == r' - r;
    if q > q' {
      MulAtLeast(q - q', b);
    } else if q < q' {
      MulAtLeast(q' - q, b);
    }
  }

  lemma {:induction false} MulAtLeast(k: int, b: int)
    requires k >= 1 && b > 0
    ensures k * b >= b
  {
    assert k * b == (k - 1) * b + b;
  }

  /** With a non-negative dividend, Rust's operators agree with the Euclidean ones. */
  lemma {:induction false} FieldOf(n: int, q: int, f: int, r: int, b: int)
    requires b > 0 && 0 <= r < b && 0 <= f < 100 && q >= 0 && n == (q * 100 + f) * b + r
    ensures Rem(Quot(n, b), 100) == f
  {
    DivAdd(q * 100 + f, r, b);
    DivAdd(q, f, 100);
  }

  /** Unpacking a packing of in-range fields gives those fields. */
  lemma {:induction false} Unpack(n: I64, y: int, mo: int, dd: int, h: int, mi: int, s: int, u: int)
    requires 0 <= y < 0x1_0000_0000 && 0 <= mo < 100 && 0 <= dd < 100 && 0 <= h < 100 && 0 <= mi < 100 && 0 <= s < 100 && 0 <= u < 10
    requires n == ((((((y * 100 + mo) * 100 + dd) * 100 + h) * 100 + mi) * 100 + s) * 10 + u)
    ensures FromI64(n) == DateTime(y, mo, dd, h, mi, s, u == 1)
  {
    var a5 := y * 100 + mo;
    var a4 := a5 * 100 + dd;
    var a3 := a4 * 100 + h;
    var a2 := a3 * 100 + mi;
    var a1 := a2 * 100 + s;
    assert Quot(n, 100000000000) == y by {
      DivAdd(y, n - y * 100000000000, 100000000000);
    }
    FieldOf(n, y, mo, n - a5 * 1000000000, 1000000000);
    FieldOf(n, a5, dd, n - a4 * 10000000, 10000000);
    FieldOf(n, a4, h, n - a3 * 100000, 100000);
    FieldOf(n, a3, mi, n - a2 * 1000, 1000);
    FieldOf(n, a2, s, u, 10);
    assert Rem(n, 10) == u by {
      DivAdd(a1, u, 10);
    }
    AsU32Small(y);
    AsU32Small(mo);
    AsU32Small(dd);
    AsU32Small(h);
    AsU32Small(mi);
    AsU32Small(s);
  }

  lemma {:induction false} AsU32Small(x: int)
    requires 0 <= x < 0x1_0000_0000
    ensures AsU32(x) == x
  {
    DivAdd(0, x, 0x1_0000_0000);
  }

  /**
   * Unpacking what was packed gives the date-time back, whenever the fields fit the
   * packing: each below 100 apart from the year, and the whole within `i64`.
   */
  lemma {:induction false} FromI64OfToI64(d: DateTime)
    requires Packable(d)
    ensures FromI64(ToI64(d)) == d
  {
    Pack(d);
    var u := if d.utc then 1 else 0;
    Unpack(ToI64(d), d.year, d.month, d.day, d.hour, d.minute, d.second, u);
  }

  /** Packing what was unpacked gives the number back, for a non-negative number whose last digit is 0 or 1. */
  lemma {:induction false} ToI64OfFromI64(n: I64)
    requires n >= 0 && (n % 10 == 0 || n % 10 == 1)
    ensures ToI64(FromI64(n)) == n
  {
    var a1, u := n / 10, n % 10;
    var a2, s := a1 / 100, a1 % 100;
    var a3, mi := a2 / 100, a2 % 100;
    var a4, h := a3 / 100, a3 % 100;
    var a5, dd := a4 / 100, a4 % 100;
    var y, mo := a5 / 100, a5 % 100;
    assert y < 0x1_0000_0000;
    assert n == ((((((y * 100 + mo) * 100 + dd) * 100 + h) * 100 + mi) * 100 + s) * 10 + u);
    Unpack(n, y, mo, dd, h, mi, s, u);
    assert Packed(DateTime(y, mo, dd, h, mi, s, u == 1)) == n;
    Pack(DateTime(y, mo, dd, h, mi, s, u == 1));
  }

  /** Packing fields that fit gives the decimal number they spell, with no wrap-around. */
  lemma {:induction false} Pack(d: DateTime)
    requires Packable(d)
    ensures ToI64(d) == ((((((d.year * 100 + d.month) * 100 + d.day) * 100 + d.hour) * 100 + d.minute) * 100 + d.second) * 10 + (if d.utc then 1 else 0))
  {
    WrapI64Small(Packed(d));
  }

  lemma {:induction false} WrapI64Small(x: int)
    requires -0x8000_0000_0000_0000 <= x < 0x8000_0000_0000_0000
    ensures WrapI64(x) == x
  {
    DivAdd(0, x + 0x8000_0000_0000_0000, 0x1_0000_0000_0000_0000);
  }

  /** The last digit is the UTC flag: any digit but 1, such as the 2 of a date-only number, reads as not UTC. */
  lemma {:induction false} UtcDigit(n: I64)
    requires n >= 0
    ensures FromI64(n).utc <==> n % 10 == 1
  {
  }

  /** A negative number unpacks into wrapped-around fields: -10 has the second 4294967295. */
  lemma {:induction false} NegativeWraps()
    ensures FromI64(-10).second == 0xFFFF_FFFF && FromI64(-10).year == 0
  {
    assert Quot(-10, 10) == -1 && Rem(-1, 100) == -1;
  }

  /** Reading a host date-time's rule date-time gives it back. */
  lemma {:induction false} OfTextOfRule(d: DateTime)
    ensures OfText(ToRule(d)) == d
  {
  }

  /** A non-negative number below 10^15 unpacks into fields of at most four and two digits. */
  lemma {:induction false} FromI64Fits(n: I64)
    requires 0 <= n < 1_000_000_000_000_000
    ensures DateTimes.FitsWidths(ToRule(FromI64(n)))
  {
    AsU32Small(n / 100000000000);
    AsU32Small(n / 1000000000 % 100);
    AsU32Small(n / 10000000 % 100);
    AsU32Small(n / 100000 % 100);
    AsU32Small(n / 1000 % 100);
    AsU32Small(n / 10 % 100);
  }

  /** The text of a stamp's date-time reads back as that date-time and holds no ','. */
  lemma {:induction false} StampTextReadsBack(n: I64)
    requires Stamp(n)
    ensures DateTimes.FromStr(StampText(n)) == Ok(ToRule(FromI64(n)))
    ensures ',' !in StampText(n)
  {
    var d := FromI64(n);
    FromI64Fits(n);
    DateTimes.FromStrToText(ToRule(d));
    assert DateTimes.WithoutOffset(ToRule(d)) == ToRule(d);
    DateTimes.TextHasNoComma(ToRule(d));
  }

  /** The text written for a stamp parses back as the stamp's date-time, which packs back into the stamp. */
  lemma {:induction false} StampReadBack(n: I64)
    requires Stamp(n)
    ensures Parse(StampText(n)) == Ok(FromI64(n))
    ensures ToI64(FromI64(n)) == n
    ensures ',' !in StampText(n)
  {
    StampTextReadsBack(n);
    OfTextOfRule(FromI64(n));
    ToI64OfFromI64(n);
  }

  /** A date alone in the text is read as local midnight of that day, whose own text carries the time T000000. */
  lemma {:induction false} DateReadsAsMidnight(s: string)
    requires DateTimes.FromStr(s).Ok? && DateTimes.FromStr(s).value.time.None?
    ensures var d := DateTimes.FromStr(s).value;
      Parse(s) == Ok(DateTime(d.year, d.month, d.day, 0, 0, 0, false)) &&
      ToText(DateTime(d.year, d.month, d.day, 0, 0, 0, false)) == DateTimes.ToText(d) + "T000000"
  {
    var d := DateTimes.FromStr(s).value;
    assert Strings.ZeroPad(0, 2) == "00";
  }
}
