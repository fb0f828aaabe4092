/**
 * `NWeekday` (lib/rrule/n_weekday.rs): a BYDAY entry of section 3.3.10 of RFC 5545,
 * a weekday code with an optional signed ordinal in front ("MO", "2MO", "-1FR").
 */
module NWeekdays {
  import opened Wrappers
  import opened Strings
  import opened Ints
  import Weekdays
  import RRuleCrate

  const I16_MIN: int := -0x8000
  const I16_MAX: int := 0x7FFF

  datatype NWeekday = NWeekday(n: Option<I16>, weekday: Weekdays.Weekday)

  /** The characters `extract_number` keeps: ASCII digits and '-'. */
  predicate IsNumberChar(c: char) {
    IsDigit(c) || c == '-'
  }

  /** `take_while(|c| c.is_ascii_digit() || *c == '-')`: the longest prefix of number characters. */
  function NumberPrefix(s: string): string {
    if |s| == 0 || !IsNumberChar(s[0]) then "" else [s[0]] + NumberPrefix(s[1..])
  }

  /** `extract_weekday`: the last two characters (the whole text when shorter), parsed as a weekday code. */
  function ExtractWeekday(s: string): Result<Weekdays.Weekday, string> {
    Weekdays.FromStr(if |s| <= 2 then s else s[|s| - 2..])
  }

  /** `extract_number`: the leading number characters parsed as an `i16`; the error names them. */
  function ExtractNumber(s: string): Result<I16, string> {
    var number := NumberPrefix(s);
    match ParseInteger(number, I16_MIN, I16_MAX)
    case Some(v) => Ok(v)
    case None => Err("Invalid number: " + number)
  }

  /** `NWeekday::from_str`: the weekday first, then an ordinal exactly when the text is longer than two. */
  function FromStr(s: string): Result<NWeekday, string> {
    var weekday :- ExtractWeekday(s);
    if |s| > 2 then
      var n :- ExtractNumber(s);
      Ok(NWeekday(Some(n), weekday))
    else
      Ok(NWeekday(None, weekday))
  }

  /** `From<&NWeekday> for String`: any ordinal is written in full before the code. */
  function ToText(x: NWeekday): string {
    match x.n
    case Some(n) => IntToString(n) + Weekdays.ToText(x.weekday)
    case None => Weekdays.ToText(x.weekday)
  }

  /** `From<&NWeekday> for rrule::NWeekday`. */
  function ToEngine(x: NWeekday): RRuleCrate.NWeekday {
    match x.n
    case Some(n) => RRuleCrate.Nth(n, Weekdays.ToEngine(x.weekday))
    case None => RRuleCrate.Every(Weekdays.ToEngine(x.weekday))
  }

  /** `From<rrule::NWeekday>`, for ordinals that fit an `i16`. */
  function FromEngine(e: RRuleCrate.NWeekday): NWeekday
    requires e.Nth? ==> I16_MIN <= e.n <= I16_MAX
  {
    match e
    case Every(w) => NWeekday(None, Weekdays.FromEngine(w))
    case Nth(n, w) => NWeekday(Some(n), Weekdays.FromEngine(w))
  }

  /** The number prefix is a prefix of number characters that stops at the first other character. */
  lemma {:induction false} NumberPrefixSpec(s: string)
    ensures |NumberPrefix(s)| <= |s| && NumberPrefix(s) == s[..|NumberPrefix(s)|]
    ensures forall i :: 0 <= i < |NumberPrefix(s)| ==> IsNumberChar(NumberPrefix(s)[i])
    ensures |NumberPrefix(s)| < |s| ==> !IsNumberChar(s[|NumberPrefix(s)|])
    decreases |s|
  {
    if |s| > 0 && IsNumberChar(s[0]) {
      NumberPrefixSpec(s[1..]);
    }
  }

  /** Number characters followed by something that is not one: the prefix is exactly the former. */
  lemma {:induction false} NumberPrefixOf(a: string, b: string)
    requires forall i :: 0 <= i < |a| ==> IsNumberChar(a[i])
    requires |b| == 0 || !IsNumberChar(b[0])
    ensures NumberPrefix(a + b) == a
    decreases |a|
  {
    if |a| == 0 {
      assert a + b == b;
    } else {
      assert (a + b)[1..] == a[1..] + b;
      NumberPrefixOf(a[1..], b);
      assert a == [a[0]] + a[1..];
    }
  }

  /** The decimal form of an integer is made of number characters only. */
  lemma {:induction false} IntToStringNumberChars(v: int)
    ensures forall i :: 0 <= i < |IntToString(v)| ==> IsNumberChar(IntToString(v)[i])
  {
    var digits := NatToString(if v < 0 then -v else v);
    assert forall i :: 0 <= i < |digits| ==> IsDigit(digits[i]);
  }

  /** An ordinal followed by a weekday code reads back as both. */
  lemma {:induction false} FromStrOfNumberAndCode(v: I16, w: Weekdays.Weekday)
    ensures FromStr(IntToString(v) + Weekdays.ToText(w)) == Ok(NWeekday(Some(v), w))
  {
    var num, code := IntToString(v), Weekdays.ToText(w);
    var s := num + code;
    Weekdays.CodeShape(w);
    Weekdays.FromStrToText(w);
    IntToStringNumberChars(v);
    ParseIntegerOfIntToString(v, I16_MIN, I16_MAX);
    assert |num| >= 1;
    SliceOfAppend(num, code, |s| - 2, |s|);
    assert s[|s| - 2..] == code;
    NumberPrefixOf(num, code);
  }

  /** Every value, with or without an ordinal, is written as text that reads back as it. */
  lemma {:induction false} FromStrToText(x: NWeekday)
    ensures FromStr(ToText(x)) == Ok(x)
  {
    match x.n {
      case Some(v) =>
        FromStrOfNumberAndCode(v, x.weekday);
      case None =>
        Weekdays.CodeShape(x.weekday);
        Weekdays.FromStrToText(x.weekday);
    }
  }

  /** The ordinal is present exactly when the text is longer than two, and the weekday comes from its last two characters. */
  lemma {:induction false} FromStrShape(s: string)
    ensures FromStr(s).Ok? ==> (FromStr(s).value.n.Some? <==> |s| > 2)
    ensures FromStr(s).Ok? ==> Weekdays.FromStr(if |s| <= 2 then s else s[|s| - 2..]) == Ok(FromStr(s).value.weekday)
  {
  }

  /** A longer text that does not start with a digit or '-' has an empty number and fails naming it. */
  lemma {:induction false} MissingNumberRejected(s: string)
    requires |s| > 2 && !IsNumberChar(s[0]) && ExtractWeekday(s).Ok?
    ensures FromStr(s) == Err("Invalid number: ")
  {
    assert NumberPrefix(s) == "";
    ParseIntegerEmpty(I16_MIN, I16_MAX);
    assert "Invalid number: " + "" == "Invalid number: ";
    assert ExtractNumber(s) == Err("Invalid number: ");
  }

  /** "XMO" is such a text. */
  lemma {:induction false} XMORejected()
    ensures FromStr("XMO") == Err("Invalid number: ")
  {
    assert "XMO"[1..] == "MO";
    Weekdays.FromStrToText(Weekdays.Monday);
    assert ExtractWeekday("XMO") == Ok(Weekdays.Monday);
    assert !IsNumberChar("XMO"[0]);
    MissingNumberRejected("XMO");
  }

  /** Whatever lies between the number and the last two characters is not read: "2XMO" is the second Monday. */
  lemma {:induction false} MiddleIgnored()
    ensures FromStr("2XMO") == Ok(NWeekday(Some(2), Weekdays.Monday))
  {
    assert "2XMO"[2..] == "MO";
    Weekdays.FromStrToText(Weekdays.Monday);
    assert ExtractWeekday("2XMO") == Ok(Weekdays.Monday);
    assert "2XMO" == "2" + "XMO";
    assert !IsNumberChar("XMO"[0]);
    NumberPrefixOf("2", "XMO");
    ParseIntegerOfDigits("2", I16_MIN, I16_MAX);
    assert DigitsValue("2") == 2;
  }

  /** "2MO" reads as the second Monday and is written back unchanged. */
  lemma {:induction false} SecondMonday()
    ensures FromStr("2MO") == Ok(NWeekday(Some(2), Weekdays.Monday)) && ToText(NWeekday(Some(2), Weekdays.Monday)) == "2MO"
  {
    assert IntToString(2) == "2";
    assert IntToString(2) + Weekdays.ToText(Weekdays.Monday) == "2MO";
    FromStrOfNumberAndCode(2, Weekdays.Monday);
  }

  /** "-1FR" reads as the last Friday and is written back unchanged. */
  lemma {:induction false} LastFriday()
    ensures FromStr("-1FR") == Ok(NWeekday(Some(-1), Weekdays.Friday)) && ToText(NWeekday(Some(-1), Weekdays.Friday)) == "-1FR"
  {
    assert NatToString(1) == "1";
    assert IntToString(-1) == "-1";
    assert IntToString(-1) + Weekdays.ToText(Weekdays.Friday) == "-1FR";
    FromStrOfNumberAndCode(-1, Weekdays.Friday);
  }

  /** The crate mapping sends an ordinal to `Nth` and its absence to `Every`, and back. */
  lemma {:induction false} EngineRoundTrip(x: NWeekday)
    ensures ToEngine(x).Nth? <==> x.n.Some?
    ensures FromEngine(ToEngine(x)) == x
  {
    Weekdays.EngineRoundTrip(x.weekday, RRuleCrate.Mon);
  }
}
