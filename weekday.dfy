/** `Weekday` (lib/rrule/weekday.rs): the two-letter weekday codes of section 3.3.10 of RFC 5545. */
module Weekdays {
  import opened Wrappers
  import opened Strings
  import RRuleCrate

  datatype Weekday = Monday | Tuesday | Wednesday | Thursday | Friday | Saturday | Sunday

  /** `Default for Weekday`: the week starts on Monday, the WKST default of RFC 5545. */
  function Default(): Weekday {
    Monday
  }

  /** `Into<String> for &Weekday`. */
  function ToText(w: Weekday): string {
    match w
    case Monday => "MO"
    case Tuesday => "TU"
    case Wednesday => "WE"
    case Thursday => "TH"
    case Friday => "FR"
    case Saturday => "SA"
    case Sunday => "SU"
  }

  /** `Weekday::from_str`: the upper-cased input must be a code; the error names the input as given. */
  function FromStr(s: string): Result<Weekday, string> {
    var u := Upper(s);
    if u == "MO" then Ok(Monday)
    else if u == "TU" then Ok(Tuesday)
    else if u == "WE" then Ok(Wednesday)
    else if u == "TH" then Ok(Thursday)
    else if u == "FR" then Ok(Friday)
    else if u == "SA" then Ok(Saturday)
    else if u == "SU" then Ok(Sunday)
    else Err("Invalid weekday: " + s)
  }

  /** `Into<rrule::Weekday>`. */
  function ToEngine(w: Weekday): RRuleCrate.Weekday {
    match w
    case Monday => RRuleCrate.Mon
    case Tuesday => RRuleCrate.Tue
    case Wednesday => RRuleCrate.Wed
    case Thursday => RRuleCrate.Thu
    case Friday => RRuleCrate.Fri
    case Saturday => RRuleCrate.Sat
    case Sunday => RRuleCrate.Sun
  }

  /** `From<rrule::Weekday>`. */
  function FromEngine(e: RRuleCrate.Weekday): Weekday {
    match e
    case Mon => Monday
    case Tue => Tuesday
    case Wed => Wednesday
    case Thu => Thursday
    case Fri => Friday
    case Sat => Saturday
    case Sun => Sunday
  }

  /** The default is Monday, written "MO". */
  lemma {:induction false} DefaultIsMonday()
    ensures Default() == Monday && ToText(Default()) == "MO" && FromStr("mo") == Ok(Default())
  {
    assert Upper("mo") == "MO";
  }

  /** A code is two upper-case letters: neither a digit nor '-' nor ',' appears in it. */
  lemma {:induction false} CodeShape(w: Weekday)
    ensures |ToText(w)| == 2 && NoLower(ToText(w))
    ensures forall i :: 0 <= i < 2 ==> !IsDigit(ToText(w)[i]) && ToText(w)[i] != '-' && ToText(w)[i] != ','
  {
  }

  /** Parsing a code gives its weekday back. */
  lemma {:induction false} FromStrToText(w: Weekday)
    ensures FromStr(ToText(w)) == Ok(w)
  {
    CodeShape(w);
    UpperOfNoLower(ToText(w));
  }

  /** What parses is a code up to case, and the code is the upper-cased input; otherwise the error names the input. */
  lemma {:induction false} ToTextFromStr(s: string)
    ensures FromStr(s).Ok? ==> ToText(FromStr(s).value) == Upper(s)
    ensures FromStr(s).Err? ==> FromStr(s).error == "Invalid weekday: " + s
  {
  }

  /** Case does not matter for what parses. */
  lemma {:induction false} FromStrIgnoresCase(s: string)
    ensures FromStr(s).Ok? <==> FromStr(Upper(s)).Ok?
    ensures FromStr(s).Ok? ==> FromStr(s) == FromStr(Upper(s))
  {
    UpperIdempotent(s);
  }

  /** The crate mapping keeps the day both ways. */
  lemma {:induction false} EngineRoundTrip(w: Weekday, e: RRuleCrate.Weekday)
    ensures FromEngine(ToEngine(w)) == w && ToEngine(FromEngine(e)) == e
  {
  }
}
