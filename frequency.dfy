/** `Frequency` (lib/rrule/frequency.rs): the FREQ rule part of section 3.3.10 of RFC 5545. */
module Frequencies {
  import opened Wrappers
  import opened Strings
  import RRuleCrate

  datatype Frequency = Yearly | Monthly | Weekly | Daily | Hourly | Minutely | Secondly

  /** `Frequency::to_string`: the upper-case keyword. */
  function ToText(f: Frequency): string {
    match f
    case Yearly => "YEARLY"
    case Monthly => "MONTHLY"
    case Weekly => "WEEKLY"
    case Daily => "DAILY"
    case Hourly => "HOURLY"
    case Minutely => "MINUTELY"
    case Secondly => "SECONDLY"
  }

  /** `Frequency::from_str`: the input is upper-cased first, and the error names the upper-cased text. */
  function FromStr(s: string): Result<Frequency, string> {
    var u := Upper(s);
    if u == "DAILY" then Ok(Daily)
    else if u == "HOURLY" then Ok(Hourly)
    else if u == "MINUTELY" then Ok(Minutely)
    else if u == "MONTHLY" then Ok(Monthly)
    else if u == "SECONDLY" then Ok(Secondly)
    else if u == "WEEKLY" then Ok(Weekly)
    else if u == "YEARLY" then Ok(Yearly)
    else Err("Invalid frequency: " + u)
  }

  /** `Into<rrule::Frequency>`. */
  function ToEngine(f: Frequency): RRuleCrate.Frequency {
    match f
    case Yearly => RRuleCrate.Yearly
    case Monthly => RRuleCrate.Monthly
    case Weekly => RRuleCrate.Weekly
    case Daily => RRuleCrate.Daily
    case Hourly => RRuleCrate.Hourly
    case Minutely => RRuleCrate.Minutely
    case Secondly => RRuleCrate.Secondly
  }

  /** `From<rrule::Frequency>`. */
  function FromEngine(e: RRuleCrate.Frequency): Frequency {
    match e
    case Yearly => Yearly
    case Monthly => Monthly
    case Weekly => Weekly
    case Daily => Daily
    case Hourly => Hourly
    case Minutely => Minutely
    case Secondly => Secondly
  }

  /** The keywords are upper-case, so parsing a keyword gives its frequency back. */
  lemma {:induction false} FromStrToText(f: Frequency)
    ensures NoLower(ToText(f))
    ensures FromStr(ToText(f)) == Ok(f)
  {
    UpperOfNoLower(ToText(f));
  }

  /** What parses is a keyword up to case, and the keyword is the upper-cased input; otherwise the error names it. */
  lemma {:induction false} ToTextFromStr(s: string)
    ensures FromStr(s).Ok? ==> ToText(FromStr(s).value) == Upper(s)
    ensures FromStr(s).Err? ==> FromStr(s).error == "Invalid frequency: " + Upper(s)
  {
  }

  /** Case does not matter at all, not even in the error. */
  lemma {:induction false} FromStrIgnoresCase(s: string)
    ensures FromStr(s) == FromStr(Upper(s))
  {
    UpperIdempotent(s);
  }

  /** The crate mapping keeps the variant both ways. */
  lemma {:induction false} EngineRoundTrip(f: Frequency, e: RRuleCrate.Frequency)
    ensures FromEngine(ToEngine(f)) == f && ToEngine(FromEngine(e)) == e
  {
  }
}
