/** `Month` (lib/rrule/month.rs): the BYMONTH numbers of section 3.3.10 of RFC 5545. */
module Months {
  import opened Wrappers
  import opened Strings

  datatype Month = January | February | March | April | May | June
                 | July | August | September | October | November | December

  /** The month's place in the calendar, January being 1. */
  function Number(m: Month): nat {
    match m
    case January => 1
    case February => 2
    case March => 3
    case April => 4
    case May => 5
    case June => 6
    case July => 7
    case August => 8
    case September => 9
    case October => 10
    case November => 11
    case December => 12
  }

  /** `Display for Month`. */
  function ToText(m: Month): string {
    match m
    case January => "1"
    case February => "2"
    case March => "3"
    case April => "4"
    case May => "5"
    case June => "6"
    case July => "7"
    case August => "8"
    case September => "9"
    case October => "10"
    case November => "11"
    case December => "12"
  }

  /** `Month::from_str`: exactly the texts "1" to "12", compared as given. */
  function FromStr(s: string): Result<Month, string> {
    if s == "1" then Ok(January)
    else if s == "2" then Ok(February)
    else if s == "3" then Ok(March)
    else if s == "4" then Ok(April)
    else if s == "5" then Ok(May)
    else if s == "6" then Ok(June)
    else if s == "7" then Ok(July)
    else if s == "8" then Ok(August)
    else if s == "9" then Ok(September)
    else if s == "10" then Ok(October)
    else if s == "11" then Ok(November)
    else if s == "12" then Ok(December)
    else Err("Invalid month number: " + s)
  }

  /** The text of a month is its calendar number in decimal, so the months are written in calendar order 1 to 12. */
  lemma {:induction false} ToTextIsNumber(m: Month)
    ensures 1 <= Number(m) <= 12 && ToText(m) == NatToString(Number(m))
  {
    assert NatToString(10) == NatToString(1) + [DigitChar(0)];
    assert NatToString(11) == NatToString(1) + [DigitChar(1)];
    assert NatToString(12) == NatToString(1) + [DigitChar(2)];
  }

  /** Parsing the text of a month gives it back. */
  lemma {:induction false} FromStrToText(m: Month)
    ensures FromStr(ToText(m)) == Ok(m)
  {
  }

  /** Whatever parses is the text of the month it parses to; anything else is an error naming it. */
  lemma {:induction false} ToTextFromStr(s: string)
    ensures FromStr(s).Ok? ==> ToText(FromStr(s).value) == s
    ensures FromStr(s).Err? ==> FromStr(s).error == "Invalid month number: " + s
  {
  }

  /** No zero padding, no zero and no thirteenth month. */
  lemma {:induction false} OutOfTableRejected()
    ensures FromStr("01").Err? && FromStr("0").Err? && FromStr("13").Err?
  {
  }
}
