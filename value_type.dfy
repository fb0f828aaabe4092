/** `ValueType` (lib/rrule/value_type.rs): the VALUE parameter of section 3.2.20 of RFC 5545, DATE or DATE-TIME. */
module ValueTypes {
  import opened Wrappers
  import opened Strings

  datatype ValueType = Date | DateTime

  /** `ValueType::to_string`. */
  function ToText(v: ValueType): string {
    match v
    case Date => "DATE"
    case DateTime => "DATE-TIME"
  }

  /** `ValueType::from_str`: the upper-cased input must be one of the two words; the error names the input as given. */
  function FromStr(s: string): Result<ValueType, string> {
    var u := Upper(s);
    if u == "DATE" then Ok(Date)
    else if u == "DATE-TIME" then Ok(DateTime)
    else Err("Invalid value type: " + s)
  }

  /** Parsing the text of a value type gives it back. */
  lemma {:induction false} FromStrToText(v: ValueType)
    ensures FromStr(ToText(v)) == Ok(v)
  {
    UpperOfNoLower(ToText(v));
  }

  /** Parsing ignores case: any spelling of a word parses like its upper-case form. */
  lemma {:induction false} FromStrIgnoresCase(s: string)
    ensures FromStr(s).Ok? <==> FromStr(Upper(s)).Ok?
    ensures FromStr(s).Ok? ==> FromStr(s) == FromStr(Upper(s))
  {
    UpperIdempotent(s);
  }

  /** What parses is exactly one of the two words up to case, and reads back as that word. */
  lemma {:induction false} ToTextFromStr(s: string)
    ensures FromStr(s).Ok? <==> Upper(s) == "DATE" || Upper(s) == "DATE-TIME"
    ensures FromStr(s).Ok? ==> ToText(FromStr(s).value) == Upper(s)
    ensures FromStr(s).Err? ==> FromStr(s).error == "Invalid value type: " + s
  {
  }
}
