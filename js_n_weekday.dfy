/**
 * The host-facing `NWeekday` (lib/js/n_weekday.rs).  It parses exactly like the rule
 * model's (`NWeekdays.FromStr`, `NWeekdays.ToEngine`, whose code it repeats) but writes
 * an ordinal only when it is greater than 1 or negative.
 */
module JsNWeekdays {
  import opened Wrappers
  import opened Strings
  import Weekdays
  import NWeekdays

  /** `Into<String> for &NWeekday`: ordinals 0 and 1 are not written. */
  function ToText(x: NWeekdays.NWeekday): string {
    match x.n
    case Some(n) => (if n > 1 || n < 0 then IntToString(n) else "") + Weekdays.ToText(x.weekday)
    case None => Weekdays.ToText(x.weekday)
  }

  /** The host text is the rule model's text except that ordinals 0 and 1 are left out. */
  lemma {:induction false} ToTextAgrees(x: NWeekdays.NWeekday)
    ensures x.n != Some(0) && x.n != Some(1) ==> ToText(x) == NWeekdays.ToText(x)
    ensures x.n == Some(0) || x.n == Some(1) ==> ToText(x) == Weekdays.ToText(x.weekday)
  {
  }

  /** So the round trip holds exactly when the ordinal is not 0 or 1; those read back as every such weekday. */
  lemma {:induction false} RoundTrip(x: NWeekdays.NWeekday)
    ensures NWeekdays.FromStr(ToText(x)) == Ok(x) <==> x.n != Some(0) && x.n != Some(1)
    ensures x.n == Some(0) || x.n == Some(1) ==> NWeekdays.FromStr(ToText(x)) == Ok(NWeekdays.NWeekday(None, x.weekday))
  {
    ToTextAgrees(x);
    if x.n == Some(0) || x.n == Some(1) {
      NWeekdays.FromStrToText(NWeekdays.NWeekday(None, x.weekday));
    } else {
      NWeekdays.FromStrToText(x);
    }
  }

  /** "1SU" reads as the first Sunday but is written back as "SU", every Sunday. */
  lemma {:induction false} FirstSundayLost()
    ensures NWeekdays.FromStr("1SU") == Ok(NWeekdays.NWeekday(Some(1), Weekdays.Sunday))
    ensures ToText(NWeekdays.NWeekday(Some(1), Weekdays.Sunday)) == "SU"
    ensures NWeekdays.FromStr("SU") == Ok(NWeekdays.NWeekday(None, Weekdays.Sunday))
  {
    assert IntToString(1) + Weekdays.ToText(Weekdays.Sunday) == "1SU";
    NWeekdays.FromStrOfNumberAndCode(1, Weekdays.Sunday);
    NWeekdays.FromStrToText(NWeekdays.NWeekday(None, Weekdays.Sunday));
  }
}
