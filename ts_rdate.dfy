/**
 * The extra dates (RDATE), the occurrences added to the set, in the TypeScript layer (src/rdate.ts): a list of date-times and an
 * optional time zone name. Instances are immutable; the setters build new ones. Each
 * date-time is held by its number.
 */
module TsRDates {
  import opened Wrappers
  import Lists
  import TsDateTimes

  datatype RDate = RDate(values: seq<int>, tzid: Option<string>)

  /** The three forms the constructor takes: one date-time, a list of them, or an options object. */
  datatype Arguments =
    | One(value: int, tzid: Option<string>)
    | Many(values: seq<int>, tzid: Option<string>)
    | Options(options: RDate)

  /** The constructor: one date-time becomes a one-element list, a list is kept as it is, and the options are copied. */
  function New(args: Arguments): RDate {
    match args
    case One(value, tzid) => RDate([value], tzid)
    case Many(values, tzid) => RDate(values, tzid)
    case Options(options) => RDate(options.values, options.tzid)
  }

  /** `setTzid`: a new list with these values and the given zone. */
  function SetTzid(d: RDate, tzid: Option<string>): RDate {
    New(Many(d.values, tzid))
  }

  /** `setValues`: a new list with the given values and this zone. */
  function SetValues(d: RDate, values: seq<int>): RDate {
    New(Many(values, d.tzid))
  }

  datatype RDatePlain = RDatePlain(values: seq<TsDateTimes.Plain>, tzid: Option<string>)

  /** `toPlain`: each value as its plain object, and the zone. */
  function ToPlain(d: RDate): RDatePlain {
    RDatePlain(Lists.Map(d.values, TsDateTimes.PlainValue), d.tzid)
  }

  /** `fromPlain`: the options form of the constructor, with each value made from its plain object. */
  function FromPlain(plain: RDatePlain): RDate {
    New(Options(RDate(Lists.Map(plain.values, TsDateTimes.NumericOfPlain), plain.tzid)))
  }

  // ---------------------------------------------------------------------------
  // Properties

  /**
   * `toPlain` keeps the number of values and the zone, and each plain value reads back as
   * the date-time it came from.  The same holds of the lists the setters and the one-date
   * form of the constructor build: `setTzid` keeps the values, `setValues` keeps the zone,
   * and one date-time becomes a one-element list.
   */
  lemma {:induction false} PlainRoundTrip(d: RDate, tzid: Option<string>, values: seq<int>, value: int)
    requires forall i :: 0 <= i < |d.values| ==> TsDateTimes.Canonical(d.values[i])
    ensures |ToPlain(d).values| == |d.values| && ToPlain(d).tzid == d.tzid
    ensures FromPlain(ToPlain(d)) == d
    ensures FromPlain(ToPlain(SetTzid(d, tzid))) == RDate(d.values, tzid)
    ensures (forall i :: 0 <= i < |values| ==> TsDateTimes.Canonical(values[i])) ==>
      FromPlain(ToPlain(SetValues(d, values))) == RDate(values, d.tzid)
    ensures TsDateTimes.Canonical(value) ==> FromPlain(ToPlain(New(One(value, tzid)))) == RDate([value], tzid)
  {
    TsDateTimes.PlainValuesRoundTrip(d.values);
    if forall i :: 0 <= i < |values| ==> TsDateTimes.Canonical(values[i]) {
      TsDateTimes.PlainValuesRoundTrip(values);
    }
    if TsDateTimes.Canonical(value) {
      TsDateTimes.PlainValuesRoundTrip([value]);
    }
  }
}
