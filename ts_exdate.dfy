/**
 * The exception dates (EXDATE), the occurrences taken out of the set, in the TypeScript layer (src/exdate.ts): a list of date-times and an
 * optional time zone name. Instances are immutable; the setters build new ones. Each
 * date-time is held by its number.
 */
module TsExDates {
  import opened Wrappers
  import Lists
  import TsDateTimes

  datatype ExDate = ExDate(values: seq<int>, tzid: Option<string>)

  /** The three forms the constructor takes: one date-time, a list of them, or an options object. */
  datatype Arguments =
    | One(value: int, tzid: Option<string>)
    | Many(values: seq<int>, tzid: Option<string>)
    | Options(options: ExDate)

  /** The constructor: one date-time becomes a one-element list, a list is kept as it is, and the options are copied. */
  function New(args: Arguments): ExDate {
    match args
    case One(value, tzid) => ExDate([value], tzid)
    case Many(values, tzid) => ExDate(values, tzid)
    case Options(options) => ExDate(options.values, options.tzid)
  }

  /** `setTzid`: a new list with these values and the given zone. */
  function SetTzid(d: ExDate, tzid: Option<string>): ExDate {
    New(Many(d.values, tzid))
  }

  /** `setValues`: a new list with the given values and this zone. */
  function SetValues(d: ExDate, values: seq<int>): ExDate {
    New(Many(values, d.tzid))
  }

  datatype ExDatePlain = ExDatePlain(values: seq<TsDateTimes.Plain>, tzid: Option<string>)

  /** `toPlain`: each value as its plain object, and the zone. */
  function ToPlain(d: ExDate): ExDatePlain {
    ExDatePlain(Lists.Map(d.values, TsDateTimes.PlainValue), d.tzid)
  }

  /** `fromPlain`: the options form of the constructor, with each value made from its plain object. */
  function FromPlain(plain: ExDatePlain): ExDate {
    New(Options(ExDate(Lists.Map(plain.values, TsDateTimes.NumericOfPlain), plain.tzid)))
  }

  // ---------------------------------------------------------------------------
  // Properties

  /**
   * `toPlain` keeps the number of values and the zone, and each plain value reads back as
   * the date-time it came from.  The same holds of the lists the setters and the one-date
   * form of the constructor build: `setTzid` keeps the values, `setValues` keeps the zone,
   * and one date-time becomes a one-element list.
   */
  lemma {:induction false} PlainRoundTrip(d: ExDate, tzid: Option<string>, values: seq<int>, value: int)
    requires forall i :: 0 <= i < |d.values| ==> TsDateTimes.Canonical(d.values[i])
    ensures |ToPlain(d).values| == |d.values| && ToPlain(d).tzid == d.tzid
    ensures FromPlain(ToPlain(d)) == d
    ensures FromPlain(ToPlain(SetTzid(d, tzid))) == ExDate(d.values, tzid)
    ensures (forall i :: 0 <= i < |values| ==> TsDateTimes.Canonical(values[i])) ==>
      FromPlain(ToPlain(SetValues(d, values))) == ExDate(values, d.tzid)
    ensures TsDateTimes.Canonical(value) ==> FromPlain(ToPlain(New(One(value, tzid)))) == ExDate([value], tzid)
  {
    TsDateTimes.PlainValuesRoundTrip(d.values);
    if forall i :: 0 <= i < |values| ==> TsDateTimes.Canonical(values[i]) {
      TsDateTimes.PlainValuesRoundTrip(values);
    }
    if TsDateTimes.Canonical(value) {
      TsDateTimes.PlainValuesRoundTrip([value]);
    }
  }
}
