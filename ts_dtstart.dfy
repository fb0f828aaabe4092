/**
 * The start of a recurrence in the TypeScript layer (src/dtstart.ts): a date-time and an
 * optional time zone name. Instances are immutable; the setters build new ones. A
 * date-time is held by its number, which is all of it that can be observed.
 */
module TsDtStarts {
  import opened Wrappers
  import TsDateTimes

  datatype DtStart = DtStart(value: int, tzid: Option<string>)

  /** The two forms the constructor takes: a value and a zone name, or an options object. */
  datatype Arguments =
    | Positional(value: int, tzid: Option<string>)
    | Options(options: DtStart)

  /** The constructor: an argument with a `value` field is the options object, anything else the value itself. */
  function New(args: Arguments): DtStart {
    match args
    case Options(options) => DtStart(options.value, options.tzid)
    case Positional(value, tzid) => DtStart(value, tzid)
  }

  /** `setTzid`: a new start with this value and the given zone. */
  function SetTzid(d: DtStart, tzid: Option<string>): DtStart {
    New(Positional(d.value, tzid))
  }

  /** `setValue`: a new start with the given value and this zone. */
  function SetValue(d: DtStart, value: int): DtStart {
    New(Positional(value, d.tzid))
  }

  datatype DtStartPlain = DtStartPlain(value: TsDateTimes.Plain, tzid: Option<string>)

  function ToPlain(d: DtStart): DtStartPlain {
    DtStartPlain(TsDateTimes.PlainValue(d.value), d.tzid)
  }

  /** `fromPlain`: the options form of the constructor, with the value made from its plain object. */
  function FromPlain(plain: DtStartPlain): DtStart {
    New(Options(DtStart(TsDateTimes.NumericOfPlain(plain.value), plain.tzid)))
  }

  // ---------------------------------------------------------------------------
  // Properties

  /**
   * `fromPlain(toPlain(d))` is d when the value is one `create` can give, and so is every
   * start the setters build from it: `setTzid` keeps the value and `setValue` keeps the zone.
   */
  lemma {:induction false} PlainRoundTrip(d: DtStart, tzid: Option<string>, value: int)
    requires TsDateTimes.Canonical(d.value)
    ensures FromPlain(ToPlain(d)) == d
    ensures FromPlain(ToPlain(SetTzid(d, tzid))) == DtStart(d.value, tzid)
    ensures TsDateTimes.Canonical(value) ==> FromPlain(ToPlain(SetValue(d, value))) == DtStart(value, d.tzid)
  {
    TsDateTimes.PlainRoundTrip(d.value);
    if TsDateTimes.Canonical(value) {
      TsDateTimes.PlainRoundTrip(value);
    }
  }
}
