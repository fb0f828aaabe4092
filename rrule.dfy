/**
 * The recurrence rule record (lib/rrule/rrule.rs): the parts of the RECUR value of
 * section 3.3.10 of RFC 5545, read from and written to an RRULE or EXRULE property
 * whose value is a `K=V;K=V` map.
 */
module RRules {
  import opened Wrappers
  import opened Strings
  import opened Lists
  import opened Ints
  import opened Params
  import opened PropertyText
  import DateTimes
  import Frequencies
  import Weekdays
  import NWeekdays
  import Months

  datatype RRule = RRule(
    until: Option<DateTimes.DateTime>,
    frequency: Frequencies.Frequency,
    interval: Option<U16>,
    count: Option<U32>,
    weekstart: Option<Weekdays.Weekday>,
    byDay: seq<NWeekdays.NWeekday>,
    byHour: seq<U8>,
    byMinute: seq<U8>,
    bySecond: seq<U8>,
    byMonthday: seq<I8>,
    byYearday: seq<I16>,
    bySetpos: seq<I32>,
    byMonth: seq<Months.Month>,
    byWeekno: seq<I8>)

  /** `RRule::new`: the frequency alone. */
  function New(frequency: Frequencies.Frequency): RRule {
    RRule(None, frequency, None, None, None, [], [], [], [], [], [], [], [], [])
  }

  // The `set_*` builders. Each replaces one part of the record, so of the fields
  // `to_property` writes only its own changes, to the text of the new value.
  function SetInterval(r: RRule, interval: Option<U16>): (s: RRule)
    ensures Fields(s) == Fields(r)[1 := ("INTERVAL", OptText<U16>(interval, U16Text))]
  {
    r.(interval := interval)
  }

  function SetCount(r: RRule, count: Option<U32>): (s: RRule)
    ensures Fields(s) == Fields(r)[2 := ("COUNT", OptText<U32>(count, U32Text))]
  {
    r.(count := count)
  }

  function SetUntil(r: RRule, until: Option<DateTimes.DateTime>): (s: RRule)
    ensures Fields(s) == Fields(r)[3 := ("UNTIL", OptText<DateTimes.DateTime>(until, DateTimes.ToText))]
  {
    r.(until := until)
  }

  function SetByHour(r: RRule, byHour: seq<U8>): (s: RRule)
    ensures Fields(s) == Fields(r)[4 := ("BYHOUR", ListText<U8>(byHour, U8Text))]
  {
    r.(byHour := byHour)
  }

  function SetByMinute(r: RRule, byMinute: seq<U8>): (s: RRule)
    ensures Fields(s) == Fields(r)[5 := ("BYMINUTE", ListText<U8>(byMinute, U8Text))]
  {
    r.(byMinute := byMinute)
  }

  function SetBySecond(r: RRule, bySecond: seq<U8>): (s: RRule)
    ensures Fields(s) == Fields(r)[6 := ("BYSECOND", ListText<U8>(bySecond, U8Text))]
  {
    r.(bySecond := bySecond)
  }

  function SetByMonthday(r: RRule, byMonthday: seq<I8>): (s: RRule)
    ensures Fields(s) == Fields(r)[7 := ("BYMONTHDAY", ListText<I8>(byMonthday, I8Text))]
  {
    r.(byMonthday := byMonthday)
  }

  function SetByYearday(r: RRule, byYearday: seq<I16>): (s: RRule)
    ensures Fields(s) == Fields(r)[8 := ("BYYEARDAY", ListText<I16>(byYearday, I16Text))]
  {
    r.(byYearday := byYearday)
  }

  function SetBySetpos(r: RRule, bySetpos: seq<I32>): (s: RRule)
    ensures Fields(s) == Fields(r)[9 := ("BYSETPOS", ListText<I32>(bySetpos, I32Text))]
  {
    r.(bySetpos := bySetpos)
  }

  function SetByMonth(r: RRule, byMonth: seq<Months.Month>): (s: RRule)
    ensures Fields(s) == Fields(r)[10 := ("BYMONTH", ListText<Months.Month>(byMonth, Months.ToText))]
  {
    r.(byMonth := byMonth)
  }

  function SetByWeekno(r: RRule, byWeekno: seq<I8>): (s: RRule)
    ensures Fields(s) == Fields(r)[11 := ("BYWEEKNO", ListText<I8>(byWeekno, I8Text))]
  {
    r.(byWeekno := byWeekno)
  }

  function SetByDay(r: RRule, byDay: seq<NWeekdays.NWeekday>): (s: RRule)
    ensures Fields(s) == Fields(r)[12 := ("BYDAY", ListText<NWeekdays.NWeekday>(byDay, NWeekdays.ToText))]
  {
    r.(byDay := byDay)
  }

  function SetWeekstart(r: RRule, weekstart: Option<Weekdays.Weekday>): (s: RRule)
    ensures Fields(s) == Fields(r)[13 := ("WKST", OptText<Weekdays.Weekday>(weekstart, Weekdays.ToText))]
  {
    r.(weekstart := weekstart)
  }

  // ---------------------------------------------------------------------------
  // Writing

  /** The text of an optional part, when it is set. */
  function OptText<T>(x: Option<T>, show: T -> string): Option<string> {
    match x
    case Some(v) => Some(show(v))
    case None => None
  }

  /** The text of a list part, comma-joined, when it is not empty. */
  function ListText<T>(xs: seq<T>, show: T -> string): Option<string> {
    if |xs| == 0 then None else Some(Join(Map(xs, show), ','))
  }

  /** The keys `to_property` may write, in the order it writes them. */
  const KEYS: seq<string> := ["FREQ", "INTERVAL", "COUNT", "UNTIL", "BYHOUR", "BYMINUTE", "BYSECOND",
    "BYMONTHDAY", "BYYEARDAY", "BYSETPOS", "BYMONTH", "BYWEEKNO", "BYDAY", "WKST"]

  /** Each key of `to_property` with the text it writes, if any. */
  function Fields(r: RRule): seq<Field> {
    [("FREQ", Some(Frequencies.ToText(r.frequency))),
     ("INTERVAL", OptText<U16>(r.interval, U16Text)),
     ("COUNT", OptText<U32>(r.count, U32Text)),
     ("UNTIL", OptText<DateTimes.DateTime>(r.until, DateTimes.ToText)),
     ("BYHOUR", ListText<U8>(r.byHour, U8Text)),
     ("BYMINUTE", ListText<U8>(r.byMinute, U8Text)),
     ("BYSECOND", ListText<U8>(r.bySecond, U8Text)),
     ("BYMONTHDAY", ListText<I8>(r.byMonthday, I8Text)),
     ("BYYEARDAY", ListText<I16>(r.byYearday, I16Text)),
     ("BYSETPOS", ListText<I32>(r.bySetpos, I32Text)),
     ("BYMONTH", ListText<Months.Month>(r.byMonth, Months.ToText)),
     ("BYWEEKNO", ListText<I8>(r.byWeekno, I8Text)),
     ("BYDAY", ListText<NWeekdays.NWeekday>(r.byDay, NWeekdays.ToText)),
     ("WKST", OptText<Weekdays.Weekday>(r.weekstart, Weekdays.ToText))]
  }

  /** The rule parts `to_property` writes: the set ones, in the order of `KEYS`. */
  function Parts(r: RRule): Entries {
    Present(Fields(r))
  }

  lemma {:induction false} KeysDistinct()
    ensures Distinct(KEYS)
  {
    forall i, j | 0 <= i < j < |KEYS| ensures KEYS[i] != KEYS[j] {
      assert |KEYS[i]| != |KEYS[j]| || KEYS[i][2] != KEYS[j][2] || KEYS[i][3] != KEYS[j][3] || KEYS[i][4] != KEYS[j][4];
    }
  }

  lemma {:induction false} KeysUpper()
    ensures forall i :: 0 <= i < |KEYS| ==> Word(KEYS[i]) && NoLower(KEYS[i]) && Upper(KEYS[i]) == KEYS[i]
  {
    forall i | 0 <= i < |KEYS| ensures Word(KEYS[i]) && NoLower(KEYS[i]) && Upper(KEYS[i]) == KEYS[i] {
      assert forall j :: 0 <= j < |KEYS[i]| ==> 'A' <= KEYS[i][j] <= 'Z';
      WordPlain(KEYS[i]);
      UpperOfNoLower(KEYS[i]);
    }
  }

  lemma {:induction false} FieldsKeys(r: RRule)
    ensures FieldKeys(Fields(r)) == KEYS && KeyedFields(Fields(r))
  {
    KeysDistinct();
    KeysUpper();
  }

  /**
   * The map `to_property` leaves, insert by insert. Its first argument is the innermost,
   * so it reads inside out; `ChainIsParts` says what it holds.
   */
  ghost function Chain(r: RRule): Entries {
    PutIfSet(PutIfSet(PutIfSet(PutIfSet(PutIfSet(PutIfSet(PutIfSet(PutIfSet(PutIfSet(PutIfSet(PutIfSet(PutIfSet(PutIfSet(Put([], Upper("FREQ"), Frequencies.ToText(r.frequency)), Upper("INTERVAL"), OptText<U16>(r.interval, U16Text)), Upper("COUNT"), OptText<U32>(r.count, U32Text)), Upper("UNTIL"), OptText<DateTimes.DateTime>(r.until, DateTimes.ToText)), Upper("BYHOUR"), ListText<U8>(r.byHour, U8Text)), Upper("BYMINUTE"), ListText<U8>(r.byMinute, U8Text)), Upper("BYSECOND"), ListText<U8>(r.bySecond, U8Text)), Upper("BYMONTHDAY"), ListText<I8>(r.byMonthday, I8Text)), Upper("BYYEARDAY"), ListText<I16>(r.byYearday, I16Text)), Upper("BYSETPOS"), ListText<I32>(r.bySetpos, I32Text)), Upper("BYMONTH"), ListText<Months.Month>(r.byMonth, Months.ToText)), Upper("BYWEEKNO"), ListText<I8>(r.byWeekno, I8Text)), Upper("BYDAY"), ListText<NWeekdays.NWeekday>(r.byDay, NWeekdays.ToText)), Upper("WKST"), OptText<Weekdays.Weekday>(r.weekstart, Weekdays.ToText))
  }

  /** The inserts of `to_property` are those of its fields, one at a time. */
  lemma {:induction false} ChainIsBuilt(r: RRule)
    ensures Chain(r) == Built(Fields(r)[..14])
  {
    var fs := Fields(r);
    var e := Put([], Upper("FREQ"), Frequencies.ToText(r.frequency));
    BuiltStep(fs, 0);
    e := PutIfSet(e, Upper("INTERVAL"), OptText<U16>(r.interval, U16Text));
    BuiltStep(fs, 1);
    e := PutIfSet(e, Upper("COUNT"), OptText<U32>(r.count, U32Text));
    BuiltStep(fs, 2);
    e := PutIfSet(e, Upper("UNTIL"), OptText<DateTimes.DateTime>(r.until, DateTimes.ToText));
    BuiltStep(fs, 3);
    e := PutIfSet(e, Upper("BYHOUR"), ListText<U8>(r.byHour, U8Text));
    BuiltStep(fs, 4);
    e := PutIfSet(e, Upper("BYMINUTE"), ListText<U8>(r.byMinute, U8Text));
    BuiltStep(fs, 5);
    e := PutIfSet(e, Upper("BYSECOND"), ListText<U8>(r.bySecond, U8Text));
    BuiltStep(fs, 6);
    e := PutIfSet(e, Upper("BYMONTHDAY"), ListText<I8>(r.byMonthday, I8Text));
    BuiltStep(fs, 7);
    e := PutIfSet(e, Upper("BYYEARDAY"), ListText<I16>(r.byYearday, I16Text));
    BuiltStep(fs, 8);
    e := PutIfSet(e, Upper("BYSETPOS"), ListText<I32>(r.bySetpos, I32Text));
    BuiltStep(fs, 9);
    e := PutIfSet(e, Upper("BYMONTH"), ListText<Months.Month>(r.byMonth, Months.ToText));
    BuiltStep(fs, 10);
    e := PutIfSet(e, Upper("BYWEEKNO"), ListText<I8>(r.byWeekno, I8Text));
    BuiltStep(fs, 11);
    e := PutIfSet(e, Upper("BYDAY"), ListText<NWeekdays.NWeekday>(r.byDay, NWeekdays.ToText));
    BuiltStep(fs, 12);
    e := PutIfSet(e, Upper("WKST"), OptText<Weekdays.Weekday>(r.weekstart, Weekdays.ToText));
    BuiltStep(fs, 13);
    assert e == Chain(r);
  }

  /** The inserts of `to_property` leave exactly the set parts, in `KEYS` order. */
  lemma {:induction false} ChainIsParts(r: RRule)
    ensures Chain(r) == Parts(r)
  {
    var fs := Fields(r);
    ChainIsBuilt(r);
    assert |fs| == 14 && fs[..|fs|] == fs;
    FieldsKeys(r);
    BuiltIsPresent(fs);
  }

  /** One `if let Some(text) = … { value.insert(key, text) }` step of `to_property`. */
  method InsertIfSet(value: Parameters, key: string, text: Option<string>)
    requires value.Valid()
    modifies value
    ensures value.Valid() && value.params == PutIfSet(old(value.params), Upper(key), text)
  {
    if text.Some? {
      value.Insert(key, text.value);
    }
  }

  /**
   * `RRule::to_property`: a fresh parameter map receives FREQ, then each set part in
   * the fixed order; the property is named RRULE, has no parameters, and holds the map.
   */
  method ToProperty(r: RRule) returns (p: Property)
    ensures p == Property("RRULE", [], Multiple(Parts(r)))
  {
    var value := new Parameters();
    value.Insert("FREQ", Frequencies.ToText(r.frequency));
    InsertIfSet(value, "INTERVAL", OptText<U16>(r.interval, U16Text));
    InsertIfSet(value, "COUNT", OptText<U32>(r.count, U32Text));
    InsertIfSet(value, "UNTIL", OptText<DateTimes.DateTime>(r.until, DateTimes.ToText));
    InsertIfSet(value, "BYHOUR", ListText<U8>(r.byHour, U8Text));
    InsertIfSet(value, "BYMINUTE", ListText<U8>(r.byMinute, U8Text));
    InsertIfSet(value, "BYSECOND", ListText<U8>(r.bySecond, U8Text));
    InsertIfSet(value, "BYMONTHDAY", ListText<I8>(r.byMonthday, I8Text));
    InsertIfSet(value, "BYYEARDAY", ListText<I16>(r.byYearday, I16Text));
    InsertIfSet(value, "BYSETPOS", ListText<I32>(r.bySetpos, I32Text));
    InsertIfSet(value, "BYMONTH", ListText<Months.Month>(r.byMonth, Months.ToText));
    InsertIfSet(value, "BYWEEKNO", ListText<I8>(r.byWeekno, I8Text));
    InsertIfSet(value, "BYDAY", ListText<NWeekdays.NWeekday>(r.byDay, NWeekdays.ToText));
    InsertIfSet(value, "WKST", OptText<Weekdays.Weekday>(r.weekstart, Weekdays.ToText));
    ChainIsParts(r);
    p := Property("RRULE", [], Multiple(value.params));
  }

  // ---------------------------------------------------------------------------
  // Reading

  // The `FromStr` implementations `get_as` and `get_as_vec` call, as `.parse().ok()`.
  function ParseFrequency(s: string): Option<Frequencies.Frequency> { Frequencies.FromStr(s).ToOption() }
  function ParseDateTime(s: string): Option<DateTimes.DateTime> { DateTimes.FromStr(s).ToOption() }
  function ParseMonth(s: string): Option<Months.Month> { Months.FromStr(s).ToOption() }
  function ParseWeekday(s: string): Option<Weekdays.Weekday> { Weekdays.FromStr(s).ToOption() }
  function ParseNWeekday(s: string): Option<NWeekdays.NWeekday> { NWeekdays.FromStr(s).ToOption() }

  /**
   * The body of `RRule::from_property` once the value is a map: FREQ must be present,
   * then each part is read in the source's order, the first bad one ending the read
   * with its error, and an absent list part becomes empty.
   */
  function FromEntries(e: Entries): Result<RRule, string> {
    var frequency :- GetAs(e, "FREQ", ParseFrequency);
    if frequency.None? then Err("FREQ is required")
    else
      var interval :- GetAs(e, "INTERVAL", ParseU16);
      var until :- GetAs(e, "UNTIL", ParseDateTime);
      var count :- GetAs(e, "COUNT", ParseU32);
      var byHour :- SplitAs(e, "BYHOUR", ParseU8);
      var byMinute :- SplitAs(e, "BYMINUTE", ParseU8);
      var bySecond :- SplitAs(e, "BYSECOND", ParseU8);
      var byMonth :- SplitAs(e, "BYMONTH", ParseMonth);
      var weekstart :- GetAs(e, "WKST", ParseWeekday);
      var byDay :- SplitAs(e, "BYDAY", ParseNWeekday);
      var bySetpos :- SplitAs(e, "BYSETPOS", ParseI32);
      var byMonthday :- SplitAs(e, "BYMONTHDAY", ParseI8);
      var byYearday :- SplitAs(e, "BYYEARDAY", ParseI16);
      var byWeekno :- SplitAs(e, "BYWEEKNO", ParseI8);
      Ok(RRule(until, frequency.value, interval, count, weekstart, byDay.UnwrapOr([]), byHour.UnwrapOr([]),
        byMinute.UnwrapOr([]), bySecond.UnwrapOr([]), byMonthday.UnwrapOr([]), byYearday.UnwrapOr([]),
        bySetpos.UnwrapOr([]), byMonth.UnwrapOr([]), byWeekno.UnwrapOr([])))
  }

  /** `RRule::from_property`: an RRULE or EXRULE property whose value is a map. */
  function FromProperty(p: Property): Result<RRule, string> {
    if p.name != "RRULE" && p.name != "EXRULE" then Err("Invalid property name: " + p.name)
    else
      match p.value
      case Single(t) => Err("Invalid " + p.name + ": " + t)
      case Multiple(e) => FromEntries(e)
  }

  /** The line `RRule::from_str` parses: the text itself when it already starts with `RRULE:` in any case. */
  function Line(s: string): string {
    if !StartsWith(Upper(s), "RRULE:") then "RRULE:" + s else s
  }

  /** `RRule::from_str`: parses the line as a property, reporting its error as text, then reads the rule. */
  function FromStr(s: string): Result<RRule, string> {
    match PropertyText.FromString(Line(s))
    case Err(err) => Err(Message(err))
    case Ok(p) => FromProperty(p)
  }

  /** A list part as `get_as_vec` returns it: absent when empty. */
  function Listed<T>(xs: seq<T>): Option<seq<T>> {
    if |xs| == 0 then None else Some(xs)
  }

  /** When each part reads back as the rule's own, `from_property` rebuilds the rule. */
  lemma {:induction false} FromEntriesOf(e: Entries, r: RRule)
    requires GetAs(e, "FREQ", ParseFrequency) == Ok(Some(r.frequency))
    requires GetAs(e, "INTERVAL", ParseU16) == Ok(r.interval)
    requires GetAs(e, "UNTIL", ParseDateTime) == Ok(r.until)
    requires GetAs(e, "COUNT", ParseU32) == Ok(r.count)
    requires SplitAs(e, "BYHOUR", ParseU8) == Ok(Listed(r.byHour))
    requires SplitAs(e, "BYMINUTE", ParseU8) == Ok(Listed(r.byMinute))
    requires SplitAs(e, "BYSECOND", ParseU8) == Ok(Listed(r.bySecond))
    requires SplitAs(e, "BYMONTH", ParseMonth) == Ok(Listed(r.byMonth))
    requires GetAs(e, "WKST", ParseWeekday) == Ok(r.weekstart)
    requires SplitAs(e, "BYDAY", ParseNWeekday) == Ok(Listed(r.byDay))
    requires SplitAs(e, "BYSETPOS", ParseI32) == Ok(Listed(r.bySetpos))
    requires SplitAs(e, "BYMONTHDAY", ParseI8) == Ok(Listed(r.byMonthday))
    requires SplitAs(e, "BYYEARDAY", ParseI16) == Ok(Listed(r.byYearday))
    requires SplitAs(e, "BYWEEKNO", ParseI8) == Ok(Listed(r.byWeekno))
    ensures FromEntries(e) == Ok(r)
  {
  }

  /** Each key `to_property` writes finds the text of its own field. */
  lemma {:induction false} PartsGet(r: RRule, i: nat)
    requires i < |KEYS|
    ensures Get(Parts(r), KEYS[i]) == Fields(r)[i].1
  {
    FieldsKeys(r);
    KeysUpper();
    assert Fields(r)[i].0 == FieldKeys(Fields(r))[i];
    PresentLookup(Fields(r), i);
  }

  /** An optional part written by `to_property` reads back through `get_as`. */
  lemma {:induction false} GetAsOfOpt<T>(e: Entries, key: string, x: Option<T>, show: T -> string, parse: string -> Option<T>, y: Option<T>)
    requires Get(e, key) == OptText(x, show)
    requires x.None? ==> y.None?
    requires x.Some? ==> y.Some? && parse(show(x.value)) == Some(y.value)
    ensures GetAs(e, key, parse) == Ok(y)
  {
  }

  /** A list part written by `to_property` reads back through `get_as_vec`, provided no item holds a comma. */
  lemma {:induction false} SplitAsOfList<T>(e: Entries, key: string, xs: seq<T>, show: T -> string, parse: string -> Option<T>)
    requires Get(e, key) == ListText(xs, show)
    requires forall i :: 0 <= i < |xs| ==> ',' !in show(xs[i]) && parse(show(xs[i])) == Some(xs[i])
    ensures SplitAs(e, key, parse) == Ok(Listed(xs))
  {
    if |xs| > 0 {
      var texts := Map(xs, show);
      assert NoneContains(texts, ',');
      SplitJoin(texts, ',');
      assert forall x :: x in xs ==> ItemAs(key, parse)(show(x)) == Ok(x) by {
        forall x | x in xs ensures ItemAs(key, parse)(show(x)) == Ok(x) {
          var i :| 0 <= i < |xs| && xs[i] == x;
        }
      }
      TryMapOfMap(xs, show, ItemAs(key, parse));
    }
  }

  /** The UNTIL date, if any, fits the fixed widths of its text form. */
  predicate UntilFits(r: RRule) {
    r.until.Some? ==> DateTimes.FitsWidths(r.until.value)
  }

  /** What the text form keeps of a rule: everything but a non-zero UNTIL offset. */
  function Normalised(r: RRule): RRule {
    r.(until := if r.until.Some? then Some(DateTimes.WithoutOffset(r.until.value)) else None)
  }

  lemma {:induction false} U8sReadBack(xs: seq<U8>)
    ensures forall i :: 0 <= i < |xs| ==> ',' !in U8Text(xs[i]) && ParseU8(U8Text(xs[i])) == Some(xs[i])
  {
    forall i | 0 <= i < |xs| ensures ',' !in U8Text(xs[i]) && ParseU8(U8Text(xs[i])) == Some(xs[i]) {
      IntToStringNoComma(xs[i]);
      ParsersInvertToString(xs[i], 0, 0, 0, 0, 0);
    }
  }

  lemma {:induction false} I8sReadBack(xs: seq<I8>)
    ensures forall i :: 0 <= i < |xs| ==> ',' !in I8Text(xs[i]) && ParseI8(I8Text(xs[i])) == Some(xs[i])
  {
    forall i | 0 <= i < |xs| ensures ',' !in I8Text(xs[i]) && ParseI8(I8Text(xs[i])) == Some(xs[i]) {
      IntToStringNoComma(xs[i]);
      ParsersInvertToString(0, xs[i], 0, 0, 0, 0);
    }
  }

  lemma {:induction false} I16sReadBack(xs: seq<I16>)
    ensures forall i :: 0 <= i < |xs| ==> ',' !in I16Text(xs[i]) && ParseI16(I16Text(xs[i])) == Some(xs[i])
  {
    forall i | 0 <= i < |xs| ensures ',' !in I16Text(xs[i]) && ParseI16(I16Text(xs[i])) == Some(xs[i]) {
      IntToStringNoComma(xs[i]);
      ParsersInvertToString(0, 0, 0, xs[i], 0, 0);
    }
  }

  lemma {:induction false} I32sReadBack(xs: seq<I32>)
    ensures forall i :: 0 <= i < |xs| ==> ',' !in I32Text(xs[i]) && ParseI32(I32Text(xs[i])) == Some(xs[i])
  {
    forall i | 0 <= i < |xs| ensures ',' !in I32Text(xs[i]) && ParseI32(I32Text(xs[i])) == Some(xs[i]) {
      IntToStringNoComma(xs[i]);
      ParsersInvertToString(0, 0, 0, 0, 0, xs[i]);
    }
  }

  lemma {:induction false} MonthsReadBack(xs: seq<Months.Month>)
    ensures forall i :: 0 <= i < |xs| ==> ',' !in Months.ToText(xs[i]) && ParseMonth(Months.ToText(xs[i])) == Some(xs[i])
  {
    forall i | 0 <= i < |xs| ensures ',' !in Months.ToText(xs[i]) && ParseMonth(Months.ToText(xs[i])) == Some(xs[i]) {
      Months.FromStrToText(xs[i]);
    }
  }

  lemma {:induction false} NWeekdaysReadBack(xs: seq<NWeekdays.NWeekday>)
    ensures forall i :: 0 <= i < |xs| ==> ',' !in NWeekdays.ToText(xs[i]) && ParseNWeekday(NWeekdays.ToText(xs[i])) == Some(xs[i])
  {
    forall i | 0 <= i < |xs| ensures ',' !in NWeekdays.ToText(xs[i]) && ParseNWeekday(NWeekdays.ToText(xs[i])) == Some(xs[i]) {
      NWeekdays.FromStrToText(xs[i]);
      Weekdays.CodeShape(xs[i].weekday);
      if xs[i].n.Some? {
        IntToStringNoComma(xs[i].n.value);
      }
    }
  }

  /** An optional part `to_property` writes reads back through `get_as`. */
  lemma {:induction false} OptReadsBack<T>(r: RRule, i: nat, x: Option<T>, show: T -> string, parse: string -> Option<T>, y: Option<T>)
    requires i < |KEYS| && Fields(r)[i].1 == OptText(x, show)
    requires x.None? ==> y.None?
    requires x.Some? ==> y.Some? && parse(show(x.value)) == Some(y.value)
    ensures GetAs(Parts(r), KEYS[i], parse) == Ok(y)
  {
    PartsGet(r, i);
    GetAsOfOpt(Parts(r), KEYS[i], x, show, parse, y);
  }

  /** A list part `to_property` writes reads back through `get_as_vec`. */
  lemma {:induction false} ListReadsBack<T>(r: RRule, i: nat, xs: seq<T>, show: T -> string, parse: string -> Option<T>)
    requires i < |KEYS| && Fields(r)[i].1 == ListText(xs, show)
    requires forall j :: 0 <= j < |xs| ==> ',' !in show(xs[j]) && parse(show(xs[j])) == Some(xs[j])
    ensures SplitAs(Parts(r), KEYS[i], parse) == Ok(Listed(xs))
  {
    PartsGet(r, i);
    SplitAsOfList(Parts(r), KEYS[i], xs, show, parse);
  }

  lemma {:induction false} FreqReadsBack(r: RRule)
    ensures GetAs(Parts(r), "FREQ", ParseFrequency) == Ok(Some(r.frequency))
  {
    PartsGet(r, 0);
    Frequencies.FromStrToText(r.frequency);
  }

  lemma {:induction false} IntervalReadsBack(r: RRule)
    ensures GetAs(Parts(r), "INTERVAL", ParseU16) == Ok(r.interval)
  {
    if r.interval.Some? {
      ParsersInvertToString(0, 0, r.interval.value, 0, 0, 0);
    }
    OptReadsBack<U16>(r, 1, r.interval, U16Text, ParseU16, r.interval);
  }

  lemma {:induction false} CountReadsBack(r: RRule)
    ensures GetAs(Parts(r), "COUNT", ParseU32) == Ok(r.count)
  {
    if r.count.Some? {
      ParsersInvertToString(0, 0, 0, 0, r.count.value, 0);
    }
    OptReadsBack<U32>(r, 2, r.count, U32Text, ParseU32, r.count);
  }

  lemma {:induction false} UntilReadsBack(r: RRule)
    requires UntilFits(r)
    ensures GetAs(Parts(r), "UNTIL", ParseDateTime) == Ok(Normalised(r).until)
  {
    if r.until.Some? {
      DateTimes.FromStrToText(r.until.value);
    }
    OptReadsBack<DateTimes.DateTime>(r, 3, r.until, DateTimes.ToText, ParseDateTime, Normalised(r).until);
  }

  lemma {:induction false} ByHourReadsBack(r: RRule)
    ensures SplitAs(Parts(r), "BYHOUR", ParseU8) == Ok(Listed(r.byHour))
  {
    U8sReadBack(r.byHour);
    ListReadsBack<U8>(r, 4, r.byHour, U8Text, ParseU8);
  }

  lemma {:induction false} ByMinuteReadsBack(r: RRule)
    ensures SplitAs(Parts(r), "BYMINUTE", ParseU8) == Ok(Listed(r.byMinute))
  {
    U8sReadBack(r.byMinute);
    ListReadsBack<U8>(r, 5, r.byMinute, U8Text, ParseU8);
  }

  lemma {:induction false} BySecondReadsBack(r: RRule)
    ensures SplitAs(Parts(r), "BYSECOND", ParseU8) == Ok(Listed(r.bySecond))
  {
    U8sReadBack(r.bySecond);
    ListReadsBack<U8>(r, 6, r.bySecond, U8Text, ParseU8);
  }

  lemma {:induction false} ByMonthdayReadsBack(r: RRule)
    ensures SplitAs(Parts(r), "BYMONTHDAY", ParseI8) == Ok(Listed(r.byMonthday))
  {
    I8sReadBack(r.byMonthday);
    ListReadsBack<I8>(r, 7, r.byMonthday, I8Text, ParseI8);
  }

  lemma {:induction false} ByYeardayReadsBack(r: RRule)
    ensures SplitAs(Parts(r), "BYYEARDAY", ParseI16) == Ok(Listed(r.byYearday))
  {
    I16sReadBack(r.byYearday);
    ListReadsBack<I16>(r, 8, r.byYearday, I16Text, ParseI16);
  }

  lemma {:induction false} BySetposReadsBack(r: RRule)
    ensures SplitAs(Parts(r), "BYSETPOS", ParseI32) == Ok(Listed(r.bySetpos))
  {
    I32sReadBack(r.bySetpos);
    ListReadsBack<I32>(r, 9, r.bySetpos, I32Text, ParseI32);
  }

  lemma {:induction false} ByMonthReadsBack(r: RRule)
    ensures SplitAs(Parts(r), "BYMONTH", ParseMonth) == Ok(Listed(r.byMonth))
  {
    MonthsReadBack(r.byMonth);
    ListReadsBack<Months.Month>(r, 10, r.byMonth, Months.ToText, ParseMonth);
  }

  lemma {:induction false} ByWeeknoReadsBack(r: RRule)
    ensures SplitAs(Parts(r), "BYWEEKNO", ParseI8) == Ok(Listed(r.byWeekno))
  {
    I8sReadBack(r.byWeekno);
    ListReadsBack<I8>(r, 11, r.byWeekno, I8Text, ParseI8);
  }

  lemma {:induction false} ByDayReadsBack(r: RRule)
    ensures SplitAs(Parts(r), "BYDAY", ParseNWeekday) == Ok(Listed(r.byDay))
  {
    NWeekdaysReadBack(r.byDay);
    ListReadsBack<NWeekdays.NWeekday>(r, 12, r.byDay, NWeekdays.ToText, ParseNWeekday);
  }

  lemma {:induction false} WeekstartReadsBack(r: RRule)
    ensures GetAs(Parts(r), "WKST", ParseWeekday) == Ok(r.weekstart)
  {
    if r.weekstart.Some? {
      Weekdays.FromStrToText(r.weekstart.value);
    }
    OptReadsBack<Weekdays.Weekday>(r, 13, r.weekstart, Weekdays.ToText, ParseWeekday, r.weekstart);
  }

  /**
   * The map `to_property` writes reads back, through `from_property`, as the same rule,
   * except that an UNTIL offset other than zero is not kept.
   */
  lemma {:induction false} PartsRoundTrip(r: RRule)
    requires UntilFits(r)
    ensures FromEntries(Parts(r)) == Ok(Normalised(r))
  {
    FreqReadsBack(r);
    IntervalReadsBack(r);
    CountReadsBack(r);
    UntilReadsBack(r);
    ByHourReadsBack(r);
    ByMinuteReadsBack(r);
    BySecondReadsBack(r);
    ByMonthdayReadsBack(r);
    ByYeardayReadsBack(r);
    BySetposReadsBack(r);
    ByMonthReadsBack(r);
    ByWeeknoReadsBack(r);
    ByDayReadsBack(r);
    WeekstartReadsBack(r);
    FromEntriesOf(Parts(r), Normalised(r));
  }

  // ---------------------------------------------------------------------------
  // The written line

  /** Every text `to_property` writes is a word. */
  lemma {:induction false} FrequencyWord(f: Frequencies.Frequency)
    ensures Word(Frequencies.ToText(f))
  {
    match f
    case Yearly => assert Word("YEARLY");
    case Monthly => assert Word("MONTHLY");
    case Weekly => assert Word("WEEKLY");
    case Daily => assert Word("DAILY");
    case Hourly => assert Word("HOURLY");
    case Minutely => assert Word("MINUTELY");
    case Secondly => assert Word("SECONDLY");
  }

  lemma {:induction false} WeekdayWord(w: Weekdays.Weekday)
    ensures Word(Weekdays.ToText(w))
  {
    Weekdays.CodeShape(w);
    assert forall i :: 0 <= i < 2 ==> IsWordChar(Weekdays.ToText(w)[i]);
  }

  lemma {:induction false} DateWord(d: DateTimes.DateTime)
    ensures Word(DateTimes.ToText(d))
  {
    var y, m, dd := ZeroPad(d.year, 4), ZeroPad(d.month, 2), ZeroPad(d.day, 2);
    WordOfDigits(y);
    WordOfDigits(m);
    WordOfDigits(dd);
    WordAppend(y, m);
    WordAppend(y + m, dd);
    if d.time.Some? {
      var t := d.time.value;
      var h, mi, sec := ZeroPad(t.hour, 2), ZeroPad(t.minute, 2), ZeroPad(t.second, 2);
      var z := if t.offset == Some(0) then "Z" else "";
      WordOfDigits(h);
      WordOfDigits(mi);
      WordOfDigits(sec);
      WordAppend("T", h);
      WordAppend("T" + h, mi);
      WordAppend("T" + h + mi, sec);
      WordAppend("T" + h + mi + sec, z);
      WordAppend(y + m + dd, "T" + h + mi + sec + z);
    }
  }

  lemma {:induction false} NWeekdayWord(x: NWeekdays.NWeekday)
    ensures Word(NWeekdays.ToText(x))
  {
    var code := Weekdays.ToText(x.weekday);
    assert Word(code);
    if x.n.Some? {
      WordOfInt(x.n.value);
      WordAppend(IntToString(x.n.value), code);
    }
  }

  lemma {:induction false} MonthWord(m: Months.Month)
    ensures Word(Months.ToText(m))
  {
    Months.ToTextIsNumber(m);
    WordOfDigits(NatToString(Months.Number(m)));
  }

  lemma {:induction false} ListWord<T>(xs: seq<T>, show: T -> string)
    requires forall i :: 0 <= i < |xs| ==> Word(show(xs[i]))
    ensures ListText(xs, show).Some? ==> Word(ListText(xs, show).value)
  {
    if |xs| > 0 {
      WordJoin(Map(xs, show));
    }
  }

  /** The texts of the scalar parts are words. */
  lemma {:induction false} ScalarWords(r: RRule)
    ensures forall i :: 0 <= i < 4 && Fields(r)[i].1.Some? ==> Word(Fields(r)[i].1.value)
    ensures Fields(r)[13].1.Some? ==> Word(Fields(r)[13].1.value)
  {
    FrequencyWord(r.frequency);
    if r.interval.Some? {
      WordOfInt(r.interval.value);
    }
    if r.count.Some? {
      WordOfInt(r.count.value);
    }
    if r.until.Some? {
      DateWord(r.until.value);
    }
    if r.weekstart.Some? {
      WeekdayWord(r.weekstart.value);
    }
  }

  lemma {:induction false} IntsWord(xs: seq<int>)
    ensures forall i :: 0 <= i < |xs| ==> Word(IntToString(xs[i]))
  {
    forall i | 0 <= i < |xs| ensures Word(IntToString(xs[i])) {
      WordOfInt(xs[i]);
    }
  }

  /** The texts of the numeric list parts are words. */
  lemma {:induction false} NumberWords(r: RRule)
    ensures forall i :: 4 <= i < 10 && Fields(r)[i].1.Some? ==> Word(Fields(r)[i].1.value)
    ensures Fields(r)[11].1.Some? ==> Word(Fields(r)[11].1.value)
  {
    IntsWord(r.byHour);
    ListWord(r.byHour, U8Text);
    IntsWord(r.byMinute);
    ListWord(r.byMinute, U8Text);
    IntsWord(r.bySecond);
    ListWord(r.bySecond, U8Text);
    IntsWord(r.byMonthday);
    ListWord(r.byMonthday, I8Text);
    IntsWord(r.byYearday);
    ListWord(r.byYearday, I16Text);
    IntsWord(r.bySetpos);
    ListWord(r.bySetpos, I32Text);
    IntsWord(r.byWeekno);
    ListWord(r.byWeekno, I8Text);
  }

  /** The texts of BYMONTH and BYDAY are words. */
  lemma {:induction false} NameWords(r: RRule)
    ensures Fields(r)[10].1.Some? ==> Word(Fields(r)[10].1.value)
    ensures Fields(r)[12].1.Some? ==> Word(Fields(r)[12].1.value)
  {
    forall i | 0 <= i < |r.byMonth| ensures Word(Months.ToText(r.byMonth[i])) {
      MonthWord(r.byMonth[i]);
    }
    ListWord(r.byMonth, Months.ToText);
    forall i | 0 <= i < |r.byDay| ensures Word(NWeekdays.ToText(r.byDay[i])) {
      NWeekdayWord(r.byDay[i]);
    }
    ListWord(r.byDay, NWeekdays.ToText);
  }

  /** The RRULE property `to_property` builds renders as a line the tokenizer reads back. */
  lemma {:induction false} ToPropertyWellFormed(r: RRule)
    ensures WellFormed(Property("RRULE", [], Multiple(Parts(r))))
  {
    var fs := Fields(r);
    assert forall i :: 0 <= i < |fs| ==> Word(fs[i].0) && (fs[i].1.Some? ==> Word(fs[i].1.value)) by {
      FieldsKeys(r);
      KeysUpper();
      assert forall i :: 0 <= i < |fs| ==> fs[i].0 == KEYS[i] by {
        assert forall i :: 0 <= i < |fs| ==> FieldKeys(fs)[i] == fs[i].0;
      }
      ScalarWords(r);
      NumberWords(r);
      NameWords(r);
    }
    PresentAllPlain(fs);
    assert Distinct(Keys(Parts(r))) by {
      FieldsKeys(r);
      PresentDistinct(fs);
    }
    WordPlain("RRULE");
  }

  /** `RRule::to_string`: the rendering of `to_property`. */
  method ToString(r: RRule) returns (s: string)
    ensures s == Render(Property("RRULE", [], Multiple(Parts(r))))
  {
    var p := ToProperty(r);
    s := PropertyText.ToString(p);
  }

  /** The line always starts with `RRULE:` in some case, a text that already does is kept, and so normalising twice changes nothing. */
  lemma {:induction false} LineSpec(s: string)
    ensures StartsWith(Upper(Line(s)), "RRULE:")
    ensures StartsWith(Upper(s), "RRULE:") ==> Line(s) == s
    ensures !StartsWith(Upper(s), "RRULE:") ==> Line(s) == "RRULE:" + s
    ensures Line(Line(s)) == Line(s)
  {
    if !StartsWith(Upper(s), "RRULE:") {
      UpperAppend("RRULE:", s);
      assert NoLower("RRULE:");
      UpperOfNoLower("RRULE:");
      assert Upper(Line(s))[..6] == "RRULE:";
    }
  }

  /** A text without the `RRULE:` prefix reads as the same text with it. */
  lemma {:induction false} FromStrAddsPrefix(s: string)
    ensures FromStr(s) == FromStr(Line(s))
  {
    LineSpec(s);
  }

  /** The rendered rule starts with its `RRULE:` prefix, so `from_str` reads it as it stands. */
  lemma {:induction false} LineOfRender(r: RRule)
    ensures Line(Render(Property("RRULE", [], Multiple(Parts(r))))) == Render(Property("RRULE", [], Multiple(Parts(r))))
  {
    var t := ValueText(Multiple(Parts(r)));
    assert Suffix([]) == "";
    assert Render(Property("RRULE", [], Multiple(Parts(r)))) == "RRULE:" + t;
    UpperAppend("RRULE:", t);
    assert NoLower("RRULE:");
    UpperOfNoLower("RRULE:");
    assert Upper("RRULE:" + t)[..6] == "RRULE:";
  }

  /** `from_str` of `to_string` gives the rule back, except that an UNTIL offset other than zero is not kept. */
  lemma {:induction false} TextRoundTrip(r: RRule)
    requires UntilFits(r)
    ensures FromStr(Render(Property("RRULE", [], Multiple(Parts(r))))) == Ok(Normalised(r))
  {
    var p := Property("RRULE", [], Multiple(Parts(r)));
    LineOfRender(r);
    ToPropertyWellFormed(r);
    FromStringOfRender(p);
    PartsRoundTrip(r);
  }

  /** Read back as an RRULE or an EXRULE, whatever its parameters, the map `to_property` writes gives the rule back. */
  lemma {:induction false} PropertyRoundTrip(r: RRule, name: string, params: Entries)
    requires UntilFits(r) && (name == "RRULE" || name == "EXRULE")
    ensures FromProperty(Property(name, params, Multiple(Parts(r)))) == Ok(Normalised(r))
  {
    PartsRoundTrip(r);
  }

  /** The round trip is exact precisely when UNTIL, if it has a time, has no offset or a zero one. */
  lemma {:induction false} RoundTripExact(r: RRule)
    requires UntilFits(r)
    ensures FromEntries(Parts(r)) == Ok(r) <==> (r.until.Some? && r.until.value.time.Some? ==> r.until.value.time.value.offset in {None, Some(0)})
  {
    PartsRoundTrip(r);
    if r.until.Some? {
      DateTimes.WithoutOffsetFixed(r.until.value);
      if Normalised(r) == r {
        assert Normalised(r).until == r.until;
      }
    }
  }

  /** Each way `from_property` fails, with its message. */
  lemma {:induction false} FromPropertyErrors(p: Property)
    ensures p.name != "RRULE" && p.name != "EXRULE" ==> FromProperty(p) == Err("Invalid property name: " + p.name)
    ensures (p.name == "RRULE" || p.name == "EXRULE") && p.value.Single? ==> FromProperty(p) == Err("Invalid " + p.name + ": " + p.value.text)
    ensures (p.name == "RRULE" || p.name == "EXRULE") && p.value.Multiple? ==> FromProperty(p) == FromEntries(p.value.entries)
  {
  }

  /** FREQ is read first: without it, or when it does not parse, nothing else is looked at. */
  lemma {:induction false} FreqRequired(e: Entries)
    ensures Get(e, "FREQ").None? ==> FromEntries(e) == Err("FREQ is required")
    ensures Get(e, "FREQ").Some? && ParseFrequency(Get(e, "FREQ").value).None? ==> FromEntries(e) == Err("Invalid FREQ value: " + Get(e, "FREQ").value)
  {
    if Get(e, "FREQ").Some? {
      var t := Get(e, "FREQ").value;
      assert "Invalid " + "FREQ" + " value: " + t == "Invalid FREQ value: " + t;
    }
  }

  /** `new` writes FREQ alone. */
  lemma {:induction false} NewParts(f: Frequencies.Frequency)
    ensures Parts(New(f)) == [("FREQ", Frequencies.ToText(f))]
  {
    ChainIsParts(New(f));
    assert NoLower("FREQ");
    UpperOfNoLower("FREQ");
  }
}
