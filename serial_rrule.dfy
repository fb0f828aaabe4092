/**
 * The rule text of the host-facing rule (lib/serialization/rrule.rs): the RRULE property
 * written from a rule's parts, and a rule read back from an RRULE or EXRULE property
 * (section 3.3.10 of RFC 5545).  The rule belongs to the recurrence engine the code
 * binds to; it is modelled by the record `Rule` of the parts this code reads and writes,
 * with the engine's defaults: an interval of 1 and weeks starting on Monday.  UNTIL is
 * held as the engine's getter gives it to this code: a host date-time packed into an
 * `i64` (lib/js/rrule.rs:344-353).
 *
 * Unlike lib/rrule/rrule.rs, this version leaves out INTERVAL when it is 1 and WKST when
 * it is Monday, writes BYDAY through the host weekday text (which drops the ordinal 1),
 * looks keys up exactly as written, and reads a rule without FREQ as a daily one.
 */
module SerialRRules {
  import opened Wrappers
  import opened Strings
  import opened Lists
  import opened Ints
  import opened Params
  import opened PropertyText
  import Frequencies
  import Weekdays
  import Months
  import NWeekdays
  import JsNWeekdays
  import DateTimes
  import JsDateTimes
  import ToVec
  import ToStringArray
  import RRules

  datatype Rule = Rule(
    frequency: Frequencies.Frequency,
    interval: U16,
    count: Option<U32>,
    until: Option<I64>,
    weekstart: Weekdays.Weekday,
    bySetpos: seq<I32>,
    byMonth: seq<Months.Month>,
    byMonthday: seq<I8>,
    byWeekno: seq<I8>,
    byHour: seq<U8>,
    byMinute: seq<U8>,
    bySecond: seq<U8>,
    byYearday: seq<I16>,
    byDay: seq<NWeekdays.NWeekday>)

  /** The engine's `RRule::new(frequency)`: every other part at its default. */
  function New(frequency: Frequencies.Frequency): Rule {
    Rule(frequency, 1, None, None, Weekdays.Monday, [], [], [], [], [], [], [], [], [])
  }

  // ---------------------------------------------------------------------------
  // Writing

  /** INTERVAL is written only above 1. */
  function IntervalText(interval: U16): Option<string> {
    if interval > 1 then Some(U16Text(interval)) else None
  }

  /** WKST is written only for a week that does not start on Monday. */
  function WeekstartText(weekstart: Weekdays.Weekday): Option<string> {
    if weekstart != Weekdays.Monday then Some(Weekdays.ToText(weekstart)) else None
  }

  /** The keys `into` may write, in the order it inserts them. */
  const KEYS: seq<string> := ["FREQ", "COUNT", "UNTIL", "INTERVAL", "WKST", "BYSETPOS", "BYMONTH",
    "BYMONTHDAY", "BYWEEKNO", "BYHOUR", "BYMINUTE", "BYSECOND", "BYYEARDAY", "BYDAY"]

  /** Each key with the text `into` inserts under it, if any. */
  function Fields(r: Rule): seq<Field> {
    [("FREQ", Some(Frequencies.ToText(r.frequency))),
     ("COUNT", RRules.OptText<U32>(r.count, U32Text)),
     ("UNTIL", RRules.OptText<I64>(r.until, JsDateTimes.StampText)),
     ("INTERVAL", IntervalText(r.interval)),
     ("WKST", WeekstartText(r.weekstart)),
     ("BYSETPOS", RRules.ListText<I32>(r.bySetpos, I32Text)),
     ("BYMONTH", RRules.ListText<Months.Month>(r.byMonth, Months.ToText)),
     ("BYMONTHDAY", RRules.ListText<I8>(r.byMonthday, I8Text)),
     ("BYWEEKNO", RRules.ListText<I8>(r.byWeekno, I8Text)),
     ("BYHOUR", RRules.ListText<U8>(r.byHour, U8Text)),
     ("BYMINUTE", RRules.ListText<U8>(r.byMinute, U8Text)),
     ("BYSECOND", RRules.ListText<U8>(r.bySecond, U8Text)),
     ("BYYEARDAY", RRules.ListText<I16>(r.byYearday, I16Text)),
     ("BYDAY", RRules.ListText<NWeekdays.NWeekday>(r.byDay, JsNWeekdays.ToText))]
  }

  /** The rule parts written: the set ones, in the order of `KEYS`. */
  function Parts(r: Rule): Entries {
    Present(Fields(r))
  }

  function PropertyOf(r: Rule): Property {
    Property("RRULE", [], Multiple(Parts(r)))
  }

  lemma {:induction false} KeysDistinct()
    ensures Distinct(KEYS)
  {
    forall i, j | 0 <= i < j < |KEYS| ensures KEYS[i] != KEYS[j] {
      assert |KEYS[i]| != |KEYS[j]| || KEYS[i][0] != KEYS[j][0] || KEYS[i][2] != KEYS[j][2] || KEYS[i][3] != KEYS[j][3] || KEYS[i][4] != KEYS[j][4];
    }
  }

  lemma {:induction false} KeysUpper()
    ensures forall i :: 0 <= i < |KEYS| ==> Word(KEYS[i]) && NoLower(KEYS[i]) && Upper(KEYS[i]) == KEYS[i]
  {
    forall i | 0 <= i < |KEYS| ensures Word(KEYS[i]) && NoLower(KEYS[i]) && Upper(KEYS[i]) == KEYS[i] {
      assert forall j :: 0 <= j < |KEYS[i]| ==> 'A' <= KEYS[i][j] <= 'Z';
      WordPlain(KEYS[i]);
      UpperOfNoLower(KEYS[i]);
    }
  }

  lemma {:induction false} FieldsKeys(r: Rule)
    ensures FieldKeys(Fields(r)) == KEYS && KeyedFields(Fields(r))
  {
    KeysDistinct();
    KeysUpper();
  }

  /**
   * The map `into` leaves, insert by insert. Its first argument is the innermost, so it
   * reads inside out; `ChainIsParts` says what it holds.
   */
  ghost function Chain(r: Rule): Entries {
    PutIfSet(PutIfSet(PutIfSet(PutIfSet(PutIfSet(PutIfSet(PutIfSet(PutIfSet(PutIfSet(PutIfSet(PutIfSet(PutIfSet(PutIfSet(Put([], Upper("FREQ"), Frequencies.ToText(r.frequency)), Upper("COUNT"), RRules.OptText<U32>(r.count, U32Text)), Upper("UNTIL"), RRules.OptText<I64>(r.until, JsDateTimes.StampText)), Upper("INTERVAL"), IntervalText(r.interval)), Upper("WKST"), WeekstartText(r.weekstart)), Upper("BYSETPOS"), RRules.ListText<I32>(r.bySetpos, I32Text)), Upper("BYMONTH"), RRules.ListText<Months.Month>(r.byMonth, Months.ToText)), Upper("BYMONTHDAY"), RRules.ListText<I8>(r.byMonthday, I8Text)), Upper("BYWEEKNO"), RRules.ListText<I8>(r.byWeekno, I8Text)), Upper("BYHOUR"), RRules.ListText<U8>(r.byHour, U8Text)), Upper("BYMINUTE"), RRules.ListText<U8>(r.byMinute, U8Text)), Upper("BYSECOND"), RRules.ListText<U8>(r.bySecond, U8Text)), Upper("BYYEARDAY"), RRules.ListText<I16>(r.byYearday, I16Text)), Upper("BYDAY"), RRules.ListText<NWeekdays.NWeekday>(r.byDay, JsNWeekdays.ToText))
  }

  /** The inserts of `into` are those of its fields, one at a time. */
  lemma {:induction false} ChainIsBuilt(r: Rule)
    ensures Chain(r) == Built(Fields(r)[..14])
  {
    var fs := Fields(r);
    var e := Put([], Upper("FREQ"), Frequencies.ToText(r.frequency));
    BuiltStep(fs, 0);
    e := PutIfSet(e, Upper("COUNT"), RRules.OptText<U32>(r.count, U32Text));
    BuiltStep(fs, 1);
    e := PutIfSet(e, Upper("UNTIL"), RRules.OptText<I64>(r.until, JsDateTimes.StampText));
    BuiltStep(fs, 2);
    e := PutIfSet(e, Upper("INTERVAL"), IntervalText(r.interval));
    BuiltStep(fs, 3);
    e := PutIfSet(e, Upper("WKST"), WeekstartText(r.weekstart));
    BuiltStep(fs, 4);
    e := PutIfSet(e, Upper("BYSETPOS"), RRules.ListText<I32>(r.bySetpos, I32Text));
    BuiltStep(fs, 5);
    e := PutIfSet(e, Upper("BYMONTH"), RRules.ListText<Months.Month>(r.byMonth, Months.ToText));
    BuiltStep(fs, 6);
    e := PutIfSet(e, Upper("BYMONTHDAY"), RRules.ListText<I8>(r.byMonthday, I8Text));
    BuiltStep(fs, 7);
    e := PutIfSet(e, Upper("BYWEEKNO"), RRules.ListText<I8>(r.byWeekno, I8Text));
    BuiltStep(fs, 8);
    e := PutIfSet(e, Upper("BYHOUR"), RRules.ListText<U8>(r.byHour, U8Text));
    BuiltStep(fs, 9);
    e := PutIfSet(e, Upper("BYMINUTE"), RRules.ListText<U8>(r.byMinute, U8Text));
    BuiltStep(fs, 10);
    e := PutIfSet(e, Upper("BYSECOND"), RRules.ListText<U8>(r.bySecond, U8Text));
    BuiltStep(fs, 11);
    e := PutIfSet(e, Upper("BYYEARDAY"), RRules.ListText<I16>(r.byYearday, I16Text));
    BuiltStep(fs, 12);
    e := PutIfSet(e, Upper("BYDAY"), RRules.ListText<NWeekdays.NWeekday>(r.byDay, JsNWeekdays.ToText));
    BuiltStep(fs, 13);
    assert e == Chain(r);
  }

  /** The inserts of `into` leave exactly the set parts, in `KEYS` order. */
  lemma {:induction false} ChainIsParts(r: Rule)
    ensures Chain(r) == Parts(r)
  {
    var fs := Fields(r);
    ChainIsBuilt(r);
    assert |fs| == 14 && fs[..|fs|] == fs;
    FieldsKeys(r);
    BuiltIsPresent(fs);
  }

  /** The keys `into` writes are in upper case already, so `Upper` leaves them as they are. */
  lemma {:induction false} KeysAsWritten()
    ensures Upper("FREQ") == "FREQ" && Upper("COUNT") == "COUNT" && Upper("UNTIL") == "UNTIL" && Upper("INTERVAL") == "INTERVAL" && Upper("WKST") == "WKST" && Upper("BYSETPOS") == "BYSETPOS" && Upper("BYMONTH") == "BYMONTH" && Upper("BYMONTHDAY") == "BYMONTHDAY" && Upper("BYWEEKNO") == "BYWEEKNO" && Upper("BYHOUR") == "BYHOUR" && Upper("BYMINUTE") == "BYMINUTE" && Upper("BYSECOND") == "BYSECOND" && Upper("BYYEARDAY") == "BYYEARDAY" && Upper("BYDAY") == "BYDAY"
  {
    KeysUpper();
    assert KEYS == ["FREQ", "COUNT", "UNTIL", "INTERVAL", "WKST", "BYSETPOS", "BYMONTH", "BYMONTHDAY", "BYWEEKNO", "BYHOUR", "BYMINUTE", "BYSECOND", "BYYEARDAY", "BYDAY"];
  }

  /** One `if … { value.insert(key, text) }` step of `into`, on the insertion-ordered map. */
  method InsertIfSet(value: Entries, key: string, text: Option<string>) returns (e: Entries)
    ensures e == PutIfSet(value, key, text)
  {
    e := value;
    if text.Some? {
      e := Put(e, key, text.value);
    }
  }

  /**
   * `Into<Property> for &RRule`: a fresh insertion-ordered map receives FREQ, then each
   * part that is set and differs from its default, in the fixed order of `KEYS`; the
   * property is named RRULE, has no parameters, and holds the map.
   */
  method ToProperty(r: Rule) returns (p: Property)
    ensures p == PropertyOf(r)
  {
    var value: Entries := [];
    value := Put(value, "FREQ", Frequencies.ToText(r.frequency));
    value := InsertIfSet(value, "COUNT", RRules.OptText<U32>(r.count, U32Text));
    value := InsertIfSet(value, "UNTIL", RRules.OptText<I64>(r.until, JsDateTimes.StampText));
    value := InsertIfSet(value, "INTERVAL", IntervalText(r.interval));
    value := InsertIfSet(value, "WKST", WeekstartText(r.weekstart));
    value := InsertIfSet(value, "BYSETPOS", RRules.ListText<I32>(r.bySetpos, I32Text));
    value := InsertIfSet(value, "BYMONTH", RRules.ListText<Months.Month>(r.byMonth, Months.ToText));
    value := InsertIfSet(value, "BYMONTHDAY", RRules.ListText<I8>(r.byMonthday, I8Text));
    value := InsertIfSet(value, "BYWEEKNO", RRules.ListText<I8>(r.byWeekno, I8Text));
    value := InsertIfSet(value, "BYHOUR", RRules.ListText<U8>(r.byHour, U8Text));
    value := InsertIfSet(value, "BYMINUTE", RRules.ListText<U8>(r.byMinute, U8Text));
    value := InsertIfSet(value, "BYSECOND", RRules.ListText<U8>(r.bySecond, U8Text));
    value := InsertIfSet(value, "BYYEARDAY", RRules.ListText<I16>(r.byYearday, I16Text));
    value := InsertIfSet(value, "BYDAY", RRules.ListText<NWeekdays.NWeekday>(r.byDay, JsNWeekdays.ToText));
    KeysAsWritten();
    assert value == Chain(r);
    ChainIsParts(r);
    p := Property("RRULE", [], Multiple(value));
  }

  /** `Into<String> for &RRule`: the rendered property without its first six characters. */
  function Text(r: Rule): string {
    Render(PropertyOf(r))[6..]
  }

  method ToString(r: Rule) returns (s: string)
    ensures s == Text(r)
  {
    var p := ToProperty(r);
    var line := PropertyText.ToString(p);
    s := line[6..];
  }

  // ---------------------------------------------------------------------------
  // Reading

  /** A scalar part: absent, or parsed, or the error naming the key and the raw text. */
  function Scalar<T>(e: Entries, key: string, parse: string -> Option<T>): Result<Option<T>, string> {
    match Lookup(e, key)
    case None => Ok(None)
    case Some(v) =>
      match parse(v)
      case None => Err("Invalid " + key + " value: " + v)
      case Some(x) => Ok(Some(x))
  }

  /**
   * A list part, read with `to_vec` (split on ',' and every piece parsed); its error is
   * replaced by one naming the key and the whole raw text.
   */
  function Items<T>(e: Entries, key: string, parse: string -> Option<T>, typeName: string): Result<Option<seq<T>>, string> {
    match Lookup(e, key)
    case None => Ok(None)
    case Some(v) =>
      match TryMap(Split(v, ','), ToVec.Convert(parse, typeName))
      case Err(_) => Err("Invalid " + key + " value: " + v)
      case Ok(xs) => Ok(Some(xs))
  }

  /**
   * The body of `TryFrom<Property>` once the value is a map: a daily rule, updated by
   * each part that is present, read in the source's order; the first bad part ends
   * the read with its error.  BYMONTH is read with the numeric month codec of
   * lib/rrule/month.rs, standing in for chrono's `Month` parser.
   */
  function FromEntries(e: Entries): Result<Rule, string> {
    var d := New(Frequencies.Daily);
    var frequency :- Scalar(e, "FREQ", RRules.ParseFrequency);
    var interval :- Scalar(e, "INTERVAL", ParseU16);
    var until :- Scalar(e, "UNTIL", ParseUntil);
    var count :- Scalar(e, "COUNT", ParseU32);
    var byHour :- Items(e, "BYHOUR", ParseU8, "u8");
    var byMinute :- Items(e, "BYMINUTE", ParseU8, "u8");
    var bySecond :- Items(e, "BYSECOND", ParseU8, "u8");
    var byMonth :- Items(e, "BYMONTH", RRules.ParseMonth, "Month");
    var weekstart :- Scalar(e, "WKST", RRules.ParseWeekday);
    var byDay :- Items(e, "BYDAY", RRules.ParseNWeekday, "NWeekday");
    var bySetpos :- Items(e, "BYSETPOS", ParseI32, "i32");
    var byMonthday :- Items(e, "BYMONTHDAY", ParseI8, "i8");
    var byYearday :- Items(e, "BYYEARDAY", ParseI16, "i16");
    var byWeekno :- Items(e, "BYWEEKNO", ParseI8, "i8");
    Ok(Rule(frequency.UnwrapOr(d.frequency), interval.UnwrapOr(d.interval), count, until,
      weekstart.UnwrapOr(d.weekstart), bySetpos.UnwrapOr([]), byMonth.UnwrapOr([]), byMonthday.UnwrapOr([]),
      byWeekno.UnwrapOr([]), byHour.UnwrapOr([]), byMinute.UnwrapOr([]), bySecond.UnwrapOr([]),
      byYearday.UnwrapOr([]), byDay.UnwrapOr([])))
  }

  /** `TryFrom<Property> for RRule`: an RRULE or EXRULE property whose value is a map. */
  function FromProperty(p: Property): Result<Rule, string> {
    if p.name != "RRULE" && p.name != "EXRULE" then Err("Invalid property name: " + p.name)
    else
      match p.value
      case Single(t) => Err("Invalid " + p.name + ": " + t)
      case Multiple(e) => FromEntries(e)
  }

  /** `FromStr for RRule`: the line with its `RRULE:` prefix, parsed as a property, then read. */
  function FromStr(s: string): Result<Rule, string> {
    match PropertyText.FromString(RRules.Line(s))
    case Err(err) => Err(Message(err))
    case Ok(p) => FromProperty(p)
  }

  // ---------------------------------------------------------------------------
  // What is written

  /** Each key written finds the text of its own part. */
  lemma {:induction false} PartsGet(r: Rule, i: nat)
    requires i < |KEYS|
    ensures Lookup(Parts(r), KEYS[i]) == Fields(r)[i].1
  {
    FieldsKeys(r);
    assert Fields(r)[i].0 == FieldKeys(Fields(r))[i];
    PresentLookup(Fields(r), i);
  }

  /**
   * The keys appear in the fixed order FREQ, COUNT, UNTIL, INTERVAL, WKST, BYSETPOS,
   * BYMONTH, BYMONTHDAY, BYWEEKNO, BYHOUR, BYMINUTE, BYSECOND, BYYEARDAY, BYDAY, each
   * at most once; INTERVAL is there only above 1, WKST only when not Monday, and a
   * list only when it is not empty.
   */
  lemma {:induction false} WrittenParts(r: Rule)
    ensures Subsequence(Keys(Parts(r)), KEYS) && Distinct(Keys(Parts(r)))
    ensures Lookup(Parts(r), "FREQ") == Some(Frequencies.ToText(r.frequency))
    ensures Lookup(Parts(r), "INTERVAL").Some? <==> r.interval > 1
    ensures Lookup(Parts(r), "WKST").Some? <==> r.weekstart != Weekdays.Monday
    ensures Lookup(Parts(r), "BYSETPOS").Some? <==> |r.bySetpos| > 0
    ensures Lookup(Parts(r), "BYDAY").Some? <==> |r.byDay| > 0
  {
    FieldsKeys(r);
    KeysDistinct();
    PresentKeys(Fields(r));
    PresentDistinct(Fields(r));
    PartsGet(r, 0);
    PartsGet(r, 3);
    PartsGet(r, 4);
    PartsGet(r, 5);
    PartsGet(r, 13);
  }

  /** The first entry of the conditional inserts is the first field, when that one is set. */
  lemma {:induction false} PresentHead(fs: seq<Field>)
    requires |fs| > 0 && fs[0].1.Some?
    ensures |Present(fs)| > 0 && Present(fs)[0] == (fs[0].0, fs[0].1.value)
    decreases |fs|
  {
    if |fs| > 1 {
      var init := fs[..|fs| - 1];
      assert init[0] == fs[0];
      PresentHead(init);
    }
  }

  /** The string form is the property's value text: the rendering is `RRULE:` followed by it, and it starts with `FREQ=`. */
  lemma {:induction false} TextIsValue(r: Rule)
    ensures "RRULE:" + Text(r) == Render(PropertyOf(r))
    ensures Text(r) == ValueText(Multiple(Parts(r)))
    ensures |Text(r)| >= 5 && Text(r)[..5] == "FREQ="
  {
    var t := ValueText(Multiple(Parts(r)));
    assert Suffix([]) == "";
    assert Render(PropertyOf(r)) == "RRULE:" + t;
    FirstPart(r);
    var parts := Map(Parts(r), PairText);
    assert parts[0] == PairText(Parts(r)[0]);
    assert parts[0][..5] == "FREQ=";
    assert |parts| == 1 || t == parts[0] + [';'] + Join(parts[1..], ';');
  }

  /** The first part written is FREQ. */
  lemma {:induction false} FirstPart(r: Rule)
    ensures |Parts(r)| > 0 && Parts(r)[0] == ("FREQ", Frequencies.ToText(r.frequency))
  {
    PresentHead(Fields(r));
  }

  // ---------------------------------------------------------------------------
  // Reading back what is written

  /** The parts an ordinal-weekday text keeps: the ordinals 0 and 1 are not written. */
  function ReadDay(x: NWeekdays.NWeekday): NWeekdays.NWeekday {
    if x.n == Some(0) || x.n == Some(1) then NWeekdays.NWeekday(None, x.weekday) else x
  }

  /** The UNTIL date, if any, is a stamp: a packing of a date-time whose fields print in their widths. */
  predicate UntilFits(r: Rule) {
    r.until.Some? ==> JsDateTimes.Stamp(r.until.value)
  }

  /**
   * What the text form keeps of a rule: an interval of 0 comes back as the default 1,
   * and BYDAY ordinals 0 and 1 are dropped.  A stamped UNTIL comes back as it is.
   */
  function Normalised(r: Rule): Rule {
    r.(interval := if r.interval == 0 then 1 else r.interval,
       byDay := Map(r.byDay, ReadDay))
  }

  /**
   * UNTIL is read as a host date-time and handed to the engine, whose getter gives it
   * back packed (lib/serialization/rrule.rs:185-193, lib/js/rrule.rs:344-353); the
   * engine's round trip through a chrono date-time is taken to keep the fields.  The
   * refusal of `to_rrule_datetime` for a time with no unique reading in the local zone
   * (lib/js/datetime.rs:25-44) is not modelled: every parsed date-time is accepted.
   */
  function ParseUntil(s: string): Option<I64> {
    match JsDateTimes.Parse(s)
    case Err(_) => None
    case Ok(d) => Some(JsDateTimes.ToI64(d))
  }

  /** When each part reads back as the rule's own, the whole rule does. */
  lemma {:induction false} FromEntriesOf(e: Entries, r: Rule)
    requires Scalar(e, "FREQ", RRules.ParseFrequency) == Ok(Some(r.frequency))
    requires Scalar(e, "INTERVAL", ParseU16) == Ok(if r.interval == 1 then None else Some(r.interval))
    requires Scalar(e, "UNTIL", ParseUntil) == Ok(r.until)
    requires Scalar(e, "COUNT", ParseU32) == Ok(r.count)
    requires Items(e, "BYHOUR", ParseU8, "u8") == Ok(RRules.Listed(r.byHour))
    requires Items(e, "BYMINUTE", ParseU8, "u8") == Ok(RRules.Listed(r.byMinute))
    requires Items(e, "BYSECOND", ParseU8, "u8") == Ok(RRules.Listed(r.bySecond))
    requires Items(e, "BYMONTH", RRules.ParseMonth, "Month") == Ok(RRules.Listed(r.byMonth))
    requires Scalar(e, "WKST", RRules.ParseWeekday) == Ok(if r.weekstart == Weekdays.Monday then None else Some(r.weekstart))
    requires Items(e, "BYDAY", RRules.ParseNWeekday, "NWeekday") == Ok(RRules.Listed(r.byDay))
    requires Items(e, "BYSETPOS", ParseI32, "i32") == Ok(RRules.Listed(r.bySetpos))
    requires Items(e, "BYMONTHDAY", ParseI8, "i8") == Ok(RRules.Listed(r.byMonthday))
    requires Items(e, "BYYEARDAY", ParseI16, "i16") == Ok(RRules.Listed(r.byYearday))
    requires Items(e, "BYWEEKNO", ParseI8, "i8") == Ok(RRules.Listed(r.byWeekno))
    ensures FromEntries(e) == Ok(r)
  {
  }

  /** A scalar part reads back through `Scalar` when its text parses to the expected value. */
  lemma {:induction false} ScalarReadsBack<T>(r: Rule, i: nat, parse: string -> Option<T>, y: Option<T>)
    requires i < |KEYS|
    requires Fields(r)[i].1.None? ==> y.None?
    requires Fields(r)[i].1.Some? ==> y.Some? && parse(Fields(r)[i].1.value) == Some(y.value)
    ensures Scalar(Parts(r), KEYS[i], parse) == Ok(y)
  {
    PartsGet(r, i);
  }

  /** A list part reads back through `Items` when no item's text holds a comma and each parses to the expected value. */
  lemma {:induction false} ItemsReadBack<T, U>(r: Rule, i: nat, xs: seq<T>, show: T -> string, parse: string -> Option<U>, ys: seq<U>, typeName: string)
    requires i < |KEYS| && Fields(r)[i].1 == RRules.ListText(xs, show)
    requires |ys| == |xs| && forall j :: 0 <= j < |xs| ==> ',' !in show(xs[j]) && parse(show(xs[j])) == Some(ys[j])
    ensures Items(Parts(r), KEYS[i], parse, typeName) == Ok(RRules.Listed(ys))
  {
    PartsGet(r, i);
    if |xs| > 0 {
      var texts := Map(xs, show);
      assert NoneContains(texts, ',');
      SplitJoin(texts, ',');
      TryMapAllOk(texts, ToVec.Convert(parse, typeName), ys);
    }
  }

  lemma {:induction false} FreqReadsBack(r: Rule)
    ensures Scalar(Parts(r), "FREQ", RRules.ParseFrequency) == Ok(Some(r.frequency))
  {
    Frequencies.FromStrToText(r.frequency);
    ScalarReadsBack(r, 0, RRules.ParseFrequency, Some(r.frequency));
  }

  lemma {:induction false} CountReadsBack(r: Rule)
    ensures Scalar(Parts(r), "COUNT", ParseU32) == Ok(r.count)
  {
    if r.count.Some? {
      ParsersInvertToString(0, 0, 0, 0, r.count.value, 0);
    }
    ScalarReadsBack(r, 1, ParseU32, r.count);
  }

  lemma {:induction false} UntilReadsBack(r: Rule)
    requires UntilFits(r)
    ensures Scalar(Parts(r), "UNTIL", ParseUntil) == Ok(Normalised(r).until)
  {
    if r.until.Some? {
      JsDateTimes.StampReadBack(r.until.value);
    }
    ScalarReadsBack(r, 2, ParseUntil, Normalised(r).until);
  }

  /**
   * A date alone as UNTIL (`UNTIL=20240101`) is read as local midnight of that day, and
   * so is written back with the time: `UNTIL=20240101T000000`.
   */
  lemma {:induction false} DateOnlyUntilIsMidnight(s: string)
    requires DateTimes.FromStr(s).Ok? && DateTimes.FromStr(s).value.time.None?
    ensures var d := DateTimes.FromStr(s).value;
      ParseUntil(s) == Some(JsDateTimes.ToI64(JsDateTimes.DateTime(d.year, d.month, d.day, 0, 0, 0, false)))
    ensures var d := DateTimes.FromStr(s).value;
      DateTimes.FitsWidths(d) ==> JsDateTimes.StampText(JsDateTimes.ToI64(JsDateTimes.DateTime(d.year, d.month, d.day, 0, 0, 0, false))) == DateTimes.ToText(d) + "T000000"
  {
    var d := DateTimes.FromStr(s).value;
    var m := JsDateTimes.DateTime(d.year, d.month, d.day, 0, 0, 0, false);
    JsDateTimes.DateReadsAsMidnight(s);
    if DateTimes.FitsWidths(d) {
      JsDateTimes.FromI64OfToI64(m);
    }
  }

  lemma {:induction false} IntervalReadsBack(r: Rule)
    ensures Scalar(Parts(r), "INTERVAL", ParseU16) == Ok(if r.interval > 1 then Some(r.interval) else None)
  {
    ParsersInvertToString(0, 0, r.interval, 0, 0, 0);
    ScalarReadsBack(r, 3, ParseU16, if r.interval > 1 then Some(r.interval) else None);
  }

  lemma {:induction false} WeekstartReadsBack(r: Rule)
    ensures Scalar(Parts(r), "WKST", RRules.ParseWeekday) == Ok(if r.weekstart == Weekdays.Monday then None else Some(r.weekstart))
  {
    Weekdays.FromStrToText(r.weekstart);
    ScalarReadsBack(r, 4, RRules.ParseWeekday, if r.weekstart == Weekdays.Monday then None else Some(r.weekstart));
  }

  lemma {:induction false} BySetposReadsBack(r: Rule)
    ensures Items(Parts(r), "BYSETPOS", ParseI32, "i32") == Ok(RRules.Listed(r.bySetpos))
  {
    RRules.I32sReadBack(r.bySetpos);
    ItemsReadBack<I32, I32>(r, 5, r.bySetpos, I32Text, ParseI32, r.bySetpos, "i32");
  }

  lemma {:induction false} ByMonthdayReadsBack(r: Rule)
    ensures Items(Parts(r), "BYMONTHDAY", ParseI8, "i8") == Ok(RRules.Listed(r.byMonthday))
  {
    RRules.I8sReadBack(r.byMonthday);
    ItemsReadBack<I8, I8>(r, 7, r.byMonthday, I8Text, ParseI8, r.byMonthday, "i8");
  }

  lemma {:induction false} ByWeeknoReadsBack(r: Rule)
    ensures Items(Parts(r), "BYWEEKNO", ParseI8, "i8") == Ok(RRules.Listed(r.byWeekno))
  {
    RRules.I8sReadBack(r.byWeekno);
    ItemsReadBack<I8, I8>(r, 8, r.byWeekno, I8Text, ParseI8, r.byWeekno, "i8");
  }

  lemma {:induction false} ByHourReadsBack(r: Rule)
    ensures Items(Parts(r), "BYHOUR", ParseU8, "u8") == Ok(RRules.Listed(r.byHour))
  {
    RRules.U8sReadBack(r.byHour);
    ItemsReadBack<U8, U8>(r, 9, r.byHour, U8Text, ParseU8, r.byHour, "u8");
  }

  lemma {:induction false} ByMinuteReadsBack(r: Rule)
    ensures Items(Parts(r), "BYMINUTE", ParseU8, "u8") == Ok(RRules.Listed(r.byMinute))
  {
    RRules.U8sReadBack(r.byMinute);
    ItemsReadBack<U8, U8>(r, 10, r.byMinute, U8Text, ParseU8, r.byMinute, "u8");
  }

  lemma {:induction false} BySecondReadsBack(r: Rule)
    ensures Items(Parts(r), "BYSECOND", ParseU8, "u8") == Ok(RRules.Listed(r.bySecond))
  {
    RRules.U8sReadBack(r.bySecond);
    ItemsReadBack<U8, U8>(r, 11, r.bySecond, U8Text, ParseU8, r.bySecond, "u8");
  }

  lemma {:induction false} ByYeardayReadsBack(r: Rule)
    ensures Items(Parts(r), "BYYEARDAY", ParseI16, "i16") == Ok(RRules.Listed(r.byYearday))
  {
    RRules.I16sReadBack(r.byYearday);
    ItemsReadBack<I16, I16>(r, 12, r.byYearday, I16Text, ParseI16, r.byYearday, "i16");
  }

  /** A host weekday text holds no comma and reads back without an ordinal 0 or 1. */
  lemma {:induction false} DayReadsBack(x: NWeekdays.NWeekday)
    ensures ',' !in JsNWeekdays.ToText(x) && RRules.ParseNWeekday(JsNWeekdays.ToText(x)) == Some(ReadDay(x))
  {
    JsNWeekdays.RoundTrip(x);
    JsNWeekdays.ToTextAgrees(x);
    Weekdays.CodeShape(x.weekday);
    if x.n.Some? {
      IntToStringNoComma(x.n.value);
    }
  }

  lemma {:induction false} DaysReadBack(xs: seq<NWeekdays.NWeekday>)
    ensures forall j :: 0 <= j < |xs| ==> ',' !in JsNWeekdays.ToText(xs[j]) && RRules.ParseNWeekday(JsNWeekdays.ToText(xs[j])) == Some(Map(xs, ReadDay)[j])
  {
    forall j | 0 <= j < |xs| ensures ',' !in JsNWeekdays.ToText(xs[j]) && RRules.ParseNWeekday(JsNWeekdays.ToText(xs[j])) == Some(Map(xs, ReadDay)[j]) {
      DayReadsBack(xs[j]);
    }
  }

  lemma {:induction false} ByMonthReadsBack(r: Rule)
    ensures Items(Parts(r), "BYMONTH", RRules.ParseMonth, "Month") == Ok(RRules.Listed(r.byMonth))
  {
    RRules.MonthsReadBack(r.byMonth);
    ItemsReadBack<Months.Month, Months.Month>(r, 6, r.byMonth, Months.ToText, RRules.ParseMonth, r.byMonth, "Month");
  }

  lemma {:induction false} ByDayReadsBack(r: Rule)
    ensures Items(Parts(r), "BYDAY", RRules.ParseNWeekday, "NWeekday") == Ok(RRules.Listed(Map(r.byDay, ReadDay)))
  {
    DaysReadBack(r.byDay);
    ItemsReadBack<NWeekdays.NWeekday, NWeekdays.NWeekday>(r, 13, r.byDay, JsNWeekdays.ToText, RRules.ParseNWeekday, Map(r.byDay, ReadDay), "NWeekday");
  }

  /** The map `into` writes reads back as the rule, up to what the text form does not keep. */
  lemma {:induction false} PartsRoundTrip(r: Rule)
    requires UntilFits(r)
    ensures FromEntries(Parts(r)) == Ok(Normalised(r))
  {
    FreqReadsBack(r);
    CountReadsBack(r);
    UntilReadsBack(r);
    IntervalReadsBack(r);
    WeekstartReadsBack(r);
    BySetposReadsBack(r);
    ByMonthReadsBack(r);
    ByMonthdayReadsBack(r);
    ByWeeknoReadsBack(r);
    ByHourReadsBack(r);
    ByMinuteReadsBack(r);
    BySecondReadsBack(r);
    ByYeardayReadsBack(r);
    ByDayReadsBack(r);
    var n := Normalised(r);
    assert (if n.interval == 1 then None else Some(n.interval)) == (if r.interval > 1 then Some(r.interval) else None);
    FromEntriesOf(Parts(r), n);
  }

  // ---------------------------------------------------------------------------
  // The written line

  lemma {:induction false} FreqWord(r: Rule)
    ensures Word(Fields(r)[0].1.value)
  {
    RRules.FrequencyWord(r.frequency);
  }

  lemma {:induction false} CountWord(r: Rule)
    ensures Fields(r)[1].1.Some? ==> Word(Fields(r)[1].1.value)
  {
    if r.count.Some? {
      WordOfInt(r.count.value);
    }
  }

  lemma {:induction false} UntilWord(r: Rule)
    ensures Fields(r)[2].1.Some? ==> Word(Fields(r)[2].1.value)
  {
    if r.until.Some? {
      RRules.DateWord(JsDateTimes.ToRule(JsDateTimes.FromI64(r.until.value)));
    }
  }

  lemma {:induction false} IntervalWord(r: Rule)
    ensures Fields(r)[3].1.Some? ==> Word(Fields(r)[3].1.value)
  {
    WordOfInt(r.interval);
  }

  lemma {:induction false} WeekstartWord(r: Rule)
    ensures Fields(r)[4].1.Some? ==> Word(Fields(r)[4].1.value)
  {
    RRules.WeekdayWord(r.weekstart);
  }

  lemma {:induction false} NumberWords(r: Rule)
    ensures forall i :: 7 <= i < 13 && Fields(r)[i].1.Some? ==> Word(Fields(r)[i].1.value)
    ensures Fields(r)[5].1.Some? ==> Word(Fields(r)[5].1.value)
  {
    RRules.IntsWord(r.bySetpos);
    RRules.ListWord(r.bySetpos, I32Text);
    RRules.IntsWord(r.byMonthday);
    RRules.ListWord(r.byMonthday, I8Text);
    RRules.IntsWord(r.byWeekno);
    RRules.ListWord(r.byWeekno, I8Text);
    RRules.IntsWord(r.byHour);
    RRules.ListWord(r.byHour, U8Text);
    RRules.IntsWord(r.byMinute);
    RRules.ListWord(r.byMinute, U8Text);
    RRules.IntsWord(r.bySecond);
    RRules.ListWord(r.bySecond, U8Text);
    RRules.IntsWord(r.byYearday);
    RRules.ListWord(r.byYearday, I16Text);
  }

  /** A host weekday text is a word: the rule model's text, or the bare weekday code. */
  lemma {:induction false} DayWord(x: NWeekdays.NWeekday)
    ensures Word(JsNWeekdays.ToText(x))
  {
    JsNWeekdays.ToTextAgrees(x);
    RRules.NWeekdayWord(ReadDay(x));
    assert JsNWeekdays.ToText(x) == NWeekdays.ToText(ReadDay(x));
  }

  lemma {:induction false} NameWords(r: Rule)
    ensures Fields(r)[6].1.Some? ==> Word(Fields(r)[6].1.value)
    ensures Fields(r)[13].1.Some? ==> Word(Fields(r)[13].1.value)
  {
    forall i | 0 <= i < |r.byMonth| ensures Word(Months.ToText(r.byMonth[i])) {
      RRules.MonthWord(r.byMonth[i]);
    }
    RRules.ListWord(r.byMonth, Months.ToText);
    forall i | 0 <= i < |r.byDay| ensures Word(JsNWeekdays.ToText(r.byDay[i])) {
      DayWord(r.byDay[i]);
    }
    RRules.ListWord(r.byDay, JsNWeekdays.ToText);
  }

  /** Every text `into` writes is a word. */
  lemma {:induction false} FieldWord(r: Rule, i: nat)
    requires i < |KEYS|
    ensures Fields(r)[i].1.Some? ==> Word(Fields(r)[i].1.value)
  {
    if i == 0 {
      FreqWord(r);
    } else if i == 1 {
      CountWord(r);
    } else if i == 2 {
      UntilWord(r);
    } else if i == 3 {
      IntervalWord(r);
    } else if i == 4 {
      WeekstartWord(r);
    } else if i == 6 || i == 13 {
      NameWords(r);
    } else {
      NumberWords(r);
    }
  }

  /** The property `into` builds renders as a line the tokenizer reads back. */
  lemma {:induction false} PropertyWellFormed(r: Rule)
    ensures WellFormed(PropertyOf(r))
  {
    var fs := Fields(r);
    assert forall i :: 0 <= i < |fs| ==> Word(fs[i].0) by {
      FieldsKeys(r);
      KeysUpper();
      assert forall i :: 0 <= i < |fs| ==> FieldKeys(fs)[i] == fs[i].0;
    }
    forall i | 0 <= i < |fs| ensures fs[i].1.Some? ==> Word(fs[i].1.value) {
      FieldWord(r, i);
    }
    PresentAllPlain(fs);
    assert Distinct(Keys(Parts(r))) by {
      FieldsKeys(r);
      KeysDistinct();
      PresentDistinct(fs);
    }
    WordPlain("RRULE");
  }

  /** The string form has no `RRULE:` prefix, so `from_str` puts it back. */
  lemma {:induction false} LineOfText(r: Rule)
    ensures RRules.Line(Text(r)) == Render(PropertyOf(r))
  {
    TextIsValue(r);
    var t := Text(r);
    assert Upper(t)[0] == 'F';
    assert !StartsWith(Upper(t), "RRULE:");
  }

  /**
   * `from_str` of the string form gives the rule back, except that an interval of 0
   * comes back as 1 and BYDAY ordinals 0 and 1 are dropped.
   */
  lemma {:induction false} TextRoundTrip(r: Rule)
    requires UntilFits(r)
    ensures FromStr(Text(r)) == Ok(Normalised(r))
  {
    LineOfText(r);
    PropertyWellFormed(r);
    FromStringOfRender(PropertyOf(r));
    PartsRoundTrip(r);
  }

  /** The rules the text form keeps as they are. */
  predicate Kept(r: Rule) {
    r.interval != 0 && forall j :: 0 <= j < |r.byDay| ==> r.byDay[j].n != Some(0) && r.byDay[j].n != Some(1)
  }

  lemma {:induction false} NormalisedFixed(r: Rule)
    ensures Normalised(r) == r <==> Kept(r)
  {
    var n := Normalised(r);
    if forall j :: 0 <= j < |r.byDay| ==> r.byDay[j].n != Some(0) && r.byDay[j].n != Some(1) {
      forall j | 0 <= j < |r.byDay| ensures Map(r.byDay, ReadDay)[j] == r.byDay[j] {
        assert ReadDay(r.byDay[j]) == r.byDay[j];
      }
      assert Map(r.byDay, ReadDay) == r.byDay;
    } else {
      var j :| 0 <= j < |r.byDay| && (r.byDay[j].n == Some(0) || r.byDay[j].n == Some(1));
      assert n.byDay[j] == ReadDay(r.byDay[j]) && ReadDay(r.byDay[j]).n == None;
    }
    if n == r {
      assert n.interval == r.interval;
    }
  }

  /**
   * Hence the string form gives the rule back exactly when the interval is not 0 and
   * no BYDAY entry has the ordinal 0 or 1.
   */
  lemma {:induction false} RoundTripExact(r: Rule)
    requires UntilFits(r)
    ensures FromStr(Text(r)) == Ok(r) <==> Kept(r)
  {
    TextRoundTrip(r);
    NormalisedFixed(r);
  }

  /** A first Sunday (`1SU`) is written as `SU`, every Sunday. */
  lemma {:induction false} FirstSundayWritten(r: Rule)
    requires r.byDay == [NWeekdays.NWeekday(Some(1), Weekdays.Sunday)]
    ensures Lookup(Parts(r), "BYDAY") == Some("SU")
  {
    PartsGet(r, 13);
    var texts := Map(r.byDay, JsNWeekdays.ToText);
    assert texts == ["SU"] by {
      assert JsNWeekdays.ToText(r.byDay[0]) == "SU";
      MapSingle(r.byDay, JsNWeekdays.ToText);
    }
    assert Join(texts, ',') == "SU";
  }

  /** … and so comes back from the string form as every Sunday. */
  lemma {:induction false} FirstSundayLost(r: Rule)
    requires r.until.None? && r.interval >= 1 && r.byDay == [NWeekdays.NWeekday(Some(1), Weekdays.Sunday)]
    ensures FromStr(Text(r)) == Ok(r.(byDay := [NWeekdays.NWeekday(None, Weekdays.Sunday)]))
  {
    TextRoundTrip(r);
    assert Map(r.byDay, ReadDay) == [NWeekdays.NWeekday(None, Weekdays.Sunday)] by {
      MapSingle(r.byDay, ReadDay);
    }
    assert Normalised(r) == r.(byDay := [NWeekdays.NWeekday(None, Weekdays.Sunday)]);
  }

  // ---------------------------------------------------------------------------
  // Reading errors and defaults

  /** The ways `try_from` fails before the parts are read, with their messages. */
  lemma {:induction false} FromPropertyErrors(p: Property)
    ensures p.name != "RRULE" && p.name != "EXRULE" ==> FromProperty(p) == Err("Invalid property name: " + p.name)
    ensures (p.name == "RRULE" || p.name == "EXRULE") && p.value.Single? ==> FromProperty(p) == Err("Invalid " + p.name + ": " + p.value.text)
    ensures (p.name == "RRULE" || p.name == "EXRULE") && p.value.Multiple? ==> FromProperty(p) == FromEntries(p.value.entries)
  {
  }

  /**
   * FREQ is optional: without it the rule is daily.  A FREQ or an INTERVAL that does
   * not parse is reported with the raw text.
   */
  lemma {:induction false} FreqDefaultsToDaily(e: Entries)
    ensures Lookup(e, "FREQ").None? && FromEntries(e).Ok? ==> FromEntries(e).value.frequency == Frequencies.Daily
    ensures Lookup(e, "FREQ").Some? && RRules.ParseFrequency(Lookup(e, "FREQ").value).None? ==> FromEntries(e) == Err("Invalid FREQ value: " + Lookup(e, "FREQ").value)
    ensures Scalar(e, "FREQ", RRules.ParseFrequency).Ok? && Lookup(e, "INTERVAL").Some? && ParseU16(Lookup(e, "INTERVAL").value).None? ==> FromEntries(e) == Err("Invalid INTERVAL value: " + Lookup(e, "INTERVAL").value)
  {
    if Lookup(e, "FREQ").Some? {
      var t := Lookup(e, "FREQ").value;
      assert "Invalid " + "FREQ" + " value: " + t == "Invalid FREQ value: " + t;
    }
    if Lookup(e, "INTERVAL").Some? {
      var t := Lookup(e, "INTERVAL").value;
      assert "Invalid " + "INTERVAL" + " value: " + t == "Invalid INTERVAL value: " + t;
    }
  }

  /**
   * An empty rule map reads as the default daily rule here, while the rule model of
   * lib/rrule/rrule.rs refuses it for want of FREQ.
   */
  lemma {:induction false} EmptyMapIsDaily()
    ensures FromEntries([]) == Ok(New(Frequencies.Daily))
    ensures RRules.FromEntries([]) == Err("FREQ is required")
  {
    assert Get([], "FREQ") == None;
  }

  /** A list part with one bad item is refused as a whole, the message naming the raw text. */
  lemma {:induction false} BadItemRefused<T>(e: Entries, key: string, parse: string -> Option<T>, typeName: string, i: nat)
    requires Lookup(e, key).Some? && i < |Split(Lookup(e, key).value, ',')| && parse(Split(Lookup(e, key).value, ',')[i]).None?
    ensures Items(e, key, parse, typeName) == Err("Invalid " + key + " value: " + Lookup(e, key).value)
  {
    var pieces := Split(Lookup(e, key).value, ',');
    TryMapSpec(pieces, ToVec.Convert(parse, typeName));
    assert ToVec.Convert(parse, typeName)(pieces[i]).Err?;
  }
}
