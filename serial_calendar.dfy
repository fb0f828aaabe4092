/**
 * The host-side calendar reader (lib/serialization/calendar.rs): the lines of a text
 * are tokenized, and each property is read by its name into one of five lists. DTSTART
 * becomes a packed start with a zone name. RRULE and EXRULE become rules. Each date of
 * an EXDATE or RDATE line becomes a packed number. Any other name is ignored, and the
 * first error aborts.
 */
module SerialCalendars {
  import opened Wrappers
  import opened Strings
  import opened Lists
  import opened Ints
  import opened Params
  import opened PropertyText
  import PropertyList
  import Calendars
  import DateTimes
  import JsDateTimes
  import ToVec
  import SerialRRules
  import DtStarts
  import RRuleSets

  datatype Calendar = Calendar(
    dtstarts: seq<(I64, string)>,
    rrules: seq<SerialRRules.Rule>,
    exrules: seq<SerialRRules.Rule>,
    exdates: seq<I64>,
    rdates: seq<I64>)

  const Empty := Calendar([], [], [], [], [])

  /**
   * Stands for `type_name::<DateTime>()`, the name under which a date that does not
   * parse is reported.  Rust writes the type's full module path there, in a form the
   * compiler chooses; the model keeps only the type's own name.
   */
  const DATETIME_TYPE := "DateTime"

  /** The same parse, keeping only whether it succeeded (what `to_vec` looks at). */
  function DateTimeOf(s: string): Option<JsDateTimes.DateTime> {
    match JsDateTimes.Parse(s)
    case Err(_) => None
    case Ok(d) => Some(d)
  }

  /**
   * `property_to_dtstart`: a single value holding a date-time, and its zone. An
   * explicit TZID is kept as written. Without one the start must be UTC, and then
   * the zone is "UTC".
   */
  function StartOf(p: Property): Result<(I64, string), string> {
    match p.value
    case Multiple(_) => Err("Invalid DTSTART value")
    case Single(text) =>
      var datetime :- JsDateTimes.Parse(text);
      match Get(p.parameters, "TZID")
      case Some(value) => Ok((JsDateTimes.ToI64(datetime), value))
      case None =>
        if datetime.utc then Ok((JsDateTimes.ToI64(datetime), "UTC"))
        else Err("TZID is requred for non-UTC DTSTART")
  }

  /** The message for a VALUE=DATE parameter, which differs between EXDATE and RDATE. */
  function DateRefused(kind: string): string {
    if kind == "EXDATE" then "Unsupported EXDATE value: DATE"
    else "Unsupported RDATE value: DATE. Only DATE-TIME is supported"
  }

  /**
   * The dates of an EXDATE or RDATE line, packed. A VALUE parameter other than
   * DATE-TIME is refused; the value must be a single text, split on ',' with each
   * piece parsed as a date-time.
   */
  function DatesOf(kind: string, p: Property): Result<seq<I64>, string> {
    var value := Get(p.parameters, "VALUE");
    if value == Some("DATE") then Err(DateRefused(kind))
    else if value.Some? && value.value != "DATE-TIME" then Err("Unsupported " + kind + " value: " + value.value)
    else
      match p.value
      case Multiple(_) => Err("Invalid " + kind)
      case Single(text) =>
        var dates :- TryMap(Split(text, ','), ToVec.Convert(DateTimeOf, DATETIME_TYPE));
        Ok(Map(dates, JsDateTimes.ToI64))
  }

  function ExDatesOf(p: Property): Result<seq<I64>, string> {
    DatesOf("EXDATE", p)
  }

  function RDatesOf(p: Property): Result<seq<I64>, string> {
    DatesOf("RDATE", p)
  }

  /** The reader of each name: DTSTART, RRULE and EXRULE (one reader), EXDATE and RDATE. */
  datatype Readers = Readers(
    start: Property -> Result<(I64, string), string>,
    rule: Property -> Result<SerialRRules.Rule, string>,
    exdate: Property -> Result<seq<I64>, string>,
    rdate: Property -> Result<seq<I64>, string>)

  /** The readers of `from_str`. */
  const READERS := Readers(StartOf, SerialRRules.FromProperty, ExDatesOf, RDatesOf)

  /** One property read by its name and added to its list; an unknown name changes nothing. */
  function Add(c: Calendar, p: Property, rd: Readers): Result<Calendar, string> {
    if p.name == "DTSTART" then
      var x :- rd.start(p);
      Ok(c.(dtstarts := c.dtstarts + [x]))
    else if p.name == "RRULE" then
      var x :- rd.rule(p);
      Ok(c.(rrules := c.rrules + [x]))
    else if p.name == "EXRULE" then
      var x :- rd.rule(p);
      Ok(c.(exrules := c.exrules + [x]))
    else if p.name == "EXDATE" then
      var xs :- rd.exdate(p);
      Ok(c.(exdates := c.exdates + xs))
    else if p.name == "RDATE" then
      var xs :- rd.rdate(p);
      Ok(c.(rdates := c.rdates + xs))
    else Ok(c)
  }

  /** The properties read in order, stopping at the first error. */
  function Route(ps: seq<Property>, rd: Readers): Result<Calendar, string>
    decreases |ps|
  {
    if |ps| == 0 then Ok(Empty)
    else
      var c :- Route(ps[..|ps| - 1], rd);
      Add(c, ps[|ps| - 1], rd)
  }

  /** What `Calendar::from_str` computes; a tokenizer error is reported by its message. */
  function Parse(s: string): Result<Calendar, string> {
    match PropertyList.ParseLines(s)
    case Err(e) => Err(Message(e))
    case Ok(ps) => Route(ps, READERS)
  }

  /** The checks of the EXDATE and RDATE arms, then `to_vec` and the packing of each date. */
  method ReadDates(kind: string, p: Property) returns (r: Result<seq<I64>, string>)
    ensures r == DatesOf(kind, p)
  {
    var value := Get(p.parameters, "VALUE");
    if value.Some? {
      if value.value == "DATE" {
        return Err(DateRefused(kind));
      } else if value.value != "DATE-TIME" {
        return Err("Unsupported " + kind + " value: " + value.value);
      }
    }
    if p.value.Multiple? {
      return Err("Invalid " + kind);
    }
    var dates := ToVec.ToVec(p.value.text, DateTimeOf, DATETIME_TYPE);
    if dates.Err? {
      return Err(dates.error);
    }
    var stamps := PushStamps([], dates.value);
    assert [] + Map(dates.value, JsDateTimes.ToI64) == Map(dates.value, JsDateTimes.ToI64);
    return Ok(stamps);
  }

  /** The loop `for date in dates { list.push(date.into()) }`. */
  method PushStamps(xs: seq<I64>, dates: seq<JsDateTimes.DateTime>) returns (ys: seq<I64>)
    ensures ys == xs + Map(dates, JsDateTimes.ToI64)
  {
    ys := xs;
    for i := 0 to |dates|
      invariant ys == xs + Map(dates[..i], JsDateTimes.ToI64)
    {
      MapSnoc(dates[..i], dates[i], JsDateTimes.ToI64);
      assert dates[..i + 1] == dates[..i] + [dates[i]];
      ys := ys + [JsDateTimes.ToI64(dates[i])];
    }
    assert dates[..|dates|] == dates;
  }

  /** `Calendar::from_str`: one pass over the properties, adding each to the list of its name. */
  method FromStr(s: string) returns (r: Result<Calendar, string>)
    ensures r == Parse(s)
  {
    var properties := PropertyList.FromStr(s);
    if properties.Err? {
      return Err(Message(properties.error));
    }
    var ps := properties.value;
    var rd := READERS;
    var dtstarts: seq<(I64, string)> := [];
    var rrules: seq<SerialRRules.Rule> := [];
    var exrules: seq<SerialRRules.Rule> := [];
    var exdates: seq<I64> := [];
    var rdates: seq<I64> := [];
    for i := 0 to |ps|
      invariant Route(ps[..i], rd) == Ok(Calendar(dtstarts, rrules, exrules, exdates, rdates))
    {
      var p := ps[i];
      RouteAt(ps, i, rd);
      if p.name == "DTSTART" {
        var x := rd.start(p);
        if x.Err? {
          ErrorSticks(ps, i + 1, rd);
          return Err(x.error);
        }
        dtstarts := dtstarts + [x.value];
      } else if p.name == "RRULE" {
        var x := rd.rule(p);
        if x.Err? {
          ErrorSticks(ps, i + 1, rd);
          return Err(x.error);
        }
        rrules := rrules + [x.value];
      } else if p.name == "EXRULE" {
        var x := rd.rule(p);
        if x.Err? {
          ErrorSticks(ps, i + 1, rd);
          return Err(x.error);
        }
        exrules := exrules + [x.value];
      } else if p.name == "EXDATE" {
        var xs := ReadDates("EXDATE", p);
        assert xs == rd.exdate(p);
        if xs.Err? {
          ErrorSticks(ps, i + 1, rd);
          return Err(xs.error);
        }
        exdates := RRuleSets.PushAll(exdates, xs.value);
      } else if p.name == "RDATE" {
        var xs := ReadDates("RDATE", p);
        assert xs == rd.rdate(p);
        if xs.Err? {
          ErrorSticks(ps, i + 1, rd);
          return Err(xs.error);
        }
        rdates := RRuleSets.PushAll(rdates, xs.value);
      }
    }
    assert ps[..|ps|] == ps;
    assert Parse(s) == Route(ps, READERS);
    return Ok(Calendar(dtstarts, rrules, exrules, exdates, rdates));
  }

  // ---------------------------------------------------------------------------
  // Properties

  /** Once a prefix has failed, the whole list fails with the same error. */
  lemma {:induction false} ErrorSticks(ps: seq<Property>, i: nat, rd: Readers)
    requires i <= |ps| && Route(ps[..i], rd).Err?
    ensures Route(ps, rd) == Route(ps[..i], rd)
    decreases |ps|
  {
    if i == |ps| {
      assert ps[..i] == ps;
    } else {
      var init := ps[..|ps| - 1];
      assert init[..i] == ps[..i];
      ErrorSticks(init, i, rd);
    }
  }

  /** `Route` of one more property of a list. */
  lemma {:induction false} RouteAt(ps: seq<Property>, i: nat, rd: Readers)
    requires i < |ps|
    ensures Route(ps[..i + 1], rd) == if Route(ps[..i], rd).Err? then Route(ps[..i], rd) else Add(Route(ps[..i], rd).value, ps[i], rd)
  {
    assert ps[..i + 1][..i] == ps[..i];
  }

  /** `Route` of a non-empty list: the last property added to what the others give. */
  lemma {:induction false} RouteStep(ps: seq<Property>, rd: Readers)
    requires |ps| > 0
    ensures Route(ps, rd) == if Route(ps[..|ps| - 1], rd).Err? then Route(ps[..|ps| - 1], rd) else Add(Route(ps[..|ps| - 1], rd).value, ps[|ps| - 1], rd)
  {
  }

  /** All the dates of a list of lines, line after line, stopping at the first line that fails. */
  function TryFlatMap(ps: seq<Property>, f: Property -> Result<seq<I64>, string>): Result<seq<I64>, string>
    decreases |ps|
  {
    if |ps| == 0 then Ok([])
    else
      var xs :- TryFlatMap(ps[..|ps| - 1], f);
      var ys :- f(ps[|ps| - 1]);
      Ok(xs + ys)
  }

  /** One more line that reads extends the dates by its own. */
  lemma {:induction false} TryFlatMapSnoc(ps: seq<Property>, p: Property, f: Property -> Result<seq<I64>, string>, xs: seq<I64>, ys: seq<I64>)
    requires TryFlatMap(ps, f) == Ok(xs) && f(p) == Ok(ys)
    ensures TryFlatMap(ps + [p], f) == Ok(xs + ys)
  {
    assert (ps + [p])[..|ps|] == ps;
  }

  /*
   * On success each list holds what the properties of its name give, in their order in
   * the text: one start per DTSTART line, one rule per RRULE or EXRULE line, and every
   * date of every EXDATE or RDATE line, flattened. Properties of other names are ignored.
   */

  lemma {:induction false} StartsRouted(ps: seq<Property>, rd: Readers)
    requires Route(ps, rd).Ok?
    ensures TryMap(Calendars.Named(ps, "DTSTART"), rd.start) == Ok(Route(ps, rd).value.dtstarts)
    decreases |ps|
  {
    if |ps| > 0 {
      var init, p := ps[..|ps| - 1], ps[|ps| - 1];
      RouteStep(ps, rd);
      StartsRouted(init, rd);
      assert Calendars.Named(ps, "DTSTART") == Calendars.Named(init, "DTSTART") + (if p.name == "DTSTART" then [p] else []);
      if p.name == "DTSTART" {
        TryMapSnoc(Calendars.Named(init, "DTSTART"), p, rd.start, Route(init, rd).value.dtstarts, rd.start(p).value);
      } else {
        assert Calendars.Named(init, "DTSTART") + [] == Calendars.Named(init, "DTSTART");
        assert Route(ps, rd).value.dtstarts == Route(init, rd).value.dtstarts;
      }
    }
  }

  lemma {:induction false} RulesRouted(ps: seq<Property>, rd: Readers)
    requires Route(ps, rd).Ok?
    ensures TryMap(Calendars.Named(ps, "RRULE"), rd.rule) == Ok(Route(ps, rd).value.rrules)
    decreases |ps|
  {
    if |ps| > 0 {
      var init, p := ps[..|ps| - 1], ps[|ps| - 1];
      RouteStep(ps, rd);
      RulesRouted(init, rd);
      assert Calendars.Named(ps, "RRULE") == Calendars.Named(init, "RRULE") + (if p.name == "RRULE" then [p] else []);
      if p.name == "RRULE" {
        TryMapSnoc(Calendars.Named(init, "RRULE"), p, rd.rule, Route(init, rd).value.rrules, rd.rule(p).value);
      } else {
        assert Calendars.Named(init, "RRULE") + [] == Calendars.Named(init, "RRULE");
        assert Route(ps, rd).value.rrules == Route(init, rd).value.rrules;
      }
    }
  }

  lemma {:induction false} ExRulesRouted(ps: seq<Property>, rd: Readers)
    requires Route(ps, rd).Ok?
    ensures TryMap(Calendars.Named(ps, "EXRULE"), rd.rule) == Ok(Route(ps, rd).value.exrules)
    decreases |ps|
  {
    if |ps| > 0 {
      var init, p := ps[..|ps| - 1], ps[|ps| - 1];
      RouteStep(ps, rd);
      ExRulesRouted(init, rd);
      assert Calendars.Named(ps, "EXRULE") == Calendars.Named(init, "EXRULE") + (if p.name == "EXRULE" then [p] else []);
      if p.name == "EXRULE" {
        TryMapSnoc(Calendars.Named(init, "EXRULE"), p, rd.rule, Route(init, rd).value.exrules, rd.rule(p).value);
      } else {
        assert Calendars.Named(init, "EXRULE") + [] == Calendars.Named(init, "EXRULE");
        assert Route(ps, rd).value.exrules == Route(init, rd).value.exrules;
      }
    }
  }

  lemma {:induction false} ExDatesRouted(ps: seq<Property>, rd: Readers)
    requires Route(ps, rd).Ok?
    ensures TryFlatMap(Calendars.Named(ps, "EXDATE"), rd.exdate) == Ok(Route(ps, rd).value.exdates)
    decreases |ps|
  {
    if |ps| > 0 {
      var init, p := ps[..|ps| - 1], ps[|ps| - 1];
      RouteStep(ps, rd);
      ExDatesRouted(init, rd);
      var before := Calendars.Named(init, "EXDATE");
      assert Calendars.Named(ps, "EXDATE") == before + (if p.name == "EXDATE" then [p] else []);
      if p.name == "EXDATE" {
        TryFlatMapSnoc(before, p, rd.exdate, Route(init, rd).value.exdates, rd.exdate(p).value);
      } else {
        assert before + [] == before;
        assert Route(ps, rd).value.exdates == Route(init, rd).value.exdates;
      }
    }
  }

  lemma {:induction false} RDatesRouted(ps: seq<Property>, rd: Readers)
    requires Route(ps, rd).Ok?
    ensures TryFlatMap(Calendars.Named(ps, "RDATE"), rd.rdate) == Ok(Route(ps, rd).value.rdates)
    decreases |ps|
  {
    if |ps| > 0 {
      var init, p := ps[..|ps| - 1], ps[|ps| - 1];
      RouteStep(ps, rd);
      RDatesRouted(init, rd);
      var before := Calendars.Named(init, "RDATE");
      assert Calendars.Named(ps, "RDATE") == before + (if p.name == "RDATE" then [p] else []);
      if p.name == "RDATE" {
        TryFlatMapSnoc(before, p, rd.rdate, Route(init, rd).value.rdates, rd.rdate(p).value);
      } else {
        assert before + [] == before;
        assert Route(ps, rd).value.rdates == Route(init, rd).value.rdates;
      }
    }
  }

  /** Whether a single property is refused by the reader of its name. */
  predicate Refused(p: Property, rd: Readers) {
    Add(Empty, p, rd).Err?
  }

  /** Whether and how a property fails does not depend on what was read before it. */
  lemma {:induction false} AddFailsAlike(c: Calendar, p: Property, rd: Readers)
    ensures Add(c, p, rd).Err? == Refused(p, rd)
    ensures Add(c, p, rd).Err? ==> Add(c, p, rd) == Add(Empty, p, rd)
  {
  }

  /** Reading fails exactly when some property is refused. */
  lemma {:induction false} RouteFails(ps: seq<Property>, rd: Readers)
    ensures Route(ps, rd).Err? <==> exists i :: 0 <= i < |ps| && Refused(ps[i], rd)
    decreases |ps|
  {
    if |ps| > 0 {
      var init, p := ps[..|ps| - 1], ps[|ps| - 1];
      RouteStep(ps, rd);
      RouteFails(init, rd);
      assert forall j :: 0 <= j < |init| ==> init[j] == ps[j];
      if Route(init, rd).Ok? {
        AddFailsAlike(Route(init, rd).value, p, rd);
      }
    }
  }

  /** The error reported is that of the first refused property. */
  lemma {:induction false} FirstErrorReported(ps: seq<Property>, rd: Readers)
    requires Route(ps, rd).Err?
    ensures exists i :: 0 <= i < |ps| && Route(ps, rd) == Add(Empty, ps[i], rd) && forall j :: 0 <= j < i ==> !Refused(ps[j], rd)
    decreases |ps|
  {
    var init, p := ps[..|ps| - 1], ps[|ps| - 1];
    RouteStep(ps, rd);
    if Route(init, rd).Err? {
      FirstErrorReported(init, rd);
      var i :| 0 <= i < |init| && Route(init, rd) == Add(Empty, init[i], rd) && forall j :: 0 <= j < i ==> !Refused(init[j], rd);
      assert init[i] == ps[i] && forall j :: 0 <= j < i ==> init[j] == ps[j];
    } else {
      RouteFails(init, rd);
      AddFailsAlike(Route(init, rd).value, p, rd);
      assert forall j :: 0 <= j < |init| ==> init[j] == ps[j];
    }
  }

  /** Whether every property of each name is read successfully by the reader of that name. */
  predicate AllRead(ps: seq<Property>, rd: Readers) {
    TryMap(Calendars.Named(ps, "DTSTART"), rd.start).Ok? && TryMap(Calendars.Named(ps, "RRULE"), rd.rule).Ok? && TryMap(Calendars.Named(ps, "EXRULE"), rd.rule).Ok? && TryFlatMap(Calendars.Named(ps, "EXDATE"), rd.exdate).Ok? && TryFlatMap(Calendars.Named(ps, "RDATE"), rd.rdate).Ok?
  }

  /** When the date lines of one name all read, so do those before the last, and the last if it has that name. */
  lemma {:induction false} FlatNamedReadInit(ps: seq<Property>, name: string, f: Property -> Result<seq<I64>, string>)
    requires |ps| > 0 && TryFlatMap(Calendars.Named(ps, name), f).Ok?
    ensures TryFlatMap(Calendars.Named(ps[..|ps| - 1], name), f).Ok?
    ensures ps[|ps| - 1].name == name ==> f(ps[|ps| - 1]).Ok?
  {
    var init, p := ps[..|ps| - 1], ps[|ps| - 1];
    var before := Calendars.Named(init, name);
    if p.name == name {
      assert (before + [p])[..|before|] == before;
    } else {
      assert Calendars.Named(ps, name) == before + [];
      assert before + [] == before;
    }
  }

  /** Reading succeeds exactly when every property is read by the reader of its name. */
  lemma {:induction false} RouteOk(ps: seq<Property>, rd: Readers)
    ensures Route(ps, rd).Ok? <==> AllRead(ps, rd)
    decreases |ps|
  {
    if Route(ps, rd).Ok? {
      StartsRouted(ps, rd);
      RulesRouted(ps, rd);
      ExRulesRouted(ps, rd);
      ExDatesRouted(ps, rd);
      RDatesRouted(ps, rd);
    } else if |ps| > 0 && AllRead(ps, rd) {
      var init, p := ps[..|ps| - 1], ps[|ps| - 1];
      Calendars.NamedReadInit(ps, "DTSTART", rd.start);
      Calendars.NamedReadInit(ps, "RRULE", rd.rule);
      Calendars.NamedReadInit(ps, "EXRULE", rd.rule);
      FlatNamedReadInit(ps, "EXDATE", rd.exdate);
      FlatNamedReadInit(ps, "RDATE", rd.rdate);
      RouteOk(init, rd);
      RouteStep(ps, rd);
      assert false;
    }
  }

  /** The ways a start is refused, each with its message, and the zone it gets otherwise. */
  lemma {:induction false} StartOfCases(p: Property)
    ensures p.value.Multiple? ==> StartOf(p) == Err("Invalid DTSTART value")
    ensures p.value.Single? && DateTimes.FromStr(p.value.text).Err? ==> StartOf(p) == Err(DateTimes.FromStr(p.value.text).error)
    ensures p.value.Single? && DateTimes.FromStr(p.value.text).Ok? && Get(p.parameters, "TZID").None? && !DateTimes.IsUtc(DateTimes.FromStr(p.value.text).value) ==> StartOf(p) == Err("TZID is requred for non-UTC DTSTART")
    ensures StartOf(p).Ok? ==> StartOf(p).value.1 == Get(p.parameters, "TZID").UnwrapOr("UTC")
  {
    if p.value.Single? && DateTimes.FromStr(p.value.text).Ok? {
      var d := DateTimes.FromStr(p.value.text).value;
      assert JsDateTimes.OfText(d).utc == DateTimes.IsUtc(d);
    }
  }

  /** The ways a date line is refused, each with the message of its kind. */
  lemma {:induction false} DatesOfErrors(kind: string, p: Property)
    ensures Get(p.parameters, "VALUE") == Some("DATE") ==> DatesOf(kind, p) == Err(DateRefused(kind))
    ensures Get(p.parameters, "VALUE").Some? && Get(p.parameters, "VALUE").value !in {"DATE", "DATE-TIME"} ==> DatesOf(kind, p) == Err("Unsupported " + kind + " value: " + Get(p.parameters, "VALUE").value)
    ensures Get(p.parameters, "VALUE") in {None, Some("DATE-TIME")} && p.value.Multiple? ==> DatesOf(kind, p) == Err("Invalid " + kind)
    ensures Get(p.parameters, "VALUE") in {None, Some("DATE-TIME")} && p.value.Single? && (exists i :: 0 <= i < |Split(p.value.text, ',')| && DateTimeOf(Split(p.value.text, ',')[i]).None?) ==> DatesOf(kind, p).Err?
  {
    if Get(p.parameters, "VALUE") in {None, Some("DATE-TIME")} && p.value.Single? {
      TryMapSpec(Split(p.value.text, ','), ToVec.Convert(DateTimeOf, DATETIME_TYPE));
    }
  }

  /** A date with a time keeps its fields and reads as UTC exactly when its offset is zero. */
  lemma {:induction false} OfTextFields(d: DateTimes.DateTime)
    requires d.time.Some?
    ensures JsDateTimes.OfText(d) == JsDateTimes.DateTime(d.year, d.month, d.day, d.time.value.hour, d.time.value.minute, d.time.value.second, d.time.value.offset == Some(0))
  {
  }

  /** Stamps written as text and joined by ',' read back as their date-times, in order. */
  lemma {:induction false} StampsReadBack(ns: seq<I64>)
    requires |ns| >= 1 && forall i :: 0 <= i < |ns| ==> JsDateTimes.Stamp(ns[i])
    ensures TryMap(Split(Join(Map(ns, JsDateTimes.StampText), ','), ','), ToVec.Convert(DateTimeOf, DATETIME_TYPE)) == Ok(Map(ns, JsDateTimes.FromI64))
    ensures Map(Map(ns, JsDateTimes.FromI64), JsDateTimes.ToI64) == ns
  {
    var texts := Map(ns, JsDateTimes.StampText);
    var f := ToVec.Convert(DateTimeOf, DATETIME_TYPE);
    forall i | 0 <= i < |ns|
      ensures ',' !in texts[i] && f(texts[i]) == Ok(Map(ns, JsDateTimes.FromI64)[i])
      ensures JsDateTimes.ToI64(JsDateTimes.FromI64(ns[i])) == ns[i]
    {
      JsDateTimes.StampReadBack(ns[i]);
    }
    SplitJoin(texts, ',');
    TryMapAllOk(texts, f, Map(ns, JsDateTimes.FromI64));
  }

  /**
   * A line of stamps joined by ',', with no VALUE other than DATE-TIME, reads back as
   * those stamps.
   */
  lemma {:induction false} DatesOfStamps(kind: string, params: Entries, ns: seq<I64>)
    requires |ns| >= 1 && forall i :: 0 <= i < |ns| ==> JsDateTimes.Stamp(ns[i])
    requires Get(params, "VALUE") in {None, Some("DATE-TIME")}
    ensures DatesOf(kind, Property(kind, params, Single(Join(Map(ns, JsDateTimes.StampText), ',')))) == Ok(ns)
  {
    StampsReadBack(ns);
  }

  /** A DTSTART line with a TZID and a stamp's text reads back as that stamp and zone. */
  lemma {:induction false} StartOfStamp(n: I64, tzid: string)
    requires JsDateTimes.Stamp(n)
    ensures StartOf(Property("DTSTART", DtStarts.TzidParameter(Some(tzid)), Single(JsDateTimes.StampText(n)))) == Ok((n, tzid))
  {
    JsDateTimes.StampReadBack(n);
    DtStarts.GetTzid(Some(tzid));
  }
}
