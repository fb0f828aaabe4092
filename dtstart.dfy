/**
 * The start of a recurrence set (lib/rrule/dtstart.rs): a date with an optional
 * time-zone identifier, read from and written to a DTSTART line (section 3.8.2.4 of
 * RFC 5545, with the TZID parameter of section 3.2.19).  A zone is modelled by its
 * name; which names denote known zones is the parameter `isZone`.
 */
module DtStarts {
  import opened Wrappers
  import opened Strings
  import opened Params
  import opened PropertyText
  import opened DateTimes
  import RRules

  /** The name of `Tz::UTC`. */
  const UTC := "UTC"

  datatype DtStart = DtStart(datetime: DateTime, tzid: Option<string>)

  /** `DtStart::new`: a start that is not in UTC must name its zone. */
  function New(datetime: DateTime, tzid: Option<string>): (r: Result<DtStart, string>)
    ensures r.Ok? <==> IsUtc(datetime) || tzid.Some?
    ensures r.Ok? ==> r.value.datetime == datetime && r.value.tzid == tzid
    ensures r.Err? ==> r.error == "TZID is requred for non-UTC DTSTART"
  {
    if !IsUtc(datetime) && tzid.None? then Err("TZID is requred for non-UTC DTSTART")
    else Ok(DtStart(datetime, tzid))
  }

  /** `timezone`: the named zone, or UTC when none is named. */
  function Timezone(x: DtStart): string {
    match x.tzid
    case Some(tz) => tz
    case None => UTC
  }

  /** The TZID parameter written for an optional zone. */
  function TzidParameter(tzid: Option<string>): Entries {
    if tzid.Some? then [("TZID", tzid.value)] else []
  }

  /** The property `to_property` builds. */
  function PropertyOf(x: DtStart): Property {
    Property("DTSTART", TzidParameter(x.tzid), Single(ToText(x.datetime)))
  }

  /** `to_property`: a TZID parameter when a zone is named, and the date's text as the value. */
  method ToProperty(x: DtStart) returns (p: Property)
    ensures p == PropertyOf(x)
  {
    var parameters := new Parameters();
    if x.tzid.Some? {
      assert NoLower("TZID");
      UpperOfNoLower("TZID");
      parameters.Insert("TZID", x.tzid.value);
    }
    var value := ToText(x.datetime);
    p := Property("DTSTART", parameters.params, Single(value));
  }

  /**
   * `from_property`: the value must be a single token holding a date; a TZID
   * parameter, when present, must name a known zone.  The rule of `New` is not applied.
   */
  function FromProperty(p: Property, isZone: string -> bool): Result<DtStart, string> {
    match p.value
    case Multiple(_) => Err("Invalid DTSTART value")
    case Single(text) =>
      var datetime :- DateTimes.FromStr(text);
      match Get(p.parameters, "TZID")
      case None => Ok(DtStart(datetime, None))
      case Some(value) =>
        if isZone(value) then Ok(DtStart(datetime, Some(value)))
        else Err("Invalid timezone: " + value)
  }

  // ---------------------------------------------------------------------------
  // Properties

  lemma {:induction false} GetTzid(tzid: Option<string>)
    ensures Get(TzidParameter(tzid), "TZID") == tzid
  {
    assert NoLower("TZID");
    UpperOfNoLower("TZID");
  }

  /** A reader of the written line resolves the zone as `timezone` does: its TZID, else UTC. */
  lemma {:induction false} TimezoneOfProperty(x: DtStart)
    ensures Get(PropertyOf(x).parameters, "TZID").UnwrapOr(UTC) == Timezone(x)
  {
    GetTzid(x.tzid);
  }

  /** The three ways `from_property` fails, each with its message. */
  lemma {:induction false} FromPropertyErrors(p: Property, isZone: string -> bool)
    ensures p.value.Multiple? ==> FromProperty(p, isZone) == Err("Invalid DTSTART value")
    ensures p.value.Single? && DateTimes.FromStr(p.value.text).Err? ==> FromProperty(p, isZone) == Err(DateTimes.FromStr(p.value.text).error)
    ensures p.value.Single? && DateTimes.FromStr(p.value.text).Ok? && Get(p.parameters, "TZID").Some? && !isZone(Get(p.parameters, "TZID").value) ==> FromProperty(p, isZone) == Err("Invalid timezone: " + Get(p.parameters, "TZID").value)
  {
  }

  /** The written property reads back: the zone kept, the date without a non-zero offset. */
  lemma {:induction false} RoundTrip(x: DtStart, isZone: string -> bool)
    requires FitsWidths(x.datetime) && (x.tzid.Some? ==> isZone(x.tzid.value))
    ensures FromProperty(PropertyOf(x), isZone) == Ok(DtStart(WithoutOffset(x.datetime), x.tzid))
  {
    FromStrToText(x.datetime);
    GetTzid(x.tzid);
  }

  /**
   * `from_property` accepts what `New` refuses: a floating time with no zone is
   * rejected by `New`, yet its DTSTART line reads back without error.
   */
  lemma {:induction false} FloatingStartAccepted(d: DateTime, isZone: string -> bool)
    requires FitsWidths(d) && d.time.Some? && d.time.value.offset == None
    ensures New(d, None).Err?
    ensures FromProperty(PropertyOf(DtStart(d, None)), isZone) == Ok(DtStart(d, None))
  {
    RoundTrip(DtStart(d, None), isZone);
  }

  /** With a plain zone name the written property survives rendering as a line. */
  lemma {:induction false} PropertyWellFormed(x: DtStart)
    requires x.tzid.Some? ==> Plain(x.tzid.value)
    ensures WellFormed(PropertyOf(x))
  {
    DateText(x.datetime);
    assert PlainKey("DTSTART") by {
      assert NoLower("DTSTART") && Word("DTSTART");
      WordPlain("DTSTART");
    }
    TzidPlain(x.tzid);
  }

  /** The TZID parameter of a plain zone name is a plain one-entry map. */
  lemma {:induction false} TzidPlain(tzid: Option<string>)
    requires tzid.Some? ==> Plain(tzid.value)
    ensures PlainEntries(TzidParameter(tzid)) && |TzidParameter(tzid)| <= 1
  {
    if tzid.Some? {
      assert PlainKey("TZID") by {
        assert NoLower("TZID") && Word("TZID");
        WordPlain("TZID");
      }
      AllPlainSnoc([], "TZID", tzid.value);
      assert [] + [("TZID", tzid.value)] == TzidParameter(tzid);
    }
  }

  /** A date's text is a plain, non-empty token. */
  lemma {:induction false} DateText(d: DateTime)
    ensures Plain(ToText(d)) && ToText(d) != ""
  {
    RRules.DateWord(d);
    WordPlain(ToText(d));
  }
}
