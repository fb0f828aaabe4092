/**
 * Excluded and extra dates of a recurrence set (lib/rrule/exdate.rs and
 * lib/rrule/rdate.rs, which are the same code under the names EXDATE and RDATE,
 * sections 3.8.5.1 and 3.8.5.2 of RFC 5545): a list of dates with an optional zone,
 * carried by one line whose value is the dates joined by ','.  `kind` is the
 * property name, "EXDATE" or "RDATE".
 */
module DateLists {
  import opened Wrappers
  import opened Strings
  import opened Lists
  import opened Params
  import opened PropertyText
  import opened DateTimes
  import DtStarts
  import RRules

  datatype DateList = DateList(datetimes: seq<DateTime>, tzid: Option<string>)

  /** The zone `to_property` writes: none for UTC, which such dates must not name. */
  function WrittenZone(tzid: Option<string>): Option<string> {
    if tzid == Some(DtStarts.UTC) then None else tzid
  }

  /** The value `to_property` writes: every date's text, in order, joined by ','. */
  function DatesText(ds: seq<DateTime>): string {
    Join(Map(ds, ToText), ',')
  }

  function PropertyOf(kind: string, x: DateList): Property {
    Property(kind, DtStarts.TzidParameter(WrittenZone(x.tzid)), Single(DatesText(x.datetimes)))
  }

  /** `to_property`: TZID only for a zone other than UTC, and the joined dates as the value. */
  method ToProperty(kind: string, x: DateList) returns (p: Property)
    ensures p == PropertyOf(kind, x)
  {
    var parameters := new Parameters();
    if x.tzid.Some? {
      if x.tzid.value != DtStarts.UTC {
        assert NoLower("TZID");
        UpperOfNoLower("TZID");
        parameters.Insert("TZID", x.tzid.value);
      }
    }
    var value := DatesText(x.datetimes);
    p := Property(kind, parameters.params, Single(value));
  }

  /**
   * `from_property`: the single value is split on ',' and every piece parsed as a
   * date, in order.  The zone is checked before the dates are, so a bad TZID is the
   * error reported even when a date is bad too.
   */
  function FromProperty(kind: string, p: Property, isZone: string -> bool): Result<DateList, string> {
    match p.value
    case Multiple(_) => Err("Invalid " + kind + " value")
    case Single(text) =>
      var datetimes := TryMap(Split(text, ','), DateTimes.FromStr);
      match Get(p.parameters, "TZID")
      case Some(value) =>
        if !isZone(value) then Err("Invalid timezone: " + value)
        else
          var ds :- datetimes;
          Ok(DateList(ds, Some(value)))
      case None =>
        var ds :- datetimes;
        Ok(DateList(ds, None))
  }

  // ---------------------------------------------------------------------------
  // Properties

  /** Reading a single value: the dates are the pieces parsed one by one, and one bad piece fails the whole list. */
  lemma {:induction false} FromPropertyDates(kind: string, p: Property, isZone: string -> bool)
    requires p.value.Single?
    ensures FromProperty(kind, p, isZone).Ok? ==> |FromProperty(kind, p, isZone).value.datetimes| == |Split(p.value.text, ',')|
    ensures FromProperty(kind, p, isZone).Ok? ==> forall i :: 0 <= i < |Split(p.value.text, ',')| ==> DateTimes.FromStr(Split(p.value.text, ',')[i]) == Ok(FromProperty(kind, p, isZone).value.datetimes[i])
    ensures (exists i :: 0 <= i < |Split(p.value.text, ',')| && DateTimes.FromStr(Split(p.value.text, ',')[i]).Err?) ==> FromProperty(kind, p, isZone).Err?
  {
    TryMapSpec(Split(p.value.text, ','), DateTimes.FromStr);
  }

  /** A map value is refused with the kind's message; a bad zone is refused before any date is looked at. */
  lemma {:induction false} FromPropertyErrors(kind: string, p: Property, isZone: string -> bool)
    ensures p.value.Multiple? ==> FromProperty(kind, p, isZone) == Err("Invalid " + kind + " value")
    ensures p.value.Single? && Get(p.parameters, "TZID").Some? && !isZone(Get(p.parameters, "TZID").value) ==> FromProperty(kind, p, isZone) == Err("Invalid timezone: " + Get(p.parameters, "TZID").value)
  {
  }

  /**
   * A non-empty list of dates that fit their widths reads back from its property in
   * order; a UTC zone comes back absent and non-zero offsets are forgotten.
   */
  lemma {:induction false} RoundTrip(kind: string, x: DateList, isZone: string -> bool)
    requires |x.datetimes| >= 1 && forall i :: 0 <= i < |x.datetimes| ==> FitsWidths(x.datetimes[i])
    requires x.tzid.Some? ==> isZone(x.tzid.value)
    ensures FromProperty(kind, PropertyOf(kind, x), isZone) == Ok(DateList(Map(x.datetimes, WithoutOffset), WrittenZone(x.tzid)))
  {
    DatesReadBack(x.datetimes);
    DtStarts.GetTzid(WrittenZone(x.tzid));
  }

  lemma {:induction false} DatesReadBack(ds: seq<DateTime>)
    requires |ds| >= 1 && forall i :: 0 <= i < |ds| ==> FitsWidths(ds[i])
    ensures TryMap(Split(DatesText(ds), ','), DateTimes.FromStr) == Ok(Map(ds, WithoutOffset))
  {
    var texts := Map(ds, ToText);
    forall i | 0 <= i < |ds|
      ensures ',' !in texts[i] && DateTimes.FromStr(texts[i]) == Ok(Map(ds, WithoutOffset)[i])
    {
      TextHasNoComma(ds[i]);
      FromStrToText(ds[i]);
    }
    SplitJoin(texts, ',');
    TryMapAllOk(texts, DateTimes.FromStr, Map(ds, WithoutOffset));
  }

  /** Hence the round trip is exact precisely when the zone is not UTC and no date has a non-zero offset. */
  lemma {:induction false} RoundTripExact(kind: string, x: DateList, isZone: string -> bool)
    requires |x.datetimes| >= 1 && forall i :: 0 <= i < |x.datetimes| ==> FitsWidths(x.datetimes[i])
    requires x.tzid.Some? ==> isZone(x.tzid.value)
    ensures FromProperty(kind, PropertyOf(kind, x), isZone) == Ok(x) <==> x.tzid != Some(DtStarts.UTC) && forall i :: 0 <= i < |x.datetimes| ==> Exact(x.datetimes[i])
  {
    RoundTrip(kind, x, isZone);
    var ds := x.datetimes;
    forall i | 0 <= i < |ds| ensures WithoutOffset(ds[i]) == ds[i] <==> Exact(ds[i]) {
      WithoutOffsetFixed(ds[i]);
    }
    if forall i :: 0 <= i < |ds| ==> Exact(ds[i]) {
      assert Map(ds, WithoutOffset) == ds;
    } else {
      var i :| 0 <= i < |ds| && !Exact(ds[i]);
      assert Map(ds, WithoutOffset)[i] != ds[i];
    }
  }

  /** A date the text form keeps as it is: no time, or a time with no offset or offset zero. */
  predicate Exact(d: DateTime) {
    d.time.Some? ==> d.time.value.offset in {None, Some(0)}
  }

  /** No dates at all write an empty value, which does not read back. */
  lemma {:induction false} EmptyListRejected(kind: string, tzid: Option<string>, isZone: string -> bool)
    ensures FromProperty(kind, PropertyOf(kind, DateList([], tzid)), isZone).Err?
  {
    assert DatesText([]) == "";
    assert Split("", ',') == [""];
    assert DateTimes.FromStr("").Err?;
    TryMapFailsAt([""], DateTimes.FromStr, 0);
  }

  /** With a plain zone name the written property survives rendering as a line. */
  lemma {:induction false} PropertyWellFormed(kind: string, x: DateList)
    requires kind == "EXDATE" || kind == "RDATE"
    requires |x.datetimes| >= 1 && (x.tzid.Some? ==> Plain(x.tzid.value))
    ensures WellFormed(PropertyOf(kind, x))
  {
    KindPlain(kind);
    DtStarts.TzidPlain(WrittenZone(x.tzid));
    DatesWord(x.datetimes);
    WordPlain(DatesText(x.datetimes));
  }

  lemma {:induction false} KindPlain(kind: string)
    requires kind == "EXDATE" || kind == "RDATE"
    ensures PlainKey(kind)
  {
    assert NoLower(kind) && Word(kind);
    WordPlain(kind);
  }

  lemma {:induction false} DatesWord(ds: seq<DateTime>)
    requires |ds| >= 1
    ensures Word(DatesText(ds)) && DatesText(ds) != ""
  {
    var texts := Map(ds, ToText);
    forall i | 0 <= i < |texts| ensures Word(texts[i]) {
      RRules.DateWord(ds[i]);
    }
    WordJoin(texts);
    DtStarts.DateText(ds[0]);
    assert |Join(texts, ',')| >= |texts[0]|;
  }
}
