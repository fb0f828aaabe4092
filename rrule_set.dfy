/**
 * The recurrence set (lib/rrule/rrule_set.rs): one start, the including and excluding
 * rules, and the extra and excluded dates.  It is read from the text of several
 * content lines through `Calendar::from_str`, which must hold exactly one DTSTART, and
 * written back one line per component, the start first.
 */
module RRuleSets {
  import opened Wrappers
  import opened Strings
  import opened Lists
  import opened PropertyText
  import PropertyList
  import DateTimes
  import DtStarts
  import DateLists
  import RRules
  import Calendars

  datatype RRuleSet = RRuleSet(
    dtstart: DtStarts.DtStart,
    rrules: seq<RRules.RRule>,
    exrules: seq<RRules.RRule>,
    exdates: seq<DateLists.DateList>,
    rdates: seq<DateLists.DateList>)

  /** `RRuleSet::new`: the start, and every collection empty. */
  function New(dtstart: DtStarts.DtStart): (s: RRuleSet)
    ensures s.dtstart == dtstart && s.rrules == [] && s.exrules == [] && s.exdates == [] && s.rdates == []
  {
    RRuleSet(dtstart, [], [], [], [])
  }

  // The `set_*` builders: each replaces one collection and keeps the rest.
  function SetRRules(s: RRuleSet, rrules: seq<RRules.RRule>): (t: RRuleSet)
    ensures t.rrules == rrules && t.dtstart == s.dtstart && t.exrules == s.exrules && t.exdates == s.exdates && t.rdates == s.rdates
  {
    s.(rrules := rrules)
  }

  function SetExRules(s: RRuleSet, exrules: seq<RRules.RRule>): (t: RRuleSet)
    ensures t.exrules == exrules && t.dtstart == s.dtstart && t.rrules == s.rrules && t.exdates == s.exdates && t.rdates == s.rdates
  {
    s.(exrules := exrules)
  }

  function SetExDates(s: RRuleSet, exdates: seq<DateLists.DateList>): (t: RRuleSet)
    ensures t.exdates == exdates && t.dtstart == s.dtstart && t.rrules == s.rrules && t.exrules == s.exrules && t.rdates == s.rdates
  {
    s.(exdates := exdates)
  }

  function SetRDates(s: RRuleSet, rdates: seq<DateLists.DateList>): (t: RRuleSet)
    ensures t.rdates == rdates && t.dtstart == s.dtstart && t.rrules == s.rrules && t.exrules == s.exrules && t.exdates == s.exdates
  {
    s.(rdates := rdates)
  }

  // ---------------------------------------------------------------------------
  // Reading

  /**
   * What `set_from_string` makes of a read calendar: more than one DTSTART is an
   * error, exactly one replaces the start, and every list is appended after the
   * set's own.
   */
  function Merge(s: RRuleSet, c: Calendars.Calendar): Result<RRuleSet, string> {
    if |c.dtstarts| > 1 then Err("Only one DTSTART is allowed")
    else
      Ok(RRuleSet(
        if |c.dtstarts| == 1 then c.dtstarts[0] else s.dtstart,
        s.rrules + c.rrules, s.exrules + c.exrules, s.exdates + c.exdates, s.rdates + c.rdates))
  }

  /** One of the `for … { push }` loops: every item of `items`, in order, pushed after `xs`. */
  method PushAll<T>(xs: seq<T>, items: seq<T>) returns (ys: seq<T>)
    ensures ys == xs + items
  {
    ys := xs;
    for i := 0 to |items|
      invariant ys == xs + items[..i]
    {
      ys := ys + [items[i]];
      assert items[..i + 1] == items[..i] + [items[i]];
    }
    assert items[..|items|] == items;
  }

  /** `set_from_string`: reads the text as a calendar and merges it into the set. */
  method SetFromString(s: RRuleSet, text: string, isZone: string -> bool) returns (r: Result<RRuleSet, string>)
    ensures r == (match Calendars.Parse(text, isZone) case Err(e) => Err(e) case Ok(c) => Merge(s, c))
  {
    var calendar := Calendars.FromStr(text, isZone);
    if calendar.Err? {
      return Err(calendar.error);
    }
    var c := calendar.value;
    if |c.dtstarts| > 1 {
      return Err("Only one DTSTART is allowed");
    }
    var acc := s;
    if |c.dtstarts| == 1 {
      acc := acc.(dtstart := c.dtstarts[0]);
    }
    var rrules := PushAll(acc.rrules, c.rrules);
    var exrules := PushAll(acc.exrules, c.exrules);
    var exdates := PushAll(acc.exdates, c.exdates);
    var rdates := PushAll(acc.rdates, c.rdates);
    return Ok(acc.(rrules := rrules, exrules := exrules, exdates := exdates, rdates := rdates));
  }

  /** What `from_str` makes of a read calendar: exactly one DTSTART is required. */
  function FromCalendar(c: Calendars.Calendar): Result<RRuleSet, string> {
    if |c.dtstarts| > 1 then Err("Only one DTSTART is allowed")
    else if |c.dtstarts| == 0 then Err("DTSTART is required")
    else Ok(RRuleSet(c.dtstarts[0], c.rrules, c.exrules, c.exdates, c.rdates))
  }

  function Parse(text: string, isZone: string -> bool): Result<RRuleSet, string> {
    match Calendars.Parse(text, isZone)
    case Err(e) => Err(e)
    case Ok(c) => FromCalendar(c)
  }

  /** `from_str`: reads the text as a calendar and copies its lists into a new set. */
  method FromStr(text: string, isZone: string -> bool) returns (r: Result<RRuleSet, string>)
    ensures r == Parse(text, isZone)
  {
    var calendar := Calendars.FromStr(text, isZone);
    if calendar.Err? {
      return Err(calendar.error);
    }
    var c := calendar.value;
    if |c.dtstarts| > 1 {
      return Err("Only one DTSTART is allowed");
    }
    if |c.dtstarts| == 0 {
      return Err("DTSTART is required");
    }
    var rrules := PushAll([], c.rrules);
    var exrules := PushAll([], c.exrules);
    var exdates := PushAll([], c.exdates);
    var rdates := PushAll([], c.rdates);
    assert rrules == c.rrules && exrules == c.exrules && exdates == c.exdates && rdates == c.rdates;
    assert Parse(text, isZone) == FromCalendar(c);
    return Ok(RRuleSet(c.dtstarts[0], rrules, exrules, exdates, rdates));
  }

  // ---------------------------------------------------------------------------
  // Writing

  /** The property `RRule::to_property` writes, named RRULE whatever list the rule is in. */
  function RuleProperty(r: RRules.RRule): Property {
    Property("RRULE", [], Multiple(RRules.Parts(r)))
  }

  /** The property `to_property` writes for a list of dates of the given kind. */
  function DatesProperty(kind: string): DateLists.DateList -> Property {
    x => DateLists.PropertyOf(kind, x)
  }

  /** The properties `to_properties` lists: the start, then rules, exrules, exdates and rdates, each in order. */
  function PropertiesOf(s: RRuleSet): seq<Property> {
    [DtStarts.PropertyOf(s.dtstart)] + Map(s.rrules, RuleProperty) + Map(s.exrules, RuleProperty) + Map(s.exdates, DatesProperty("EXDATE")) + Map(s.rdates, DatesProperty("RDATE"))
  }

  /** `to_properties`: one push per component, in the order of `PropertiesOf`. */
  method ToProperties(s: RRuleSet) returns (ps: seq<Property>)
    ensures ps == PropertiesOf(s)
  {
    var start := DtStarts.ToProperty(s.dtstart);
    ps := PushRules([start], s.rrules);
    ps := PushRules(ps, s.exrules);
    ps := PushDates(ps, "EXDATE", s.exdates);
    ps := PushDates(ps, "RDATE", s.rdates);
  }

  /** The loop of `to_properties` over a list of rules: `to_property` of each, pushed in order. */
  method PushRules(ps: seq<Property>, rules: seq<RRules.RRule>) returns (qs: seq<Property>)
    ensures qs == ps + Map(rules, RuleProperty)
  {
    qs := ps;
    for i := 0 to |rules|
      invariant qs == ps + Map(rules[..i], RuleProperty)
    {
      var p := RRules.ToProperty(rules[i]);
      MapSnoc(rules[..i], rules[i], RuleProperty);
      assert rules[..i + 1] == rules[..i] + [rules[i]];
      qs := qs + [p];
    }
    assert rules[..|rules|] == rules;
  }

  /** The loop of `to_properties` over a list of dates of one kind. */
  method PushDates(ps: seq<Property>, kind: string, lists: seq<DateLists.DateList>) returns (qs: seq<Property>)
    ensures qs == ps + Map(lists, DatesProperty(kind))
  {
    qs := ps;
    for i := 0 to |lists|
      invariant qs == ps + Map(lists[..i], DatesProperty(kind))
    {
      var p := DateLists.ToProperty(kind, lists[i]);
      MapSnoc(lists[..i], lists[i], DatesProperty(kind));
      assert lists[..i + 1] == lists[..i] + [lists[i]];
      qs := qs + [p];
    }
    assert lists[..|lists|] == lists;
  }

  /** The text `to_string` produces: one rendered line per property, joined by newlines. */
  function Text(s: RRuleSet): string {
    Join(Map(PropertiesOf(s), Render), '\n')
  }

  method ToString(s: RRuleSet) returns (text: string)
    ensures text == Text(s)
  {
    var ps := ToProperties(s);
    text := Join(Map(ps, Render), '\n');
  }

  // ---------------------------------------------------------------------------
  // Properties

  /**
   * `from_str` is `new` followed by `set_from_string` whenever the text holds its one
   * start; with no DTSTART `from_str` fails while `set_from_string` keeps the set's own.
   */
  lemma {:induction false} FromCalendarIsMerge(c: Calendars.Calendar, d: DtStarts.DtStart)
    ensures FromCalendar(c).Ok? ==> FromCalendar(c) == Merge(New(d), c)
    ensures |c.dtstarts| == 0 ==> FromCalendar(c) == Err("DTSTART is required") && Merge(New(d), c) == Ok(RRuleSet(d, c.rrules, c.exrules, c.exdates, c.rdates))
    ensures |c.dtstarts| > 1 ==> FromCalendar(c) == Merge(New(d), c) == Err("Only one DTSTART is allowed")
  {
    assert [] + c.rrules == c.rrules && [] + c.exrules == c.exrules;
    assert [] + c.exdates == c.exdates && [] + c.rdates == c.rdates;
  }

  /** The outcome of `from_str` on a text that reads as a calendar is decided by the number of its DTSTART lines. */
  lemma {:induction false} StartCount(text: string, isZone: string -> bool)
    requires Calendars.Parse(text, isZone).Ok?
    ensures PropertyList.ParseLines(text).Ok?
    ensures |Calendars.Named(PropertyList.ParseLines(text).value, "DTSTART")| > 1 ==> Parse(text, isZone) == Err("Only one DTSTART is allowed")
    ensures |Calendars.Named(PropertyList.ParseLines(text).value, "DTSTART")| == 0 ==> Parse(text, isZone) == Err("DTSTART is required")
    ensures |Calendars.Named(PropertyList.ParseLines(text).value, "DTSTART")| == 1 ==> Parse(text, isZone).Ok?
  {
    var ps := PropertyList.ParseLines(text).value;
    var rd := Calendars.ReadersOf(isZone);
    Calendars.StartsRouted(ps, rd);
    TryMapSpec(Calendars.Named(ps, "DTSTART"), rd.start);
  }

  /** What the text form needs of a start: a date within its widths and a known, plain zone name. */
  predicate StartWritable(x: DtStarts.DtStart, isZone: string -> bool) {
    DateTimes.FitsWidths(x.datetime) && (x.tzid.Some? ==> isZone(x.tzid.value) && Plain(x.tzid.value))
  }

  /** What the text form needs of a list of dates: at least one date, each within its widths, and a known, plain zone name. */
  predicate DatesWritable(x: DateLists.DateList, isZone: string -> bool) {
    |x.datetimes| >= 1 && (forall i :: 0 <= i < |x.datetimes| ==> DateTimes.FitsWidths(x.datetimes[i])) && (x.tzid.Some? ==> isZone(x.tzid.value) && Plain(x.tzid.value))
  }

  predicate Writable(s: RRuleSet, isZone: string -> bool) {
    StartWritable(s.dtstart, isZone) && (forall r :: r in s.rrules ==> RRules.UntilFits(r)) && (forall r :: r in s.exrules ==> RRules.UntilFits(r)) && (forall x :: x in s.exdates + s.rdates ==> DatesWritable(x, isZone))
  }

  function DatesReadBack(x: DateLists.DateList): DateLists.DateList {
    DateLists.DateList(Map(x.datetimes, DateTimes.WithoutOffset), DateLists.WrittenZone(x.tzid))
  }

  /**
   * What reading the text of a set gives back: non-zero offsets dropped, a UTC zone of
   * a list of dates dropped, and every excluding rule read as an including one, since
   * `to_property` names both RRULE.
   */
  function ReadBack(s: RRuleSet): RRuleSet {
    RRuleSet(
      DtStarts.DtStart(DateTimes.WithoutOffset(s.dtstart.datetime), s.dtstart.tzid),
      Map(s.rrules, RRules.Normalised) + Map(s.exrules, RRules.Normalised), [],
      Map(s.exdates, DatesReadBack), Map(s.rdates, DatesReadBack))
  }

  predicate AllWellFormed(ps: seq<Property>) {
    forall i :: 0 <= i < |ps| ==> WellFormed(ps[i])
  }

  lemma AllWellFormedAppend(xs: seq<Property>, ys: seq<Property>)
    requires AllWellFormed(xs) && AllWellFormed(ys)
    ensures AllWellFormed(xs + ys)
  {
    assert forall i :: |xs| <= i < |xs + ys| ==> (xs + ys)[i] == ys[i - |xs|];
  }

  lemma {:induction false} RulesWellFormed(rules: seq<RRules.RRule>)
    ensures AllWellFormed(Map(rules, RuleProperty))
  {
    forall i | 0 <= i < |rules| ensures WellFormed(Map(rules, RuleProperty)[i]) {
      assert Map(rules, RuleProperty)[i] == Property("RRULE", [], Multiple(RRules.Parts(rules[i])));
      RRules.ToPropertyWellFormed(rules[i]);
    }
  }

  lemma {:induction false} DatesWellFormed(kind: string, lists: seq<DateLists.DateList>, isZone: string -> bool)
    requires kind == "EXDATE" || kind == "RDATE"
    requires forall x :: x in lists ==> DatesWritable(x, isZone)
    ensures AllWellFormed(Map(lists, DatesProperty(kind)))
  {
    forall i | 0 <= i < |lists| ensures WellFormed(Map(lists, DatesProperty(kind))[i]) {
      assert lists[i] in lists;
      DateLists.PropertyWellFormed(kind, lists[i]);
    }
  }

  /** The text of a writable set is read back by the tokenizer as the very properties it was made of. */
  lemma {:induction false} TextReadsAsProperties(s: RRuleSet, isZone: string -> bool)
    requires Writable(s, isZone)
    ensures PropertyList.ParseLines(Text(s)) == Ok(PropertiesOf(s))
  {
    DtStarts.PropertyWellFormed(s.dtstart);
    assert AllWellFormed([DtStarts.PropertyOf(s.dtstart)]);
    RulesWellFormed(s.rrules);
    RulesWellFormed(s.exrules);
    assert forall x :: x in s.exdates ==> x in s.exdates + s.rdates;
    assert forall x :: x in s.rdates ==> x in s.exdates + s.rdates;
    DatesWellFormed("EXDATE", s.exdates, isZone);
    DatesWellFormed("RDATE", s.rdates, isZone);
    var ps := [DtStarts.PropertyOf(s.dtstart)];
    AllWellFormedAppend(ps, Map(s.rrules, RuleProperty));
    ps := ps + Map(s.rrules, RuleProperty);
    AllWellFormedAppend(ps, Map(s.exrules, RuleProperty));
    ps := ps + Map(s.exrules, RuleProperty);
    AllWellFormedAppend(ps, Map(s.exdates, DatesProperty("EXDATE")));
    ps := ps + Map(s.exdates, DatesProperty("EXDATE"));
    AllWellFormedAppend(ps, Map(s.rdates, DatesProperty("RDATE")));
    PropertyList.LinesRoundTrip(PropertiesOf(s));
  }

  lemma {:induction false} StartNamed(s: RRuleSet, name: string)
    ensures Calendars.Named([DtStarts.PropertyOf(s.dtstart)], name) == if name == "DTSTART" then [DtStarts.PropertyOf(s.dtstart)] else []
  {
    Calendars.NamedUniform([DtStarts.PropertyOf(s.dtstart)], "DTSTART", name);
  }

  lemma {:induction false} RulesNamed(rules: seq<RRules.RRule>, name: string)
    ensures Calendars.Named(Map(rules, RuleProperty), name) == if name == "RRULE" then Map(rules, RuleProperty) else []
  {
    Calendars.NamedUniform(Map(rules, RuleProperty), "RRULE", name);
  }

  lemma {:induction false} DatesNamed(kind: string, lists: seq<DateLists.DateList>, name: string)
    ensures Calendars.Named(Map(lists, DatesProperty(kind)), name) == if name == kind then Map(lists, DatesProperty(kind)) else []
  {
    forall i | 0 <= i < |lists| ensures Map(lists, DatesProperty(kind))[i].name == kind {
      assert Map(lists, DatesProperty(kind))[i] == DateLists.PropertyOf(kind, lists[i]);
    }
    Calendars.NamedUniform(Map(lists, DatesProperty(kind)), kind, name);
  }

  /** The start's property is read back, by any reader that is `from_property` of a start, as the start without its offset. */
  lemma {:induction false} StartReadBack(x: DtStarts.DtStart, isZone: string -> bool, read: Property -> Result<DtStarts.DtStart, string>)
    requires StartWritable(x, isZone)
    requires forall p :: read(p) == DtStarts.FromProperty(p, isZone)
    ensures TryMap([DtStarts.PropertyOf(x)], read) == Ok([DtStarts.DtStart(DateTimes.WithoutOffset(x.datetime), x.tzid)])
  {
    DtStarts.RoundTrip(x, isZone);
    TryMapAllOk([DtStarts.PropertyOf(x)], read, [DtStarts.DtStart(DateTimes.WithoutOffset(x.datetime), x.tzid)]);
  }

  /** The rules' properties are read back as the rules, each normalised. */
  lemma {:induction false} RulesReadBack(rules: seq<RRules.RRule>, read: Property -> Result<RRules.RRule, string>)
    requires forall r :: r in rules ==> RRules.UntilFits(r)
    requires forall p :: read(p) == RRules.FromProperty(p)
    ensures TryMap(Map(rules, RuleProperty), read) == Ok(Map(rules, RRules.Normalised))
  {
    forall i | 0 <= i < |rules| ensures read(Map(rules, RuleProperty)[i]) == Ok(Map(rules, RRules.Normalised)[i]) {
      assert rules[i] in rules;
      assert Map(rules, RuleProperty)[i] == RuleProperty(rules[i]);
      RRules.PropertyRoundTrip(rules[i], "RRULE", []);
    }
    TryMapAllOk(Map(rules, RuleProperty), read, Map(rules, RRules.Normalised));
  }

  lemma {:induction false} DatesListReadBack(kind: string, x: DateLists.DateList, isZone: string -> bool, read: Property -> Result<DateLists.DateList, string>)
    requires DatesWritable(x, isZone)
    requires forall p :: read(p) == DateLists.FromProperty(kind, p, isZone)
    ensures read(DatesProperty(kind)(x)) == Ok(DatesReadBack(x))
  {
    DateLists.RoundTrip(kind, x, isZone);
  }

  /** The properties of lists of dates are read back, by any reader that is `from_property` of their kind, as the lists read back. */
  lemma {:induction false} DatesListsReadBack(kind: string, lists: seq<DateLists.DateList>, isZone: string -> bool, read: Property -> Result<DateLists.DateList, string>)
    requires forall x :: x in lists ==> DatesWritable(x, isZone)
    requires forall p :: read(p) == DateLists.FromProperty(kind, p, isZone)
    ensures TryMap(Map(lists, DatesProperty(kind)), read) == Ok(Map(lists, DatesReadBack))
  {
    forall i | 0 <= i < |lists| ensures read(Map(lists, DatesProperty(kind))[i]) == Ok(Map(lists, DatesReadBack)[i]) {
      assert lists[i] in lists;
      DatesListReadBack(kind, lists[i], isZone, read);
    }
    TryMapAllOk(Map(lists, DatesProperty(kind)), read, Map(lists, DatesReadBack));
  }

  /** The one DTSTART line of a set's text is its start's. */
  lemma {:induction false} StartsNamedInText(s: RRuleSet)
    ensures Calendars.Named(PropertiesOf(s), "DTSTART") == [DtStarts.PropertyOf(s.dtstart)]
  {
    var a, b, c := [DtStarts.PropertyOf(s.dtstart)], Map(s.rrules, RuleProperty), Map(s.exrules, RuleProperty);
    var d, e := Map(s.exdates, DatesProperty("EXDATE")), Map(s.rdates, DatesProperty("RDATE"));
    assert Calendars.Named(a, "DTSTART") == a by { StartNamed(s, "DTSTART"); }
    assert Calendars.Named(a + b, "DTSTART") == a by {
      RulesNamed(s.rrules, "DTSTART");
      Calendars.NamedAppend(a, b, "DTSTART");
    }
    assert Calendars.Named(a + b + c, "DTSTART") == a by {
      RulesNamed(s.exrules, "DTSTART");
      Calendars.NamedAppend(a + b, c, "DTSTART");
    }
    assert Calendars.Named(a + b + c + d, "DTSTART") == a by {
      DatesNamed("EXDATE", s.exdates, "DTSTART");
      Calendars.NamedAppend(a + b + c, d, "DTSTART");
    }
    assert Calendars.Named(a + b + c + d + e, "DTSTART") == a by {
      DatesNamed("RDATE", s.rdates, "DTSTART");
      Calendars.NamedAppend(a + b + c + d, e, "DTSTART");
    }
  }

  /** The RRULE lines of a set's text are those of its rules and then those of its excluding rules. */
  lemma {:induction false} RulesNamedInText(s: RRuleSet)
    ensures Calendars.Named(PropertiesOf(s), "RRULE") == Map(s.rrules, RuleProperty) + Map(s.exrules, RuleProperty)
  {
    var a, b, c := [DtStarts.PropertyOf(s.dtstart)], Map(s.rrules, RuleProperty), Map(s.exrules, RuleProperty);
    var d, e := Map(s.exdates, DatesProperty("EXDATE")), Map(s.rdates, DatesProperty("RDATE"));
    assert Calendars.Named(a, "RRULE") == [] by { StartNamed(s, "RRULE"); }
    assert Calendars.Named(a + b, "RRULE") == b by {
      RulesNamed(s.rrules, "RRULE");
      Calendars.NamedAppend(a, b, "RRULE");
    }
    assert Calendars.Named(a + b + c, "RRULE") == b + c by {
      RulesNamed(s.exrules, "RRULE");
      Calendars.NamedAppend(a + b, c, "RRULE");
    }
    assert Calendars.Named(a + b + c + d, "RRULE") == b + c by {
      DatesNamed("EXDATE", s.exdates, "RRULE");
      Calendars.NamedAppend(a + b + c, d, "RRULE");
    }
    assert Calendars.Named(a + b + c + d + e, "RRULE") == b + c by {
      DatesNamed("RDATE", s.rdates, "RRULE");
      Calendars.NamedAppend(a + b + c + d, e, "RRULE");
    }
  }

  /** A set's text has no EXRULE line. */
  lemma {:induction false} ExRulesNamedInText(s: RRuleSet)
    ensures Calendars.Named(PropertiesOf(s), "EXRULE") == []
  {
    var a, b, c := [DtStarts.PropertyOf(s.dtstart)], Map(s.rrules, RuleProperty), Map(s.exrules, RuleProperty);
    var d, e := Map(s.exdates, DatesProperty("EXDATE")), Map(s.rdates, DatesProperty("RDATE"));
    assert Calendars.Named(a, "EXRULE") == [] by { StartNamed(s, "EXRULE"); }
    assert Calendars.Named(a + b, "EXRULE") == [] by {
      RulesNamed(s.rrules, "EXRULE");
      Calendars.NamedAppend(a, b, "EXRULE");
    }
    assert Calendars.Named(a + b + c, "EXRULE") == [] by {
      RulesNamed(s.exrules, "EXRULE");
      Calendars.NamedAppend(a + b, c, "EXRULE");
    }
    assert Calendars.Named(a + b + c + d, "EXRULE") == [] by {
      DatesNamed("EXDATE", s.exdates, "EXRULE");
      Calendars.NamedAppend(a + b + c, d, "EXRULE");
    }
    assert Calendars.Named(a + b + c + d + e, "EXRULE") == [] by {
      DatesNamed("RDATE", s.rdates, "EXRULE");
      Calendars.NamedAppend(a + b + c + d, e, "EXRULE");
    }
  }

  /** The EXDATE lines of a set's text are those of its excluded dates. */
  lemma {:induction false} ExDatesNamedInText(s: RRuleSet)
    ensures Calendars.Named(PropertiesOf(s), "EXDATE") == Map(s.exdates, DatesProperty("EXDATE"))
  {
    var a, b, c := [DtStarts.PropertyOf(s.dtstart)], Map(s.rrules, RuleProperty), Map(s.exrules, RuleProperty);
    var d, e := Map(s.exdates, DatesProperty("EXDATE")), Map(s.rdates, DatesProperty("RDATE"));
    assert Calendars.Named(a, "EXDATE") == [] by { StartNamed(s, "EXDATE"); }
    assert Calendars.Named(a + b, "EXDATE") == [] by {
      RulesNamed(s.rrules, "EXDATE");
      Calendars.NamedAppend(a, b, "EXDATE");
    }
    assert Calendars.Named(a + b + c, "EXDATE") == [] by {
      RulesNamed(s.exrules, "EXDATE");
      Calendars.NamedAppend(a + b, c, "EXDATE");
    }
    assert Calendars.Named(a + b + c + d, "EXDATE") == d by {
      DatesNamed("EXDATE", s.exdates, "EXDATE");
      Calendars.NamedAppend(a + b + c, d, "EXDATE");
    }
    assert Calendars.Named(a + b + c + d + e, "EXDATE") == d by {
      DatesNamed("RDATE", s.rdates, "EXDATE");
      Calendars.NamedAppend(a + b + c + d, e, "EXDATE");
    }
  }

  /** The RDATE lines of a set's text are those of its extra dates. */
  lemma {:induction false} RDatesNamedInText(s: RRuleSet)
    ensures Calendars.Named(PropertiesOf(s), "RDATE") == Map(s.rdates, DatesProperty("RDATE"))
  {
    var a, b, c := [DtStarts.PropertyOf(s.dtstart)], Map(s.rrules, RuleProperty), Map(s.exrules, RuleProperty);
    var d, e := Map(s.exdates, DatesProperty("EXDATE")), Map(s.rdates, DatesProperty("RDATE"));
    assert Calendars.Named(a, "RDATE") == [] by { StartNamed(s, "RDATE"); }
    assert Calendars.Named(a + b, "RDATE") == [] by {
      RulesNamed(s.rrules, "RDATE");
      Calendars.NamedAppend(a, b, "RDATE");
    }
    assert Calendars.Named(a + b + c, "RDATE") == [] by {
      RulesNamed(s.exrules, "RDATE");
      Calendars.NamedAppend(a + b, c, "RDATE");
    }
    assert Calendars.Named(a + b + c + d, "RDATE") == [] by {
      DatesNamed("EXDATE", s.exdates, "RDATE");
      Calendars.NamedAppend(a + b + c, d, "RDATE");
    }
    assert Calendars.Named(a + b + c + d + e, "RDATE") == e by {
      DatesNamed("RDATE", s.rdates, "RDATE");
      Calendars.NamedAppend(a + b + c + d, e, "RDATE");
    }
  }

  /*
   * Each name's properties in the text of a set, read by the reader of that name,
   * give the part of `ReadBack`: the one start, every rule (excluding ones included),
   * no excluding rule, and the lists of dates.
   */

  lemma {:induction false} StartsReadBack(s: RRuleSet, isZone: string -> bool)
    requires Writable(s, isZone)
    ensures TryMap(Calendars.Named(PropertiesOf(s), "DTSTART"), Calendars.ReadersOf(isZone).start) == Ok([ReadBack(s).dtstart])
  {
    StartsNamedInText(s);
    StartReadBack(s.dtstart, isZone, Calendars.ReadersOf(isZone).start);
  }

  lemma {:induction false} RulesReadBackInText(s: RRuleSet, isZone: string -> bool)
    requires Writable(s, isZone)
    ensures TryMap(Calendars.Named(PropertiesOf(s), "RRULE"), Calendars.ReadersOf(isZone).rule) == Ok(ReadBack(s).rrules)
  {
    var read := Calendars.ReadersOf(isZone).rule;
    RulesNamedInText(s);
    RulesReadBack(s.rrules, read);
    RulesReadBack(s.exrules, read);
    TryMapAppend(Map(s.rrules, RuleProperty), Map(s.exrules, RuleProperty), read, Map(s.rrules, RRules.Normalised), Map(s.exrules, RRules.Normalised));
  }

  lemma {:induction false} ExRulesReadBackInText(s: RRuleSet, isZone: string -> bool)
    ensures TryMap(Calendars.Named(PropertiesOf(s), "EXRULE"), Calendars.ReadersOf(isZone).rule) == Ok([])
  {
    ExRulesNamedInText(s);
  }

  lemma {:induction false} ExDatesReadBackInText(s: RRuleSet, isZone: string -> bool)
    requires Writable(s, isZone)
    ensures TryMap(Calendars.Named(PropertiesOf(s), "EXDATE"), Calendars.ReadersOf(isZone).exdate) == Ok(ReadBack(s).exdates)
  {
    ExDatesNamedInText(s);
    assert forall x :: x in s.exdates ==> x in s.exdates + s.rdates;
    DatesListsReadBack("EXDATE", s.exdates, isZone, Calendars.ReadersOf(isZone).exdate);
  }

  lemma {:induction false} RDatesReadBackInText(s: RRuleSet, isZone: string -> bool)
    requires Writable(s, isZone)
    ensures TryMap(Calendars.Named(PropertiesOf(s), "RDATE"), Calendars.ReadersOf(isZone).rdate) == Ok(ReadBack(s).rdates)
  {
    RDatesNamedInText(s);
    assert forall x :: x in s.rdates ==> x in s.exdates + s.rdates;
    DatesListsReadBack("RDATE", s.rdates, isZone, Calendars.ReadersOf(isZone).rdate);
  }

  /** The text of a writable set reads as a calendar holding exactly the parts of `ReadBack`. */
  lemma {:induction false} CalendarOfText(s: RRuleSet, isZone: string -> bool)
    requires Writable(s, isZone)
    ensures Calendars.Parse(Text(s), isZone) == Ok(Calendars.Calendar([ReadBack(s).dtstart], ReadBack(s).rrules, [], ReadBack(s).exdates, ReadBack(s).rdates))
  {
    var ps, rd := PropertiesOf(s), Calendars.ReadersOf(isZone);
    TextReadsAsProperties(s, isZone);
    StartsReadBack(s, isZone);
    RulesReadBackInText(s, isZone);
    ExRulesReadBackInText(s, isZone);
    ExDatesReadBackInText(s, isZone);
    RDatesReadBackInText(s, isZone);
    Calendars.RouteOk(ps, rd);
    Calendars.StartsRouted(ps, rd);
    Calendars.RulesRouted(ps, rd);
    Calendars.ExRulesRouted(ps, rd);
    Calendars.ExDatesRouted(ps, rd);
    Calendars.RDatesRouted(ps, rd);
  }

  /**
   * The round trip of `to_string` and `from_str`: the text of a writable set reads back
   * as `ReadBack` of it.
   */
  lemma {:induction false} TextRoundTrip(s: RRuleSet, isZone: string -> bool)
    requires Writable(s, isZone)
    ensures Parse(Text(s), isZone) == Ok(ReadBack(s))
  {
    CalendarOfText(s, isZone);
  }

  /**
   * Hence the round trip is exact only for a set with no excluding rules: those come
   * back as including rules, which changes what the set means.
   */
  lemma {:induction false} RoundTripExact(s: RRuleSet, isZone: string -> bool)
    requires Writable(s, isZone)
    ensures Parse(Text(s), isZone) == Ok(s) <==> ReadBack(s) == s
    ensures Parse(Text(s), isZone) == Ok(s) ==> s.exrules == []
  {
    TextRoundTrip(s, isZone);
  }

  /** An excluding rule comes back after the including ones, as an including rule. */
  lemma {:induction false} ExRuleIncluded(s: RRuleSet, isZone: string -> bool, i: nat)
    requires Writable(s, isZone) && i < |s.exrules|
    ensures var r := ReadBack(s); Parse(Text(s), isZone) == Ok(r) && r.exrules == [] && |r.rrules| == |s.rrules| + |s.exrules| && r.rrules[|s.rrules| + i] == RRules.Normalised(s.exrules[i])
  {
    TextRoundTrip(s, isZone);
    ReadBackRules(s, i);
  }

  lemma {:induction false} ReadBackRules(s: RRuleSet, i: nat)
    requires i < |s.exrules|
    ensures |ReadBack(s).rrules| == |s.rrules| + |s.exrules| && ReadBack(s).rrules[|s.rrules| + i] == RRules.Normalised(s.exrules[i])
  {
    var rs, xs := Map(s.rrules, RRules.Normalised), Map(s.exrules, RRules.Normalised);
    assert (rs + xs)[|rs| + i] == xs[i];
  }
}
