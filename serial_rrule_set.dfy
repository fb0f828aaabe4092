/**
 * The host-side recurrence set's text form (lib/serialization/rrule_set.rs). Reading
 * takes a calendar and demands exactly one start. Writing produces a DTSTART line that
 * always names its zone, one RRULE line per rule (excluding rules included), and at most
 * one EXDATE line and one RDATE line holding the packed dates as text.
 */
module SerialRRuleSets {
  import opened Wrappers
  import opened Strings
  import opened Lists
  import opened Ints
  import opened PropertyText
  import PropertyList
  import Calendars
  import DtStarts
  import DateLists
  import DateTimes
  import JsDateTimes
  import RRules
  import RRuleSets
  import SerialRRules
  import SerialCalendars
  import ToVec

  /** The parts of a set as its accessors give them: the packed start, its zone, the rules and the packed dates. */
  datatype RRuleSet = RRuleSet(
    dtstart: I64,
    tzid: string,
    rrules: seq<SerialRRules.Rule>,
    exrules: seq<SerialRRules.Rule>,
    exdates: seq<I64>,
    rdates: seq<I64>)

  /** The set of a calendar: one DTSTART is required and a second one is refused. */
  function FromCalendar(c: SerialCalendars.Calendar): Result<RRuleSet, string> {
    if |c.dtstarts| > 1 then Err("Only one DTSTART is allowed")
    else if |c.dtstarts| == 0 then Err("DTSTART is required")
    else Ok(RRuleSet(c.dtstarts[0].0, c.dtstarts[0].1, c.rrules, c.exrules, c.exdates, c.rdates))
  }

  /** What `FromStr for RRuleSet` computes: the calendar's error, or its set. */
  function Parse(s: string): Result<RRuleSet, string> {
    match SerialCalendars.Parse(s)
    case Err(e) => Err(e)
    case Ok(c) => FromCalendar(c)
  }

  /** `FromStr for RRuleSet`: the calendar, the check on its starts, then a copy of each list. */
  method FromStr(s: string) returns (r: Result<RRuleSet, string>)
    ensures r == Parse(s)
  {
    var calendar := SerialCalendars.FromStr(s);
    if calendar.Err? {
      return Err(calendar.error);
    }
    var c := calendar.value;
    if |c.dtstarts| > 1 {
      return Err("Only one DTSTART is allowed");
    }
    if |c.dtstarts| == 0 {
      return Err("DTSTART is required");
    }
    var (dtstart, tzid) := c.dtstarts[0];
    var rrules := RRuleSets.PushAll([], c.rrules);
    var exrules := RRuleSets.PushAll([], c.exrules);
    var exdates := RRuleSets.PushAll([], c.exdates);
    var rdates := RRuleSets.PushAll([], c.rdates);
    assert rrules == c.rrules && exrules == c.exrules && exdates == c.exdates && rdates == c.rdates;
    assert Parse(s) == FromCalendar(c);
    return Ok(RRuleSet(dtstart, tzid, rrules, exrules, exdates, rdates));
  }

  // ---------------------------------------------------------------------------
  // Writing

  /** The DTSTART property: the zone as a TZID parameter, whatever it is, and the start's text. */
  function StartProperty(s: RRuleSet): Property {
    Property("DTSTART", DtStarts.TzidParameter(Some(s.tzid)), Single(JsDateTimes.StampText(s.dtstart)))
  }

  /** Strings collected into one string, one after the other with nothing between them. */
  function Concat(ws: seq<string>): string
    decreases |ws|
  {
    if |ws| == 0 then "" else Concat(ws[..|ws| - 1]) + ws[|ws| - 1]
  }

  /**
   * The value of a line of dates: each date's text, either collected with nothing
   * between them, as written, or joined by ',' as a reader expects.
   */
  function DatesValue(ns: seq<I64>, joined: bool): string {
    if joined then Join(Map(ns, JsDateTimes.StampText), ',') else Concat(Map(ns, JsDateTimes.StampText))
  }

  /** The line of dates of one kind: none for no dates, else one with no parameters. */
  function DatesProperties(kind: string, ns: seq<I64>, joined: bool): seq<Property> {
    if |ns| == 0 then [] else [Property(kind, [], Single(DatesValue(ns, joined)))]
  }

  /** The properties of a set: the start, each rule, each excluding rule (named RRULE), then the dates. */
  function PropertiesOf(s: RRuleSet, joined: bool): seq<Property> {
    [StartProperty(s)] + Map(s.rrules, SerialRRules.PropertyOf) + Map(s.exrules, SerialRRules.PropertyOf) + DatesProperties("EXDATE", s.exdates, joined) + DatesProperties("RDATE", s.rdates, joined)
  }

  /** `Into<String> for &RRuleSet`: the properties rendered one per line. */
  function Text(s: RRuleSet): string {
    Join(Map(PropertiesOf(s, false), Render), '\n')
  }

  /** The text with each line of dates joined by ',', the form the reader of dates accepts. */
  function JoinedText(s: RRuleSet): string {
    Join(Map(PropertiesOf(s, true), Render), '\n')
  }

  /** The collecting of the dates' texts, one date at a time. */
  method CollectStamps(ns: seq<I64>) returns (t: string)
    ensures t == Concat(Map(ns, JsDateTimes.StampText))
  {
    t := "";
    for i := 0 to |ns|
      invariant t == Concat(Map(ns[..i], JsDateTimes.StampText))
    {
      var date := JsDateTimes.FromI64(ns[i]);
      var text := JsDateTimes.ToText(date);
      MapSnoc(ns[..i], ns[i], JsDateTimes.StampText);
      assert ns[..i + 1] == ns[..i] + [ns[i]];
      ConcatSnoc(Map(ns[..i], JsDateTimes.StampText), text);
      t := t + text;
    }
    assert ns[..|ns|] == ns;
  }

  /** The pushes of `into`, in the order of `PropertiesOf`. */
  method ToProperties(s: RRuleSet) returns (ps: seq<Property>)
    ensures ps == PropertiesOf(s, false)
  {
    var start := JsDateTimes.StampText(s.dtstart);
    ps := [Property("DTSTART", DtStarts.TzidParameter(Some(s.tzid)), Single(start))];
    ps := PushRules(ps, s.rrules);
    ps := PushRules(ps, s.exrules);
    if |s.exdates| != 0 {
      var value := CollectStamps(s.exdates);
      ps := ps + [Property("EXDATE", [], Single(value))];
    }
    if |s.rdates| != 0 {
      var value := CollectStamps(s.rdates);
      ps := ps + [Property("RDATE", [], Single(value))];
    }
  }

  /** The loop pushing the property of each rule. */
  method PushRules(ps: seq<Property>, rules: seq<SerialRRules.Rule>) returns (qs: seq<Property>)
    ensures qs == ps + Map(rules, SerialRRules.PropertyOf)
  {
    qs := ps;
    for i := 0 to |rules|
      invariant qs == ps + Map(rules[..i], SerialRRules.PropertyOf)
    {
      var p := SerialRRules.ToProperty(rules[i]);
      MapSnoc(rules[..i], rules[i], SerialRRules.PropertyOf);
      assert rules[..i + 1] == rules[..i] + [rules[i]];
      qs := qs + [p];
    }
    assert rules[..|rules|] == rules;
  }

  method ToString(s: RRuleSet) returns (text: string)
    ensures text == Text(s)
  {
    var ps := ToProperties(s);
    text := Join(Map(ps, Render), '\n');
  }

  // ---------------------------------------------------------------------------
  // Reading

  lemma {:induction false} ConcatSnoc(ws: seq<string>, w: string)
    ensures Concat(ws + [w]) == Concat(ws) + w
  {
    assert (ws + [w])[..|ws|] == ws;
  }

  /** The three outcomes of a calendar, decided by its number of starts. */
  lemma {:induction false} FromCalendarCases(c: SerialCalendars.Calendar)
    ensures |c.dtstarts| > 1 ==> FromCalendar(c) == Err("Only one DTSTART is allowed")
    ensures |c.dtstarts| == 0 ==> FromCalendar(c) == Err("DTSTART is required")
    ensures |c.dtstarts| == 1 ==> FromCalendar(c).Ok? && (FromCalendar(c).value.dtstart, FromCalendar(c).value.tzid) == c.dtstarts[0]
    ensures FromCalendar(c).Ok? ==> var s := FromCalendar(c).value; s.rrules == c.rrules && s.exrules == c.exrules && s.exdates == c.exdates && s.rdates == c.rdates
  {
  }

  /** The outcome of reading a text that reads as a calendar is decided by the number of its DTSTART lines. */
  lemma {:induction false} StartCount(text: string)
    requires SerialCalendars.Parse(text).Ok?
    ensures PropertyList.ParseLines(text).Ok?
    ensures |Calendars.Named(PropertyList.ParseLines(text).value, "DTSTART")| > 1 ==> Parse(text) == Err("Only one DTSTART is allowed")
    ensures |Calendars.Named(PropertyList.ParseLines(text).value, "DTSTART")| == 0 ==> Parse(text) == Err("DTSTART is required")
    ensures |Calendars.Named(PropertyList.ParseLines(text).value, "DTSTART")| == 1 ==> Parse(text).Ok?
  {
    var ps := PropertyList.ParseLines(text).value;
    var rd := SerialCalendars.READERS;
    SerialCalendars.StartsRouted(ps, rd);
    TryMapSpec(Calendars.Named(ps, "DTSTART"), rd.start);
  }

  /** What the text needs of a set: stamps that print in their widths, a plain zone name and rules whose UNTIL fits. */
  predicate Writable(s: RRuleSet) {
    JsDateTimes.Stamp(s.dtstart) && Plain(s.tzid) &&
    (forall i :: 0 <= i < |s.rrules| ==> SerialRRules.UntilFits(s.rrules[i])) &&
    (forall i :: 0 <= i < |s.exrules| ==> SerialRRules.UntilFits(s.exrules[i])) &&
    (forall i :: 0 <= i < |s.exdates| ==> JsDateTimes.Stamp(s.exdates[i])) &&
    (forall i :: 0 <= i < |s.rdates| ==> JsDateTimes.Stamp(s.rdates[i]))
  }

  /** What reading the text of a set gives back: each rule normalised, and the excluding rules included. */
  function ReadBack(s: RRuleSet): RRuleSet {
    RRuleSet(s.dtstart, s.tzid, Map(s.rrules, SerialRRules.Normalised) + Map(s.exrules, SerialRRules.Normalised), [], s.exdates, s.rdates)
  }

  predicate AllWellFormed(ps: seq<Property>) {
    forall i :: 0 <= i < |ps| ==> WellFormed(ps[i])
  }

  lemma AllWellFormedAppend(xs: seq<Property>, ys: seq<Property>)
    requires AllWellFormed(xs) && AllWellFormed(ys)
    ensures AllWellFormed(xs + ys)
  {
    assert forall i :: |xs| <= i < |xs + ys| ==> (xs + ys)[i] == ys[i - |xs|];
  }

  /** A stamp's text is a word of at least fifteen characters. */
  lemma {:induction false} StampWord(n: I64)
    ensures Word(JsDateTimes.StampText(n)) && |JsDateTimes.StampText(n)| >= 15
  {
    RRules.DateWord(JsDateTimes.ToRule(JsDateTimes.FromI64(n)));
  }

  /** Words collected with nothing between them are a word. */
  lemma {:induction false} ConcatWord(ws: seq<string>)
    requires forall i :: 0 <= i < |ws| ==> Word(ws[i])
    ensures Word(Concat(ws))
    decreases |ws|
  {
    if |ws| > 0 {
      var init := ws[..|ws| - 1];
      assert forall i :: 0 <= i < |init| ==> init[i] == ws[i];
      ConcatWord(init);
      WordAppend(Concat(init), ws[|ws| - 1]);
    }
  }

  /** A line of dates, in either form, is a word that is not empty. */
  lemma {:induction false} DatesValueWord(ns: seq<I64>, joined: bool)
    requires |ns| >= 1
    ensures Word(DatesValue(ns, joined)) && |DatesValue(ns, joined)| >= 15
  {
    var texts := Map(ns, JsDateTimes.StampText);
    forall i | 0 <= i < |texts| ensures Word(texts[i]) {
      StampWord(ns[i]);
    }
    StampWord(ns[0]);
    if joined {
      WordJoin(texts);
      assert |Join(texts, ',')| >= |texts[0]|;
    } else {
      ConcatWord(texts);
      ConcatLength(texts);
    }
  }

  /** Collected strings are at least as long as the first one. */
  lemma {:induction false} ConcatLength(ws: seq<string>)
    requires |ws| >= 1
    ensures |Concat(ws)| >= |ws[0]|
    decreases |ws|
  {
    if |ws| > 1 {
      ConcatLength(ws[..|ws| - 1]);
    }
  }

  lemma {:induction false} DatesWellFormed(kind: string, ns: seq<I64>, joined: bool)
    requires kind == "EXDATE" || kind == "RDATE"
    ensures AllWellFormed(DatesProperties(kind, ns, joined))
  {
    if |ns| > 0 {
      var v := DatesValue(ns, joined);
      DatesValueWord(ns, joined);
      WordPlain(v);
      DateLists.KindPlain(kind);
      SingleWellFormed(kind, v);
    }
  }

  /** A plain name with no parameters and a plain, non-empty single value. */
  lemma {:induction false} SingleWellFormed(name: string, v: string)
    requires PlainKey(name) && Plain(v) && v != ""
    ensures WellFormed(Property(name, [], Single(v)))
  {
    assert PlainEntries([]);
  }

  lemma {:induction false} RulesWellFormed(rules: seq<SerialRRules.Rule>)
    ensures AllWellFormed(Map(rules, SerialRRules.PropertyOf))
  {
    forall i | 0 <= i < |rules| ensures WellFormed(Map(rules, SerialRRules.PropertyOf)[i]) {
      SerialRRules.PropertyWellFormed(rules[i]);
    }
  }

  lemma {:induction false} StartWellFormed(s: RRuleSet)
    requires Plain(s.tzid)
    ensures WellFormed(StartProperty(s))
  {
    var x := DtStarts.DtStart(JsDateTimes.ToRule(JsDateTimes.FromI64(s.dtstart)), Some(s.tzid));
    DtStarts.PropertyWellFormed(x);
    assert DtStarts.PropertyOf(x) == StartProperty(s);
  }

  /** The text of a set whose zone is plain is read back by the tokenizer as the very properties it was made of. */
  lemma {:induction false} TextReadsAsProperties(s: RRuleSet, joined: bool)
    requires Plain(s.tzid)
    ensures PropertyList.ParseLines(Join(Map(PropertiesOf(s, joined), Render), '\n')) == Ok(PropertiesOf(s, joined))
  {
    StartWellFormed(s);
    assert AllWellFormed([StartProperty(s)]);
    RulesWellFormed(s.rrules);
    RulesWellFormed(s.exrules);
    DatesWellFormed("EXDATE", s.exdates, joined);
    DatesWellFormed("RDATE", s.rdates, joined);
    var ps := [StartProperty(s)];
    AllWellFormedAppend(ps, Map(s.rrules, SerialRRules.PropertyOf));
    ps := ps + Map(s.rrules, SerialRRules.PropertyOf);
    AllWellFormedAppend(ps, Map(s.exrules, SerialRRules.PropertyOf));
    ps := ps + Map(s.exrules, SerialRRules.PropertyOf);
    AllWellFormedAppend(ps, DatesProperties("EXDATE", s.exdates, joined));
    ps := ps + DatesProperties("EXDATE", s.exdates, joined);
    AllWellFormedAppend(ps, DatesProperties("RDATE", s.rdates, joined));
    PropertyList.LinesRoundTrip(PropertiesOf(s, joined));
  }

  lemma {:induction false} RulesNamed(rules: seq<SerialRRules.Rule>, name: string)
    ensures Calendars.Named(Map(rules, SerialRRules.PropertyOf), name) == if name == "RRULE" then Map(rules, SerialRRules.PropertyOf) else []
  {
    Calendars.NamedUniform(Map(rules, SerialRRules.PropertyOf), "RRULE", name);
  }

  lemma {:induction false} DatesNamed(kind: string, ns: seq<I64>, joined: bool, name: string)
    ensures Calendars.Named(DatesProperties(kind, ns, joined), name) == if name == kind then DatesProperties(kind, ns, joined) else []
  {
    Calendars.NamedUniform(DatesProperties(kind, ns, joined), kind, name);
  }

  /** The lines of one name in a set's text: those of each part that carries that name, in order. */
  lemma {:induction false} NamedInText(s: RRuleSet, joined: bool, name: string)
    ensures Calendars.Named(PropertiesOf(s, joined), name) ==
      (if name == "DTSTART" then [StartProperty(s)] else []) +
      (if name == "RRULE" then Map(s.rrules, SerialRRules.PropertyOf) + Map(s.exrules, SerialRRules.PropertyOf) else []) +
      (if name == "EXDATE" then DatesProperties("EXDATE", s.exdates, joined) else []) +
      (if name == "RDATE" then DatesProperties("RDATE", s.rdates, joined) else [])
  {
    var a, b, c := [StartProperty(s)], Map(s.rrules, SerialRRules.PropertyOf), Map(s.exrules, SerialRRules.PropertyOf);
    var d, e := DatesProperties("EXDATE", s.exdates, joined), DatesProperties("RDATE", s.rdates, joined);
    var na := if name == "DTSTART" then a else [];
    var nb := if name == "RRULE" then b else [];
    var nc := if name == "RRULE" then c else [];
    var nd := if name == "EXDATE" then d else [];
    var ne := if name == "RDATE" then e else [];
    assert Calendars.Named(a, name) == na by {
      Calendars.NamedUniform(a, "DTSTART", name);
    }
    assert Calendars.Named(a + b, name) == na + nb by {
      RulesNamed(s.rrules, name);
      Calendars.NamedAppend(a, b, name);
    }
    assert Calendars.Named(a + b + c, name) == na + nb + nc by {
      RulesNamed(s.exrules, name);
      Calendars.NamedAppend(a + b, c, name);
    }
    assert Calendars.Named(a + b + c + d, name) == na + nb + nc + nd by {
      DatesNamed("EXDATE", s.exdates, joined, name);
      Calendars.NamedAppend(a + b + c, d, name);
    }
    assert Calendars.Named(a + b + c + d + e, name) == na + nb + nc + nd + ne by {
      DatesNamed("RDATE", s.rdates, joined, name);
      Calendars.NamedAppend(a + b + c + d, e, name);
    }
    assert na + nb + nc == na + (if name == "RRULE" then b + c else []);
  }

  /** The start's line reads back as the start and its zone. */
  lemma {:induction false} StartReadBack(s: RRuleSet)
    requires JsDateTimes.Stamp(s.dtstart)
    ensures TryMap([StartProperty(s)], SerialCalendars.READERS.start) == Ok([(s.dtstart, s.tzid)])
  {
    SerialCalendars.StartOfStamp(s.dtstart, s.tzid);
    TryMapAllOk([StartProperty(s)], SerialCalendars.READERS.start, [(s.dtstart, s.tzid)]);
  }

  /** A rule's line reads back as the rule, normalised. */
  lemma {:induction false} RuleReadBack(r: SerialRRules.Rule)
    requires SerialRRules.UntilFits(r)
    ensures SerialCalendars.READERS.rule(SerialRRules.PropertyOf(r)) == Ok(SerialRRules.Normalised(r))
  {
    SerialRRules.PartsRoundTrip(r);
  }

  /** The rules' lines read back as the rules, each normalised. */
  lemma {:induction false} RulesReadBack(rules: seq<SerialRRules.Rule>)
    requires forall i :: 0 <= i < |rules| ==> SerialRRules.UntilFits(rules[i])
    ensures TryMap(Map(rules, SerialRRules.PropertyOf), SerialCalendars.READERS.rule) == Ok(Map(rules, SerialRRules.Normalised))
  {
    var read := SerialCalendars.READERS.rule;
    var ps, ns := Map(rules, SerialRRules.PropertyOf), Map(rules, SerialRRules.Normalised);
    forall i | 0 <= i < |rules| ensures read(ps[i]) == Ok(ns[i]) {
      RuleReadBack(rules[i]);
    }
    TryMapAllOk(ps, read, ns);
  }

  /** The joined line of dates of one kind reads back as the dates. */
  lemma {:induction false} DatesReadBack(kind: string, ns: seq<I64>, f: Property -> Result<seq<I64>, string>)
    requires forall i :: 0 <= i < |ns| ==> JsDateTimes.Stamp(ns[i])
    requires forall p :: f(p) == SerialCalendars.DatesOf(kind, p)
    ensures SerialCalendars.TryFlatMap(DatesProperties(kind, ns, true), f) == Ok(ns)
  {
    if |ns| > 0 {
      var p := Property(kind, [], Single(DatesValue(ns, true)));
      SerialCalendars.DatesOfStamps(kind, [], ns);
      assert f(p) == Ok(ns);
      assert [p][..0] == [];
      assert SerialCalendars.TryFlatMap([], f) == Ok([]);
      assert [] + ns == ns;
    }
  }

  /*
   * Each name's lines in the joined text of a writable set, read by the reader of that
   * name, give the part of `ReadBack`.
   */

  lemma {:induction false} StartsInText(s: RRuleSet)
    requires Writable(s)
    ensures TryMap(Calendars.Named(PropertiesOf(s, true), "DTSTART"), SerialCalendars.READERS.start) == Ok([(s.dtstart, s.tzid)])
  {
    NamedInText(s, true, "DTSTART");
    assert [StartProperty(s)] + [] + [] + [] == [StartProperty(s)];
    StartReadBack(s);
  }

  lemma {:induction false} RulesInText(s: RRuleSet)
    requires Writable(s)
    ensures TryMap(Calendars.Named(PropertiesOf(s, true), "RRULE"), SerialCalendars.READERS.rule) == Ok(ReadBack(s).rrules)
  {
    NamedInText(s, true, "RRULE");
    var b, c := Map(s.rrules, SerialRRules.PropertyOf), Map(s.exrules, SerialRRules.PropertyOf);
    assert [] + (b + c) + [] + [] == b + c;
    RulesReadBack(s.rrules);
    RulesReadBack(s.exrules);
    TryMapAppend(b, c, SerialCalendars.READERS.rule, Map(s.rrules, SerialRRules.Normalised), Map(s.exrules, SerialRRules.Normalised));
  }

  lemma {:induction false} ExRulesInText(s: RRuleSet)
    ensures TryMap(Calendars.Named(PropertiesOf(s, true), "EXRULE"), SerialCalendars.READERS.rule) == Ok([])
  {
    NamedInText(s, true, "EXRULE");
    var none: seq<Property> := [];
    assert none + none + none + none == none;
  }

  lemma {:induction false} ExDatesInText(s: RRuleSet)
    requires Writable(s)
    ensures SerialCalendars.TryFlatMap(Calendars.Named(PropertiesOf(s, true), "EXDATE"), SerialCalendars.READERS.exdate) == Ok(s.exdates)
  {
    NamedInText(s, true, "EXDATE");
    var d := DatesProperties("EXDATE", s.exdates, true);
    assert [] + [] + d + [] == d;
    DatesReadBack("EXDATE", s.exdates, SerialCalendars.READERS.exdate);
  }

  lemma {:induction false} RDatesInText(s: RRuleSet)
    requires Writable(s)
    ensures SerialCalendars.TryFlatMap(Calendars.Named(PropertiesOf(s, true), "RDATE"), SerialCalendars.READERS.rdate) == Ok(s.rdates)
  {
    NamedInText(s, true, "RDATE");
    var e := DatesProperties("RDATE", s.rdates, true);
    assert [] + [] + [] + e == e;
    DatesReadBack("RDATE", s.rdates, SerialCalendars.READERS.rdate);
  }

  /** The joined text of a writable set reads as a calendar holding exactly the parts of `ReadBack`. */
  lemma {:induction false} CalendarOfJoinedText(s: RRuleSet)
    requires Writable(s)
    ensures SerialCalendars.Parse(JoinedText(s)) == Ok(SerialCalendars.Calendar([(s.dtstart, s.tzid)], ReadBack(s).rrules, [], s.exdates, s.rdates))
  {
    var ps, rd := PropertiesOf(s, true), SerialCalendars.READERS;
    TextReadsAsProperties(s, true);
    StartsInText(s);
    RulesInText(s);
    ExRulesInText(s);
    ExDatesInText(s);
    RDatesInText(s);
    SerialCalendars.RouteOk(ps, rd);
    SerialCalendars.StartsRouted(ps, rd);
    SerialCalendars.RulesRouted(ps, rd);
    SerialCalendars.ExRulesRouted(ps, rd);
    SerialCalendars.ExDatesRouted(ps, rd);
    SerialCalendars.RDatesRouted(ps, rd);
  }

  /**
   * The round trip of the corrected text: a writable set is read back as `ReadBack` of
   * it, its start, zone and dates unchanged.
   */
  lemma {:induction false} JoinedRoundTrip(s: RRuleSet)
    requires Writable(s)
    ensures Parse(JoinedText(s)) == Ok(ReadBack(s))
  {
    CalendarOfJoinedText(s);
  }

  /** Hence the corrected round trip is exact only for a set with no excluding rules, each rule left alone by normalising. */
  lemma {:induction false} JoinedRoundTripExact(s: RRuleSet)
    requires Writable(s)
    ensures Parse(JoinedText(s)) == Ok(s) <==> ReadBack(s) == s
    ensures Parse(JoinedText(s)) == Ok(s) ==> s.exrules == []
  {
    JoinedRoundTrip(s);
  }

  /** With at most one date of each kind, nothing tells the written text from the joined one. */
  lemma {:induction false} AsWrittenAgrees(s: RRuleSet)
    requires |s.exdates| <= 1 && |s.rdates| <= 1
    ensures Text(s) == JoinedText(s)
  {
    forall ns: seq<I64> | |ns| == 1 ensures DatesValue(ns, false) == DatesValue(ns, true) {
      var texts := Map(ns, JsDateTimes.StampText);
      assert texts[..0] == [];
      assert Concat(texts) == Concat(texts[..0]) + texts[0] == texts[0];
      assert Join(texts, ',') == texts[0];
    }
    assert PropertiesOf(s, false) == PropertiesOf(s, true);
  }

  /** Hence the written text reads back when each kind has at most one date. */
  lemma {:induction false} TextRoundTrip(s: RRuleSet)
    requires Writable(s) && |s.exdates| <= 1 && |s.rdates| <= 1
    ensures Parse(Text(s)) == Ok(ReadBack(s))
  {
    AsWrittenAgrees(s);
    JoinedRoundTrip(s);
  }

  /**
   * Two or more dates collected with nothing between them make one piece of at least
   * thirty characters, which no date-time parse accepts, so the line is refused.
   */
  lemma {:induction false} CollectedDatesRefused(kind: string, ns: seq<I64>)
    requires |ns| >= 2
    ensures SerialCalendars.DatesOf(kind, Property(kind, [], Single(DatesValue(ns, false)))).Err?
  {
    var texts := Map(ns, JsDateTimes.StampText);
    var t := Concat(texts);
    forall i | 0 <= i < |texts| ensures ',' !in texts[i] && |texts[i]| >= 15 {
      StampWord(ns[i]);
      StampHasNoComma(ns[i]);
    }
    ConcatNoComma(texts);
    ConcatLong(texts);
    SplitJoin([t], ',');
    assert Join([t], ',') == t;
    DateTimes.FromStrLength(t);
    var f := ToVec.Convert(SerialCalendars.DateTimeOf, SerialCalendars.DATETIME_TYPE);
    TryMapFailsAt([t], f, 0);
  }

  lemma {:induction false} StampHasNoComma(n: I64)
    ensures ',' !in JsDateTimes.StampText(n)
  {
    DateTimes.TextHasNoComma(JsDateTimes.ToRule(JsDateTimes.FromI64(n)));
  }

  lemma {:induction false} ConcatNoComma(ws: seq<string>)
    requires forall i :: 0 <= i < |ws| ==> ',' !in ws[i]
    ensures ',' !in Concat(ws)
    decreases |ws|
  {
    if |ws| > 0 {
      var init := ws[..|ws| - 1];
      assert forall i :: 0 <= i < |init| ==> init[i] == ws[i];
      ConcatNoComma(init);
    }
  }

  lemma {:induction false} ConcatLong(ws: seq<string>)
    requires |ws| >= 2 && forall i :: 0 <= i < |ws| ==> |ws[i]| >= 15
    ensures |Concat(ws)| >= 30
  {
    ConcatLength(ws[..|ws| - 1]);
    assert ws[..|ws| - 1][0] == ws[0];
  }

  /**
   * The written text of a writable set with two or more excluded or extra dates does not
   * read back: the line of dates is refused.
   */
  lemma {:induction false} TextRefused(s: RRuleSet)
    requires Writable(s) && (|s.exdates| >= 2 || |s.rdates| >= 2)
    ensures Parse(Text(s)).Err?
  {
    var ps := PropertiesOf(s, false);
    TextReadsAsProperties(s, false);
    var front := [StartProperty(s)] + Map(s.rrules, SerialRRules.PropertyOf) + Map(s.exrules, SerialRRules.PropertyOf);
    var ex := DatesProperties("EXDATE", s.exdates, false);
    var r := DatesProperties("RDATE", s.rdates, false);
    DateLineAt(front, ex, r);
    if |s.exdates| >= 2 {
      LineRefused(ps, |front|, "EXDATE", s.exdates);
    } else {
      LineRefused(ps, |front + ex|, "RDATE", s.rdates);
    }
    ParseRefused(Text(s), ps);
  }

  /** Where the lines of excluded and of added dates sit in a list of properties. */
  lemma {:induction false} DateLineAt(front: seq<Property>, ex: seq<Property>, r: seq<Property>)
    ensures |ex| > 0 ==> (front + ex + r)[|front|] == ex[0]
    ensures |r| > 0 ==> (front + ex + r)[|front + ex|] == r[0]
  {
  }

  /** A text whose properties do not all read is refused. */
  lemma {:induction false} ParseRefused(t: string, ps: seq<Property>)
    requires PropertyList.ParseLines(t) == Ok(ps) && SerialCalendars.Route(ps, SerialCalendars.READERS).Err?
    ensures Parse(t).Err?
  {
  }

  /** A list of properties holding a line of two or more collected dates does not read. */
  lemma {:induction false} LineRefused(ps: seq<Property>, i: nat, kind: string, ns: seq<I64>)
    requires i < |ps| && |ns| >= 2 && ps[i] == Property(kind, [], Single(DatesValue(ns, false)))
    requires kind == "EXDATE" || kind == "RDATE"
    ensures SerialCalendars.Route(ps, SerialCalendars.READERS).Err?
  {
    CollectedDatesRefused(kind, ns);
    assert SerialCalendars.Refused(ps[i], SerialCalendars.READERS);
    SerialCalendars.RouteFails(ps, SerialCalendars.READERS);
  }
}
