/**
 * `Calendar::from_str` (lib/rrule/calendar.rs): the lines of a text are tokenized and
 * each property is read by its name into one of five lists (DTSTART, RRULE, EXRULE,
 * EXDATE and RDATE), in order; any other name is ignored, and the first error aborts.
 */
module Calendars {
  import opened Wrappers
  import opened Lists
  import opened PropertyText
  import PropertyList
  import DtStarts
  import DateLists
  import RRules

  datatype Calendar = Calendar(
    dtstarts: seq<DtStarts.DtStart>,
    rrules: seq<RRules.RRule>,
    exrules: seq<RRules.RRule>,
    exdates: seq<DateLists.DateList>,
    rdates: seq<DateLists.DateList>)

  const Empty := Calendar([], [], [], [], [])

  /** The reader of each name: DTSTART, RRULE and EXRULE (one reader), EXDATE and RDATE. */
  datatype Readers = Readers(
    start: Property -> Result<DtStarts.DtStart, string>,
    rule: Property -> Result<RRules.RRule, string>,
    exdate: Property -> Result<DateLists.DateList, string>,
    rdate: Property -> Result<DateLists.DateList, string>)

  /** The readers `Calendar::from_str` uses: each entity's `from_property`. */
  function ReadersOf(isZone: string -> bool): Readers {
    Readers(
      p => DtStarts.FromProperty(p, isZone),
      RRules.FromProperty,
      p => DateLists.FromProperty("EXDATE", p, isZone),
      p => DateLists.FromProperty("RDATE", p, isZone))
  }

  /** One property read by its name and pushed on its list; an unknown name changes nothing. */
  function Add(c: Calendar, p: Property, rd: Readers): Result<Calendar, string> {
    if p.name == "DTSTART" then
      var x :- rd.start(p);
      Ok(c.(dtstarts := c.dtstarts + [x]))
    else if p.name == "RRULE" then
      var x :- rd.rule(p);
      Ok(c.(rrules := c.rrules + [x]))
    else if p.name == "EXRULE" then
      var x :- rd.rule(p);
      Ok(c.(exrules := c.exrules + [x]))
    else if p.name == "EXDATE" then
      var x :- rd.exdate(p);
      Ok(c.(exdates := c.exdates + [x]))
    else if p.name == "RDATE" then
      var x :- rd.rdate(p);
      Ok(c.(rdates := c.rdates + [x]))
    else Ok(c)
  }

  /** The properties read in order, stopping at the first error. */
  function Route(ps: seq<Property>, rd: Readers): Result<Calendar, string>
    decreases |ps|
  {
    if |ps| == 0 then Ok(Empty)
    else
      var c :- Route(ps[..|ps| - 1], rd);
      Add(c, ps[|ps| - 1], rd)
  }

  /** What `Calendar::from_str` computes; a tokenizer error is reported by its message. */
  function Parse(s: string, isZone: string -> bool): Result<Calendar, string> {
    match PropertyList.ParseLines(s)
    case Err(e) => Err(Message(e))
    case Ok(ps) => Route(ps, ReadersOf(isZone))
  }

  /** `Calendar::from_str`: one pass over the properties, pushing each onto the list of its name. */
  method FromStr(s: string, isZone: string -> bool) returns (r: Result<Calendar, string>)
    ensures r == Parse(s, isZone)
  {
    var properties := PropertyList.FromStr(s);
    if properties.Err? {
      return Err(Message(properties.error));
    }
    var ps := properties.value;
    var rd := ReadersOf(isZone);
    var dtstarts: seq<DtStarts.DtStart> := [];
    var rrules: seq<RRules.RRule> := [];
    var exrules: seq<RRules.RRule> := [];
    var exdates: seq<DateLists.DateList> := [];
    var rdates: seq<DateLists.DateList> := [];
    for i := 0 to |ps|
      invariant Route(ps[..i], rd) == Ok(Calendar(dtstarts, rrules, exrules, exdates, rdates))
    {
      var p := ps[i];
      RouteAt(ps, i, rd);
      if p.name == "DTSTART" {
        var x := rd.start(p);
        if x.Err? {
          ErrorSticks(ps, i + 1, rd);
          return Err(x.error);
        }
        dtstarts := dtstarts + [x.value];
      } else if p.name == "RRULE" {
        var x := rd.rule(p);
        if x.Err? {
          ErrorSticks(ps, i + 1, rd);
          return Err(x.error);
        }
        rrules := rrules + [x.value];
      } else if p.name == "EXRULE" {
        var x := rd.rule(p);
        if x.Err? {
          ErrorSticks(ps, i + 1, rd);
          return Err(x.error);
        }
        exrules := exrules + [x.value];
      } else if p.name == "EXDATE" {
        var x := rd.exdate(p);
        if x.Err? {
          ErrorSticks(ps, i + 1, rd);
          return Err(x.error);
        }
        exdates := exdates + [x.value];
      } else if p.name == "RDATE" {
        var x := rd.rdate(p);
        if x.Err? {
          ErrorSticks(ps, i + 1, rd);
          return Err(x.error);
        }
        rdates := rdates + [x.value];
      }
    }
    assert ps[..|ps|] == ps;
    return Ok(Calendar(dtstarts, rrules, exrules, exdates, rdates));
  }

  // ---------------------------------------------------------------------------
  // Properties

  /** Once a prefix has failed, the whole list fails with the same error. */
  lemma {:induction false} ErrorSticks(ps: seq<Property>, i: nat, rd: Readers)
    requires i <= |ps| && Route(ps[..i], rd).Err?
    ensures Route(ps, rd) == Route(ps[..i], rd)
    decreases |ps|
  {
    if i == |ps| {
      assert ps[..i] == ps;
    } else {
      var init := ps[..|ps| - 1];
      assert init[..i] == ps[..i];
      ErrorSticks(init, i, rd);
    }
  }

  /** The properties of one name, in order. */
  function Named(ps: seq<Property>, name: string): seq<Property>
    decreases |ps|
  {
    if |ps| == 0 then []
    else
      var last := ps[|ps| - 1];
      Named(ps[..|ps| - 1], name) + (if last.name == name then [last] else [])
  }

  /** `Route` of one more property of a list. */
  lemma {:induction false} RouteAt(ps: seq<Property>, i: nat, rd: Readers)
    requires i < |ps|
    ensures Route(ps[..i + 1], rd) == if Route(ps[..i], rd).Err? then Route(ps[..i], rd) else Add(Route(ps[..i], rd).value, ps[i], rd)
  {
    assert ps[..i + 1][..i] == ps[..i];
  }

  /** `Route` of a non-empty list: the last property added to what the others give. */
  lemma {:induction false} RouteStep(ps: seq<Property>, rd: Readers)
    requires |ps| > 0
    ensures Route(ps, rd) == if Route(ps[..|ps| - 1], rd).Err? then Route(ps[..|ps| - 1], rd) else Add(Route(ps[..|ps| - 1], rd).value, ps[|ps| - 1], rd)
  {
  }

  /*
   * On success each list holds exactly the properties of its name, each read by the
   * reader of that name, in their order in the text: properties of any other name are
   * ignored, and several DTSTART lines are all kept.
   */

  lemma {:induction false} StartsRouted(ps: seq<Property>, rd: Readers)
    requires Route(ps, rd).Ok?
    ensures TryMap(Named(ps, "DTSTART"), rd.start) == Ok(Route(ps, rd).value.dtstarts)
    decreases |ps|
  {
    if |ps| > 0 {
      var init, p := ps[..|ps| - 1], ps[|ps| - 1];
      RouteStep(ps, rd);
      StartsRouted(init, rd);
      assert Named(ps, "DTSTART") == Named(init, "DTSTART") + (if p.name == "DTSTART" then [p] else []);
      if p.name == "DTSTART" {
        TryMapSnoc(Named(init, "DTSTART"), p, rd.start, Route(init, rd).value.dtstarts, rd.start(p).value);
      } else {
        assert Named(init, "DTSTART") + [] == Named(init, "DTSTART");
        assert Route(ps, rd).value.dtstarts == Route(init, rd).value.dtstarts;
      }
    }
  }

  lemma {:induction false} RulesRouted(ps: seq<Property>, rd: Readers)
    requires Route(ps, rd).Ok?
    ensures TryMap(Named(ps, "RRULE"), rd.rule) == Ok(Route(ps, rd).value.rrules)
    decreases |ps|
  {
    if |ps| > 0 {
      var init, p := ps[..|ps| - 1], ps[|ps| - 1];
      RouteStep(ps, rd);
      RulesRouted(init, rd);
      assert Named(ps, "RRULE") == Named(init, "RRULE") + (if p.name == "RRULE" then [p] else []);
      if p.name == "RRULE" {
        TryMapSnoc(Named(init, "RRULE"), p, rd.rule, Route(init, rd).value.rrules, rd.rule(p).value);
      } else {
        assert Named(init, "RRULE") + [] == Named(init, "RRULE");
        assert Route(ps, rd).value.rrules == Route(init, rd).value.rrules;
      }
    }
  }

  lemma {:induction false} ExRulesRouted(ps: seq<Property>, rd: Readers)
    requires Route(ps, rd).Ok?
    ensures TryMap(Named(ps, "EXRULE"), rd.rule) == Ok(Route(ps, rd).value.exrules)
    decreases |ps|
  {
    if |ps| > 0 {
      var init, p := ps[..|ps| - 1], ps[|ps| - 1];
      RouteStep(ps, rd);
      ExRulesRouted(init, rd);
      assert Named(ps, "EXRULE") == Named(init, "EXRULE") + (if p.name == "EXRULE" then [p] else []);
      if p.name == "EXRULE" {
        TryMapSnoc(Named(init, "EXRULE"), p, rd.rule, Route(init, rd).value.exrules, rd.rule(p).value);
      } else {
        assert Named(init, "EXRULE") + [] == Named(init, "EXRULE");
        assert Route(ps, rd).value.exrules == Route(init, rd).value.exrules;
      }
    }
  }

  lemma {:induction false} ExDatesRouted(ps: seq<Property>, rd: Readers)
    requires Route(ps, rd).Ok?
    ensures TryMap(Named(ps, "EXDATE"), rd.exdate) == Ok(Route(ps, rd).value.exdates)
    decreases |ps|
  {
    if |ps| > 0 {
      var init, p := ps[..|ps| - 1], ps[|ps| - 1];
      RouteStep(ps, rd);
      ExDatesRouted(init, rd);
      assert Named(ps, "EXDATE") == Named(init, "EXDATE") + (if p.name == "EXDATE" then [p] else []);
      if p.name == "EXDATE" {
        TryMapSnoc(Named(init, "EXDATE"), p, rd.exdate, Route(init, rd).value.exdates, rd.exdate(p).value);
      } else {
        assert Named(init, "EXDATE") + [] == Named(init, "EXDATE");
        assert Route(ps, rd).value.exdates == Route(init, rd).value.exdates;
      }
    }
  }

  lemma {:induction false} RDatesRouted(ps: seq<Property>, rd: Readers)
    requires Route(ps, rd).Ok?
    ensures TryMap(Named(ps, "RDATE"), rd.rdate) == Ok(Route(ps, rd).value.rdates)
    decreases |ps|
  {
    if |ps| > 0 {
      var init, p := ps[..|ps| - 1], ps[|ps| - 1];
      RouteStep(ps, rd);
      RDatesRouted(init, rd);
      assert Named(ps, "RDATE") == Named(init, "RDATE") + (if p.name == "RDATE" then [p] else []);
      if p.name == "RDATE" {
        TryMapSnoc(Named(init, "RDATE"), p, rd.rdate, Route(init, rd).value.rdates, rd.rdate(p).value);
      } else {
        assert Named(init, "RDATE") + [] == Named(init, "RDATE");
        assert Route(ps, rd).value.rdates == Route(init, rd).value.rdates;
      }
    }
  }

  /** Whether a single property is refused by the reader of its name. */
  predicate Refused(p: Property, rd: Readers) {
    Add(Empty, p, rd).Err?
  }

  /** Whether and how a property fails does not depend on what was read before it. */
  lemma {:induction false} AddFailsAlike(c: Calendar, p: Property, rd: Readers)
    ensures Add(c, p, rd).Err? == Refused(p, rd)
    ensures Add(c, p, rd).Err? ==> Add(c, p, rd) == Add(Empty, p, rd)
  {
  }

  /** Reading fails exactly when some property is refused. */
  lemma {:induction false} RouteFails(ps: seq<Property>, rd: Readers)
    ensures Route(ps, rd).Err? <==> exists i :: 0 <= i < |ps| && Refused(ps[i], rd)
    decreases |ps|
  {
    if |ps| > 0 {
      var init, p := ps[..|ps| - 1], ps[|ps| - 1];
      RouteStep(ps, rd);
      RouteFails(init, rd);
      assert forall j :: 0 <= j < |init| ==> init[j] == ps[j];
      if Route(init, rd).Ok? {
        AddFailsAlike(Route(init, rd).value, p, rd);
      }
    }
  }

  /** The error reported is that of the first refused property. */
  lemma {:induction false} FirstErrorReported(ps: seq<Property>, rd: Readers)
    requires Route(ps, rd).Err?
    ensures exists i :: 0 <= i < |ps| && Route(ps, rd) == Add(Empty, ps[i], rd) && forall j :: 0 <= j < i ==> !Refused(ps[j], rd)
    decreases |ps|
  {
    var init, p := ps[..|ps| - 1], ps[|ps| - 1];
    RouteStep(ps, rd);
    if Route(init, rd).Err? {
      FirstErrorReported(init, rd);
      var i :| 0 <= i < |init| && Route(init, rd) == Add(Empty, init[i], rd) && forall j :: 0 <= j < i ==> !Refused(init[j], rd);
      assert init[i] == ps[i] && forall j :: 0 <= j < i ==> init[j] == ps[j];
    } else {
      RouteFails(init, rd);
      AddFailsAlike(Route(init, rd).value, p, rd);
      assert forall j :: 0 <= j < |init| ==> init[j] == ps[j];
    }
  }

  /** The properties of one name in a concatenation: those of each part, in order. */
  lemma {:induction false} NamedAppend(xs: seq<Property>, ys: seq<Property>, name: string)
    ensures Named(xs + ys, name) == Named(xs, name) + Named(ys, name)
    decreases |ys|
  {
    if |ys| > 0 {
      var zs := xs + ys;
      assert zs[..|zs| - 1] == xs + ys[..|ys| - 1];
      assert zs[|zs| - 1] == ys[|ys| - 1];
      NamedAppend(xs, ys[..|ys| - 1], name);
    } else {
      assert xs + ys == xs;
    }
  }

  /** A list whose properties all carry one name keeps all of them for that name and none for another. */
  lemma {:induction false} NamedUniform(ps: seq<Property>, common: string, name: string)
    requires forall i :: 0 <= i < |ps| ==> ps[i].name == common
    ensures Named(ps, name) == if common == name then ps else []
    decreases |ps|
  {
    if |ps| > 0 {
      var init := ps[..|ps| - 1];
      assert forall i :: 0 <= i < |init| ==> init[i] == ps[i];
      NamedUniform(init, common, name);
      assert init + [ps[|ps| - 1]] == ps;
    }
  }

  /** Whether every property of each name is read successfully by the reader of that name. */
  predicate AllRead(ps: seq<Property>, rd: Readers) {
    TryMap(Named(ps, "DTSTART"), rd.start).Ok? && TryMap(Named(ps, "RRULE"), rd.rule).Ok? && TryMap(Named(ps, "EXRULE"), rd.rule).Ok? && TryMap(Named(ps, "EXDATE"), rd.exdate).Ok? && TryMap(Named(ps, "RDATE"), rd.rdate).Ok?
  }

  /** When the properties of one name all read, so do those before the last, and the last if it has that name. */
  lemma {:induction false} NamedReadInit<B>(ps: seq<Property>, name: string, f: Property -> Result<B, string>)
    requires |ps| > 0 && TryMap(Named(ps, name), f).Ok?
    ensures TryMap(Named(ps[..|ps| - 1], name), f).Ok?
    ensures ps[|ps| - 1].name == name ==> f(ps[|ps| - 1]).Ok?
  {
    var init, p := ps[..|ps| - 1], ps[|ps| - 1];
    if p.name == name {
      TryMapSnocOk(Named(init, name), p, f);
    } else {
      assert Named(ps, name) == Named(init, name) + [];
      assert Named(init, name) + [] == Named(init, name);
    }
  }

  /** Reading succeeds exactly when every property is read by the reader of its name. */
  lemma {:induction false} RouteOk(ps: seq<Property>, rd: Readers)
    ensures Route(ps, rd).Ok? <==> AllRead(ps, rd)
    decreases |ps|
  {
    if Route(ps, rd).Ok? {
      StartsRouted(ps, rd);
      RulesRouted(ps, rd);
      ExRulesRouted(ps, rd);
      ExDatesRouted(ps, rd);
      RDatesRouted(ps, rd);
    } else if |ps| > 0 && AllRead(ps, rd) {
      var init, p := ps[..|ps| - 1], ps[|ps| - 1];
      NamedReadInit(ps, "DTSTART", rd.start);
      NamedReadInit(ps, "RRULE", rd.rule);
      NamedReadInit(ps, "EXRULE", rd.rule);
      NamedReadInit(ps, "EXDATE", rd.exdate);
      NamedReadInit(ps, "RDATE", rd.rdate);
      RouteOk(init, rd);
      RouteStep(ps, rd);
      assert false;
    }
  }
}
