/**
 * `Properties::from_str` (lib/serialization/properties.rs): a text of content lines,
 * one per '\n'-separated segment, tokenized in order into a list of properties.
 */
module PropertyList {
  import opened Wrappers
  import opened Strings
  import opened Lists
  import opened PropertyText

  /** What `Properties::from_str` computes: every segment tokenized, the first failure returned. */
  function ParseLines(s: string): Result<seq<Property>, Error> {
    TryMap(Split(s, '\n'), FromString)
  }

  /**
   * `Properties::from_str`: tokenizes each '\n'-separated segment in order, pushing
   * the property, and returns the error of the first segment that does not tokenize.
   */
  method FromStr(s: string) returns (r: Result<seq<Property>, Error>)
    ensures r == ParseLines(s)
    ensures r.Ok? ==> |r.value| == |Split(s, '\n')| && forall i :: 0 <= i < |r.value| ==> FromString(Split(s, '\n')[i]) == Ok(r.value[i])
    ensures r.Err? ==> exists i :: 0 <= i < |Split(s, '\n')| && FromString(Split(s, '\n')[i]) == Err(r.error)
  {
    var lines := Split(s, '\n');
    var items: seq<Property> := [];
    for i := 0 to |lines|
      invariant |items| == i
      invariant forall j :: 0 <= j < i ==> FromString(lines[j]) == Ok(items[j])
    {
      var property := FromString(lines[i]);
      if property.Err? {
        TryMapFailsAt(lines, FromString, i);
        return Err(property.error);
      }
      items := items + [property.value];
    }
    TryMapAllOk(lines, FromString, items);
    return Ok(items);
  }

  /** On success there is one property per segment, so one more than there are newlines. */
  lemma {:induction false} ParseLinesCount(s: string)
    ensures ParseLines(s).Ok? ==> |ParseLines(s).value| == Count(s, '\n') + 1
  {
    TryMapSpec(Split(s, '\n'), FromString);
    SplitLength(s, '\n');
  }

  /** The empty segment has no ':' and is an InvalidProperty naming it. */
  lemma {:induction false} EmptyLineRejected()
    ensures FromString("") == Err(InvalidProperty(""))
  {
    FromStringNeedsOneColon("");
    assert Count("", ':') == 0;
  }

  /** No blank line is skipped: text ending in a newline has an empty last segment and does not parse. */
  lemma {:induction false} TrailingNewlineRejected(s: string)
    ensures ParseLines(s + "\n").Err?
  {
    var lines := Split(s + "\n", '\n');
    assert s + "\n" == s + ['\n'] + "";
    SplitAppend(s, '\n', "");
    assert Split("", '\n') == [""];
    EmptyLineRejected();
    TryMapSpec(lines, FromString);
    assert lines[|lines| - 1] == "";
  }

  /** The empty text is one empty segment, which does not parse. */
  lemma {:induction false} EmptyTextRejected()
    ensures ParseLines("") == Err(InvalidProperty(""))
  {
    assert Split("", '\n') == [""];
    EmptyLineRejected();
    TryMapFailsAt([""], FromString, 0);
  }

  /** Well-formed properties, rendered one per line, parse back as the same list in the same order. */
  lemma {:induction false} LinesRoundTrip(ps: seq<Property>)
    requires |ps| >= 1 && forall i :: 0 <= i < |ps| ==> WellFormed(ps[i])
    ensures ParseLines(Join(Map(ps, Render), '\n')) == Ok(ps)
  {
    var lines := Map(ps, Render);
    forall i | 0 <= i < |ps|
      ensures '\n' !in lines[i] && FromString(lines[i]) == Ok(ps[i])
    {
      RenderHasNoNewline(ps[i]);
      FromStringOfRender(ps[i]);
    }
    SplitJoin(lines, '\n');
    TryMapAllOk(lines, FromString, ps);
  }
}
