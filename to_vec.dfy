/** `ToVec::to_vec` for `&str` (lib/serialization/to_vec.rs): a comma-separated list parsed item by item. */
module ToVec {
  import opened Wrappers
  import opened Strings
  import opened Lists

  function Convert<T>(parse: string -> Option<T>, typeName: string): string -> Result<T, string> {
    item =>
      match parse(item)
      case Some(v) => Ok(v)
      case None => Err("Couldn't convert " + item + " to " + typeName)
  }

  /**
   * Splits on ',' and parses each piece in order.  On success there is one value per
   * piece; otherwise the error names the first piece that did not parse and the type.
   */
  method ToVec<T>(s: string, parse: string -> Option<T>, typeName: string) returns (r: Result<seq<T>, string>)
    ensures r == TryMap(Split(s, ','), Convert(parse, typeName))
    ensures r.Ok? ==> (|r.value| == |Split(s, ',')| >= 1 &&
      forall i :: 0 <= i < |r.value| ==> parse(Split(s, ',')[i]) == Some(r.value[i]))
    ensures r.Err? ==> exists item :: item in Split(s, ',') && parse(item).None? && r.error == "Couldn't convert " + item + " to " + typeName
  {
    var items := Split(s, ',');
    var data: seq<T> := [];
    for i := 0 to |items|
      invariant |data| == i
      invariant forall j :: 0 <= j < i ==> Convert(parse, typeName)(items[j]) == Ok(data[j])
    {
      var item := Convert(parse, typeName)(items[i]);
      if item.Err? {
        TryMapFailsAt(items, Convert(parse, typeName), i);
        return Err(item.error);
      }
      data := data + [item.value];
    }
    TryMapAllOk(items, Convert(parse, typeName), data);
    return Ok(data);
  }

  /** The empty string is one empty piece, so a parser that rejects "" makes it fail. */
  lemma {:induction false} EmptyInputFails<T>(parse: string -> Option<T>, typeName: string)
    requires parse("").None?
    ensures TryMap(Split("", ','), Convert(parse, typeName)) == Err("Couldn't convert  to " + typeName)
  {
    assert Split("", ',') == [""];
    TryMapFailsAt([""], Convert(parse, typeName), 0);
    assert "Couldn't convert " + "" + " to " == "Couldn't convert  to ";
  }
}
