/** `ToStringArray::to_string_array` (lib/serialization/to_string_array.rs): items shown and joined by ','. */
module ToStringArray {
  import opened Wrappers
  import opened Strings
  import opened Lists
  import ToVec

  /** The items' string forms in order, joined with ','; nothing gives "", one item gives its form alone. */
  method ToStringArray<T>(items: seq<T>, show: T -> string) returns (s: string)
    ensures s == Join(Map(items, show), ',')
    ensures |items| == 0 ==> s == ""
    ensures |items| == 1 ==> s == show(items[0])
  {
    var data: seq<string> := [];
    for i := 0 to |items|
      invariant data == Map(items[..i], show)
    {
      data := data + [show(items[i])];
      assert items[..i + 1] == items[..i] + [items[i]];
    }
    assert items[..|items|] == items;
    s := Join(data, ',');
  }

  /**
   * `to_vec` undoes `to_string_array` for a non-empty list whose items print without
   * a comma and parse back to themselves.
   */
  lemma {:induction false} ToVecInvertsToStringArray<T>(items: seq<T>, show: T -> string, parse: string -> Option<T>, typeName: string)
    requires |items| >= 1
    requires forall x :: x in items ==> ',' !in show(x) && parse(show(x)) == Some(x)
    ensures TryMap(Split(Join(Map(items, show), ','), ','), ToVec.Convert(parse, typeName)) == Ok(items)
  {
    SplitJoin(Map(items, show), ',');
    TryMapOfMap(items, show, ToVec.Convert(parse, typeName));
  }
}
