/**
 * The parameter map of a content line (lib/serialization/parameters.rs): an ordered
 * map whose keys are stored upper-cased, so that lookups ignore case.  The map itself
 * is the sequence of its entries in insertion order; the class `Parameters` holds one
 * and is updated in place by `insert` and `clear`.
 */
module Params {
  import opened Wrappers
  import opened Strings
  import opened Lists

  /** Key/value entries in insertion order (an `IndexMap<String, String>`). */
  type Entries = seq<(string, string)>

  function Keys(e: Entries): seq<string> {
    seq(|e|, i requires 0 <= i < |e| => e[i].0)
  }

  predicate Distinct(ks: seq<string>) {
    forall i, j :: 0 <= i < j < |ks| ==> ks[i] != ks[j]
  }

  /** `IndexMap::get`: the value stored under exactly this key. */
  function Lookup(e: Entries, key: string): Option<string>
    decreases |e|
  {
    if |e| == 0 then None
    else if e[0].0 == key then Some(e[0].1)
    else Lookup(e[1..], key)
  }

  /** A key is found exactly when it is stored, and what is found is stored under it. */
  lemma {:induction false} LookupSpec(e: Entries, key: string)
    ensures Lookup(e, key).None? <==> key !in Keys(e)
    ensures Lookup(e, key).Some? ==> exists i :: 0 <= i < |e| && e[i] == (key, Lookup(e, key).value)
    decreases |e|
  {
    if |e| > 0 && e[0].0 != key {
      LookupSpec(e[1..], key);
      assert Keys(e) == [e[0].0] + Keys(e[1..]);
      if Lookup(e, key).Some? {
        var i :| 0 <= i < |e[1..]| && e[1..][i] == (key, Lookup(e, key).value);
        assert e[i + 1] == (key, Lookup(e, key).value);
      }
    } else if |e| > 0 {
      assert Keys(e)[0] == key;
    }
  }

  /**
   * `IndexMap::insert`: a key already present keeps its position and takes the new
   * value; a new key is appended.
   */
  function Put(e: Entries, key: string, value: string): Entries
    decreases |e|
  {
    if |e| == 0 then [(key, value)]
    else if e[0].0 == key then [(key, value)] + e[1..]
    else [e[0]] + Put(e[1..], key, value)
  }

  /** Inserting keeps the keys and their order, appending the key if it is new. */
  lemma {:induction false} PutKeys(e: Entries, key: string, value: string)
    ensures Keys(Put(e, key, value)) == if key in Keys(e) then Keys(e) else Keys(e) + [key]
    decreases |e|
  {
    assert Keys(e) == if |e| == 0 then [] else [e[0].0] + Keys(e[1..]);
    if |e| > 0 {
      if e[0].0 == key {
        assert Keys(Put(e, key, value)) == [key] + Keys(e[1..]);
      } else {
        PutKeys(e[1..], key, value);
        assert Keys(Put(e, key, value)) == [e[0].0] + Keys(Put(e[1..], key, value));
      }
    }
  }

  /** Inserting a new key appends its entry. */
  lemma {:induction false} PutNew(e: Entries, key: string, value: string)
    requires key !in Keys(e)
    ensures Put(e, key, value) == e + [(key, value)]
    decreases |e|
  {
    if |e| > 0 {
      assert Keys(e)[0] == e[0].0;
      assert key !in Keys(e[1..]) by {
        assert forall j :: 0 <= j < |e| - 1 ==> Keys(e[1..])[j] == Keys(e)[j + 1];
      }
      PutNew(e[1..], key, value);
      assert [e[0]] + (e[1..] + [(key, value)]) == e + [(key, value)];
    }
  }

  /** After inserting, the key finds the new value and every other key finds what it found before. */
  lemma {:induction false} PutLookup(e: Entries, key: string, value: string, other: string)
    ensures Lookup(Put(e, key, value), other) == if other == key then Some(value) else Lookup(e, other)
    decreases |e|
  {
    if |e| > 0 && e[0].0 != key {
      PutLookup(e[1..], key, value, other);
    }
  }

  /** Looking up in a map with one more entry at the end. */
  lemma {:induction false} LookupSnoc(e: Entries, k: string, v: string, key: string)
    ensures Lookup(e + [(k, v)], key) == if Lookup(e, key).Some? then Lookup(e, key) else if key == k then Some(v) else None
    decreases |e|
  {
    if |e| > 0 {
      assert (e + [(k, v)])[1..] == e[1..] + [(k, v)];
      LookupSnoc(e[1..], k, v, key);
    }
  }

  // ---------------------------------------------------------------------------
  // Maps built by a fixed sequence of conditional inserts

  /** One insert of such a sequence: its key and, when it happens, the text inserted. */
  type Field = (string, Option<string>)

  function FieldKeys(fs: seq<Field>): seq<string> {
    seq(|fs|, i requires 0 <= i < |fs| => fs[i].0)
  }

  /** The entries the inserts leave when the keys are distinct: the fields that happen, in order. */
  function Present(fs: seq<Field>): Entries
    decreases |fs|
  {
    if |fs| == 0 then []
    else
      var last := fs[|fs| - 1];
      Present(fs[..|fs| - 1]) + (if last.1.Some? then [(last.0, last.1.value)] else [])
  }

  /** `a` lists some of the elements of `b`, in the order of `b`. */
  predicate Subsequence(a: seq<string>, b: seq<string>)
    decreases |b|
  {
    if |a| == 0 then true
    else if |b| == 0 then false
    else (a[|a| - 1] == b[|b| - 1] && Subsequence(a[..|a| - 1], b[..|b| - 1])) || Subsequence(a, b[..|b| - 1])
  }

  /** The keys left are some of the field keys, in field order. */
  lemma {:induction false} PresentKeys(fs: seq<Field>)
    ensures Subsequence(Keys(Present(fs)), FieldKeys(fs))
    ensures forall k :: k in Keys(Present(fs)) ==> k in FieldKeys(fs)
    decreases |fs|
  {
    if |fs| > 0 {
      var init := fs[..|fs| - 1];
      var last := fs[|fs| - 1];
      PresentKeys(init);
      assert FieldKeys(fs)[..|fs| - 1] == FieldKeys(init);
      assert forall k :: k in FieldKeys(init) ==> k in FieldKeys(fs) by {
        forall k | k in FieldKeys(init) ensures k in FieldKeys(fs) {
          var j :| 0 <= j < |init| && FieldKeys(init)[j] == k;
          assert FieldKeys(fs)[j] == k;
        }
      }
      if last.1.Some? {
        assert Keys(Present(fs)) == Keys(Present(init)) + [last.0];
        assert Keys(Present(fs))[..|Keys(Present(fs))| - 1] == Keys(Present(init));
        assert FieldKeys(fs)[|fs| - 1] == last.0;
      } else {
        assert Keys(Present(fs)) == Keys(Present(init));
      }
    }
  }

  /** With distinct keys, each field's key finds exactly that field's text. */
  lemma {:induction false} PresentLookup(fs: seq<Field>, i: nat)
    requires Distinct(FieldKeys(fs)) && i < |fs|
    ensures Lookup(Present(fs), fs[i].0) == fs[i].1
    decreases |fs|
  {
    var init := fs[..|fs| - 1];
    var last := fs[|fs| - 1];
    assert FieldKeys(init) == FieldKeys(fs)[..|fs| - 1];
    if i < |fs| - 1 {
      assert init[i] == fs[i];
      assert fs[i].0 != last.0 by {
        assert FieldKeys(fs)[i] != FieldKeys(fs)[|fs| - 1];
      }
      assert Lookup(Present(fs), fs[i].0) == Lookup(Present(init), fs[i].0) by {
        if last.1.Some? {
          LookupSnoc(Present(init), last.0, last.1.value, fs[i].0);
        } else {
          assert Present(fs) == Present(init);
        }
      }
      PresentLookup(init, i);
    } else {
      assert Lookup(Present(init), last.0) == None by {
        assert last.0 !in FieldKeys(init) by {
          forall j | 0 <= j < |init| ensures FieldKeys(init)[j] != last.0 {
            assert FieldKeys(fs)[j] != FieldKeys(fs)[|fs| - 1];
          }
        }
        PresentLookupAbsent(init, last.0);
      }
      if last.1.Some? {
        LookupSnoc(Present(init), last.0, last.1.value, last.0);
      } else {
        assert Present(fs) == Present(init);
      }
    }
  }

  /** A key that is not a field key finds nothing. */
  lemma {:induction false} PresentLookupAbsent(fs: seq<Field>, key: string)
    requires key !in FieldKeys(fs)
    ensures Lookup(Present(fs), key) == None
  {
    PresentKeys(fs);
    LookupSpec(Present(fs), key);
  }

  /** With distinct keys the entries have distinct keys. */
  lemma {:induction false} PresentDistinct(fs: seq<Field>)
    requires Distinct(FieldKeys(fs))
    ensures Distinct(Keys(Present(fs)))
    decreases |fs|
  {
    if |fs| > 0 {
      var init := fs[..|fs| - 1];
      var last := fs[|fs| - 1];
      assert FieldKeys(init) == FieldKeys(fs)[..|fs| - 1];
      PresentDistinct(init);
      if last.1.Some? {
        PresentKeys(init);
        assert last.0 !in FieldKeys(init) by {
          forall j | 0 <= j < |init| ensures FieldKeys(init)[j] != last.0 {
            assert FieldKeys(fs)[j] != FieldKeys(fs)[|fs| - 1];
          }
        }
        var ks := Keys(Present(fs));
        assert ks == Keys(Present(init)) + [last.0];
        forall a, b | 0 <= a < b < |ks| ensures ks[a] != ks[b] {
          if b == |ks| - 1 {
            assert ks[a] in Keys(Present(init));
          }
        }
      } else {
        assert Present(fs) == Present(init);
      }
    }
  }

  /**
   * Performing the next insert of the sequence on the map the earlier ones left: the
   * key is upper-case already and new, so the entry is appended.
   */
  lemma {:induction false} PresentStep(fs: seq<Field>, k: nat, before: Entries, after: Entries)
    requires k < |fs| && Distinct(FieldKeys(fs)) && NoLower(fs[k].0)
    requires before == Present(fs[..k])
    requires after == if fs[k].1.Some? then Put(before, Upper(fs[k].0), fs[k].1.value) else before
    ensures after == Present(fs[..k + 1])
  {
    var prefix := fs[..k + 1];
    assert prefix[..k] == fs[..k];
    UpperOfNoLower(fs[k].0);
    if fs[k].1.Some? {
      PresentKeys(fs[..k]);
      assert fs[k].0 !in FieldKeys(fs[..k]) by {
        forall j | 0 <= j < k ensures FieldKeys(fs[..k])[j] != fs[k].0 {
          assert FieldKeys(fs)[j] != FieldKeys(fs)[k];
        }
      }
      PutNew(before, fs[k].0, fs[k].1.value);
    }
  }

  /** One `if let Some(text) = … { map.insert(key, text) }` step. */
  function PutIfSet(e: Entries, key: string, text: Option<string>): Entries {
    if text.Some? then Put(e, key, text.value) else e
  }

  /** The entries the inserts leave, each key upper-cased as `insert` does, whatever the keys. */
  function Built(fs: seq<Field>): Entries
    decreases |fs|
  {
    if |fs| == 0 then []
    else
      var last := fs[|fs| - 1];
      PutIfSet(Built(fs[..|fs| - 1]), Upper(last.0), last.1)
  }

  lemma {:induction false} BuiltStep(fs: seq<Field>, k: nat)
    requires k < |fs|
    ensures Built(fs[..k + 1]) == PutIfSet(Built(fs[..k]), Upper(fs[k].0), fs[k].1)
  {
    assert fs[..k + 1][..k] == fs[..k];
  }

  /** Fields whose keys are distinct and upper-case, as the keys of a built map are. */
  ghost predicate KeyedFields(fs: seq<Field>) {
    Distinct(FieldKeys(fs)) && forall i :: 0 <= i < |fs| ==> NoLower(fs[i].0)
  }

  /** With distinct upper-case keys, every insert adds a new key at the end: only the fields that happen remain, in order. */
  lemma {:induction false} BuiltIsPresent(fs: seq<Field>)
    requires KeyedFields(fs)
    ensures Built(fs) == Present(fs)
    decreases |fs|
  {
    if |fs| > 0 {
      var k := |fs| - 1;
      var init := fs[..k];
      assert KeyedFields(init) by {
        assert FieldKeys(init) == FieldKeys(fs)[..k];
      }
      BuiltIsPresent(init);
      assert fs[..k + 1] == fs;
      PresentStep(fs, k, Present(init), Built(fs));
    }
  }

  /** The entries a map built from `e` holds: distinct keys, all upper-case. */
  ghost predicate WellKeyed(e: Entries) {
    Distinct(Keys(e)) && forall k :: k in Keys(e) ==> NoLower(k)
  }

  lemma {:induction false} PutWellKeyed(e: Entries, key: string, value: string)
    requires WellKeyed(e) && NoLower(key)
    ensures WellKeyed(Put(e, key, value))
  {
    var ks := Keys(Put(e, key, value));
    PutKeys(e, key, value);
    if key !in Keys(e) {
      assert ks == Keys(e) + [key];
      forall i, j | 0 <= i < j < |ks| ensures ks[i] != ks[j] {
        if j == |ks| - 1 {
          assert ks[i] in Keys(e);
        }
      }
    }
  }

  /** `Parameters::get`: the key is upper-cased before the lookup. */
  function Get(e: Entries, key: string): Option<string> {
    Lookup(e, Upper(key))
  }

  /** `value_as`: a typed parse whose failure names the key and the offending text. */
  function ValueAs<T>(key: string, value: string, parse: string -> Option<T>): Result<T, string> {
    match parse(value)
    case Some(v) => Ok(v)
    case None => Err("Invalid " + key + " value: " + value)
  }

  function ItemAs<T>(key: string, parse: string -> Option<T>): string -> Result<T, string> {
    item => ValueAs(key, item, parse)
  }

  /** `Parameters::get_as`. */
  function GetAs<T>(e: Entries, key: string, parse: string -> Option<T>): Result<Option<T>, string> {
    match Get(e, key)
    case None => Ok(None)
    case Some(value) =>
      match ValueAs(key, value, parse)
      case Ok(v) => Ok(Some(v))
      case Err(m) => Err(m)
  }

  /** What `Parameters::get_as_vec` computes: the value split on ',' and each item parsed. */
  function SplitAs<T>(e: Entries, key: string, parse: string -> Option<T>): Result<Option<seq<T>>, string> {
    match Get(e, key)
    case None => Ok(None)
    case Some(value) =>
      match TryMap(Split(value, ','), ItemAs(key, parse))
      case Ok(vs) => Ok(Some(vs))
      case Err(m) => Err(m)
  }

  /** Inserting under any spelling of a key makes every spelling of it find the new value. */
  lemma {:induction false} InsertThenGet(e: Entries, key: string, other: string, value: string)
    requires Upper(other) == Upper(key)
    ensures Get(Put(e, Upper(key), value), other) == Some(value)
  {
    PutLookup(e, Upper(key), value, Upper(other));
  }

  /** Re-inserting a key, in any case, overwrites its value in place and adds no entry. */
  lemma {:induction false} InsertOverwrites(e: Entries, key: string, other: string, v1: string, v2: string)
    requires Upper(other) == Upper(key)
    ensures Keys(Put(Put(e, Upper(key), v1), Upper(other), v2)) == Keys(Put(e, Upper(key), v1))
    ensures Get(Put(Put(e, Upper(key), v1), Upper(other), v2), key) == Some(v2)
  {
    PutKeys(e, Upper(key), v1);
    assert Upper(key) in Keys(Put(e, Upper(key), v1)) by {
      PutLookup(e, Upper(key), v1, Upper(key));
      LookupSpec(Put(e, Upper(key), v1), Upper(key));
    }
    PutKeys(Put(e, Upper(key), v1), Upper(other), v2);
    PutLookup(Put(e, Upper(key), v1), Upper(other), v2, Upper(key));
  }

  /** `get_as`: absent gives no value, a parsable value gives it, anything else names key and value. */
  lemma {:induction false} GetAsCases<T>(e: Entries, key: string, parse: string -> Option<T>)
    ensures Get(e, key).None? ==> GetAs(e, key, parse) == Ok(None)
    ensures Get(e, key).Some? && parse(Get(e, key).value).Some? ==>
      GetAs(e, key, parse) == Ok(Some(parse(Get(e, key).value).value))
    ensures Get(e, key).Some? && parse(Get(e, key).value).None? ==>
      GetAs(e, key, parse) == Err("Invalid " + key + " value: " + Get(e, key).value)
  {
  }

  /** The `Index` operator looks the key up as given: the lower-case spelling of a stored key is not found. */
  lemma {:induction false} IndexIsCaseSensitive()
    ensures Get([("FREQ", "DAILY")], "freq") == Some("DAILY")
    ensures Lookup([("FREQ", "DAILY")], "freq") == None
  {
    assert Upper("freq") == "FREQ";
  }

  class Parameters {
    var params: Entries

    ghost predicate Valid()
      reads this
    {
      WellKeyed(params)
    }

    constructor ()
      ensures Valid() && params == []
    {
      params := [];
    }

    /** `insert`: stores the value under the upper-cased key. */
    method Insert(key: string, value: string)
      requires Valid()
      modifies this
      ensures Valid()
      ensures params == Put(old(params), Upper(key), value)
    {
      UpperNoLower(key);
      PutWellKeyed(params, Upper(key), value);
      params := Put(params, Upper(key), value);
    }

    function Len(): nat
      reads this
    {
      |params|
    }

    function IsEmpty(): (b: bool)
      reads this
      ensures b <==> Len() == 0
    {
      |params| == 0
    }

    /** `clear`: no entries remain. */
    method Clear()
      modifies this
      ensures Valid() && params == [] && IsEmpty()
    {
      params := [];
    }

    /** The `Index` operator: the raw key must be stored exactly as given, or the source panics. */
    function Index(key: string): (v: string)
      reads this
      requires Lookup(params, key).Some?
      ensures exists i :: 0 <= i < |params| && params[i] == (key, v)
    {
      LookupSpec(params, key);
      Lookup(params, key).value
    }

    /**
     * `get_as_vec`: absent key gives no list; otherwise every ','-separated item is
     * parsed in order, and the first item that does not parse is named in the error.
     */
    method GetAsVec<T>(key: string, parse: string -> Option<T>) returns (r: Result<Option<seq<T>>, string>)
      ensures r == SplitAs(params, key, parse)
      ensures Get(params, key).None? <==> r == Ok(None)
      ensures r.Ok? && r.value.Some? ==>
        var items := Split(Get(params, key).value, ',');
        |r.value.value| == |items| && forall i :: 0 <= i < |items| ==> parse(items[i]) == Some(r.value.value[i])
      ensures r.Err? ==> exists item :: item in Split(Get(params, key).value, ',') && parse(item).None? && r.error == "Invalid " + key + " value: " + item
    {
      match Get(params, key) {
        case None =>
          r := Ok(None);
        case Some(value) =>
          var items := Split(value, ',');
          var data: seq<T> := [];
          var i := 0;
          while i < |items|
            invariant 0 <= i <= |items| && |data| == i
            invariant forall j :: 0 <= j < i ==> ItemAs(key, parse)(items[j]) == Ok(data[j])
          {
            var item := ValueAs(key, items[i], parse);
            if item.Err? {
              TryMapFailsAt(items, ItemAs(key, parse), i);
              r := Err(item.error);
              return;
            }
            data := data + [item.value];
            i := i + 1;
          }
          TryMapAllOk(items, ItemAs(key, parse), data);
          r := Ok(Some(data));
      }
    }
  }
}
