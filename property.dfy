/**
 * The content-line tokenizer (lib/serialization/property.rs): a line
 * `NAME;K=V:VALUE` is split into an upper-cased name, an ordered parameter map and
 * a value that is either one bare token or a `K=V;K=V` map (section 3.1 of RFC 5545).
 */
module PropertyText {
  import opened Wrappers
  import opened Strings
  import opened Lists
  import opened Params

  /** The value of a line: one token, or a nested key/value map (the `Parameters` enum). */
  datatype Value = Single(text: string) | Multiple(entries: Entries)

  datatype Error = InvalidProperty(text: string) | InvalidParameter(text: string) | InvalidParameters(text: string)

  function Message(e: Error): string {
    match e
    case InvalidProperty(t) => "Invalid property: " + t
    case InvalidParameter(t) => "Invalid parameter: " + t
    case InvalidParameters(t) => "Invalid parameters: " + t
  }

  datatype Property = Property(name: string, parameters: Entries, value: Value)

  // ---------------------------------------------------------------------------
  // Parsing

  /**
   * `parse_parameter`: a token with no '=' is bare, one with a single '=' is an
   * upper-cased key and a trimmed value, and more than one '=' is an error.
   */
  function ParseParameter(s: string): Result<(Option<string>, string), Error> {
    var kv := Split(s, '=');
    if |kv| == 1 then Ok((None, Trim(kv[0])))
    else if |kv| > 2 then Err(InvalidParameter(s))
    else Ok((Some(Upper(Trim(kv[0]))), Trim(kv[1])))
  }

  /**
   * A token parses exactly when it has at most one '=', and has a key exactly when it
   * has one; the key has no lower-case letter, key and value are trimmed, and the
   * error names the token.
   */
  lemma {:induction false} ParseParameterSpec(s: string)
    ensures ParseParameter(s).Ok? <==> Count(s, '=') <= 1
    ensures ParseParameter(s).Ok? && ParseParameter(s).value.0.Some? <==> Count(s, '=') == 1
    ensures ParseParameter(s).Ok? && ParseParameter(s).value.0.Some? ==> NoLower(ParseParameter(s).value.0.value) && Trimmed(ParseParameter(s).value.0.value)
    ensures ParseParameter(s).Ok? ==> Trimmed(ParseParameter(s).value.1)
    ensures ParseParameter(s).Err? ==> ParseParameter(s).error == InvalidParameter(s)
  {
    var kv := Split(s, '=');
    SplitLength(s, '=');
    if |kv| == 1 {
      TrimIsTrimmed(kv[0]);
    } else if |kv| == 2 {
      TrimIsTrimmed(kv[0]);
      TrimIsTrimmed(kv[1]);
      UpperNoLower(Trim(kv[0]));
      UpperTrimmed(Trim(kv[0]));
    }
  }

  /**
   * The rest of `parse_parameters` once the tokens before `tokens` have been read
   * into `params`; `whole` is the text being parsed, named by the error.
   */
  function ParseTokens(tokens: seq<string>, params: Entries, whole: string): Result<Value, Error>
    decreases |tokens|
  {
    if |tokens| == 0 then Ok(Multiple(params))
    else
      var token := Trim(tokens[0]);
      match ParseParameter(token)
      case Err(e) => Err(e)
      case Ok((key, value)) =>
        if key.Some? then ParseTokens(tokens[1..], Put(params, Upper(key.value), value), whole)
        else if |params| == 0 && |token| > 0 then Ok(Single(token))
        else if |params| > 0 then Err(InvalidParameters(whole))
        else ParseTokens(tokens[1..], params, whole)
  }

  /** What `parse_parameters` computes for `s`. */
  function ParametersOf(s: string): Result<Value, Error> {
    ParseTokens(Split(s, ';'), [], s)
  }

  /**
   * `parse_parameters`: reads the ';'-separated tokens in order.  A key/value token
   * is inserted into the map; a bare token while the map is still empty is the whole
   * result; a bare or empty token after a key/value token is an error; an empty
   * token before the first key is skipped.
   */
  method ParseParameters(s: string) returns (r: Result<Value, Error>)
    ensures r == ParametersOf(s)
  {
    var params: Entries := [];
    var tokens := Split(s, ';');
    var i := 0;
    while i < |tokens|
      invariant 0 <= i <= |tokens|
      invariant ParametersOf(s) == ParseTokens(tokens[i..], params, s)
    {
      assert tokens[i..][1..] == tokens[i + 1..];
      var token := Trim(tokens[i]);
      var parsed := ParseParameter(token);
      if parsed.Err? {
        return Err(parsed.error);
      }
      var (key, value) := parsed.value;
      if key.Some? {
        params := Put(params, Upper(key.value), value);
      } else if |params| == 0 && |token| > 0 {
        return Ok(Single(token));
      } else if |params| > 0 {
        return Err(InvalidParameters(s));
      }
      i := i + 1;
    }
    return Ok(Multiple(params));
  }

  /**
   * `parse_name`: the name is the first ';' segment, trimmed and upper-cased; only the
   * second segment is read as parameters (`take(2)`), and any later one is dropped.
   */
  function ParseName(s: string): Result<(string, Value), Error> {
    var pieces := Split(s, ';');
    var name := Upper(Trim(pieces[0]));
    var params :- ParametersOf(Trim(if |pieces| > 1 then pieces[1] else ""));
    Ok((name, params))
  }

  /**
   * `Property::from_string`: the trimmed line must split on ':' into exactly two
   * parts; the first is the name with its parameters, which must not be a bare
   * token, and the second is the value.
   */
  function FromString(s: string): Result<Property, Error> {
    var kv := Split(Trim(s), ':');
    if |kv| != 2 then Err(InvalidProperty(s))
    else
      var nameParams :- ParseName(Trim(kv[0]));
      var value :- ParametersOf(Trim(kv[1]));
      match nameParams.1
      case Single(_) => Err(InvalidParameters(kv[0]))
      case Multiple(params) => Ok(Property(nameParams.0, params, value))
  }

  // ---------------------------------------------------------------------------
  // Rendering

  function PairText(entry: (string, string)): string {
    entry.0 + "=" + entry.1
  }

  /** `;K=V` for each entry, in order. */
  function Suffix(e: Entries): string
    decreases |e|
  {
    if |e| == 0 then "" else Suffix(e[..|e| - 1]) + ";" + PairText(e[|e| - 1])
  }

  /** The value as the line shows it: the token verbatim, or the pairs joined by ';'. */
  function ValueText(v: Value): string {
    match v
    case Single(t) => t
    case Multiple(e) => Join(Map(e, PairText), ';')
  }

  /** The text `Property::to_string` produces. */
  function Render(p: Property): string {
    p.name + Suffix(p.parameters) + ":" + ValueText(p.value)
  }

  /** One more `;K=V` pair after a rendered prefix of the parameters. */
  lemma {:induction false} SuffixStep(name: string, e: Entries, i: nat)
    requires i < |e|
    ensures name + Suffix(e[..i + 1]) == (name + Suffix(e[..i])) + (";" + PairText(e[i]))
  {
    assert e[..i + 1][..i] == e[..i];
  }

  /** One more pair after a rendered, non-empty prefix of the value map. */
  lemma {:induction false} JoinStep(head: string, e: Entries, i: nat)
    requires 1 <= i < |e|
    ensures head + Join(Map(e[..i + 1], PairText), ';') == (head + Join(Map(e[..i], PairText), ';')) + (";" + PairText(e[i]))
  {
    assert e[..i + 1] == e[..i] + [e[i]];
    MapSnoc(e[..i], e[i], PairText);
    JoinSnoc(Map(e[..i], PairText), PairText(e[i]), ';');
  }

  /** `Property::to_string`: the name, `;K=V` per parameter, ':', then the value. */
  method ToString(p: Property) returns (s: string)
    ensures s == Render(p)
  {
    s := p.name;
    var params := p.parameters;
    for i := 0 to |params|
      invariant s == p.name + Suffix(params[..i])
    {
      SuffixStep(p.name, params, i);
      s := s + (";" + PairText(params[i]));
    }
    assert params[..|params|] == params;
    s := s + ":";
    var head := s;
    match p.value {
      case Single(text) =>
        s := s + text;
      case Multiple(values) =>
        if |values| > 0 {
          s := s + PairText(values[0]);
          assert Map(values[..1], PairText) == [PairText(values[0])];
          for i := 1 to |values|
            invariant s == head + Join(Map(values[..i], PairText), ';')
          {
            JoinStep(head, values, i);
            s := s + (";" + PairText(values[i]));
          }
          assert values[..|values|] == values;
        }
    }
  }

  // ---------------------------------------------------------------------------
  // Properties of the tokenizer

  /** Whatever parses has exactly one ':'; a line with none or several is an InvalidProperty naming the line. */
  lemma {:induction false} FromStringNeedsOneColon(s: string)
    ensures Count(s, ':') != 1 ==> FromString(s) == Err(InvalidProperty(s))
    ensures FromString(s).Ok? ==> Count(s, ':') == 1
  {
    SplitLength(Trim(s), ':');
    CountTrim(s, ':');
  }

  /** A parsed name is trimmed and has no lower-case letter. */
  lemma {:induction false} FromStringNameNormalised(s: string)
    ensures FromString(s).Ok? ==> NoLower(FromString(s).value.name) && Trimmed(FromString(s).value.name)
  {
    if FromString(s).Ok? {
      var kv := Split(Trim(s), ':');
      var pieces := Split(Trim(kv[0]), ';');
      TrimIsTrimmed(pieces[0]);
      UpperNoLower(Trim(pieces[0]));
      UpperTrimmed(Trim(pieces[0]));
    }
  }

  /** A ';' segment after the first parameter segment does not change what `parse_name` reads. */
  lemma {:induction false} ParseNameIgnoresLaterSegments(s: string, extra: string)
    requires Count(s, ';') >= 1
    ensures ParseName(s + ";" + extra) == ParseName(s)
  {
    SplitAppend(s, ';', extra);
    SplitLength(s, ';');
    var a := Split(s, ';');
    var b := Split(s + ";" + extra, ';');
    assert s + ";" + extra == s + [';'] + extra;
    assert b[0] == a[0] && b[1] == a[1];
  }

  /** Text with nothing to escape on a content line: no ':', ';', '=' or newline, and no surrounding whitespace. */
  predicate Plain(t: string) {
    ':' !in t && ';' !in t && '=' !in t && '\n' !in t && Trimmed(t)
  }

  predicate PlainKey(k: string) {
    Plain(k) && NoLower(k)
  }

  /** Every key is a plain upper-case key and every value is plain. */
  predicate AllPlain(e: Entries)
    decreases |e|
  {
    |e| == 0 || (AllPlain(e[..|e| - 1]) && PlainKey(e[|e| - 1].0) && Plain(e[|e| - 1].1))
  }

  lemma {:induction false} AllPlainAt(e: Entries, i: nat)
    requires AllPlain(e) && i < |e|
    ensures PlainKey(e[i].0) && Plain(e[i].1)
    decreases |e|
  {
    if i < |e| - 1 {
      AllPlainAt(e[..|e| - 1], i);
      assert e[..|e| - 1][i] == e[i];
    }
  }

  lemma {:induction false} AllPlainSnoc(e: Entries, k: string, v: string)
    requires AllPlain(e) && PlainKey(k) && Plain(v)
    ensures AllPlain(e + [(k, v)])
  {
    assert (e + [(k, v)])[..|e|] == e;
  }

  /** The characters of the generated rule texts: upper-case letters, digits, '-' and ','. */
  predicate IsWordChar(c: char) {
    'A' <= c <= 'Z' || IsDigit(c) || c == '-' || c == ','
  }

  predicate Word(t: string) {
    forall i :: 0 <= i < |t| ==> IsWordChar(t[i])
  }

  /** A word has nothing to escape and no lower-case letter. */
  lemma {:induction false} WordPlain(t: string)
    requires Word(t)
    ensures PlainKey(t) && Plain(t)
  {
    assert forall c :: c in t ==> IsWordChar(c);
  }

  lemma {:induction false} WordAppend(a: string, b: string)
    requires Word(a) && Word(b)
    ensures Word(a + b)
  {
    assert forall i :: |a| <= i < |a + b| ==> (a + b)[i] == b[i - |a|];
  }

  lemma {:induction false} WordOfDigits(s: string)
    requires AllDigits(s)
    ensures Word(s)
  {
  }

  /** Integers print as words: digits with perhaps a leading '-'. */
  lemma {:induction false} WordOfInt(i: int)
    ensures Word(IntToString(i))
  {
    var digits := NatToString(if i < 0 then -i else i);
    WordOfDigits(digits);
    if i < 0 {
      WordAppend("-", digits);
    }
  }

  /** Words joined by ',' are a word. */
  lemma {:induction false} WordJoin(ws: seq<string>)
    requires forall i :: 0 <= i < |ws| ==> Word(ws[i])
    ensures Word(Join(ws, ','))
    decreases |ws|
  {
    if |ws| > 1 {
      WordJoin(ws[1..]);
      WordAppend(ws[0], [',']);
      WordAppend(ws[0] + [','], Join(ws[1..], ','));
    }
  }

  /** The entries conditional inserts leave are plain when every key and every inserted text is a word. */
  lemma {:induction false} PresentAllPlain(fs: seq<Field>)
    requires forall i :: 0 <= i < |fs| ==> Word(fs[i].0) && (fs[i].1.Some? ==> Word(fs[i].1.value))
    ensures AllPlain(Present(fs))
    decreases |fs|
  {
    if |fs| > 0 {
      var init := fs[..|fs| - 1];
      var last := fs[|fs| - 1];
      assert forall i :: 0 <= i < |init| ==> init[i] == fs[i];
      PresentAllPlain(init);
      if last.1.Some? {
        WordPlain(last.0);
        WordPlain(last.1.value);
        AllPlainSnoc(Present(init), last.0, last.1.value);
        assert Present(fs) == Present(init) + [(last.0, last.1.value)];
      } else {
        assert Present(fs) == Present(init);
      }
    }
  }

  /** The entries of a map that reads back: distinct plain keys and plain values. */
  predicate PlainEntries(e: Entries) {
    Distinct(Keys(e)) && AllPlain(e)
  }

  /**
   * A property that survives rendering and parsing: plain upper-case name and keys,
   * plain values, at most one parameter (only one is read back), and a single value
   * that is not empty (an empty one reads back as an empty map).
   */
  predicate WellFormed(p: Property) {
    PlainKey(p.name) && |p.parameters| <= 1 && PlainEntries(p.parameters) &&
    match p.value
    case Single(t) => Plain(t) && t != ""
    case Multiple(e) => PlainEntries(e)
  }

  lemma {:induction false} PairPlain(k: string, v: string)
    requires Plain(k) && Plain(v)
    ensures Trimmed(PairText((k, v))) && ':' !in PairText((k, v)) && ';' !in PairText((k, v)) && '\n' !in PairText((k, v))
    ensures Split(PairText((k, v)), '=') == [k, v]
  {
    var t := PairText((k, v));
    assert t == k + ['='] + v;
    TrimmedAround(k, '=', v);
    SplitCons(k, '=', v);
    assert Split(v, '=') == [v];
  }

  /** A rendered pair reads back as that key and value. */
  lemma {:induction false} ParseParameterOfPair(k: string, v: string)
    requires PlainKey(k) && Plain(v)
    ensures Trim(PairText((k, v))) == PairText((k, v))
    ensures ParseParameter(PairText((k, v))) == Ok((Some(k), v))
  {
    PairPlain(k, v);
    TrimOfTrimmed(PairText((k, v)));
    assert ParseParameter(PairText((k, v))) == Ok((Some(Upper(Trim(k))), Trim(v)));
    TrimOfTrimmed(k);
    TrimOfTrimmed(v);
    UpperOfNoLower(k);
  }

  /** The rendered pairs of plain entries are trimmed and hold no ':', ';' or newline. */
  lemma {:induction false} PairsPlain(e: Entries)
    requires AllPlain(e)
    ensures forall k :: 0 <= k < |e| ==> Trimmed(Map(e, PairText)[k]) && ':' !in Map(e, PairText)[k] && ';' !in Map(e, PairText)[k] && '\n' !in Map(e, PairText)[k]
  {
    forall k | 0 <= k < |e|
      ensures Trimmed(Map(e, PairText)[k]) && ':' !in Map(e, PairText)[k] && ';' !in Map(e, PairText)[k] && '\n' !in Map(e, PairText)[k]
    {
      AllPlainAt(e, k);
      PairPlain(e[k].0, e[k].1);
    }
  }

  /** Reading the rendered pairs of a plain map back, from entry `k` on, rebuilds the map. */
  lemma {:induction false} ParseTokensOfPairs(e: Entries, k: nat, whole: string)
    requires PlainEntries(e) && k <= |e|
    ensures ParseTokens(Map(e, PairText)[k..], e[..k], whole) == Ok(Multiple(e))
    decreases |e| - k
  {
    var tokens := Map(e, PairText)[k..];
    if k == |e| {
      assert e[..k] == e;
    } else {
      AllPlainAt(e, k);
      ParseParameterOfPair(e[k].0, e[k].1);
      UpperOfNoLower(e[k].0);
      assert e[k].0 !in Keys(e[..k]) by {
        assert forall j :: 0 <= j < k ==> Keys(e[..k])[j] == Keys(e)[j];
        assert Keys(e)[k] == e[k].0;
      }
      PutNew(e[..k], e[k].0, e[k].1);
      assert e[..k] + [(e[k].0, e[k].1)] == e[..k + 1];
      assert tokens[0] == PairText(e[k]);
      assert tokens[1..] == Map(e, PairText)[k + 1..];
      ParseTokensOfPairs(e, k + 1, whole);
    }
  }

  /** The rendered value of a well-formed property reads back as that value. */
  lemma {:induction false} ParametersOfValueText(v: Value)
    requires match v case Single(t) => Plain(t) && t != "" case Multiple(e) => PlainEntries(e)
    ensures Trimmed(ValueText(v))
    ensures ':' !in ValueText(v) && '\n' !in ValueText(v)
    ensures ParametersOf(Trim(ValueText(v))) == Ok(v)
  {
    match v {
      case Single(t) =>
        TrimOfTrimmed(t);
        assert Split(t, ';') == [t];
        assert Split(t, '=') == [t];
        assert ParseParameter(t) == Ok((None, t));
      case Multiple(e) =>
        var parts := Map(e, PairText);
        var text := Join(parts, ';');
        PairsPlain(e);
        JoinTrimmed(parts, ';');
        TrimOfTrimmed(text);
        JoinExcludes(parts, ';', ':');
        JoinExcludes(parts, ';', '\n');
        if |e| == 0 {
          assert Split("", ';') == [""];
          assert Split("", '=') == [""];
        } else {
          SplitJoin(parts, ';');
          ParseTokensOfPairs(e, 0, text);
          assert parts[0..] == parts;
          assert e[..0] == [];
        }
    }
  }

  /** An empty parameter segment reads as an empty map. */
  lemma {:induction false} EmptyParameters()
    ensures ParametersOf(Trim("")) == Ok(Multiple([]))
  {
    assert Trim("") == "";
    assert Split("", ';') == [""];
    assert Split("", '=') == [""];
    assert ParseParameter("") == Ok((None, ""));
  }

  /** `parse_name` on a text with exactly two ';' segments. */
  lemma {:induction false} ParseNameOfSegments(s: string, name: string, params: string, v: Value)
    requires Split(s, ';') == [name, params] && ParametersOf(Trim(params)) == Ok(v)
    ensures ParseName(s) == Ok((Upper(Trim(name)), v))
  {
  }

  /** A plain name with no parameters reads back as itself with an empty map. */
  lemma {:induction false} ParseNameOfPlainName(name: string)
    requires PlainKey(name)
    ensures ParseName(Trim(name)) == Ok((name, Multiple([])))
  {
    TrimOfTrimmed(name);
    UpperOfNoLower(name);
    assert Split(name, ';') == [name];
    EmptyParameters();
  }

  /** A plain name followed by one rendered parameter reads back as the name and that parameter. */
  lemma {:induction false} ParseNameOfOneParameter(name: string, e: Entries)
    requires PlainKey(name) && |e| == 1 && PlainEntries(e)
    ensures Trimmed(name + Suffix(e))
    ensures ':' !in name + Suffix(e) && '\n' !in name + Suffix(e)
    ensures ParseName(Trim(name + Suffix(e))) == Ok((name, Multiple(e)))
  {
    AllPlainAt(e, 0);
    var pair := PairText(e[0]);
    PairPlain(e[0].0, e[0].1);
    assert Suffix(e) == ";" + pair by {
      assert e[..0] == [];
    }
    var head := name + Suffix(e);
    assert head == name + [';'] + pair;
    TrimmedAround(name, ';', pair);
    TrimOfTrimmed(head);
    SplitTwo(name, ';', pair);
    assert Split(Trim(head), ';') == [name, pair];
    TrimOfTrimmed(name);
    UpperOfNoLower(name);
    MapSingle(e, PairText);
    assert Join([pair], ';') == pair;
    ParametersOfValueText(Multiple(e));
    assert ValueText(Multiple(e)) == pair;
    ParseNameOfSegments(Trim(head), name, pair, Multiple(e));
  }

  /** The name-and-parameters part of a well-formed property reads back as its name and parameters. */
  lemma {:induction false} ParseNameOfHead(p: Property)
    requires WellFormed(p)
    ensures Trimmed(p.name + Suffix(p.parameters))
    ensures ':' !in p.name + Suffix(p.parameters) && '\n' !in p.name + Suffix(p.parameters)
    ensures ParseName(Trim(p.name + Suffix(p.parameters))) == Ok((p.name, Multiple(p.parameters)))
  {
    if |p.parameters| == 0 {
      assert p.name + Suffix(p.parameters) == p.name;
      ParseNameOfPlainName(p.name);
    } else {
      ParseNameOfOneParameter(p.name, p.parameters);
    }
  }

  /** `Property::from_string` on a line with exactly two ':' segments whose parts parse. */
  lemma {:induction false} FromStringOfSegments(s: string, head: string, tail: string, name: string, params: Entries, v: Value)
    requires Split(Trim(s), ':') == [head, tail]
    requires ParseName(Trim(head)) == Ok((name, Multiple(params))) && ParametersOf(Trim(tail)) == Ok(v)
    ensures FromString(s) == Ok(Property(name, params, v))
  {
  }

  /** Parsing the rendering of a well-formed property gives the property back. */
  lemma {:induction false} FromStringOfRender(p: Property)
    requires WellFormed(p)
    ensures FromString(Render(p)) == Ok(p)
  {
    var head := p.name + Suffix(p.parameters);
    var tail := ValueText(p.value);
    ParseNameOfHead(p);
    ParametersOfValueText(p.value);
    var s := Render(p);
    assert s == head + [':'] + tail;
    TrimmedAround(head, ':', tail);
    TrimOfTrimmed(s);
    SplitTwo(head, ':', tail);
    FromStringOfSegments(s, head, tail, p.name, p.parameters, p.value);
  }

  /** The rendering of a well-formed property is a single line. */
  lemma {:induction false} RenderHasNoNewline(p: Property)
    requires WellFormed(p)
    ensures '\n' !in Render(p)
  {
    ParseNameOfHead(p);
    ParametersOfValueText(p.value);
    assert Render(p) == (p.name + Suffix(p.parameters)) + [':'] + ValueText(p.value);
  }

  /** The entries of the daily rule in the test suite. */
  function DailyRule(): Entries {
    [("FREQ", "DAILY"), ("INTERVAL", "1")]
  }

  lemma {:induction false} DailyRuleWordsPlain()
    ensures PlainKey("FREQ") && Plain("DAILY") && PlainKey("INTERVAL") && Plain("1") && PlainKey("RRULE")
  {
    WordPlain("FREQ");
    WordPlain("DAILY");
    WordPlain("INTERVAL");
    WordPlain("1");
    WordPlain("RRULE");
  }

  lemma {:induction false} DailyRulePlain()
    ensures PlainEntries(DailyRule())
  {
    var e := DailyRule();
    DailyRuleWordsPlain();
    AllPlainSnoc([], "FREQ", "DAILY");
    AllPlainSnoc([("FREQ", "DAILY")], "INTERVAL", "1");
    assert [("FREQ", "DAILY")] + [("INTERVAL", "1")] == e;
    assert |Keys(e)| == 2 && Keys(e)[0] == "FREQ" && Keys(e)[1] == "INTERVAL";
    assert "FREQ" != "INTERVAL" by {
      assert |"FREQ"| != |"INTERVAL"|;
    }
  }

  lemma {:induction false} DailyRuleText()
    ensures ValueText(Multiple(DailyRule())) == "FREQ=DAILY;INTERVAL=1"
  {
    var e := DailyRule();
    assert PairText(e[0]) == "FREQ=DAILY";
    assert PairText(e[1]) == "INTERVAL=1";
    assert Map(e, PairText) == ["FREQ=DAILY", "INTERVAL=1"];
    assert Join(["FREQ=DAILY", "INTERVAL=1"], ';') == "FREQ=DAILY;INTERVAL=1";
  }

  /** The line of the test suite reads back as the RRULE property with the two rule parts, and re-renders to itself. */
  lemma {:induction false} DailyRuleLineRoundTrip()
    ensures FromString("RRULE:FREQ=DAILY;INTERVAL=1") == Ok(Property("RRULE", [], Multiple(DailyRule())))
    ensures Render(Property("RRULE", [], Multiple(DailyRule()))) == "RRULE:FREQ=DAILY;INTERVAL=1"
  {
    var p := Property("RRULE", [], Multiple(DailyRule()));
    DailyRulePlain();
    DailyRuleWordsPlain();
    DailyRuleText();
    assert Suffix([]) == "";
    assert Render(p) == "RRULE:FREQ=DAILY;INTERVAL=1";
    FromStringOfRender(p);
  }
}
