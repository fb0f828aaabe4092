/**
 * Text primitives of the Rust standard library that the modelled code relies on:
 * `str::trim`, `str::to_uppercase`, `str::split`, `[String]::join`, integer
 * `to_string`/`parse` and zero-padded formatting.  Strings are sequences of
 * characters; upper-casing is the ASCII mapping and whitespace is the ASCII set.
 */
module Strings {
  import opened Wrappers

  // ---------------------------------------------------------------------------
  // Whitespace and trimming (`str::trim`)

  predicate IsWhitespace(c: char) {
    c == ' ' || c == '\t' || c == '\n' || c == '\r' || c == '\U{B}' || c == '\U{C}'
  }

  /** Neither the first nor the last character is whitespace. */
  predicate Trimmed(s: string) {
    s == [] || (!IsWhitespace(s[0]) && !IsWhitespace(s[|s| - 1]))
  }

  /** Drops the leading whitespace. */
  function TrimStart(s: string): string {
    if |s| > 0 && IsWhitespace(s[0]) then TrimStart(s[1..]) else s
  }

  /** What `TrimStart` drops is all whitespace, and what it keeps is a suffix that does not start with whitespace. */
  lemma {:induction false} TrimStartSpec(s: string)
    ensures |TrimStart(s)| <= |s| && TrimStart(s) == s[|s| - |TrimStart(s)|..]
    ensures TrimStart(s) != [] ==> !IsWhitespace(TrimStart(s)[0])
    ensures forall i :: 0 <= i < |s| - |TrimStart(s)| ==> IsWhitespace(s[i])
    decreases |s|
  {
    if |s| > 0 && IsWhitespace(s[0]) {
      TrimStartSpec(s[1..]);
    }
  }

  /** Drops the trailing whitespace. */
  function TrimEnd(s: string): string {
    if |s| > 0 && IsWhitespace(s[|s| - 1]) then TrimEnd(s[..|s| - 1]) else s
  }

  /** What `TrimEnd` drops is all whitespace, and what it keeps is a prefix that does not end with whitespace. */
  lemma {:induction false} TrimEndSpec(s: string)
    ensures |TrimEnd(s)| <= |s| && TrimEnd(s) == s[..|TrimEnd(s)|]
    ensures TrimEnd(s) != [] ==> !IsWhitespace(TrimEnd(s)[|TrimEnd(s)| - 1])
    ensures forall i :: |TrimEnd(s)| <= i < |s| ==> IsWhitespace(s[i])
    decreases |s|
  {
    if |s| > 0 && IsWhitespace(s[|s| - 1]) {
      TrimEndSpec(s[..|s| - 1]);
    }
  }

  /** `str::trim`: both ends lose their whitespace. */
  function Trim(s: string): string {
    TrimEnd(TrimStart(s))
  }

  /** The result of `Trim` neither starts nor ends with whitespace. */
  lemma {:induction false} TrimIsTrimmed(s: string)
    ensures Trimmed(Trim(s))
  {
    TrimStartSpec(s);
    TrimEndSpec(TrimStart(s));
  }

  lemma {:induction false} TrimOfTrimmed(s: string)
    requires Trimmed(s)
    ensures Trim(s) == s
  {
    assert TrimStart(s) == s;
  }

  // ---------------------------------------------------------------------------
  // Upper-casing (`str::to_uppercase`, ASCII letters)

  predicate IsLower(c: char) {
    'a' <= c <= 'z'
  }

  function UpperChar(c: char): char {
    if IsLower(c) then (c as int - 32) as char else c
  }

  function Upper(s: string): (r: string)
    ensures |r| == |s|
  {
    seq(|s|, i requires 0 <= i < |s| => UpperChar(s[i]))
  }

  /** The string has no lower-case letter, so upper-casing leaves it alone. */
  predicate NoLower(s: string) {
    forall i :: 0 <= i < |s| ==> !IsLower(s[i])
  }

  lemma {:induction false} UpperOfNoLower(s: string)
    requires NoLower(s)
    ensures Upper(s) == s
  {
  }

  lemma {:induction false} UpperNoLower(s: string)
    ensures NoLower(Upper(s))
  {
  }

  lemma {:induction false} UpperIdempotent(s: string)
    ensures Upper(Upper(s)) == Upper(s)
  {
    UpperNoLower(s);
    UpperOfNoLower(Upper(s));
  }

  lemma {:induction false} UpperTrimmed(s: string)
    requires Trimmed(s)
    ensures Trimmed(Upper(s))
  {
  }

  lemma {:induction false} UpperAppend(a: string, b: string)
    ensures Upper(a + b) == Upper(a) + Upper(b)
  {
  }

  // ---------------------------------------------------------------------------
  // Splitting and joining (`str::split(char)`, `join`)

  function IndexOf(s: string, c: char): (i: nat)
    requires c in s
    ensures i < |s| && s[i] == c && c !in s[..i]
  {
    if s[0] == c then 0
    else
      var j := IndexOf(s[1..], c);
      assert s[..j + 1] == [s[0]] + s[1..][..j];
      j + 1
  }

  lemma {:induction false} IndexOfUnique(s: string, c: char, k: nat)
    requires k < |s| && s[k] == c && c !in s[..k]
    ensures IndexOf(s, c) == k
  {
    var i := IndexOf(s, c);
    assert forall j :: 0 <= j < k ==> s[..k][j] == s[j];
    assert forall j :: 0 <= j < i ==> s[..i][j] == s[j];
  }

  /**
   * The pieces between the occurrences of `sep`, as Rust's `split` yields them:
   * always at least one piece, and no piece contains the separator.
   */
  function Split(s: string, sep: char): (parts: seq<string>)
    ensures |parts| >= 1
    decreases |s|
  {
    if sep in s then
      var i := IndexOf(s, sep);
      [s[..i]] + Split(s[i + 1..], sep)
    else
      [s]
  }

  /** The parts with `sep` between each neighbouring pair. */
  function Join(parts: seq<string>, sep: char): string {
    if |parts| == 0 then ""
    else if |parts| == 1 then parts[0]
    else parts[0] + [sep] + Join(parts[1..], sep)
  }

  predicate NoneContains(parts: seq<string>, sep: char) {
    forall k :: 0 <= k < |parts| ==> sep !in parts[k]
  }

  /** No piece of a split contains the separator. */
  lemma {:induction false} SplitPieces(s: string, sep: char)
    ensures NoneContains(Split(s, sep), sep)
    decreases |s|
  {
    if sep in s {
      var i := IndexOf(s, sep);
      SplitPieces(s[i + 1..], sep);
    }
  }

  lemma {:induction false} SplitCons(a: string, sep: char, b: string)
    requires sep !in a
    ensures Split(a + [sep] + b, sep) == [a] + Split(b, sep)
  {
    var s := a + [sep] + b;
    assert s[..|a|] == a;
    IndexOfUnique(s, sep, |a|);
    assert s[|a| + 1..] == b;
  }

  /** Two texts without the separator, joined by it, split back into the two. */
  lemma SplitTwo(a: string, sep: char, b: string)
    requires sep !in a && sep !in b
    ensures Split(a + [sep] + b, sep) == [a, b]
  {
    SplitCons(a, sep, b);
    assert Split(b, sep) == [b];
  }

  /** Splitting at one separator splits the two sides independently. */
  lemma {:induction false} SplitAppend(a: string, sep: char, b: string)
    ensures Split(a + [sep] + b, sep) == Split(a, sep) + Split(b, sep)
    decreases |a|
  {
    if sep !in a {
      SplitCons(a, sep, b);
    } else {
      var i := IndexOf(a, sep);
      var s := a + [sep] + b;
      assert s[..i] == a[..i];
      IndexOfUnique(s, sep, i);
      assert s[i + 1..] == a[i + 1..] + [sep] + b;
      SplitAppend(a[i + 1..], sep, b);
    }
  }

  /** Appending a part to a non-empty list appends the separator and the part to the join. */
  lemma {:induction false} JoinSnoc(parts: seq<string>, p: string, sep: char)
    requires |parts| >= 1
    ensures Join(parts + [p], sep) == Join(parts, sep) + [sep] + p
    decreases |parts|
  {
    if |parts| > 1 {
      assert (parts + [p])[1..] == parts[1..] + [p];
      JoinSnoc(parts[1..], p, sep);
    }
  }

  /** Two trimmed texts around a non-whitespace character make a trimmed text. */
  lemma TrimmedAround(a: string, c: char, b: string)
    requires Trimmed(a) && Trimmed(b) && !IsWhitespace(c)
    ensures Trimmed(a + [c] + b)
  {
    var s := a + [c] + b;
    assert s[0] == if a == [] then c else a[0];
    assert s[|s| - 1] == if b == [] then c else b[|b| - 1];
  }

  /** Trimmed parts joined by a non-whitespace separator make a trimmed text. */
  lemma {:induction false} JoinTrimmed(parts: seq<string>, sep: char)
    requires !IsWhitespace(sep) && forall k :: 0 <= k < |parts| ==> Trimmed(parts[k])
    ensures Trimmed(Join(parts, sep))
    decreases |parts|
  {
    if |parts| > 1 {
      JoinTrimmed(parts[1..], sep);
      assert Trimmed(parts[0]);
      TrimmedAround(parts[0], sep, Join(parts[1..], sep));
    } else if |parts| == 1 {
      assert Trimmed(parts[0]);
    }
  }

  /** Splitting a joined list gives the list back when no part holds the separator. */
  lemma {:induction false} SplitJoin(parts: seq<string>, sep: char)
    requires |parts| >= 1 && NoneContains(parts, sep)
    ensures Split(Join(parts, sep), sep) == parts
    decreases |parts|
  {
    if |parts| > 1 {
      SplitCons(parts[0], sep, Join(parts[1..], sep));
      SplitJoin(parts[1..], sep);
    }
  }

  /** Joining the pieces of a split gives the text back. */
  lemma {:induction false} JoinSplit(s: string, sep: char)
    ensures Join(Split(s, sep), sep) == s
    decreases |s|
  {
    if sep in s {
      var i := IndexOf(s, sep);
      JoinSplit(s[i + 1..], sep);
      assert s == s[..i] + [sep] + s[i + 1..];
    }
  }

  lemma {:induction false} JoinNoSep(parts: seq<string>, sep: char)
    requires NoneContains(parts, sep)
    ensures |parts| <= 1 ==> sep !in Join(parts, sep)
  {
  }

  /** A character other than the separator occurs in the join only if it occurs in a part. */
  lemma {:induction false} JoinExcludes(parts: seq<string>, sep: char, c: char)
    requires c != sep && NoneContains(parts, c)
    ensures c !in Join(parts, sep)
    decreases |parts|
  {
    if |parts| > 1 {
      JoinExcludes(parts[1..], sep, c);
    }
  }

  /** The number of occurrences of `c` in `s`. */
  function Count(s: string, c: char): nat {
    if |s| == 0 then 0 else (if s[0] == c then 1 else 0) + Count(s[1..], c)
  }

  lemma {:induction false} CountAppend(a: string, b: string, c: char)
    ensures Count(a + b, c) == Count(a, c) + Count(b, c)
    decreases |a|
  {
    if |a| > 0 {
      assert (a + b)[1..] == a[1..] + b;
      CountAppend(a[1..], b, c);
    } else {
      assert a + b == b;
    }
  }

  lemma {:induction false} CountAbsent(s: string, c: char)
    requires c !in s
    ensures Count(s, c) == 0
    decreases |s|
  {
    if |s| > 0 {
      CountAbsent(s[1..], c);
    }
  }

  /** There is one more piece than there are separators. */
  lemma {:induction false} SplitLength(s: string, sep: char)
    ensures |Split(s, sep)| == Count(s, sep) + 1
    decreases |s|
  {
    if sep in s {
      var i := IndexOf(s, sep);
      SplitLength(s[i + 1..], sep);
      assert s == s[..i] + [sep] + s[i + 1..];
      CountAppend(s[..i] + [sep], s[i + 1..], sep);
      CountAppend(s[..i], [sep], sep);
      CountAbsent(s[..i], sep);
    } else {
      CountAbsent(s, sep);
    }
  }

  lemma {:induction false} CountWhitespaceAround(front: string, mid: string, back: string, c: char)
    requires !IsWhitespace(c)
    requires forall j :: 0 <= j < |front| ==> IsWhitespace(front[j])
    requires forall j :: 0 <= j < |back| ==> IsWhitespace(back[j])
    ensures Count(front + mid + back, c) == Count(mid, c)
  {
    assert c !in front;
    assert c !in back;
    CountAppend(front + mid, back, c);
    CountAppend(front, mid, c);
    CountAbsent(front, c);
    CountAbsent(back, c);
  }

  /** Trimming removes only whitespace, so it keeps every other character's count. */
  lemma {:induction false} CountTrim(s: string, c: char)
    requires !IsWhitespace(c)
    ensures Count(Trim(s), c) == Count(s, c)
  {
    var t := TrimStart(s);
    var u := TrimEnd(t);
    TrimStartSpec(s);
    TrimEndSpec(t);
    var front := s[..|s| - |t|];
    var back := t[|u|..];
    assert s == front + u + back;
    CountWhitespaceAround(front, u, back, c);
  }

  /** A slice that lies inside one side of a concatenation is a slice of that side. */
  lemma SliceOfAppend(a: string, b: string, i: nat, j: nat)
    requires i <= j <= |a| + |b|
    ensures j <= |a| ==> (a + b)[i..j] == a[i..j]
    ensures |a| <= i ==> (a + b)[i..j] == b[i - |a|..j - |a|]
  {
    if j <= |a| {
      assert forall k :: i <= k < j ==> (a + b)[k] == a[k];
    }
  }

  /** `str::starts_with`. */
  predicate StartsWith(s: string, prefix: string) {
    |prefix| <= |s| && s[..|prefix|] == prefix
  }

  /** The middle part of a three-way concatenation is found at its offset. */
  lemma {:induction false} SliceOfMiddle(a: string, b: string, c: string)
    ensures (a + b + c)[|a|..|a| + |b|] == b
  {
    assert forall k :: 0 <= k < |b| ==> (a + b + c)[|a| + k] == b[k];
  }

  // ---------------------------------------------------------------------------
  // Decimal numbers (`to_string`, `parse::<uN>()` / `parse::<iN>()`, `{:0N}`)

  predicate IsDigit(c: char) {
    '0' <= c <= '9'
  }

  predicate AllDigits(s: string) {
    forall i :: 0 <= i < |s| ==> IsDigit(s[i])
  }

  function DigitChar(d: nat): (c: char)
    requires d < 10
    ensures IsDigit(c)
  {
    ('0' as int + d) as char
  }

  function DigitValue(c: char): (d: nat)
    requires IsDigit(c)
    ensures d < 10
  {
    c as int - '0' as int
  }

  function Pow10(k: nat): (p: nat)
    ensures p >= 1
  {
    if k == 0 then 1 else 10 * Pow10(k - 1)
  }

  /** The value of a run of decimal digits, most significant first. */
  function DigitsValue(s: string): nat
    requires AllDigits(s)
  {
    if |s| == 0 then 0 else DigitsValue(s[..|s| - 1]) * 10 + DigitValue(s[|s| - 1])
  }

  /** The shortest decimal form of a natural number. */
  function NatToString(n: nat): (s: string)
    ensures |s| >= 1 && AllDigits(s)
  {
    if n < 10 then [DigitChar(n)] else NatToString(n / 10) + [DigitChar(n % 10)]
  }

  /** `i64::to_string` and friends: a minus sign for negative numbers, no sign otherwise. */
  function IntToString(i: int): string {
    if i < 0 then "-" + NatToString(-i) else NatToString(i)
  }

  lemma {:induction false} NatToStringValue(n: nat)
    ensures DigitsValue(NatToString(n)) == n
    decreases n
  {
    if n >= 10 {
      NatToStringValue(n / 10);
      var s := NatToString(n);
      assert s[..|s| - 1] == NatToString(n / 10);
    }
  }

  lemma {:induction false} NatToStringLength(n: nat, k: nat)
    requires k >= 1 && n < Pow10(k)
    ensures |NatToString(n)| <= k
    decreases n
  {
    if n >= 10 {
      assert k >= 2;
      assert n / 10 < Pow10(k - 1);
      NatToStringLength(n / 10, k - 1);
    }
  }

  lemma {:induction false} IntToStringNoComma(i: int)
    ensures ',' !in IntToString(i) && ';' !in IntToString(i) && ':' !in IntToString(i) && '=' !in IntToString(i)
  {
    var s := NatToString(if i < 0 then -i else i);
    assert forall c :: c in s ==> IsDigit(c);
  }

  function Zeros(k: nat): (z: string)
    ensures |z| == k && AllDigits(z)
  {
    if k == 0 then "" else Zeros(k - 1) + "0"
  }

  /** `format!("{:0k}", n)`: left-padded with zeros to at least `k` characters. */
  function ZeroPad(n: nat, k: nat): (s: string)
    ensures AllDigits(s) && |s| >= k
  {
    var digits := NatToString(n);
    if |digits| >= k then digits else Zeros(k - |digits|) + digits
  }

  lemma {:induction false} DigitsValueLeadingZeros(k: nat, s: string)
    requires AllDigits(s)
    ensures DigitsValue(Zeros(k) + s) == DigitsValue(s)
    decreases |s|, k
  {
    if |s| > 0 {
      var t := Zeros(k) + s;
      assert t[..|t| - 1] == Zeros(k) + s[..|s| - 1];
      DigitsValueLeadingZeros(k, s[..|s| - 1]);
    } else if k > 0 {
      assert Zeros(k) + s == Zeros(k);
      assert Zeros(k)[..k - 1] == Zeros(k - 1) + s;
      DigitsValueLeadingZeros(k - 1, s);
    }
  }

  /** A zero-padded number that fits its width has exactly that width and reads back as the number. */
  lemma {:induction false} ZeroPadFits(n: nat, k: nat)
    requires k >= 1 && n < Pow10(k)
    ensures |ZeroPad(n, k)| == k && DigitsValue(ZeroPad(n, k)) == n
  {
    NatToStringLength(n, k);
    NatToStringValue(n);
    var digits := NatToString(n);
    if |digits| < k {
      DigitsValueLeadingZeros(k - |digits|, digits);
    }
  }

  /**
   * Rust's integer `FromStr` for a type whose range is `lo..=hi` (signed when `lo < 0`):
   * an optional `+` (or `-` for signed types), then one or more decimal digits whose
   * value must lie in range.
   */
  function ParseInteger(s: string, lo: int, hi: int): (r: Option<int>)
    ensures r.Some? ==> lo <= r.value <= hi
  {
    if |s| == 0 then None
    else if (s[0] == '+' || s[0] == '-') && |s| == 1 then None
    else
      var negative := s[0] == '-' && lo < 0;
      var digits := if s[0] == '+' || negative then s[1..] else s;
      if !AllDigits(digits) then None
      else
        var magnitude: int := DigitsValue(digits);
        var v := if negative then -magnitude else magnitude;
        if lo <= v <= hi then Some(v) else None
  }

  /** Printing an in-range integer and parsing it back gives the integer. */
  lemma {:induction false} ParseIntegerOfIntToString(v: int, lo: int, hi: int)
    requires lo <= v <= hi
    ensures ParseInteger(IntToString(v), lo, hi) == Some(v)
  {
    if v < 0 {
      NatToStringValue(-v);
      assert IntToString(v)[1..] == NatToString(-v);
    } else {
      NatToStringValue(v);
      assert IsDigit(NatToString(v)[0]);
    }
  }

  /** A run of digits whose value is in range parses as that value, leading zeros and all. */
  lemma {:induction false} ParseIntegerOfDigits(t: string, lo: int, hi: int)
    requires |t| >= 1 && AllDigits(t) && lo <= DigitsValue(t) <= hi
    ensures ParseInteger(t, lo, hi) == Some(DigitsValue(t))
  {
    assert IsDigit(t[0]);
  }

  /** A zero-padded number that fits its width parses back as the number. */
  lemma {:induction false} ParseIntegerOfZeroPad(n: nat, k: nat, hi: int)
    requires k >= 1 && n < Pow10(k) && n <= hi
    ensures |ZeroPad(n, k)| == k && ParseInteger(ZeroPad(n, k), 0, hi) == Some(n)
  {
    ZeroPadFits(n, k);
    ParseIntegerOfDigits(ZeroPad(n, k), 0, hi);
  }

  /** Parsing fails on the empty string, so no integer field can be empty. */
  lemma {:induction false} ParseIntegerEmpty(lo: int, hi: int)
    ensures ParseInteger("", lo, hi) == None
  {
  }
}
