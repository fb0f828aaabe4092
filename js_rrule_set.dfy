/**
 * The occurrence windows of the host recurrence set (lib/js/rrule_set.rs): `all` takes
 * the first occurrences up to an optional limit, and `between` keeps those strictly or
 * inclusively between two bounds, stopping at the first that is not before the upper
 * bound. The occurrences are a sequence of millisecond timestamps in the order the
 * set yields them.
 */
module JsRRuleSets {
  import opened Wrappers
  import opened Ints

  /** `is_after`: at or after the bound when inclusive, strictly after otherwise; no flag means strictly. */
  function IsAfter(timestamp: int, after: int, inclusive: Option<bool>): bool {
    var inclusive := inclusive.UnwrapOr(false);
    if inclusive && timestamp < after then false
    else if !inclusive && timestamp <= after then false
    else true
  }

  /** `is_before`: at or before the bound when inclusive, strictly before otherwise; no flag means strictly. */
  function IsBefore(timestamp: int, before: int, inclusive: Option<bool>): bool {
    var inclusive := inclusive.UnwrapOr(false);
    if inclusive && timestamp > before then false
    else if !inclusive && timestamp >= before then false
    else true
  }

  /** How many occurrences `all` returns: all of them, or at most the limit. */
  function Kept(count: nat, limit: Option<U32>): nat {
    match limit
    case None => count
    case Some(n) => if n < count then n else count
  }

  /**
   * `all`: one pass with a countdown of the limit. Each occurrence is taken while the
   * countdown is positive, and the pass stops when it reaches zero, but only when a
   * limit was given.
   */
  method All(dates: seq<int>, limit: Option<U32>) returns (arr: seq<int>)
    ensures arr == dates[..Kept(|dates|, limit)]
  {
    arr := [];
    var left: U32 := limit.UnwrapOr(0);
    var i := 0;
    while i < |dates|
      invariant 0 <= i <= |dates| && arr == dates[..i]
      invariant limit.None? ==> left == 0
      invariant limit.Some? ==> i <= limit.value && left == limit.value - i
    {
      if left > 0 {
        left := left - 1;
      } else if limit.Some? {
        break;
      }
      arr := arr + [dates[i]];
      assert dates[..i + 1] == dates[..i] + [dates[i]];
      i := i + 1;
    }
  }

  /** Whether an occurrence is inside the window. */
  predicate Inside(timestamp: int, after: int, before: int, inclusive: Option<bool>) {
    IsAfter(timestamp, after, inclusive) && IsBefore(timestamp, before, inclusive)
  }

  /** The occurrences inside the window, in order. */
  function Inner(dates: seq<int>, after: int, before: int, inclusive: Option<bool>): seq<int>
    decreases |dates|
  {
    if |dates| == 0 then []
    else
      var last := dates[|dates| - 1];
      Inner(dates[..|dates| - 1], after, before, inclusive) + (if Inside(last, after, before, inclusive) then [last] else [])
  }

  /** The index of the first occurrence that is not before the upper bound, or the length when there is none. */
  function Stop(dates: seq<int>, before: int, inclusive: Option<bool>): (k: nat)
    ensures k <= |dates|
    ensures forall j :: 0 <= j < k ==> IsBefore(dates[j], before, inclusive)
    ensures k < |dates| ==> !IsBefore(dates[k], before, inclusive)
    decreases |dates|
  {
    if |dates| == 0 then 0
    else if !IsBefore(dates[0], before, inclusive) then 0
    else 1 + Stop(dates[1..], before, inclusive)
  }

  /**
   * `between`: one pass that keeps each occurrence inside the window and breaks at the
   * first one that is not before the upper bound. It returns the occurrences inside
   * the window among those before that point.
   */
  method Between(dates: seq<int>, after: int, before: int, inclusive: Option<bool>) returns (arr: seq<int>)
    ensures arr == Inner(dates[..Stop(dates, before, inclusive)], after, before, inclusive)
  {
    arr := [];
    var i := 0;
    while i < |dates|
      invariant 0 <= i <= |dates| && arr == Inner(dates[..i], after, before, inclusive)
      invariant forall j :: 0 <= j < i ==> IsBefore(dates[j], before, inclusive)
    {
      var timestamp := dates[i];
      var isAfter := IsAfter(timestamp, after, inclusive);
      var isBefore := IsBefore(timestamp, before, inclusive);
      assert dates[..i + 1][..i] == dates[..i];
      if isAfter && isBefore {
        arr := arr + [timestamp];
      } else if !isBefore {
        StopAt(dates, before, inclusive, i);
        return;
      }
      i := i + 1;
    }
    StopAt(dates, before, inclusive, i);
    assert dates[..i] == dates[..|dates|];
  }

  // ---------------------------------------------------------------------------
  // Properties

  /** `Stop` is the first index at which the occurrence is not before the bound. */
  lemma {:induction false} StopAt(dates: seq<int>, before: int, inclusive: Option<bool>, i: nat)
    requires i <= |dates| && forall j :: 0 <= j < i ==> IsBefore(dates[j], before, inclusive)
    requires i < |dates| ==> !IsBefore(dates[i], before, inclusive)
    ensures Stop(dates, before, inclusive) == i
  {
  }

  /** The two bounds, with each meaning of the flag. */
  lemma {:induction false} BoundsMean(timestamp: int, after: int, before: int, inclusive: Option<bool>)
    ensures IsAfter(timestamp, after, inclusive) <==> if inclusive == Some(true) then timestamp >= after else timestamp > after
    ensures IsBefore(timestamp, before, inclusive) <==> if inclusive == Some(true) then timestamp <= before else timestamp < before
  {
  }

  /** A limit of zero gives nothing; no limit gives everything; a limit never gives more than it says. */
  lemma {:induction false} KeptBounds(count: nat, limit: Option<U32>)
    ensures limit == Some(0) ==> Kept(count, limit) == 0
    ensures limit.None? ==> Kept(count, limit) == count
    ensures limit.Some? ==> Kept(count, limit) <= limit.value && (Kept(count, limit) == limit.value || Kept(count, limit) == count)
    ensures Kept(count, limit) <= count
  {
  }

  /** Every occurrence `between` keeps is inside the window and comes from the input. */
  lemma {:induction false} InnerInside(dates: seq<int>, after: int, before: int, inclusive: Option<bool>)
    ensures forall t :: t in Inner(dates, after, before, inclusive) ==> t in dates && Inside(t, after, before, inclusive)
    decreases |dates|
  {
    if |dates| > 0 {
      var init := dates[..|dates| - 1];
      InnerInside(init, after, before, inclusive);
      assert forall t :: t in init ==> t in dates;
    }
  }

  /** Every occurrence of the input that is inside the window is kept by `Inner`. */
  lemma {:induction false} InnerComplete(dates: seq<int>, after: int, before: int, inclusive: Option<bool>)
    ensures forall t :: t in dates && Inside(t, after, before, inclusive) ==> t in Inner(dates, after, before, inclusive)
    decreases |dates|
  {
    if |dates| > 0 {
      var init := dates[..|dates| - 1];
      InnerComplete(init, after, before, inclusive);
      assert dates == init + [dates[|dates| - 1]];
    }
  }

  /** Whether the occurrences come in non-decreasing order, as the set yields them. */
  predicate Ascending(dates: seq<int>) {
    forall i, j :: 0 <= i < j < |dates| ==> dates[i] <= dates[j]
  }

  /** In ascending order, nothing after the first occurrence that is not before the bound is inside the window. */
  lemma {:induction false} InnerPastStop(dates: seq<int>, after: int, before: int, inclusive: Option<bool>, m: nat)
    requires Ascending(dates) && Stop(dates, before, inclusive) <= m <= |dates|
    ensures Inner(dates[..m], after, before, inclusive) == Inner(dates[..Stop(dates, before, inclusive)], after, before, inclusive)
    decreases m
  {
    var k := Stop(dates, before, inclusive);
    if m > k {
      var init := dates[..m][..m - 1];
      assert init == dates[..m - 1];
      InnerPastStop(dates, after, before, inclusive, m - 1);
      assert dates[k] <= dates[m - 1];
      assert !IsBefore(dates[m - 1], before, inclusive);
    }
  }

  /**
   * Hence, for occurrences in ascending order, the early stop of `between` loses
   * nothing: it returns every occurrence inside the window.
   */
  lemma {:induction false} BetweenComplete(dates: seq<int>, after: int, before: int, inclusive: Option<bool>)
    requires Ascending(dates)
    ensures Inner(dates[..Stop(dates, before, inclusive)], after, before, inclusive) == Inner(dates, after, before, inclusive)
  {
    InnerPastStop(dates, after, before, inclusive, |dates|);
    assert dates[..|dates|] == dates;
  }

  /** Out of order, the stop can lose an occurrence: [10, 2] between 0 and 5 gives nothing, though 2 is inside. */
  lemma {:induction false} BetweenStopsEarly()
    ensures Inner([10, 2][..Stop([10, 2], 5, None)], 0, 5, None) == []
    ensures Inner([10, 2], 0, 5, None) == [2]
  {
    assert Stop([10, 2], 5, None) == 0;
    assert [10, 2][..0] == [];
    assert [10, 2][..1] == [10];
    assert [10][..0] == [];
  }
}
