/** Element-wise maps over sequences: the `iter().map(..).collect()` pipelines of the modelled code. */
module Lists {
  import opened Wrappers

  function Map<A, B>(xs: seq<A>, f: A -> B): seq<B> {
    seq(|xs|, i requires 0 <= i < |xs| => f(xs[i]))
  }

  /** Mapping a sequence with one more element at the end gives one more result at the end. */
  lemma MapSnoc<A, B>(xs: seq<A>, x: A, f: A -> B)
    ensures Map(xs + [x], f) == Map(xs, f) + [f(x)]
  {
  }

  lemma MapSingle<A, B>(xs: seq<A>, f: A -> B)
    requires |xs| == 1
    ensures Map(xs, f) == [f(xs[0])]
  {
  }

  /**
   * Applies a fallible conversion to each element in order and collects the results,
   * stopping at the first failure (`collect::<Result<Vec<_>, _>>()` and loops that use `?`).
   */
  function TryMap<A, B, E>(xs: seq<A>, f: A -> Result<B, E>): Result<seq<B>, E>
    decreases |xs|
  {
    if |xs| == 0 then Ok([])
    else
      match f(xs[0])
      case Err(e) => Err(e)
      case Ok(y) =>
        match TryMap(xs[1..], f)
        case Err(e) => Err(e)
        case Ok(ys) => Ok([y] + ys)
  }

  /**
   * `TryMap` succeeds exactly when every element converts, and then holds each
   * element's value at its index; otherwise its error is that of the first element
   * that failed.
   */
  lemma {:induction false} TryMapSpec<A, B, E>(xs: seq<A>, f: A -> Result<B, E>)
    ensures TryMap(xs, f).Ok? <==> forall i :: 0 <= i < |xs| ==> f(xs[i]).Ok?
    ensures TryMap(xs, f).Ok? ==> |TryMap(xs, f).value| == |xs| && forall i :: 0 <= i < |xs| ==> f(xs[i]) == Ok(TryMap(xs, f).value[i])
    ensures TryMap(xs, f).Err? ==> exists i :: 0 <= i < |xs| && f(xs[i]) == Err(TryMap(xs, f).error) && forall j :: 0 <= j < i ==> f(xs[j]).Ok?
    decreases |xs|
  {
    if |xs| > 0 {
      TryMapSpec(xs[1..], f);
      if f(xs[0]).Ok? {
        assert forall i :: 1 <= i < |xs| ==> xs[i] == xs[1..][i - 1];
        if TryMap(xs[1..], f).Err? {
          var e := TryMap(xs[1..], f).error;
          var i :| 0 <= i < |xs[1..]| && f(xs[1..][i]) == Err(e) && forall j :: 0 <= j < i ==> f(xs[1..][j]).Ok?;
          assert f(xs[i + 1]) == Err(e) && forall j :: 0 <= j < i + 1 ==> f(xs[j]).Ok?;
        }
      }
    }
  }

  /** When every element converts to the value at its index, `TryMap` gives those values. */
  lemma {:induction false} TryMapAllOk<A, B, E>(xs: seq<A>, f: A -> Result<B, E>, ys: seq<B>)
    requires |ys| == |xs| && forall i :: 0 <= i < |xs| ==> f(xs[i]) == Ok(ys[i])
    ensures TryMap(xs, f) == Ok(ys)
  {
    TryMapSpec(xs, f);
    var r := TryMap(xs, f);
    assert r.value == ys;
  }

  /** One more element that converts extends the converted list by its value. */
  lemma {:induction false} TryMapSnoc<A, B, E>(xs: seq<A>, x: A, f: A -> Result<B, E>, ys: seq<B>, y: B)
    requires TryMap(xs, f) == Ok(ys) && f(x) == Ok(y)
    ensures TryMap(xs + [x], f) == Ok(ys + [y])
  {
    TryMapSpec(xs, f);
    var zs := xs + [x];
    assert forall i :: 0 <= i < |zs| ==> f(zs[i]) == Ok((ys + [y])[i]) by {
      forall i | 0 <= i < |zs| ensures f(zs[i]) == Ok((ys + [y])[i]) {
        if i < |xs| {
          assert zs[i] == xs[i];
        }
      }
    }
    TryMapAllOk(zs, f, ys + [y]);
  }

  /** Conversely, when a list with one more element converts, so do the list and the element. */
  lemma {:induction false} TryMapSnocOk<A, B, E>(xs: seq<A>, x: A, f: A -> Result<B, E>)
    requires TryMap(xs + [x], f).Ok?
    ensures TryMap(xs, f).Ok? && f(x).Ok?
  {
    var zs := xs + [x];
    TryMapSpec(zs, f);
    TryMapSpec(xs, f);
    assert zs[|xs|] == x;
    assert forall i :: 0 <= i < |xs| ==> zs[i] == xs[i];
  }

  /** Two lists that convert convert together, one after the other. */
  lemma {:induction false} TryMapAppend<A, B, E>(xs: seq<A>, ys: seq<A>, f: A -> Result<B, E>, us: seq<B>, vs: seq<B>)
    requires TryMap(xs, f) == Ok(us) && TryMap(ys, f) == Ok(vs)
    ensures TryMap(xs + ys, f) == Ok(us + vs)
  {
    TryMapSpec(xs, f);
    TryMapSpec(ys, f);
    var zs := xs + ys;
    forall i | 0 <= i < |zs| ensures f(zs[i]) == Ok((us + vs)[i]) {
      if i < |xs| {
        assert zs[i] == xs[i];
      } else {
        assert zs[i] == ys[i - |xs|];
      }
    }
    TryMapAllOk(zs, f, us + vs);
  }

  /** Mapping a concatenation maps each part. */
  lemma MapAppend<A, B>(xs: seq<A>, ys: seq<A>, f: A -> B)
    ensures Map(xs + ys, f) == Map(xs, f) + Map(ys, f)
  {
  }

  /** When the element at `i` is the first that fails, `TryMap` fails with its error. */
  lemma {:induction false} TryMapFailsAt<A, B, E>(xs: seq<A>, f: A -> Result<B, E>, i: nat)
    requires i < |xs| && f(xs[i]).Err? && forall j :: 0 <= j < i ==> f(xs[j]).Ok?
    ensures TryMap(xs, f) == Err(f(xs[i]).error)
    decreases i
  {
    if i > 0 {
      assert xs[1..][i - 1] == xs[i];
      TryMapFailsAt(xs[1..], f, i - 1);
    }
  }

  /** Converting back what was shown gives the original elements. */
  lemma {:induction false} TryMapOfMap<A, B, E>(xs: seq<A>, show: A -> B, parse: B -> Result<A, E>)
    requires forall x :: x in xs ==> parse(show(x)) == Ok(x)
    ensures TryMap(Map(xs, show), parse) == Ok(xs)
  {
    assert forall i :: 0 <= i < |xs| ==> parse(Map(xs, show)[i]) == Ok(xs[i]);
    TryMapAllOk(Map(xs, show), parse, xs);
  }
}
