/** Failure-carrying values shared by the ledger modules. */
module Wrappers {

  /** A value that may be absent: a missing file, a string that does not parse,
      or a pandas NaN in a reindexed series. */
  datatype Option<+T> = None | Some(value: T)

  /** The outcome of an operation that either succeeds or raises. */
  datatype Result<+T, +E> = Ok(value: T) | Err(error: E)

  /** Applies `f` to every element in order, stopping at the first failure:
      how a column conversion either converts every cell or raises. */
  function TryMap<A, B, E>(f: A -> Result<B, E>, xs: seq<A>): (r: Result<seq<B>, E>)
    ensures r.Ok? <==> forall i :: 0 <= i < |xs| ==> f(xs[i]).Ok?
    ensures r.Ok? ==> |r.value| == |xs|
    ensures r.Ok? ==> forall i :: 0 <= i < |xs| ==> r.value[i] == f(xs[i]).value
  {
    if |xs| == 0 then Ok([])
    else
      match f(xs[0])
      case Err(e) => Err(e)
      case Ok(first) =>
        match TryMap(f, xs[1..])
        case Err(e) => Err(e)
        case Ok(others) => Ok([first] + others)
  }

  /** Mapping one more element extends the result by its image, or fails with
      its error. */
  lemma {:induction false} TryMapSnoc<A, B, E>(f: A -> Result<B, E>, xs: seq<A>, x: A)
    requires TryMap(f, xs).Ok?
    ensures f(x).Ok? ==> TryMap(f, xs + [x]) == Ok(TryMap(f, xs).value + [f(x).value])
    ensures f(x).Err? ==> TryMap(f, xs + [x]) == Err(f(x).error)
  {
    if |xs| == 0 {
      assert xs + [x] == [x];
      assert [x][1..] == [];
      if f(x).Ok? {
        assert TryMap(f, [x]) == Ok([f(x).value] + []);
        assert [f(x).value] + [] == [] + [f(x).value];
      }
    } else {
      assert (xs + [x])[1..] == xs[1..] + [x];
      TryMapSnoc(f, xs[1..], x);
      if f(x).Ok? {
        var first, others := f(xs[0]).value, TryMap(f, xs[1..]).value;
        assert [first] + (others + [f(x).value]) == [first] + others + [f(x).value];
      }
    }
  }

  /** A failed mapping reports the error of some element. */
  lemma {:induction false} TryMapError<A, B, E>(f: A -> Result<B, E>, xs: seq<A>)
    requires TryMap(f, xs).Err?
    ensures exists i :: 0 <= i < |xs| && f(xs[i]) == Err(TryMap(f, xs).error)
  {
    if f(xs[0]).Ok? {
      TryMapError(f, xs[1..]);
      var i :| 0 <= i < |xs[1..]| && f(xs[1..][i]) == Err(TryMap(f, xs[1..]).error);
      assert f(xs[i + 1]) == Err(TryMap(f, xs).error);
    }
  }
}
