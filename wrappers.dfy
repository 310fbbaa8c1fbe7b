/** Optional values and results: Python's `None` and raised exceptions made explicit. */
module Wrappers {

  datatype Option<+T> = None | Some(value: T) {

    /** The value, or `default` when absent (Python's `x or default` on optionals). */
    function GetOr(default: T): T {
      match this
      case Some(v) => v
      case None => default
    }
  }

  /** A computation that either returns a value or raises an error. */
  datatype Result<+T, +E> = Ok(value: T) | Err(error: E)

  /** Apply `f` to each element in order, stopping at the first error it raises. */
  function MapResult<A, B, E>(xs: seq<A>, f: A -> Result<B, E>): (r: Result<seq<B>, E>)
    ensures r.Ok? <==> forall i :: 0 <= i < |xs| ==> f(xs[i]).Ok?
    ensures r.Ok? ==> |r.value| == |xs| && forall i :: 0 <= i < |xs| ==> f(xs[i]) == Ok(r.value[i])
    ensures r.Err? ==> exists i :: && 0 <= i < |xs| && f(xs[i]) == Err(r.error)
                                  && forall j :: 0 <= j < i ==> f(xs[j]).Ok?
    decreases |xs|
  {
    if xs == [] then Ok([])
    else
      var init := xs[..|xs| - 1];
      assert forall i :: 0 <= i < |init| ==> init[i] == xs[i];
      match MapResult(init, f)
      case Err(e) => Err(e)
      case Ok(prefix) =>
        match f(xs[|xs| - 1])
        case Err(e) => Err(e)
        case Ok(y) => Ok(prefix + [y])
  }

  /** One more element: the results so far extended by its result, or its error. */
  lemma MapResultSnoc<A, B, E>(xs: seq<A>, x: A, f: A -> Result<B, E>)
    ensures MapResult(xs + [x], f) == match MapResult(xs, f)
                                       case Err(e) => Err(e)
                                       case Ok(ys) => (match f(x) case Err(e) => Err(e) case Ok(y) => Ok(ys + [y]))
  {
    assert (xs + [x])[..|xs + [x]| - 1] == xs;
  }

  /** One more successful element extends a successful prefix. */
  lemma MapResultStep<A, B, E>(xs: seq<A>, i: nat, f: A -> Result<B, E>, ys: seq<B>)
    requires i < |xs| && MapResult(xs[..i], f) == Ok(ys) && f(xs[i]).Ok?
    ensures MapResult(xs[..i + 1], f) == Ok(ys + [f(xs[i]).value])
  {
    MapResultSnoc(xs[..i], xs[i], f);
    assert xs[..i + 1] == xs[..i] + [xs[i]];
  }

  /** An element that raises makes the whole map raise its error, whatever follows it. */
  lemma {:induction false} MapResultStops<A, B, E>(xs: seq<A>, i: nat, f: A -> Result<B, E>)
    requires i < |xs| && MapResult(xs[..i], f).Ok? && f(xs[i]).Err?
    ensures MapResult(xs, f) == Err(f(xs[i]).error)
    decreases |xs|
  {
    var init := xs[..|xs| - 1];
    if |xs| == i + 1 {
      assert init == xs[..i];
    } else {
      assert init[..i] == xs[..i];
      MapResultStops(init, i, f);
    }
  }
}
