/** Option and Result, the failure-carrying values the rest of the model uses. */
module Wrappers {

  datatype Option<+T> = None | Some(value: T) {
    function GetOr(default: T): T {
      match this
      case Some(v) => v
      case None => default
    }
  }

  /** A Python call that either returns a value or raises an exception (its text). */
  datatype Result<+T> = Ok(value: T) | Raised(error: string) {
    predicate IsFailure() {
      Raised?
    }

    function PropagateFailure<U>(): Result<U>
      requires Raised?
    {
      Raised(error)
    }

    function Extract(): T
      requires Ok?
    {
      value
    }
  }

  /**
   * A Python loop or comprehension that applies `f` to each element in turn:
   * the results in order, or the exception of the first element that raises.
   */
  function MapResult<A, B>(f: A -> Result<B>, xs: seq<A>): (r: Result<seq<B>>)
    ensures r.Ok? <==> forall i :: 0 <= i < |xs| ==> f(xs[i]).Ok?
    ensures r.Ok? ==> |r.value| == |xs| && forall i :: 0 <= i < |xs| ==> f(xs[i]) == Ok(r.value[i])
    ensures r.Raised? ==> exists i :: 0 <= i < |xs| && f(xs[i]) == Raised(r.error)
                                      && forall j :: 0 <= j < i ==> f(xs[j]).Ok?
  {
    if xs == [] then Ok([])
    else
      var head := f(xs[0]);
      if head.Raised? then
        assert f(xs[0]) == Raised(head.error);
        Raised(head.error)
      else
        var rest := MapResult(f, xs[1..]);
        assert forall i :: 1 <= i < |xs| ==> xs[i] == xs[1..][i - 1];
        if rest.Raised? then
          var i :| 0 <= i < |xs[1..]| && f(xs[1..][i]) == Raised(rest.error)
                   && forall j :: 0 <= j < i ==> f(xs[1..][j]).Ok?;
          assert f(xs[i + 1]) == Raised(rest.error);
          Raised(rest.error)
        else
          Ok([head.value] + rest.value)
  }

  /** `prefix` put in front of the values of `r`, or the exception of `r`. */
  function Prepend<B>(prefix: seq<B>, r: Result<seq<B>>): Result<seq<B>> {
    match r
    case Ok(v) => Ok(prefix + v)
    case Raised(e) => Raised(e)
  }

  lemma PrependEmpty<B>(r: Result<seq<B>>)
    ensures Prepend([], r) == r
  {
    if r.Ok? {
      assert [] + r.value == r.value;
    }
  }

  /** One step of MapResult at position `i`: the element there, then the rest. */
  lemma MapResultStep<A, B>(f: A -> Result<B>, xs: seq<A>, i: nat, prefix: seq<B>)
    requires i < |xs|
    ensures f(xs[i]).Ok? ==>
      Prepend(prefix, MapResult(f, xs[i..])) == Prepend(prefix + [f(xs[i]).value], MapResult(f, xs[i + 1..]))
    ensures f(xs[i]).Raised? ==> Prepend(prefix, MapResult(f, xs[i..])) == Raised(f(xs[i]).error)
  {
    var ys := xs[i..];
    assert ys[0] == xs[i];
    assert ys[1..] == xs[i + 1..];
    var rest := MapResult(f, ys[1..]);
    if f(xs[i]).Ok? && rest.Ok? {
      assert prefix + ([f(xs[i]).value] + rest.value) == prefix + [f(xs[i]).value] + rest.value;
    }
  }
}
