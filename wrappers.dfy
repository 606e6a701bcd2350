/** Option and Result values standing in for .NET's null references and exceptions,
    and MapAll, which applies a throwing operation to each element in order and stops
    at the first one that throws (the way a C# sequence of statements propagates an
    exception). */
module Wrappers {

  /** A reference that may be null. */
  datatype Option<+T> = None | Some(value: T)

  /** Either a value or the exception that was raised instead. Failure-compatible, so
      `var x :- e;` propagates the first failure as an exception would. */
  datatype Result<+T, +E> = Success(value: T) | Failure(error: E) {

    predicate IsFailure() {
      Failure?
    }

    function PropagateFailure<U>(): Result<U, E>
      requires Failure?
    {
      Failure(error)
    }

    function Extract(): T
      requires Success?
    {
      value
    }
  }

  /** Applies f to xs[0], xs[1], ... in that order; the first failure ends the run. */
  function MapAll<A, T, E>(xs: seq<A>, f: A -> Result<T, E>): (r: Result<seq<T>, E>)
    ensures r.Success? ==> |r.value| == |xs|
  {
    if xs == [] then Success([])
    else
      var head :- f(xs[0]);
      var tail :- MapAll(xs[1..], f);
      Success([head] + tail)
  }

  /** MapAll succeeds exactly when every element succeeds, and then keeps the values in order. */
  lemma {:induction false} MapAllSuccess<A, T, E>(xs: seq<A>, f: A -> Result<T, E>)
    ensures MapAll(xs, f).Success? <==> forall i :: 0 <= i < |xs| ==> f(xs[i]).Success?
    ensures MapAll(xs, f).Success? ==>
              forall i :: 0 <= i < |xs| ==> f(xs[i]) == Success(MapAll(xs, f).value[i])
  {
    if xs != [] {
      MapAllSuccess(xs[1..], f);
      assert forall i :: 1 <= i < |xs| ==> xs[i] == xs[1..][i - 1];
    }
  }

  /** When every element succeeds with the given values, MapAll returns exactly those values. */
  lemma {:induction false} MapAllOfValues<A, T, E>(xs: seq<A>, f: A -> Result<T, E>, vs: seq<T>)
    requires |vs| == |xs|
    requires forall i :: 0 <= i < |xs| ==> f(xs[i]) == Success(vs[i])
    ensures MapAll(xs, f) == Success(vs)
  {
    if xs != [] {
      assert forall i :: 0 <= i < |xs| - 1 ==> xs[1..][i] == xs[i + 1] && vs[1..][i] == vs[i + 1];
      MapAllOfValues(xs[1..], f, vs[1..]);
      assert vs == [vs[0]] + vs[1..];
    }
  }

  /** The first element that fails decides the error; later elements are never looked at. */
  lemma {:induction false} MapAllFirstFailure<A, T, E>(xs: seq<A>, f: A -> Result<T, E>, k: nat)
    requires k < |xs|
    requires forall j :: 0 <= j < k ==> f(xs[j]).Success?
    requires f(xs[k]).Failure?
    ensures MapAll(xs, f) == Failure(f(xs[k]).error)
  {
    if k > 0 {
      assert forall j :: 0 <= j < k - 1 ==> xs[1..][j] == xs[j + 1];
      MapAllFirstFailure(xs[1..], f, k - 1);
    }
  }
}
