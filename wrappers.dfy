// Option and Result, the two ways the modelled Go code reports "nothing" and "failed".
module Wrappers {

  datatype Option<T> = None | Some(value: T) {
    predicate IsFailure() { None? }

    function PropagateFailure<U>(): Option<U>
      requires None?
    { None }

    function Extract(): T
      requires Some?
    { value }

    function GetOr(default: T): T {
      if Some? then value else default
    }
  }

  datatype Result<T, E> = Ok(value: T) | Err(error: E) {
    predicate IsFailure() { Err? }

    function PropagateFailure<U>(): Result<U, E>
      requires Err?
    { Err(error) }

    function Extract(): T
      requires Ok?
    { value }
  }

  /** f applied to each element in turn, stopping at the first failure. */
  function MapResult<T, U, E>(xs: seq<T>, f: T -> Result<U, E>): (r: Result<seq<U>, E>)
    ensures r.Ok? ==> |r.value| == |xs|
    decreases |xs|
  {
    if xs == [] then Ok([])
    else
      var init :- MapResult(xs[..|xs| - 1], f);
      var y :- f(xs[|xs| - 1]);
      Ok(init + [y])
  }

  /** The map succeeds exactly when f succeeds on every element, and then holds f's values in order. */
  lemma {:induction false} MapResultOk<T, U, E>(xs: seq<T>, f: T -> Result<U, E>)
    ensures MapResult(xs, f).Ok? <==> forall i | 0 <= i < |xs| :: f(xs[i]).Ok?
    ensures MapResult(xs, f).Ok? ==> forall i | 0 <= i < |xs| :: MapResult(xs, f).value[i] == f(xs[i]).value
    decreases |xs|
  {
    if xs != [] {
      var init := xs[..|xs| - 1];
      MapResultOk(init, f);
      assert forall i | 0 <= i < |init| :: init[i] == xs[i];
    }
  }

  /** A failing map fails with f's error on the first element where f fails. */
  lemma {:induction false} MapResultFirstError<T, U, E>(xs: seq<T>, f: T -> Result<U, E>)
    requires MapResult(xs, f).Err?
    ensures exists i | 0 <= i < |xs| :: (f(xs[i]) == Err(MapResult(xs, f).error)
      && forall j | 0 <= j < i :: f(xs[j]).Ok?)
    decreases |xs|
  {
    var init := xs[..|xs| - 1];
    assert forall j | 0 <= j < |init| :: init[j] == xs[j];
    if MapResult(init, f).Err? {
      MapResultFirstError(init, f);
      var i :| 0 <= i < |init| && f(init[i]) == Err(MapResult(init, f).error)
        && forall j | 0 <= j < i :: f(init[j]).Ok?;
      assert f(xs[i]) == Err(MapResult(xs, f).error);
    } else {
      MapResultOk(init, f);
      assert f(xs[|xs| - 1]) == Err(MapResult(xs, f).error);
    }
  }

  /** Mapping one more element that f turns into y appends y. */
  lemma MapResultSnoc<T, U, E>(xs: seq<T>, f: T -> Result<U, E>, i: nat, acc: seq<U>, y: U)
    requires i < |xs| && MapResult(xs[..i], f) == Ok(acc) && f(xs[i]) == Ok(y)
    ensures MapResult(xs[..i + 1], f) == Ok(acc + [y])
  {
    assert xs[..i + 1][..i] == xs[..i];
  }

  /** A failing prefix makes the whole map fail with the same error. */
  lemma {:induction false} MapResultPrefixErr<T, U, E>(xs: seq<T>, f: T -> Result<U, E>, i: nat)
    requires i <= |xs| && MapResult(xs[..i], f).Err?
    ensures MapResult(xs, f) == MapResult(xs[..i], f)
    decreases |xs|
  {
    if i == |xs| {
      assert xs[..i] == xs;
    } else {
      var init := xs[..|xs| - 1];
      assert init[..i] == xs[..i];
      MapResultPrefixErr(init, f, i);
    }
  }
}
