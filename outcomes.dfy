/** Failure-compatible wrappers standing for Python's `None` and raised exceptions. */
module Outcomes {

  /** Python's `Optional[T]`: an absent value or a present one. */
  datatype Option<+T> = None | Some(value: T)

  /**
   * The exception classes the modelled code raises, each with its message text (a
   * printed Python set inside a message is given in one of the orders Python may print).
   */
  datatype Exc =
    | ValueError(msg: string)
    | TypeError(msg: string)
    | AttributeError(msg: string)
    | KeyError(msg: string)

  /** The result of a call that either returns a value or raises. */
  datatype Result<+T> = Success(value: T) | Failure(error: Exc) {
    predicate IsFailure() { Failure? }

    function PropagateFailure<U>(): Result<U>
      requires Failure?
    {
      Failure(error)
    }

    function Extract(): T
      requires Success?
    {
      value
    }
  }

  /** The result of a guard chain that returns nothing (`-> None`) or raises. */
  datatype Outcome = Pass | Fail(error: Exc) {
    predicate IsFailure() { Fail? }

    function PropagateFailure(): Outcome
      requires Fail?
    {
      this
    }
  }

  function Need(condition: bool, error: Exc): (r: Outcome)
    ensures r.Pass? <==> condition
  {
    if condition then Pass else Fail(error)
  }

  /** `[f(x) for x in xs]` where `f` may raise: the first failure propagates. */
  function MapResults<A, B>(f: A -> Result<B>, xs: seq<A>): Result<seq<B>> {
    if |xs| == 0 then Success([])
    else
      var first := f(xs[0]);
      if first.Failure? then Failure(first.error)
      else
        var rest := MapResults(f, xs[1..]);
        if rest.Failure? then Failure(rest.error) else Success([first.value] + rest.value)
  }

  /** The comprehension succeeds exactly when every call does, and then collects their values. */
  lemma {:induction false} MapResultsSuccess<A, B>(f: A -> Result<B>, xs: seq<A>)
    ensures MapResults(f, xs).Success? <==> forall i | 0 <= i < |xs| :: f(xs[i]).Success?
    ensures MapResults(f, xs).Success? ==>
              && |MapResults(f, xs).value| == |xs|
              && forall i | 0 <= i < |xs| :: MapResults(f, xs).value[i] == f(xs[i]).value
  {
    if |xs| > 0 {
      MapResultsSuccess(f, xs[1..]);
      assert forall i | 1 <= i < |xs| :: xs[i] == xs[1..][i - 1];
    }
  }

  /** A failing comprehension raises the error of the first failing call. */
  lemma {:induction false} MapResultsFailure<A, B>(f: A -> Result<B>, xs: seq<A>)
    requires MapResults(f, xs).Failure?
    ensures exists i | 0 <= i < |xs| ::
              && f(xs[i]).Failure? && MapResults(f, xs).error == f(xs[i]).error
              && forall j | 0 <= j < i :: f(xs[j]).Success?
  {
    var first := f(xs[0]);
    if first.Success? {
      var rest := xs[1..];
      MapResultsFailure(f, rest);
      var i :| 0 <= i < |rest|
        && f(rest[i]).Failure? && MapResults(f, rest).error == f(rest[i]).error
        && forall j | 0 <= j < i :: f(rest[j]).Success?;
      assert forall j | 1 <= j < |xs| :: xs[j] == rest[j - 1];
      assert f(xs[i + 1]).Failure?;
    }
  }

  /** The comprehension over `a + b` runs over `a`, then over `b`. */
  lemma {:induction false} MapResultsAppend<A, B>(f: A -> Result<B>, a: seq<A>, b: seq<A>)
    ensures MapResults(f, a + b)
            == (var ra := MapResults(f, a);
                if ra.Failure? then Failure(ra.error)
                else
                  var rb := MapResults(f, b);
                  if rb.Failure? then Failure(rb.error) else Success(ra.value + rb.value))
    decreases |a|
  {
    if |a| == 0 {
      assert a + b == b;
      var rb := MapResults(f, b);
      if rb.Success? {
        assert [] + rb.value == rb.value;
      }
    } else {
      assert (a + b)[0] == a[0];
      assert (a + b)[1..] == a[1..] + b;
      MapResultsAppend(f, a[1..], b);
      var first := f(a[0]);
      var ra := MapResults(f, a[1..]);
      var rb := MapResults(f, b);
      if first.Success? && ra.Success? && rb.Success? {
        assert [first.value] + (ra.value + rb.value) == ([first.value] + ra.value) + rb.value;
      }
    }
  }

  lemma MapResultsSingle<A, B>(f: A -> Result<B>, x: A)
    ensures MapResults(f, [x]) == if f(x).Failure? then Failure(f(x).error) else Success([f(x).value])
  {
    assert [x][0] == x;
    assert [x][1..] == [];
    assert MapResults(f, []) == Success([]);
    if f(x).Success? {
      assert [f(x).value] + [] == [f(x).value];
    }
  }

  /** A loop over `xs` that stops at the first raising element: the snoc step. */
  lemma MapResultsSnoc<A, B>(f: A -> Result<B>, xs: seq<A>, i: int)
    requires 0 <= i < |xs| && MapResults(f, xs[..i]).Success?
    ensures f(xs[i]).Failure? ==> MapResults(f, xs) == Failure(f(xs[i]).error)
    ensures f(xs[i]).Success? ==> MapResults(f, xs[..i + 1]) == Success(MapResults(f, xs[..i]).value + [f(xs[i]).value])
  {
    assert xs[..i + 1] == xs[..i] + [xs[i]];
    MapResultsAppend(f, xs[..i], [xs[i]]);
    MapResultsSingle(f, xs[i]);
    if f(xs[i]).Failure? {
      assert xs == xs[..i + 1] + xs[i + 1..];
      MapResultsAppend(f, xs[..i + 1], xs[i + 1..]);
    }
  }

  /** `for x in xs: s = f(s, x)` where a step may raise: the first failure propagates. */
  function FoldResults<S, T>(f: (S, T) -> Result<S>, s: S, xs: seq<T>): Result<S>
    decreases |xs|
  {
    if |xs| == 0 then Success(s)
    else
      var done := FoldResults(f, s, xs[..|xs| - 1]);
      if done.Failure? then done else f(done.value, xs[|xs| - 1])
  }

  /** One more element of the prefix is one more step. */
  lemma FoldStep<S, T>(f: (S, T) -> Result<S>, s: S, xs: seq<T>, i: int)
    requires 0 <= i < |xs|
    ensures FoldResults(f, s, xs[..i + 1])
            == (var done := FoldResults(f, s, xs[..i]);
                if done.Failure? then done else f(done.value, xs[i]))
  {
    assert xs[..i + 1][..i] == xs[..i];
  }

  /** Once a prefix fails, the whole loop fails the same way. */
  lemma {:induction false} FoldFailureSticks<S, T>(f: (S, T) -> Result<S>, s: S, xs: seq<T>, i: int)
    requires 0 <= i <= |xs| && FoldResults(f, s, xs[..i]).Failure?
    ensures FoldResults(f, s, xs) == FoldResults(f, s, xs[..i])
    decreases |xs| - i
  {
    if i < |xs| {
      FoldStep(f, s, xs, i);
      FoldFailureSticks(f, s, xs, i + 1);
    } else {
      assert xs[..i] == xs;
    }
  }
}
