/** Option and Result, used for Python's `None` and for operations that raise. */
module Wrappers {

  datatype Option<+T> = None | Some(value: T)

  datatype Result<+R, +E> = Success(value: R) | Failure(error: E)

  /** A list comprehension `[f(x) for x in xs]` whose `f` may raise: the
      results in order, or the error of the first element that raises. */
  function MapResults<T, U, E>(xs: seq<T>, f: T -> Result<U, E>): (r: Result<seq<U>, E>)
    ensures r.Success? ==> |r.value| == |xs|
  {
    if xs == [] then Success([])
    else
      match MapResults(xs[..|xs| - 1], f)
      case Failure(e) => Failure(e)
      case Success(prev) =>
        match f(xs[|xs| - 1])
        case Failure(e) => Failure(e)
        case Success(y) => Success(prev + [y])
  }

  /** The comprehension succeeds iff no element raises, and then holds each
      element's result at its position. */
  lemma {:induction false} MapResultsMeaning<T, U, E>(xs: seq<T>, f: T -> Result<U, E>)
    ensures MapResults(xs, f).Success? <==> forall i :: 0 <= i < |xs| ==> f(xs[i]).Success?
    ensures MapResults(xs, f).Success? ==> forall i :: 0 <= i < |xs| ==> MapResults(xs, f).value[i] == f(xs[i]).value
  {
    if xs != [] {
      var init := xs[..|xs| - 1];
      MapResultsMeaning(init, f);
      assert forall i :: 0 <= i < |init| ==> init[i] == xs[i];
    }
  }

  /** One more element that does not raise adds its result at the end. */
  lemma MapResultsSnoc<T, U, E>(xs: seq<T>, k: nat, f: T -> Result<U, E>)
    requires k < |xs|
    requires MapResults(xs[..k], f).Success? && f(xs[k]).Success?
    ensures MapResults(xs[..k + 1], f) == Success(MapResults(xs[..k], f).value + [f(xs[k]).value])
  {
    assert xs[..k + 1][..k] == xs[..k];
  }

  /** Once a prefix raises, the whole comprehension raises the same error. */
  lemma {:induction false} MapResultsPrefixFailure<T, U, E>(xs: seq<T>, k: nat, f: T -> Result<U, E>)
    requires k <= |xs|
    requires MapResults(xs[..k], f).Failure?
    ensures MapResults(xs, f) == MapResults(xs[..k], f)
    decreases |xs| - k
  {
    if k == |xs| {
      assert xs[..k] == xs;
    } else {
      assert xs[..k + 1][..k] == xs[..k];
      MapResultsPrefixFailure(xs, k + 1, f);
    }
  }

  /** The error raised is that of the first element that raises. */
  lemma MapResultsFirstError<T, U, E>(xs: seq<T>, k: nat, f: T -> Result<U, E>)
    requires k < |xs|
    requires forall i :: 0 <= i < k ==> f(xs[i]).Success?
    requires f(xs[k]).Failure?
    ensures MapResults(xs, f) == Failure(f(xs[k]).error)
  {
    MapResultsMeaning(xs[..k], f);
    assert forall i :: 0 <= i < k ==> xs[..k][i] == xs[i];
    assert xs[..k + 1][..k] == xs[..k];
    MapResultsPrefixFailure(xs, k + 1, f);
  }
}

/** The exceptions the plugin raises, as far as they are visible to a user. */
module Errors {

  /** `SetupError(title, subtitle)` is the distinguished "configuration is
      incomplete" exception; every other exception is reduced to the text
      that `str(e)` gives for it. */
  datatype PyError =
    | SetupError(title: string, subtitle: string)
    | Raised(message: string)
  {
    /** What `str(e)` prints: a SetupError passes its title to Exception. */
    function Message(): string
    {
      match this
      case SetupError(t, _) => t
      case Raised(m) => m
    }
  }

  /** The text of a `KeyError` for a missing key, as `str(e)` gives it. */
  function KeyError(key: string): PyError
  {
    Raised("'" + key + "'")
  }
}
