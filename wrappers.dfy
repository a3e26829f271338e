/** Optional values and results of operations that may throw. */
module Wrappers {

  /** A value that may be missing (`undefined`/`null` in the source). */
  datatype Option<+T> = None | Some(value: T) {
    function GetOr(default: T): T {
      match this
      case Some(v) => v
      case None => default
    }
  }

  /** The outcome of an operation that returns nothing or throws an `Error` with a message. */
  datatype Outcome = Pass | Fail(message: string)

  /** The outcome of an operation that either returns a value or throws an `Error` with a message. */
  datatype Result<+T> = Ok(value: T) | Err(message: string) {
    function GetOr(default: T): T {
      match this
      case Ok(v) => v
      case Err(_) => default
    }
  }

  /** `xs.map(f)` with an `f` that may throw: the first `Error` ends the map. */
  function MapAll<T, U>(xs: seq<T>, f: T -> Result<U>): Result<seq<U>>
  {
    if xs == [] then Ok([])
    else
      match f(xs[0])
      case Err(m) => Err(m)
      case Ok(y) =>
        match MapAll(xs[1..], f)
        case Err(m) => Err(m)
        case Ok(rest) => Ok([y] + rest)
  }

  /** The map succeeds exactly when `f` succeeds on every element. */
  lemma {:induction false} MapAllOk<T, U>(xs: seq<T>, f: T -> Result<U>)
    ensures MapAll(xs, f).Ok? <==> forall i :: 0 <= i < |xs| ==> f(xs[i]).Ok?
    decreases |xs|
  {
    if xs != [] {
      MapAllOk(xs[1..], f);
      assert forall i :: 1 <= i < |xs| ==> xs[i] == xs[1..][i - 1];
    }
  }

  /** A map that succeeds holds the value of `f` on each element, in order. */
  lemma {:induction false} MapAllValues<T, U>(xs: seq<T>, f: T -> Result<U>)
    requires MapAll(xs, f).Ok?
    ensures |MapAll(xs, f).value| == |xs|
    ensures forall i :: 0 <= i < |xs| ==> Ok(MapAll(xs, f).value[i]) == f(xs[i])
    decreases |xs|
  {
    if xs != [] {
      MapAllValues(xs[1..], f);
      var ys := MapAll(xs, f).value;
      assert ys == [f(xs[0]).value] + MapAll(xs[1..], f).value;
      assert forall i :: 1 <= i < |xs| ==> xs[i] == xs[1..][i - 1] && ys[i] == MapAll(xs[1..], f).value[i - 1];
    }
  }
}
