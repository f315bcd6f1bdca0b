/** Shared vocabulary: optional values, the toolkit's exceptions, and guard results. */
module Basics {

  /** A rendered hash, such as `sha256:...`. */
  type Digest = string

  datatype Option<+T> = None | Some(value: T) {
    /** The first of two optional values that is there. */
    function Or(other: Option<T>): Option<T> {
      if Some? then this else other
    }
  }

  predicate Blank(s: Option<string>) { s.None? || s.value == "" }

  /** Python's `x or y` for an optional text, where the empty text also gives way. */
  function OrText(x: Option<string>, y: Option<string>): Option<string> {
    if Blank(x) then y else x
  }

  /** The exception classes the toolkit raises; `IntegrityError` is a violated UNIQUE column, `OSError` a file that
      is in the way. */
  datatype Failure = ValueError | PermissionError | RuntimeError | KeyError | IntegrityError | OSError

  /** The outcome of a run of guards: the first failing guard decides. */
  datatype Check = Pass | Fail(failure: Failure) {
    predicate IsFailure() { Fail? }

    function PropagateFailure(): Check
      requires IsFailure()
    {
      this
    }
  }

  function Need(condition: bool, failure: Failure): Check {
    if condition then Pass else Fail(failure)
  }

  datatype Result<+T> = Ok(value: T) | Err(failure: Failure)

  /** The set of elements of a sequence: Python's `set(xs)`, and the content of `sorted(set(xs))`. */
  function SetOf<T(==)>(xs: seq<T>): set<T> {
    set x | x in xs
  }

  predicate Distinct<T(==)>(xs: seq<T>) {
    forall i, j :: 0 <= i < j < |xs| ==> xs[i] != xs[j]
  }

  /** The elements of a set, each once; the order `sorted` would choose is left open. */
  method Enumerate(elements: set<string>) returns (order: seq<string>)
    ensures Distinct(order) && SetOf(order) == elements
  {
    order := [];
    var remaining := elements;
    while remaining != {}
      invariant remaining <= elements && Distinct(order) && SetOf(order) == elements - remaining
      decreases remaining
    {
      var x :| x in remaining;
      assert x !in SetOf(order);
      assert SetOf(order + [x]) == SetOf(order) + {x};
      order, remaining := order + [x], remaining - {x};
    }
  }
}
