/** The two result shapes the rest of the model returns. */
module Wrappers {

  datatype Option<+T> = None | Some(value: T) {
    function GetOr(default: T): T {
      match this
      case Some(v) => v
      case None => default
    }
  }

  /** The first answer, or the second where there is none. */
  function Either<T>(first: Option<T>, second: Option<T>): Option<T> {
    if first.Some? then first else second
  }

  datatype Result<+T> = Ok(value: T) | Err {
    predicate IsFailure() {
      Err?
    }

    function PropagateFailure<U>(): Result<U>
      requires Err?
    {
      Err
    }

    function Extract(): T
      requires Ok?
    {
      value
    }
  }

  /** Each item's answer in order, or `Err` when any of them is one. */
  function Traverse<A, B>(f: A -> Result<B>, items: seq<A>): (all: Result<seq<B>>)
    ensures all.Ok? <==> forall k :: 0 <= k < |items| ==> f(items[k]).Ok?
    ensures all.Ok? ==> |all.value| == |items|
    ensures all.Ok? ==> forall k :: 0 <= k < |items| ==> f(items[k]) == Ok(all.value[k])
  {
    if items == [] then Ok([])
    else
      match (f(items[0]), Traverse(f, items[1..]))
      case (Ok(first), Ok(rest)) => Ok([first] + rest)
      case _ => Err
  }
}
