/** Optional values and results with an error, shared by every module of the model. */
module Wrappers {

  /** A value that may be absent; `None` stands for Java's `null`. */
  datatype Option<+T> = None | Some(value: T)

  /** The outcome of an operation that can throw: a value, or the exception it raised. */
  datatype Result<+T, +E> = Ok(value: T) | Fail(error: E)

  /** Two result streams read one after the other: the first failure wins, otherwise the rows are concatenated. */
  function Then<T, E>(a: Result<seq<T>, E>, b: Result<seq<T>, E>): (r: Result<seq<T>, E>)
    ensures r.Ok? <==> a.Ok? && b.Ok?
    ensures r.Ok? ==> r.value == a.value + b.value
    ensures a.Fail? ==> r == a
    ensures a.Ok? && b.Fail? ==> r == b
  {
    if a.Fail? then a else if b.Fail? then b else Ok(a.value + b.value)
  }
}
