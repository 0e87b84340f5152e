/** Option, Result and the outcome of a step that may abort the whole run. */
module Outcomes {

  datatype Option<+T> = None | Some(value: T)

  /** An error value returned to the caller (Go's `error` results). */
  datatype Result<+T, +E> = Ok(value: T) | Err(error: E) {
    predicate IsFailure() { Err? }
    function PropagateFailure<U>(): Result<U, E>
      requires Err?
    {
      Err(error)
    }
    function Extract(): T
      requires Ok?
    {
      value
    }
  }

  /** The outcome of a step that cannot report an error to its caller:
      `Fatal` stands for `klog.Fatal` and for a Go runtime panic (both end
      the process), `Diverges` for running out of the recursion bound that
      replaces the source's unbounded recursion. */
  datatype Outcome<+T> = Done(value: T) | Fatal | Diverges {
    predicate IsFailure() { !Done? }
    function PropagateFailure<U>(): Outcome<U>
      requires !Done?
    {
      if Fatal? then Fatal else Diverges
    }
    function Extract(): T
      requires Done?
    {
      value
    }
  }
}
