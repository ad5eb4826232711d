/** Failure-compatible wrappers used across the model.
    Option stands for JavaScript's `undefined`/`null` results and Python's `None`;
    Outcome stands for a JavaScript call that either returns a value or throws. */
module Wrappers {

  datatype Option<+T> = None | Some(value: T) {
    predicate IsFailure() { None? }

    function PropagateFailure<U>(): Option<U>
      requires None?
    {
      None
    }

    function Extract(): T
      requires Some?
    {
      value
    }

    function GetOr(default: T): T {
      match this
      case Some(v) => v
      case None => default
    }
  }

  /** A value, or an exception carrying its message. */
  datatype Outcome<+T> = Ok(value: T) | Thrown(message: string) {
    predicate IsFailure() { Thrown? }

    function PropagateFailure<U>(): Outcome<U>
      requires Thrown?
    {
      Thrown(message)
    }

    function Extract(): T
      requires Ok?
    {
      value
    }

    /** JavaScript's `try { ... } catch { return null }`. */
    function ToOption(): Option<T> {
      match this
      case Ok(v) => Some(v)
      case Thrown(_) => None
    }
  }
}
