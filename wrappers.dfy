/** Option, and the outcome of evaluating a Ruby expression: a value, or an exception raised with its message. */
module Wrappers {

  datatype Option<+T> = None | Some(value: T)

  /** `Raised` stands for a Ruby exception escaping the expression; it is failure-compatible, so `:-` propagates it. */
  datatype Outcome<+T> = Ok(value: T) | Raised(message: string) {

    predicate IsFailure() {
      Raised?
    }

    function PropagateFailure<U>(): Outcome<U>
      requires Raised?
    {
      Raised(message)
    }

    function Extract(): T
      requires Ok?
    {
      value
    }
  }

  /** Messages of the Ruby exceptions the model raises; only the class of the exception is modelled. */
  const NoMethodError: string := "NoMethodError"
  const TypeError: string := "TypeError"
  const ArgumentError: string := "ArgumentError"
}
