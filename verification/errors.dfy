/** Failure outcomes of the autodiff core and the Option/Result wrappers
    that carry them. Each Python exception the core can raise becomes one
    constructor of `Error`. */
module Errors {

  datatype Error =
    | Reactivated      // GradEngine.activate on an engine that is already working
    | NotWorking       // GradEngine.accumulate on an engine that is not working
    | NoDependency     // GradEngine.del_dependency with no pending dependency left
    | ZeroDivision     // division by zero, or zero raised to a forbidden power
    | Domain           // logarithm of a non-positive base
    | Arity            // an operator handed the wrong number of operands
    | Unpack           // a tuple unpacking with the wrong number of names
    | MissingGradient  // a computed node fires with nothing accumulated
    | Unsupported      // `**` with a modulus
  {
    /** The engine's own bookkeeping was misused: never a property of user input. */
    predicate IsStateMisuse() {
      Reactivated? || NotWorking? || NoDependency?
    }

    /** Errors an operator formula raises on its operand values. */
    predicate IsArithmetic() {
      ZeroDivision? || Domain? || Arity?
    }
  }

  /** Python's `None` / present value. */
  datatype Option<+T> = None | Some(value: T) {
    function GetOr(default: T): T {
      match this
      case Some(v) => v
      case None => default
    }
  }

  /** A value, or the error that was raised instead of producing it. */
  datatype Result<+T> = Ok(value: T) | Err(error: Error) {
    predicate IsFailure() {
      Err?
    }

    function PropagateFailure<U>(): Result<U>
      requires Err?
    {
      Err(error)
    }

    function Extract(): T
      requires Ok?
    {
      value
    }
  }
}
