/** Shared result types: how a step of the program ends.

    The Python program ends a run in two ways that the model keeps apart:
    an explicit `quit(n)` (through `Fail`, `PrintUsage` or directly), and an
    exception that nothing catches. */
module Outcomes {

  datatype Option<+T> = None | Some(value: T)

  /** The Python exceptions that the modelled code can raise uncaught. */
  datatype PyError =
    | IndexError      // a list index past the end
    | TypeError       // str + int, or a call with the wrong number of arguments
    | AttributeError  // an attribute read before it was ever assigned

  /** Why the run stopped early. */
  datatype Halt =
    | Exit(code: int)       // quit(code)
    | Raised(error: PyError)

  /** The result of an operation that either returns a value or stops the run. */
  datatype Outcome<+T> = Ok(value: T) | Stop(halt: Halt) {
    predicate IsFailure() {
      Stop?
    }

    function PropagateFailure<U>(): Outcome<U>
      requires Stop?
    {
      Stop(halt)
    }

    function Extract(): T
      requires Ok?
    {
      value
    }
  }
}
