/** Shared result types. The Go code has no error returns: its failures are a
    parser that never returns on an unterminated construct and an index panic.
    The model makes both visible, and adds the fuel bound of the evaluator. */
module Outcomes {

  datatype Option<+T> = None | Some(value: T)

  /** Why a modelled computation did not produce a value. */
  datatype Fault =
    | Unterminated  // the Go parser loops forever: the token stream ended inside `[`, `#` or `(`
    | OutOfFuel     // the evaluator's recursion bound was reached (self-referential grammars)
    | IndexPanic    // the Go program panics: a random draw outside [0, n)

  datatype Outcome<+T> = Ok(value: T) | Fail(fault: Fault)
}
