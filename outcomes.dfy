/** The results parsing productions return: a value and the new cursor, or an abort. */
module Outcomes {
  import opened Tokens

  datatype Option<+T> = None | Some(value: T)

  /** Why parsing stopped. Every case carries the position of the symbol at which it happened. */
  datatype Abort =
    | SyntaxError(at: Position)       // a `Report.error` call: the lookahead is not allowed here
    | MalformedNumber(at: Position)   // `Integer.parseInt` rejected the lexeme of an integer constant
    | MissingNode(at: Position)       // a production returned no node and the caller used it

  /** Outcome of a production read as a function of the symbols and the cursor. */
  datatype Outcome<+T> = Ok(value: T, next: nat) | Fail(abort: Abort)

  /** Outcome of a parsing method; the new cursor is the parser's state. */
  datatype Result<+T> = Success(value: T) | Failure(abort: Abort) {
    predicate IsFailure() { Failure? }
    function PropagateFailure<U>(): Result<U> requires Failure? { Failure(abort) }
    function Extract(): T requires Success? { value }
  }

  /** Outcome of a check that yields nothing but may abort. */
  datatype Status = Pass | Stop(abort: Abort) {
    predicate IsFailure() { Stop? }
    function PropagateFailure<U>(): Result<U> requires Stop? { Failure(abort) }
  }

  /** A method's result and final cursor agree with the functional outcome. */
  predicate Agrees<T(==)>(r: Result<T>, cursor: nat, o: Outcome<T>) {
    match o
    case Ok(v, q) => r == Success(v) && cursor == q
    case Fail(a) => r == Failure(a)
  }
}
