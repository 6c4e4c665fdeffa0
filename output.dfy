/** What a command, the registry and the dispatch loop produce: printed lines
    and, possibly, an exception that is still propagating. */
module Output {

  datatype Option<+T> = None | Some(value: T)

  /** Why a call or a construction raised `TypeError`. */
  datatype TypeErrorCause =
    | TooManyPositional(given: nat)  // `execute(self)` called with arguments
    | MissingHandlerArgument         // `__init__(self, command_handler)` called without one
    | TakesNoArguments               // a no-argument constructor called with the handler
    | Described(message: string)     // any other cause, as the message says

  /** The Python exceptions the core raises, catches or lets escape. */
  datatype Exc =
    | KeyError
    | ValueError
    | TypeError(cause: TypeErrorCause)
    | SystemExit(message: string)
    | EOFError
    | Raised(name: string)  // any other exception class, by name

  /** One printed line. A `Value` line is `prefix` followed by the decimal's
      string form; a `Skipped` line is the loader's `Skipping <attr>: <err>`. */
  datatype Line =
    | Text(s: string)
    | Value(prefix: string, v: real)
    | Skipped(attr: string, err: Exc)

  /** The effect of one call: the lines it printed, and the exception it
      raised afterwards, if any. */
  datatype Outcome = Outcome(printed: seq<Line>, raised: Option<Exc>)

  function Printed(lines: seq<Line>): Outcome
  {
    Outcome(lines, None)
  }

  function Raise(e: Exc): Outcome
  {
    Outcome([], Some(e))
  }
}
