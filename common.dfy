/** Values shared by every layer of the store: Go's `error` results, the
    cancellation context, the logger handle, and the nil-or-value wrappers
    that stand for Go's nilable pointers and interfaces. */
module Common {

  /** A possibly-nil value: `None` is Go's nil. */
  datatype Option<+T> = None | Some(value: T)

  /** The `(*T, error)` result of the constructors: a value, or nil and an error. */
  datatype Result<+T> = Ok(value: T) | Err(error: Error)

  /** The errors the core produces. The three sentinels are declared at
      internal/database/compute/analyzer.go:15-19; `Canceled` and
      `DeadlineExceeded` are what a done context reports; `Invalid` is an
      `errors.New` value built by a constructor, identified by its message. */
  datatype Error =
    | InvalidSymbol
    | InvalidCommand
    | InvalidArguments
    | Canceled
    | DeadlineExceeded
    | Invalid(message: string)

  /** The caller's `context.Context`, reduced to what the core observes of it:
      whether `ctx.Err()` is nil, and which error it is otherwise. */
  datatype Context = Active | Cancelled | TimedOut {

    /** `ctx.Err()`: nil while the context is active. */
    function Err(): (r: Option<Error>)
      ensures r.None? <==> Active?
      ensures r.Some? ==> r.value.Canceled? || r.value.DeadlineExceeded?
    {
      match this
      case Active => None
      case Cancelled => Some(Canceled)
      case TimedOut => Some(DeadlineExceeded)
    }
  }

  /** A non-nil `*zap.Logger`. Logging itself is not modelled; only the
      presence of a logger is checked by the constructors. */
  datatype Logger = Logger

  /** The message every constructor of the core reports for a nil logger. */
  const LOGGER_INVALID: string := "logger is invalid"
}
