/** Go's error values and the optional/fallible results the launcher works with. */
module Errors {

  datatype Option<+T> = None | Some(value: T)

  /** A value-or-error pair, as in Go's `(T, error)` returns. */
  datatype Result<+T> = Ok(value: T) | Err(error: Error)

  /**
   * A Go `error`: a plain message (errors.New, or an opaque collaborator's
   * error), or one wrapped with `fmt.Errorf("<context>: %w", cause)`.
   */
  datatype Error = Msg(text: string) | Wrap(context: string, cause: Error)
  {
    /** err.Error(): the breadcrumb trail of contexts, ending with the root message. */
    function Text(): string
    {
      match this
      case Msg(t) => t
      case Wrap(c, e) => c + ": " + e.Text()
    }
  }

  /** A fallible step that yields no value: `None` is Go's nil error. */
  type Status = Option<Error>
}
