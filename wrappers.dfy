/** Shared value wrappers and the model of Go `error` values. */
module Wrappers {

  datatype Option<T> = None | Some(value: T)

  /** A Go error: one made by errors.New, or one made by fmt.Errorf with a
      leading context string and a `%w` verb that wraps the cause. */
  datatype Error = New(text: string) | Wrapped(context: string, cause: Error)

  /** What err.Error() returns. */
  function Text(e: Error): string
  {
    match e
    case New(text) => text
    case Wrapped(context, cause) => context + Text(cause)
  }
}
