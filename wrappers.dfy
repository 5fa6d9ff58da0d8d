/** Optional values (a C# reference that may be null) and results (a call that may throw). */
module Wrappers {

  datatype Option<+T> = None | Some(value: T)

  datatype Result<+T, +E> = Success(value: T) | Failure(error: E)

  /** A C# `string` reference: `None` stands for `null`. */
  type NString = Option<string>

  /** `string.IsNullOrEmpty`. */
  predicate IsNullOrEmpty(s: NString) {
    s.None? || s.value == ""
  }
}

/** The exceptions the modelled code throws, with the messages and parameter names it uses. */
module Exceptions {

  datatype Exception =
    | ArgumentNull(paramName: string)
    | Argument(message: string, paramName: string)
    | InvalidOperation(message: string)
      /** The ArgumentException a header dictionary throws when asked to add a name it already holds. */
    | DuplicateHeader(name: string)
      /** Whatever the downstream pipeline threw; it is passed through unchanged. */
    | Downstream
}
