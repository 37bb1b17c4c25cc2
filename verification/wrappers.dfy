/** Option and Result, the two failure-carrying shapes the backend and the
    page scripts use (Rust's `Option`/`Result`, JavaScript's `null` and
    caught errors). */
module Wrappers {

  datatype Option<+T> = None | Some(value: T) {
    function GetOr(default: T): T {
      match this
      case Some(v) => v
      case None => default
    }
  }

  datatype Result<+T, +E> = Ok(value: T) | Err(error: E) {
    predicate IsOk() { Ok? }
  }

  /** A file the backend reads at start-up or before an update: absent,
      present but not parseable as the expected JSON, or holding a value. */
  datatype FileState<+T> = Missing | Unparsable | Holds(contents: T)

  /** Rust's `fs::write` either succeeds or reports an error message. It
      truncates the file before writing, so an error that comes after the
      truncation (`truncated`) leaves the file empty or holding a prefix of
      the new JSON, which no longer parses; an earlier error (the file
      cannot be opened) leaves it as it was. */
  datatype WriteOutcome = Written | WriteFailed(reason: string, truncated: bool)

  /** The file after writing `v` over `before`. */
  function AfterWrite<T>(before: FileState<T>, v: T, w: WriteOutcome): FileState<T> {
    match w
    case Written => Holds(v)
    case WriteFailed(_, truncated) => if truncated then Unparsable else before
  }
}
