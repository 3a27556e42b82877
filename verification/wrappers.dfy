/** Absent values and thrown exceptions, shared by every module of the model. */
module Wrappers {

  /** A value that may be absent: TypeScript's `T | null` (or `T | undefined`). */
  datatype Option<+T> = None | Some(value: T)

  /** What an awaited call into the client library did: it returned a value or it threw. */
  datatype Outcome<+T> = Returned(value: T) | Threw
}
