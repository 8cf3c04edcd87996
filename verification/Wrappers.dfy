/** Optional values, and results that name the exception the program throws. */
module Wrappers {
  datatype Option<+T> = None | Some(value: T)

  datatype Error =
    | EmptyIdentity | UnsafeIdentity                // idempotency keys
    | UniqueConstraint                              // a unique index of SQLite
    | MissingRunId | ForkOntoItself | EmptySource   // fork plans
    | ForkPointOutOfRange | NoStepAtForkPoint | TargetExists
    | InvalidLine | InvalidPayload                  // portable exports
    | InvalidLimit | InvalidCursor | CursorNotFound // run listings
    | StepOutOfRange                                // time travel

  datatype Result<+T> = Ok(value: T) | Err(error: Error)
}
