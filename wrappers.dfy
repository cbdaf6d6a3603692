/** Option and Result, the two shapes used for Java's nullable values and for
    calls that may throw, and the exceptions thrown. */
module Wrappers {

  /** A value that may be absent: `None` stands for Java's `null`. */
  datatype Option<+T> = None | Some(value: T)

  /** The outcome of a call that either returns a value or throws an exception. */
  datatype Result<+T, +E> = Success(value: T) | Failure(error: E)

  /** The exceptions the build steps throw: Java's `IllegalStateException`, and
      the rejections of the cron and zone library calls. */
  datatype Exception =
    | IllegalStateException(message: string)
    | InvalidCronExpression(cron: string)
    | InvalidZoneId(zoneId: string)
}
