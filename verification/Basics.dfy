/** Shared vocabulary: optional values and the clock. */
module Basics {
  datatype Option<+T> = None | Some(value: T)

  // The clock counts nanoseconds, as time.Time does.
  const SECOND: int := 1_000_000_000
  const MINUTE: int := 60 * SECOND
  const HOUR: int := 60 * MINUTE
  const DAY: int := 24 * HOUR

  predicate Before(now: int, limit: Option<int>) {
    limit.Some? && now < limit.value
  }

  // The configuration file of a program that serves one instance, relative to the program directory.
  const DEFAULT_CONF := "root/conf.yaml"
}
