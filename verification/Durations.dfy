/** Times and durations are counted in nanoseconds, as time.Duration does. */
module Durations {
  const SECOND := 1_000_000_000
}
