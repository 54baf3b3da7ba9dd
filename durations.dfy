/**
 * `time.Duration` units. Durations and times are integer nanoseconds throughout the model;
 * the zero time is `0`.
 */
module Durations {
  const Nanosecond: int := 1
  const Millisecond: int := 1_000_000
  const Second: int := 1_000_000_000
}
