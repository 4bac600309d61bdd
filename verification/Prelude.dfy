/** Optional values, positive settings and the clock. */
module Prelude {
  /** Python's None and a nullable column. */
  datatype Option<+T> = None | Some(value: T)

  type Positive = x: int | 0 < x witness 1

  /** Points in time, in microseconds, the resolution of Python's datetime. */
  type Time = int

  const SECOND: int := 1_000_000
  const MINUTE: int := 60_000_000
}
