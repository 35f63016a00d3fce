/** Configuration constants of the timer and the machine integer types they use. */
module Constants {

  /** Rust's `u8`: the width of the iteration counters. */
  type u8 = x: int | 0 <= x < 256

  /** Rust's `Option`, the payload wrapper of a settings change. */
  datatype Option<T> = None | Some(value: T)

  /** Default work phase length, in seconds. */
  const DEFAULT_WORK: int := 1800
  /** Default number of work iterations in a session. */
  const DEFAULT_ITERATIONS: u8 := 4
  /** Default break phase length, in seconds. */
  const DEFAULT_BREAK: int := 300
  /** Step by which the settings editor changes the work length. */
  const WORK_TIME_INCR: int := 900
  /** Step by which the settings editor changes the break length. */
  const BREAK_TIME_INCR: int := 60
}
