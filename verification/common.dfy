/** Shared vocabulary: an optional value (Python's `None` or a number) and the
    scalar built-ins `max`, `min` and `abs` as the trading code uses them. */
module Base {

  datatype Option<+T> = None | Some(value: T)

  /** Python's `max(a, b)`: keeps `a` unless `b` is strictly greater. */
  function Max(a: real, b: real): real
  {
    if b > a then b else a
  }

  /** Python's `min(a, b)`: keeps `a` unless `b` is strictly smaller. */
  function Min(a: real, b: real): real
  {
    if b < a then b else a
  }

  function Abs(x: real): real
  {
    if x < 0.0 then -x else x
  }
}
