// Plain left-to-right sums of `double` values, as the range-for accumulations of the event
// loop compute them; rounding is not modelled.
module Sums {
  /** The sum of a list, first to last. */
  function Sum(s: seq<real>): real
    decreases |s|
  {
    if s == [] then 0.0 else Sum(s[..|s| - 1]) + s[|s| - 1]
  }
}
