/** Sums of integer sequences, folded from the right so that a loop over prefixes can follow them. */
module Sums {

  function Sum(xs: seq<int>): int
  {
    if |xs| == 0 then 0 else Sum(xs[..|xs| - 1]) + xs[|xs| - 1]
  }
}
