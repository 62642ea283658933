/**
 * The list widgets mark an item as active by comparing its position with a
 * single stored index. Counting the marked positions states "exactly one"
 * and "at most one" without naming any widget.
 */
module Indicators {

  /** How many of the positions 0 .. n-1 equal `selected`, i.e. render as active. */
  /** One position is marked when the index is in range, none otherwise; never two. */
  function MarkedCount(selected: int, n: nat): (c: nat)
    ensures c <= 1
    ensures c == 1 <==> 0 <= selected < n
  {
    if n == 0 then 0 else MarkedCount(selected, n - 1) + (if n - 1 == selected then 1 else 0)
  }
}
