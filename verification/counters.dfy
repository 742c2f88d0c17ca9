/** The labour counters of the booking popups: `Math.max(floor, l - 1)` and
    `l + 1`. */
module Counters {

  /** The decrement button: one less, but never below `floor`. */
  function Decrement(l: int, floor: int): (r: int)
    ensures r >= floor
    ensures l > floor ==> r == l - 1
    ensures l <= floor ==> r == floor
  {
    if floor >= l - 1 then floor else l - 1
  }

  /** The increment button: one more, with no upper bound. */
  function Increment(l: int): (r: int)
    ensures r > l
  {
    l + 1
  }

  /** Increment then decrement returns to the start from any value at or
      above the floor. */
  lemma DecrementUndoesIncrement(l: int, floor: int)
    requires l >= floor
    ensures Decrement(Increment(l), floor) == l
  {
  }
}
