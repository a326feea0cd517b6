/** Event masks: the set of the bits that are set in an integer mask, so that
    `|` is union, `&` is intersection and 0 is the empty set. */
module EventMask {
  datatype Event = Read | Write | Timeout | Period | Async | Custom

  type Mask = set<Event>
}
