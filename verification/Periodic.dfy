/** The arithmetic of periodic watchers, over exact reals. */
module Periodic {

  const SHIFT: real := 18446744073709551616.0
  const MIN_INTERVAL: real := 0.0001220703125

  lemma FloorShift(v: real, k: int)
    ensures (v - k as real).Floor == v.Floor - k
  {
  }

  /** Splitting off a multiple of SHIFT. */
  lemma SplitFloor(v: real, n: int)
    requires v >= SHIFT && n == (v * (1.0 / SHIFT)).Floor
    ensures 0 < n < v.Floor
    ensures var f := SHIFT * n as real; 0.0 <= v - f < SHIFT && (v - f).Floor < v.Floor && f + (v - f).Floor as real == v.Floor as real
  {
    var q := v * (1.0 / SHIFT);
    assert n as real <= q < n as real + 1.0;
    FloorShift(v, 18446744073709551616 * n);
  }

  lemma FloorIs(v: real, k: int)
    requires k as real <= v < k as real + 1.0
    ensures v.Floor == k
  {
  }

  lemma NegatedFloor(v: real)
    requires v < 0.0
    ensures var f := -((-v).Floor as real); v.Floor as real == f - (if f == v then 0.0 else 1.0)
  {
    var c := (-v).Floor;
    FloorIs(v, if -(c as real) == v then -c else -c - 1);
  }

  /** ev_floor, which can only truncate numbers that fit an unsigned long.
      Over exact reals its test for `v == v - 1` never succeeds. */
  function EvFloor(v: real): (r: real)
    ensures r == v.Floor as real
    decreases v < 0.0, (if v < 0.0 then -v else v).Floor
  {
    if v >= SHIFT then
      var q := v * (1.0 / SHIFT);
      SplitFloor(v, q.Floor);
      var f := SHIFT * EvFloor(q);
      f + EvFloor(v - f)
    else if v < 0.0 then
      NegatedFloor(v);
      var f := -EvFloor(-v);
      f - (if f == v then 0.0 else 1.0)
    else
      v.Floor as real
  }

  lemma MulLess(a: real, b: real, c: real)
    requires c > 0.0
    ensures a < b <==> a * c < b * c
  {
  }

  /** The occurrence number k of a periodic watcher. */
  function Occurrence(offset: real, interval: real, k: int): (res: real) {
    offset + k as real * interval
  }

  /** at is the first occurrence after now. */
  ghost predicate IsNext(offset: real, interval: real, now: real, at: real) {
    && at > now
    && (exists k: int :: at == Occurrence(offset, interval, k))
    && forall k: int :: Occurrence(offset, interval, k) > now ==> at <= Occurrence(offset, interval, k)
  }

  function UsedInterval(interval: real): (res: real) {
    if interval > MIN_INTERVAL then interval else MIN_INTERVAL
  }

  /** The last point at or before now of the grid that the code starts from. */
  function GridStart(offset: real, interval: real, now: real): (res: real) {
    offset + UsedInterval(interval) * ((now - offset) / UsedInterval(interval)).Floor as real
  }

  lemma DivFloor(x: real, i: real)
    requires i > 0.0
    ensures Brackets(x, i, (x / i).Floor)
  {
    DivTimes(x, i);
    FloorBrackets(x / i, x, i, (x / i).Floor);
  }

  /** x lies in step m of the grid of width i. */
  ghost predicate Brackets(x: real, i: real, m: int) {
    i * m as real <= x < i * m as real + i
  }

  lemma QuotientBelow(q: real, x: real, i: real, b: real)
    requires i > 0.0 && q * i == x && q < b
    ensures x < b * i
  {
  }

  lemma QuotientAbove(q: real, x: real, i: real, a: real)
    requires i > 0.0 && q * i == x && a <= q
    ensures a * i <= x
  {
  }

  lemma FloorBrackets(q: real, x: real, i: real, m: int)
    requires i > 0.0 && q * i == x && m as real <= q < m as real + 1.0
    ensures Brackets(x, i, m)
  {
    var r := m as real;
    QuotientAbove(q, x, i, r);
    QuotientBelow(q, x, i, r + 1.0);
    MulSucc(r, i);
  }

  lemma MulSucc(m: real, i: real)
    ensures (m + 1.0) * i == i * m + i && m * i == i * m
  {
  }

  lemma DivTimes(x: real, i: real)
    requires i > 0.0
    ensures (x / i) * i == x
  {
  }

  lemma GridStartBrackets(offset: real, interval: real, now: real)
    ensures GridStart(offset, interval, now) <= now < GridStart(offset, interval, now) + UsedInterval(interval)
  {
    var i := UsedInterval(interval);
    DivFloor(now - offset, i);
    assert Brackets(now - offset, i, ((now - offset) / i).Floor);
  }

  /** The loop of periodic_recalc cannot take more steps than this. */
  ghost function StepBound(start: real, interval: real, now: real): (res: int)
    requires interval > 0.0
  {
    ((now - start) / interval).Floor + 1
  }

  lemma BracketsEnd(start: real, interval: real, now: real, m: int)
    requires Brackets(now - start, interval, m)
    ensures now < Occurrence(start, interval, m + 1)
  {
    MulSucc(m as real, interval);
  }

  lemma StepsLeft(start: real, interval: real, now: real, steps: int)
    requires interval > 0.0 && Occurrence(start, interval, steps) <= now
    ensures steps < StepBound(start, interval, now)
  {
    DivFloor(now - start, interval);
    BracketsEnd(start, interval, now, StepBound(start, interval, now) - 1);
    OccurrenceOrder(start, interval, steps, StepBound(start, interval, now));
  }

  lemma NextOccurrence(start: real, interval: real, k: int)
    ensures Occurrence(start, interval, k) + interval == Occurrence(start, interval, k + 1)
  {
    MulSucc(k as real, interval);
  }

  lemma OccurrenceOrder(start: real, interval: real, j: int, k: int)
    requires interval > 0.0
    ensures j < k <==> Occurrence(start, interval, j) < Occurrence(start, interval, k)
  {
    MulLess(j as real, k as real, interval);
  }

  /** Occurrences counted from another occurrence. */
  lemma OccurrenceSum(offset: real, interval: real, j: int, k: int)
    ensures Occurrence(Occurrence(offset, interval, j), interval, k) == Occurrence(offset, interval, j + k)
  {
    assert (j as real + k as real) * interval == j as real * interval + k as real * interval;
  }

  /** What the code settles on: the first point after now that is a whole
      number of intervals past the grid point it starts from. */
  ghost function RecalcAt(offset: real, interval: real, now: real): (res: real)
    requires interval > 0.0
  {
    var start := GridStart(offset, interval, now);
    Occurrence(start, interval, StepBound(start, interval, now))
  }

  lemma BoundBrackets(start: real, interval: real, now: real)
    requires interval > 0.0
    ensures var n := StepBound(start, interval, now);
      Occurrence(start, interval, n - 1) <= now < Occurrence(start, interval, n)
  {
    DivFloor(now - start, interval);
    BracketsEnd(start, interval, now, StepBound(start, interval, now) - 1);
    MulSucc((StepBound(start, interval, now) - 1) as real, interval);
  }

  lemma RecalcBrackets(offset: real, interval: real, now: real)
    requires interval > 0.0
    ensures RecalcAt(offset, interval, now) - interval <= now < RecalcAt(offset, interval, now)
  {
    var start := GridStart(offset, interval, now);
    BoundBrackets(start, interval, now);
    NextOccurrence(start, interval, StepBound(start, interval, now) - 1);
  }

  lemma FirstOccurrence(start: real, interval: real)
    ensures Occurrence(start, interval, 0) == start
  {
  }

  /** periodic_recalc */
  method Recalc(offset: real, interval: real, now: real) returns (at: real)
    requires interval > 0.0
    ensures at == RecalcAt(offset, interval, now)
  {
    var used := if interval > MIN_INTERVAL then interval else MIN_INTERVAL;
    at := offset + used * EvFloor((now - offset) / used);
    ghost var steps := 0;
    ghost var start := GridStart(offset, interval, now);
    ghost var bound := StepBound(start, interval, now);
    GridStartBrackets(offset, interval, now);
    OccurrenceOrder(start, interval, 0, bound);
    BoundBrackets(start, interval, now);
    FirstOccurrence(start, interval);
    hide Occurrence, StepBound;
    while at <= now
      invariant at == Occurrence(start, interval, steps)
      invariant steps <= bound
      decreases bound - steps
    {
      StepsLeft(start, interval, now, steps);
      NextOccurrence(start, interval, steps);
      at := at + interval;
      steps := steps + 1;
    }
    OccurrenceOrder(start, interval, bound - 1, steps);
  }

  lemma GridMeets(offset: real, interval: real, now: real)
    requires interval >= MIN_INTERVAL
    ensures GridStart(offset, interval, now) == Occurrence(offset, interval, ((now - offset) / interval).Floor)
  {
    assert UsedInterval(interval) == interval;
    MulSucc(((now - offset) / interval).Floor as real, interval);
  }

  /** What Recalc computes is the first occurrence after now exactly when the
      grid it starts from meets the occurrences. */
  lemma RecalcIsNext(offset: real, interval: real, now: real)
    requires interval > 0.0
    ensures IsNext(offset, interval, now, RecalcAt(offset, interval, now)) <==>
      interval >= MIN_INTERVAL || exists k: int :: GridStart(offset, interval, now) == Occurrence(offset, interval, k)
  {
    var start := GridStart(offset, interval, now);
    var steps := StepBound(start, interval, now);
    var at := RecalcAt(offset, interval, now);
    RecalcBrackets(offset, interval, now);
    if interval >= MIN_INTERVAL {
      GridMeets(offset, interval, now);
      assert start == Occurrence(offset, interval, ((now - offset) / interval).Floor);
    }
    if k: int :| start == Occurrence(offset, interval, k) {
      OccurrenceSum(offset, interval, k, steps);
      OnGridIsNext(offset, interval, now, k + steps, at);
    }
    if k: int :| at == Occurrence(offset, interval, k) {
      OccurrenceSum(offset, interval, k - steps, steps);
      assert start == Occurrence(offset, interval, k - steps);
    }
  }

  lemma OnGridIsNext(offset: real, interval: real, now: real, k: int, at: real)
    requires interval > 0.0 && at == Occurrence(offset, interval, k) && at - interval <= now < at
    ensures IsNext(offset, interval, now, at)
  {
    NextOccurrence(offset, interval, k - 1);
    forall j: int | Occurrence(offset, interval, j) > now ensures at <= Occurrence(offset, interval, j) {
      OccurrenceOrder(offset, interval, k - 1, j);
      OccurrenceOrder(offset, interval, j, k);
    }
  }

  /** An interval below MIN_INTERVAL can miss: occurrences at every 0.0001, the
      clock at 0.00013, and the next time chosen is not an occurrence at all. */
  lemma ShortIntervalMisses()
    ensures RecalcAt(0.0, 0.0001, 0.00013) == 0.0002220703125
    ensures !IsNext(0.0, 0.0001, 0.00013, 0.0002220703125)
  {
    assert GridStart(0.0, 0.0001, 0.00013) == MIN_INTERVAL by {
      FloorIs(0.00013 / MIN_INTERVAL, 1);
    }
    FloorIs((0.00013 - MIN_INTERVAL) / 0.0001, 0);
    assert Occurrence(0.0, 0.0001, 2) == 0.0002;
  }

  /** The smallest interval is a whole number of these intervals. */
  ghost predicate Divides(interval: real) {
    exists n: int :: Times(n, interval) == MIN_INTERVAL
  }

  function Times(n: int, interval: real): (t: real) {
    n as real * interval
  }

  lemma TimesTimes(n: int, f: int, interval: real)
    ensures Times(n * f, interval) == f as real * Times(n, interval)
  {
    assert (n * f) as real == n as real * f as real;
  }

  /** A grid of smallest intervals then meets the occurrences. */
  lemma DividingMeets(offset: real, interval: real, now: real, n: int)
    requires 0.0 < interval < MIN_INTERVAL && Times(n, interval) == MIN_INTERVAL
    ensures exists k: int :: GridStart(offset, interval, now) == Occurrence(offset, interval, k)
  {
    var f := ((now - offset) / MIN_INTERVAL).Floor;
    TimesTimes(n, f, interval);
    assert GridStart(offset, interval, now) == Occurrence(offset, interval, n * f);
  }

  /** The first grid point after the offset is otherwise no occurrence. */
  lemma NotDividingMisses(offset: real, interval: real)
    requires 0.0 < interval < MIN_INTERVAL && !Divides(interval)
    ensures !exists k: int :: GridStart(offset, interval, offset + MIN_INTERVAL) == Occurrence(offset, interval, k)
  {
    FloorIs(MIN_INTERVAL / MIN_INTERVAL, 1);
    assert GridStart(offset, interval, offset + MIN_INTERVAL) == offset + MIN_INTERVAL;
    forall k: int ensures Occurrence(offset, interval, k) != offset + MIN_INTERVAL {
      assert Times(k, interval) != MIN_INTERVAL;
    }
  }

  ghost predicate AlwaysNext(offset: real, interval: real)
    requires interval > 0.0
  {
    forall now: real :: IsNext(offset, interval, now, RecalcAt(offset, interval, now))
  }

  /** For which intervals the next occurrence is found at all times: for those
      of at least MIN_INTERVAL, and the whole fractions of it. */
  lemma AlwaysNextFor(offset: real, interval: real)
    requires interval > 0.0
    ensures AlwaysNext(offset, interval) <==> interval >= MIN_INTERVAL || Divides(interval)
  {
    hide IsNext, RecalcAt;
    forall now: real | interval >= MIN_INTERVAL || Divides(interval)
      ensures IsNext(offset, interval, now, RecalcAt(offset, interval, now))
    {
      RecalcIsNext(offset, interval, now);
      if interval < MIN_INTERVAL {
        var n: int :| Times(n, interval) == MIN_INTERVAL;
        DividingMeets(offset, interval, now, n);
      }
    }
    if interval < MIN_INTERVAL && !Divides(interval) {
      NotDividingMisses(offset, interval);
      RecalcIsNext(offset, interval, offset + MIN_INTERVAL);
    }
  }
}
