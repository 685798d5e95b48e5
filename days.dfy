/**
 * Day counts between two instants. Instants are integer milliseconds; a day is a fixed
 * 86 400 000 ms and a calendar day is `t / DAY` (no time zones, no daylight saving).
 *
 * The storefront counts rental days in three different ways:
 *  - exclusive, rounded up: `Math.ceil((end - start) / DAY)` (cart store, cart drawer, checkout);
 *  - inclusive: whole days plus one (rental calendar, rental summary);
 *  - exclusive, rounded down: `Math.floor((end - start) / DAY)` (admin rentals table).
 * Each is defined here once, and the lemmas say how they relate.
 */
module Days {

  const DAY: int := 1000 * 60 * 60 * 24

  /** `Math.floor((end - start) / DAY)`: the whole days that fit in the span. */
  function FloorDays(start: int, end: int): (r: int)
    ensures DAY * r <= end - start < DAY * (r + 1)
  {
    (end - start) / DAY
  }

  /** `Math.ceil((end - start) / DAY)`: the fewest whole days that cover the span. */
  function CeilDays(start: int, end: int): (r: int)
    ensures DAY * (r - 1) < end - start <= DAY * r
  {
    -((start - end) / DAY)
  }

  /**
   * date-fns `differenceInDays(end, start)`: the number of full days between the two
   * instants, negative when `end` is earlier, truncated toward zero.
   */
  function DifferenceInDays(end: int, start: int): (r: int)
    ensures end >= start ==> r >= 0 && DAY * r <= end - start < DAY * (r + 1)
    ensures end < start ==> r <= 0 && DAY * -r <= start - end < DAY * (-r + 1)
  {
    if end >= start then (end - start) / DAY else -((start - end) / DAY)
  }

  /** `Math.floor((end - start) / DAY) + 1`: the days of the span counting both ends. */
  function InclusiveDays(start: int, end: int): (r: int)
    ensures DAY * (r - 1) <= end - start < DAY * r
  {
    FloorDays(start, end) + 1
  }

  /** date-fns `isSameDay` on the fixed-length-day calendar. */
  predicate SameDay(a: int, b: int) {
    a / DAY == b / DAY
  }

  /** Rounding up exceeds rounding down by one exactly when the span is not a whole number of days. */
  lemma CeilVersusFloor(start: int, end: int)
    ensures CeilDays(start, end) == FloorDays(start, end) + (if (end - start) % DAY == 0 then 0 else 1)
  {
  }

  /**
   * For instants at the same time of day (both at midnight, say) the inclusive count is the
   * exclusive count plus one: a rental quoted as N days by the calendar is charged N - 1
   * days by the cart.
   */
  lemma AlignedInclusiveIsCeilPlusOne(start: int, end: int)
    requires start % DAY == end % DAY
    ensures InclusiveDays(start, end) == CeilDays(start, end) + 1
    ensures CeilDays(start, end) == FloorDays(start, end)
  {
    assert (end - start) % DAY == 0;
    CeilVersusFloor(start, end);
  }

  /** Forward in time, date-fns' full-day difference is the rounded-down count. */
  lemma DifferenceIsFloorForward(start: int, end: int)
    requires start <= end
    ensures DifferenceInDays(end, start) == FloorDays(start, end)
  {
  }

  /** Any span of positive length costs at least one day under the rounding-up convention. */
  lemma CeilDaysPositive(start: int, end: int)
    requires start < end
    ensures CeilDays(start, end) >= 1
  {
  }

  /** An instant is on an earlier calendar day exactly when it is earlier and not on the same day. */
  lemma EarlierDay(d: int, today: int)
    ensures (d < today && !SameDay(d, today)) <==> d / DAY < today / DAY
  {
    if d / DAY < today / DAY {
      assert d < DAY * (d / DAY + 1) <= DAY * (today / DAY) <= today;
    }
  }
}
