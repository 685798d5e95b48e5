/**
 * The rental date selector: a three-state machine (nothing chosen, start chosen, range
 * chosen) driven by date clicks, plus the two predicates that tell the calendar widgets which
 * days to disable. The selection handler does not consult those predicates itself; it relies
 * on the widget to keep disabled days from reaching it.
 *
 * Instants are integer milliseconds; "today" is a parameter, not a clock reading.
 */
module RentalCalendar {
  import opened Wrappers
  import opened Days

  /** An interval of instants that cannot be rented, both ends included. */
  datatype UnavailableRange = UnavailableRange(start: int, end: int)

  /** The component's props: rental length bounds and the blocked intervals. */
  datatype CalendarConfig = CalendarConfig(minRentalDays: int, maxRentalDays: int, unavailable: seq<UnavailableRange>)

  /** The props' defaults: 3 to 14 days, nothing blocked. */
  const DefaultConfig := CalendarConfig(3, 14, [])

  /** The component state. */
  datatype Selection = Selection(startDate: Option<int>, endDate: Option<int>, isSelectingEnd: bool)

  const Empty := Selection(None, None, false)

  /** The pair passed to `onDateChange`. */
  datatype DateChange = DateChange(startDate: Option<int>, endDate: Option<int>)

  /** One step of the handler: the next state and the change reported, if any. */
  datatype Step = Step(next: Selection, change: Option<DateChange>)

  /** date-fns `isWithinInterval(t, { start, end })` for a well-ordered interval. */
  predicate Within(t: int, start: int, end: int) {
    start <= t <= end
  }

  /**
   * The overlap test of the end-date branch: some blocked range has its start or its end
   * inside `[start, end]`. A blocked range that covers the whole span is not detected.
   */
  predicate EndpointOverlap(ranges: seq<UnavailableRange>, start: int, end: int) {
    exists k :: 0 <= k < |ranges| && (Within(ranges[k].start, start, end) || Within(ranges[k].end, start, end))
  }

  /** Some blocked range contains `t`. */
  predicate InSomeRange(ranges: seq<UnavailableRange>, t: int) {
    exists k :: 0 <= k < |ranges| && Within(t, ranges[k].start, ranges[k].end)
  }

  /** `handleSelect(date)`: every branch of the handler, with the change it reports. */
  function Select(cfg: CalendarConfig, s: Selection, date: Option<int>): Step {
    if date.None? then Step(s, None)
    else
      var d := date.value;
      if s.startDate.None? || s.endDate.Some? then
        Step(Selection(Some(d), None, true), Some(DateChange(Some(d), None)))
      else if s.isSelectingEnd then
        var start := s.startDate.value;
        if d < start then
          Step(s.(startDate := Some(d)), Some(DateChange(Some(d), None)))
        else if EndpointOverlap(cfg.unavailable, start, d) then
          Step(s, None)
        else
          var days := InclusiveDays(start, d);
          if days < cfg.minRentalDays || days > cfg.maxRentalDays then Step(s, None)
          else Step(Selection(Some(start), Some(d), false), Some(DateChange(Some(start), Some(d))))
      else
        Step(s, None)
  }

  /** `resetDates()`. */
  function Reset(): Step {
    Step(Empty, Some(DateChange(None, None)))
  }

  /**
   * `isDateUnavailable(d)`: earlier than today on another calendar day, or inside a blocked
   * range.
   */
  predicate IsDateUnavailable(cfg: CalendarConfig, today: int, d: int) {
    (d < today && !SameDay(d, today)) || InSomeRange(cfg.unavailable, d)
  }

  /**
   * The end picker's `disabled` test: everything without a start; otherwise days before the
   * start, days after start + (maxRentalDays - 1) days, and unavailable days.
   */
  predicate EndDisabled(cfg: CalendarConfig, today: int, s: Selection, d: int) {
    s.startDate.None?
    || d < s.startDate.value
    || d > s.startDate.value + (cfg.maxRentalDays - 1) * DAY
    || IsDateUnavailable(cfg, today, d)
  }

  /** The state shape every handler keeps: end-selection means "start set, no end". */
  predicate Consistent(s: Selection) {
    (s.isSelectingEnd <==> s.startDate.Some? && s.endDate.None?)
    && (s.endDate.Some? ==> s.startDate.Some?)
  }

  /** A completed range is ordered, of allowed length, and has no blocked endpoint inside. */
  predicate RangeValid(cfg: CalendarConfig, s: Selection) {
    s.endDate.Some? ==>
      s.startDate.Some?
      && s.startDate.value <= s.endDate.value
      && cfg.minRentalDays <= InclusiveDays(s.startDate.value, s.endDate.value) <= cfg.maxRentalDays
      && !EndpointOverlap(cfg.unavailable, s.startDate.value, s.endDate.value)
  }

  predicate SelectionValid(cfg: CalendarConfig, s: Selection) {
    Consistent(s) && RangeValid(cfg, s)
  }

  /** The initial state and the reset state are valid. */
  lemma EmptyValid(cfg: CalendarConfig)
    ensures SelectionValid(cfg, Empty) && SelectionValid(cfg, Reset().next)
    ensures !Empty.isSelectingEnd && Reset().change == Some(DateChange(None, None))
  {
  }

  /** Every step of the handler keeps the state valid. */
  lemma SelectKeepsValid(cfg: CalendarConfig, s: Selection, date: Option<int>)
    requires SelectionValid(cfg, s)
    ensures SelectionValid(cfg, Select(cfg, s, date).next)
  {
  }

  /** With no start, or with both dates set, a click starts a new range at that day. */
  lemma SelectStartsNewRange(cfg: CalendarConfig, s: Selection, d: int)
    requires s.startDate.None? || s.endDate.Some?
    ensures Select(cfg, s, Some(d)).next == Selection(Some(d), None, true)
  {
  }

  /** While picking an end, a day before the start becomes the new start; the end stays empty. */
  lemma SelectEarlierMovesStart(cfg: CalendarConfig, s: Selection, d: int)
    requires SelectionValid(cfg, s) && s.isSelectingEnd && d < s.startDate.value
    ensures Select(cfg, s, Some(d)).next == Selection(Some(d), None, true)
  {
  }

  /**
   * While picking an end, a later day is accepted exactly when no blocked endpoint lies in
   * the span and the inclusive day count is within the bounds; a rejected day leaves the
   * state as it was and reports nothing.
   */
  lemma SelectEndAcceptedIff(cfg: CalendarConfig, s: Selection, d: int)
    requires SelectionValid(cfg, s) && s.isSelectingEnd && s.startDate.value <= d
    ensures var step := Select(cfg, s, Some(d));
            var ok := !EndpointOverlap(cfg.unavailable, s.startDate.value, d)
                      && cfg.minRentalDays <= InclusiveDays(s.startDate.value, d) <= cfg.maxRentalDays;
            (ok ==> step.next == Selection(s.startDate, Some(d), false)
                    && step.change == Some(DateChange(s.startDate, Some(d))))
            && (!ok ==> step.next == s && step.change.None?)
  {
  }

  /** Outside end-selection with a start but no end, a click changes nothing. */
  lemma SelectIdleIsNoOp(cfg: CalendarConfig, s: Selection, date: Option<int>)
    requires date.None? || (s.startDate.Some? && s.endDate.None? && !s.isSelectingEnd)
    ensures Select(cfg, s, date) == Step(s, None)
  {
  }

  /**
   * The day count is inclusive: with the start at an instant and the end n - 1 whole days
   * later, the span counts n days, so it is accepted when n is within the bounds and no
   * blocked endpoint is inside.
   */
  lemma SpanOfNDaysAccepted(cfg: CalendarConfig, s: Selection, n: int)
    requires SelectionValid(cfg, s) && s.isSelectingEnd && n >= 1
    requires cfg.minRentalDays <= n <= cfg.maxRentalDays
    requires !EndpointOverlap(cfg.unavailable, s.startDate.value, s.startDate.value + (n - 1) * DAY)
    ensures Select(cfg, s, Some(s.startDate.value + (n - 1) * DAY)).next.endDate
            == Some(s.startDate.value + (n - 1) * DAY)
  {
    var start := s.startDate.value;
    assert InclusiveDays(start, start + (n - 1) * DAY) == n by {
      assert (start + (n - 1) * DAY) - start == (n - 1) * DAY;
    }
  }

  /**
   * The endpoint test is exact for well-ordered blocked ranges as long as the start itself
   * is not blocked (the widgets never let a blocked day through): no day of a completed range
   * lies in a blocked range.
   */
  lemma CompletedRangeAvoidsBlockedDays(cfg: CalendarConfig, s: Selection)
    requires SelectionValid(cfg, s) && s.endDate.Some?
    requires forall k :: 0 <= k < |cfg.unavailable| ==> cfg.unavailable[k].start <= cfg.unavailable[k].end
    requires !InSomeRange(cfg.unavailable, s.startDate.value)
    ensures forall t :: s.startDate.value <= t <= s.endDate.value ==> !InSomeRange(cfg.unavailable, t)
  {
    var start, end := s.startDate.value, s.endDate.value;
    forall t | start <= t <= end ensures !InSomeRange(cfg.unavailable, t) {
      if InSomeRange(cfg.unavailable, t) {
        var k :| 0 <= k < |cfg.unavailable| && Within(t, cfg.unavailable[k].start, cfg.unavailable[k].end);
        var r := cfg.unavailable[k];
        assert !Within(r.start, start, end) && !Within(r.end, start, end);
        assert Within(start, r.start, r.end);
        assert false;
      }
    }
  }

  /** Without the unblocked-start condition, a blocked range covering the span goes unseen. */
  lemma CoveringRangeNotDetected(n: int)
    requires n >= 3
    ensures var cfg := CalendarConfig(1, n, [UnavailableRange(0, 2 * n * DAY)]);
            var s := Selection(Some(DAY), None, true);
            Select(cfg, s, Some(2 * DAY)).next.endDate == Some(2 * DAY)
            && forall t :: DAY <= t <= 2 * DAY ==> InSomeRange(cfg.unavailable, t)
  {
    var cfg := CalendarConfig(1, n, [UnavailableRange(0, 2 * n * DAY)]);
    assert !EndpointOverlap(cfg.unavailable, DAY, 2 * DAY) by {
      assert 2 * n * DAY > 2 * DAY;
    }
    assert InclusiveDays(DAY, 2 * DAY) == 2;
    forall t | DAY <= t <= 2 * DAY ensures InSomeRange(cfg.unavailable, t) {
      assert Within(t, cfg.unavailable[0].start, cfg.unavailable[0].end);
    }
  }

  /**
   * The past rule disables exactly the days on an earlier calendar day than today; in
   * particular any instant of today itself is never unavailable by that rule alone.
   */
  lemma PastRuleIsEarlierDay(cfg: CalendarConfig, today: int, d: int)
    ensures (d < today && !SameDay(d, today)) <==> d / DAY < today / DAY
    ensures SameDay(d, today) ==> (IsDateUnavailable(cfg, today, d) <==> InSomeRange(cfg.unavailable, d))
  {
    EarlierDay(d, today);
  }

  /**
   * A day the end picker enables, while picking an end, is on or after the start, passes
   * the upper length check of the handler and is not unavailable.
   */
  lemma EnabledEndPassesMaxCheck(cfg: CalendarConfig, today: int, s: Selection, d: int)
    requires !EndDisabled(cfg, today, s, d)
    ensures s.startDate.Some? && s.startDate.value <= d
    ensures InclusiveDays(s.startDate.value, d) <= cfg.maxRentalDays
    ensures !IsDateUnavailable(cfg, today, d)
  {
    var start := s.startDate.value;
    var r := InclusiveDays(start, d);
    assert DAY * (r - 1) <= d - start <= (cfg.maxRentalDays - 1) * DAY;
  }

  /** The selector with its props and its three state variables. */
  class RentalCalendar {
    const config: CalendarConfig
    var startDate: Option<int>
    var endDate: Option<int>
    var isSelectingEnd: bool

    function State(): Selection
      reads this
    {
      Selection(startDate, endDate, isSelectingEnd)
    }

    predicate Valid()
      reads this
    {
      SelectionValid(config, State())
    }

    /** A fresh selector: nothing chosen. */
    constructor (cfg: CalendarConfig)
      ensures config == cfg && State() == Empty && Valid()
    {
      config := cfg;
      startDate, endDate, isSelectingEnd := None, None, false;
    }

    /** `handleSelect(date)`; returns what it reports to `onDateChange`. */
    method HandleSelect(date: Option<int>) returns (change: Option<DateChange>)
      requires Valid()
      modifies this
      ensures Step(State(), change) == Select(config, old(State()), date)
      ensures Valid()
    {
      SelectKeepsValid(config, State(), date);
      if date.None? {
        return None;
      }
      var d := date.value;
      if startDate.None? || endDate.Some? {
        startDate, endDate, isSelectingEnd := Some(d), None, true;
        return Some(DateChange(Some(d), None));
      }
      if isSelectingEnd {
        var start := startDate.value;
        if d < start {
          startDate := Some(d);
          return Some(DateChange(Some(d), None));
        }
        if EndpointOverlap(config.unavailable, start, d) {
          return None;
        }
        var days := InclusiveDays(start, d);
        if days < config.minRentalDays || days > config.maxRentalDays {
          return None;
        }
        endDate := Some(d);
        isSelectingEnd := false;
        return Some(DateChange(Some(start), Some(d)));
      }
      return None;
    }

    /** `resetDates()`. */
    method ResetDates() returns (change: Option<DateChange>)
      modifies this
      ensures State() == Empty && change == Some(DateChange(None, None)) && Valid()
    {
      startDate, endDate, isSelectingEnd := None, None, false;
      return Some(DateChange(None, None));
    }

    /** The start picker's `disabled` test. */
    predicate StartDisabled(today: int, d: int)
      reads this
    {
      IsDateUnavailable(config, today, d)
    }

    /** The end picker's `disabled` test. */
    predicate EndPickerDisabled(today: int, d: int)
      reads this
    {
      EndDisabled(config, today, State(), d)
    }
  }
}
