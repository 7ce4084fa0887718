/** internal/scheduler/window.go.  Times are nanoseconds since a UTC midnight. */
module Windows {

  const SECOND: int := 1_000_000_000
  const MINUTE: int := 60 * SECOND
  const HOUR: int := 60 * MINUTE
  const DAY: int := 24 * HOUR
  const CYCLE: int := 4 * HOUR
  const FUNDING_HOURS: seq<int> := [0, 4, 8, 12, 16, 20]

  datatype Window = FRONTRUN | LAST_MINUTE | AFTER | NONE
  datatype EntryMode = FrontrunMode | LastMinuteMode | AfterMode | UnknownMode

  /** Time since the last settlement; 0 at the exact instant. */
  function Since(t: int): int { t % CYCLE }

  /** The settlement NextFundingTime names: the one just passed during the hour
      after it, otherwise the following one, also at the exact instant. */
  function NextFunding(now: int): int {
    if 0 < Since(now) < HOUR then now - Since(now) else now - Since(now) + CYCLE
  }

  lemma HoursSpacedByFour(i: nat)
    requires i < |FUNDING_HOURS|
    ensures FUNDING_HOURS[i] == 4 * i
  {
  }

  /** now % CYCLE read off the time of day. */
  lemma SinceFromTimeOfDay(now: int, i: int)
    requires i * CYCLE <= now % DAY < (i + 1) * CYCLE
    ensures Since(now) == now % DAY - i * CYCLE
  {
    var day := now / DAY;
    assert now == day * DAY + now % DAY;
    CycleRemainder(6 * day + i, now % DAY - i * CYCLE);
  }

  lemma CycleRemainder(q: int, r: int)
    requires 0 <= r < CYCLE
    ensures (q * CYCLE + r) % CYCLE == r
  {
  }

  /** Whether the hour `h` of the UTC day is the first the scan can return. */
  predicate AtOrBefore(now: int, h: int) {
    now % DAY / HOUR < h || (now % DAY / HOUR == h && now % HOUR > 0)
  }

  lemma AtOrBeforeByTime(now: int, h: int)
    ensures AtOrBefore(now, h) <==> now % DAY < (h + 1) * HOUR && now % DAY != h * HOUR
  {
    var day, o := now / DAY, now % DAY;
    assert now == day * 24 * HOUR + o;
    assert o == o / HOUR * HOUR + o % HOUR;
    assert now % HOUR == o % HOUR by {
      assert now == (day * 24 + o / HOUR) * HOUR + o % HOUR;
    }
  }

  /** The scan stops at hour 4i: every earlier funding hour is over. */
  lemma FirstMatch(now: int, i: nat)
    requires i <= 6
    requires i > 0 ==> (i - 1) * CYCLE + HOUR <= now % DAY || now % DAY == (i - 1) * CYCLE
    requires i < 6 ==> now % DAY < i * CYCLE + HOUR && now % DAY != i * CYCLE
    ensures now - now % DAY + i * CYCLE == NextFunding(now)
  {
    SinceFromTimeOfDay(now, if now % DAY < i * CYCLE then i - 1 else i);
  }

  lemma NextFundingOnGrid(now: int)
    ensures NextFunding(now) % CYCLE == 0
  {
  }

  /** What the scan's test at the i-th funding hour says of the time of day. */
  lemma HourReached(now: int, i: nat)
    requires i < |FUNDING_HOURS|
    ensures FUNDING_HOURS[i] * HOUR == i * CYCLE
    ensures AtOrBefore(now, FUNDING_HOURS[i]) <==> now % DAY < i * CYCLE + HOUR && now % DAY != i * CYCLE
  {
    HoursSpacedByFour(i);
    AtOrBeforeByTime(now, FUNDING_HOURS[i]);
  }

  method NextFundingTime(now: int) returns (r: int)
    ensures r == NextFunding(now)
    ensures r % CYCLE == 0
  {
    hide NextFunding;
    NextFundingOnGrid(now);
    var midnight := now - now % DAY;
    var currentHour := now % DAY / HOUR;
    var pastTheHour := now % HOUR > 0;
    for i := 0 to |FUNDING_HOURS|
      invariant i > 0 ==> (i - 1) * CYCLE + HOUR <= now % DAY || now % DAY == (i - 1) * CYCLE
    {
      var h := FUNDING_HOURS[i];
      HourReached(now, i);
      if currentHour < h || (currentHour == h && pastTheHour) {
        FirstMatch(now, i);
        return midnight + h * HOUR;
      }
    }
    FirstMatch(now, 6);
    return midnight + DAY;
  }

  function CurrentWindow(now: int, windowStart: int): Window {
    var until := NextFunding(now) - now;
    if -MINUTE < until <= 0 then AFTER
    else if 0 < until <= 6 * MINUTE then LAST_MINUTE
    else if 6 * MINUTE < until <= windowStart then FRONTRUN
    else NONE
  }

  /** The settlement whose window [open, settlement + 5m] contains or follows now. */
  function ActiveSettlement(now: int): int {
    if Since(now) <= 5 * MINUTE then now - Since(now) else now - Since(now) + CYCLE
  }

  method NextWindowBounds(now: int, windowStart: int) returns (open: int, close: int, settlement: int)
    ensures close == settlement + 5 * MINUTE && open == settlement - windowStart
    ensures now <= close
    ensures settlement == if Since(now) == 0 then now + CYCLE else ActiveSettlement(now)
  {
    settlement := NextFundingTime(now);
    close := settlement + 5 * MINUTE;
    while now > close
      invariant close == settlement + 5 * MINUTE && settlement % CYCLE == 0
      invariant settlement == NextFunding(now) || (settlement == NextFunding(now) + CYCLE && Since(now) > 5 * MINUTE
                                                   && NextFunding(now) < now)
      decreases now - close
    {
      settlement := NextFundingTime(settlement + HOUR);
      close := settlement + 5 * MINUTE;
    }
    open := settlement - windowStart;
  }

  /** "Currently active or next upcoming" is the least settlement whose close has
      not passed; NextWindowBounds returns it exactly when now is not itself a
      settlement instant, where it skips the window that is open. */
  lemma BoundsAreActiveIff(now: int)
    ensures ActiveSettlement(now) % CYCLE == 0 && now <= ActiveSettlement(now) + 5 * MINUTE
    ensures forall s: int :: s % CYCLE == 0 && now <= s + 5 * MINUTE ==> ActiveSettlement(now) <= s
    ensures (if Since(now) == 0 then now + CYCLE else ActiveSettlement(now)) == ActiveSettlement(now) <==> Since(now) != 0
  {
  }

  predicate Ready(current: Window, target: EntryMode) {
    match target
    case FrontrunMode => current != NONE
    case LastMinuteMode => current == LAST_MINUTE || current == AFTER
    case AfterMode => current == AFTER
    case UnknownMode => false
  }

  /** One tick reading the clock once lets an intent fire at `now`. */
  predicate MayFire(now: int, windowStart: int, fireWindow: int, target: EntryMode) {
    var w := CurrentWindow(now, windowStart);
    Ready(w, target) && (w == FRONTRUN ==> NextFunding(now) - now <= fireWindow)
  }

  function Min(a: int, b: int): int { if a <= b then a else b }

  /** Exactly when each kind of intent can fire, as offsets from the settlement
      grid: never at a settlement instant, and after one only during a minute. */
  lemma FiringTimes(now: int, windowStart: int, fireWindow: int)
    requires 6 * MINUTE <= fireWindow && 6 * MINUTE <= windowStart < CYCLE
    ensures MayFire(now, windowStart, fireWindow, FrontrunMode)
       <==> 0 < Since(now) < MINUTE || Since(now) >= CYCLE - Min(Min(fireWindow, windowStart), 3 * HOUR)
    ensures MayFire(now, windowStart, fireWindow, LastMinuteMode)
       <==> 0 < Since(now) < MINUTE || Since(now) >= CYCLE - 6 * MINUTE
    ensures MayFire(now, windowStart, fireWindow, AfterMode) <==> 0 < Since(now) < MINUTE
  {
  }
}
