/**
 * EventTimer: a stopwatch that can be paused. update() reads the clock and
 * splits the elapsed time into hours, minutes, seconds and milliseconds.
 * The clock is a parameter: each reading is a number of clock ticks, and
 * std::chrono::high_resolution_clock ticks in nanoseconds.
 */
module EventTimer {
  import opened CppInt

  const MILLISECONDS_PER_SECOND: int := 1000
  const MILLISECONDS_PER_MINUTE: int := 60000
  const MILLISECONDS_PER_HOUR: int := 3600000
  /** Clock ticks in one millisecond. */
  const TICKS_PER_MILLISECOND: int := 1000000

  /** The four counters update() fills in. */
  datatype Breakdown = Breakdown(hours: int, minutes: int, seconds: int, milliseconds: int)

  /**
   * The split of update(): hours first, then what is left into minutes,
   * seconds and milliseconds, with C++'s truncating `/` throughout.
   */
  function BreakdownOf(totalTime: int): Breakdown
  {
    var hours := TruncDiv(totalTime, MILLISECONDS_PER_HOUR);
    var minutes := TruncDiv(totalTime - hours * MILLISECONDS_PER_HOUR, MILLISECONDS_PER_MINUTE);
    var seconds := TruncDiv(totalTime - hours * MILLISECONDS_PER_HOUR - minutes * MILLISECONDS_PER_MINUTE,
                            MILLISECONDS_PER_SECOND);
    Breakdown(hours, minutes, seconds,
              totalTime - hours * MILLISECONDS_PER_HOUR - minutes * MILLISECONDS_PER_MINUTE
              - seconds * MILLISECONDS_PER_SECOND)
  }

  /** The time a breakdown stands for, in milliseconds. */
  function Milliseconds(b: Breakdown): int
  {
    b.hours * MILLISECONDS_PER_HOUR + b.minutes * MILLISECONDS_PER_MINUTE
    + b.seconds * MILLISECONDS_PER_SECOND + b.milliseconds
  }

  /** A clock display: no more than 59 minutes, 59 seconds and 999 milliseconds. */
  predicate IsNormal(b: Breakdown)
  {
    b.hours >= 0 && 0 <= b.minutes < 60 && 0 <= b.seconds < 60 && 0 <= b.milliseconds < 1000
  }

  /**
   * A non-negative total splits into a clock display that adds back up to
   * it, and its hours are the whole hours in the total.
   */
  lemma BreakdownOfElapsed(totalTime: int)
    requires totalTime >= 0
    ensures Milliseconds(BreakdownOf(totalTime)) == totalTime
    ensures IsNormal(BreakdownOf(totalTime))
    ensures BreakdownOf(totalTime).hours == totalTime / MILLISECONDS_PER_HOUR
  {
    var b := BreakdownOf(totalTime);
    TruncDivRem(totalTime, MILLISECONDS_PER_HOUR);
    var afterHours := totalTime - b.hours * MILLISECONDS_PER_HOUR;
    TruncDivRem(afterHours, MILLISECONDS_PER_MINUTE);
    var afterMinutes := afterHours - b.minutes * MILLISECONDS_PER_MINUTE;
    TruncDivRem(afterMinutes, MILLISECONDS_PER_SECOND);
  }

  /** Only one clock display adds up to a given total. */
  lemma NormalBreakdownIsUnique(b: Breakdown, c: Breakdown)
    requires IsNormal(b) && IsNormal(c) && Milliseconds(b) == Milliseconds(c)
    ensures b == c
  {
    var sb := b.minutes * MILLISECONDS_PER_MINUTE + b.seconds * MILLISECONDS_PER_SECOND + b.milliseconds;
    var sc := c.minutes * MILLISECONDS_PER_MINUTE + c.seconds * MILLISECONDS_PER_SECOND + c.milliseconds;
    assert 0 <= sb < MILLISECONDS_PER_HOUR && 0 <= sc < MILLISECONDS_PER_HOUR;
    assert b.hours == c.hours;
    assert b.minutes == c.minutes;
  }

  /** A negative total splits as its opposite does, every counter negated. */
  lemma BreakdownOfNegative(totalTime: int)
    ensures Milliseconds(BreakdownOf(totalTime)) == totalTime
    ensures var b, c := BreakdownOf(-totalTime), BreakdownOf(totalTime);
            c == Breakdown(-b.hours, -b.minutes, -b.seconds, -b.milliseconds)
  {
  }

  /**
   * An EventTimer. The clock readings kept in startTime and endTime are in
   * ticks; rawTime, totalTime and the four counters are in milliseconds,
   * hours, minutes and seconds as named.
   */
  class EventTimer {
    var startTime: int
    var endTime: int
    var rawTime: int
    var totalTime: int
    var hours: int
    var minutes: int
    var seconds: int
    var milliseconds: int
    var isPaused: bool

    /** The four counters are the split of the total time. */
    predicate Consistent()
      reads this
    {
      Breakdown(hours, minutes, seconds, milliseconds) == BreakdownOf(totalTime)
    }

    /** The constructor: everything zero and not paused. */
    constructor()
      ensures totalTime == 0 && hours == 0 && minutes == 0 && seconds == 0 && milliseconds == 0
      ensures !isPaused
      ensures Consistent()
    {
      startTime, endTime, rawTime := 0, 0, 0;
      totalTime, hours, minutes, seconds, milliseconds := 0, 0, 0, 0, 0;
      isPaused := false;
    }

    /** start: zero the counters, take the clock as the start time and run. */
    method Start(now: int)
      modifies this
      ensures totalTime == 0 && hours == 0 && minutes == 0 && seconds == 0 && milliseconds == 0
      ensures startTime == now && !isPaused
      ensures endTime == old(endTime) && rawTime == old(rawTime)
      ensures Consistent()
    {
      totalTime := 0;
      hours := 0;
      minutes := 0;
      seconds := 0;
      milliseconds := 0;
      startTime := now;
      isPaused := false;
    }

    /** pause: only the flag changes. */
    method Pause()
      modifies this
      ensures isPaused
      ensures startTime == old(startTime) && endTime == old(endTime) && rawTime == old(rawTime)
      ensures totalTime == old(totalTime) && hours == old(hours) && minutes == old(minutes)
      ensures seconds == old(seconds) && milliseconds == old(milliseconds)
    {
      isPaused := true;
    }

    /** unpause: only the flag changes. */
    method Unpause()
      modifies this
      ensures !isPaused
      ensures startTime == old(startTime) && endTime == old(endTime) && rawTime == old(rawTime)
      ensures totalTime == old(totalTime) && hours == old(hours) && minutes == old(minutes)
      ensures seconds == old(seconds) && milliseconds == old(milliseconds)
    {
      isPaused := false;
    }

    /**
     * update, with the clock reading `now`. Running: the whole milliseconds
     * since the start become the total, split into the counters. Paused:
     * the counters stay, and the start moves so that the time last measured
     * ends now, which leaves the paused span out of later totals.
     */
    method Update(now: int)
      modifies this
      ensures isPaused == old(isPaused)
      ensures !isPaused ==> startTime == old(startTime) && endTime == now
      ensures !isPaused ==> totalTime == TruncDiv(now - startTime, TICKS_PER_MILLISECOND) && rawTime == totalTime
      ensures !isPaused ==> Consistent()
      ensures isPaused ==> startTime == now - old(rawTime) * TICKS_PER_MILLISECOND
      ensures isPaused ==> endTime == old(endTime) && rawTime == old(rawTime) && totalTime == old(totalTime)
      ensures isPaused ==> hours == old(hours) && minutes == old(minutes)
      ensures isPaused ==> seconds == old(seconds) && milliseconds == old(milliseconds)
      ensures old(Consistent()) ==> Consistent()
    {
      if !isPaused {
        endTime := now;
        totalTime := TruncDiv(endTime - startTime, TICKS_PER_MILLISECOND);
        rawTime := TruncDiv(endTime - startTime, TICKS_PER_MILLISECOND);
        hours := TruncDiv(totalTime, MILLISECONDS_PER_HOUR);
        minutes := TruncDiv(totalTime - hours * MILLISECONDS_PER_HOUR, MILLISECONDS_PER_MINUTE);
        seconds := TruncDiv(totalTime - hours * MILLISECONDS_PER_HOUR - minutes * MILLISECONDS_PER_MINUTE,
                            MILLISECONDS_PER_SECOND);
        milliseconds := totalTime - hours * MILLISECONDS_PER_HOUR - minutes * MILLISECONDS_PER_MINUTE
                        - seconds * MILLISECONDS_PER_SECOND;
      } else {
        startTime := now - rawTime * TICKS_PER_MILLISECOND;
      }
    }
  }

  /** Adding whole milliseconds of ticks adds them to the truncated count. */
  lemma TicksAddMilliseconds(ticks: int, ms: int)
    requires ticks >= 0 && ms >= 0
    ensures TruncDiv(ticks + ms * TICKS_PER_MILLISECOND, TICKS_PER_MILLISECOND)
            == TruncDiv(ticks, TICKS_PER_MILLISECOND) + ms
  {
  }

  /**
   * A timer started at `startedAt`, updated while running at `runningAt`,
   * then paused (pause takes no clock reading), updated while paused at
   * `resumedAt`, unpaused, and updated again at `stoppedAt`: the final total
   * is the time up to the last update before the pause plus the time since
   * the update at `resumedAt`. Whatever ran between `runningAt` and the pause
   * is lost, since no reading records it.
   */
  method PausedSpanIsExcluded(timer: EventTimer, startedAt: int, runningAt: int,
                              resumedAt: int, stoppedAt: int)
    requires startedAt <= runningAt && resumedAt <= stoppedAt
    modifies timer
    ensures timer.totalTime == TruncDiv(runningAt - startedAt, TICKS_PER_MILLISECOND)
                               + TruncDiv(stoppedAt - resumedAt, TICKS_PER_MILLISECOND)
    ensures IsNormal(Breakdown(timer.hours, timer.minutes, timer.seconds, timer.milliseconds))
    ensures Milliseconds(Breakdown(timer.hours, timer.minutes, timer.seconds, timer.milliseconds)) == timer.totalTime
  {
    timer.Start(startedAt);
    timer.Update(runningAt);
    timer.Pause();
    timer.Update(resumedAt);
    timer.Unpause();
    timer.Update(stoppedAt);
    TicksAddMilliseconds(stoppedAt - resumedAt, TruncDiv(runningAt - startedAt, TICKS_PER_MILLISECOND));
    BreakdownOfElapsed(timer.totalTime);
  }
}
