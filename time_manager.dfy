/**
 * The game clock (`TimeManager`): counts the seconds a game has been
 * running, leaving out the time spent paused. The wall clock is read by
 * the caller and passed in as `now`, in seconds.
 */
module TimeManage {
  import opened Text

  /** Python's `int()` on a float: truncation toward zero. */
  function Trunc(x: real): (n: int)
    ensures x >= 0.0 ==> n >= 0 && n as real <= x < n as real + 1.0
    ensures x < 0.0 ==> n <= 0 && n as real - 1.0 < x <= n as real
  {
    if x >= 0.0 then x.Floor else -((-x).Floor)
  }

  lemma TruncMonotone(x: real, y: real)
    requires x <= y
    ensures Trunc(x) <= Trunc(y)
  {
    if x < 0.0 && y >= 0.0 {
    } else if x < 0.0 {
      assert -y <= -x;
      assert (-y).Floor <= (-x).Floor;
    } else {
      assert x.Floor <= y.Floor;
    }
  }

  /** `f"{minutes:02d}:{seconds:02d}"` with floor division and modulo by 60. */
  function FormatClock(seconds: int): string {
    Pad2(seconds / 60) + ":" + Pad2(seconds % 60)
  }

  /** The clock text splits back into minutes and seconds that add up to the reading. */
  lemma FormatClockReadsBack(seconds: int)
    ensures var parts := Split(FormatClock(seconds), ':');
      |parts| == 2 && ParseInt(parts[0]).Some? && ParseInt(parts[1]).Some? &&
      ParseInt(parts[0]).value * 60 + ParseInt(parts[1]).value == seconds &&
      0 <= ParseInt(parts[1]).value < 60
  {
    var m, s := Pad2(seconds / 60), Pad2(seconds % 60);
    assert ':' !in m && ':' !in s;
    assert [m, s][1..] == [s];
    assert Join([m, s], ':') == FormatClock(seconds);
    SplitJoin([m, s], ':');
  }

  class TimeManager {
    var startTime: real
    var pauseTime: real
    var paused: bool
    var elapsed: real

    constructor()
      ensures startTime == 0.0 && pauseTime == 0.0 && !paused && elapsed == 0.0
    {
      startTime := 0.0;
      pauseTime := 0.0;
      paused := false;
      elapsed := 0.0;
    }

    /** The exact number of running seconds at time `now`. */
    function Reading(now: real): real
      reads this
    {
      if paused then elapsed else elapsed + (now - startTime)
    }

    /** `start()`: the clock reads zero from `now` on and is running. */
    method Start(now: real)
      modifies this
      ensures !paused && startTime == now && elapsed == 0.0 && pauseTime == old(pauseTime)
      ensures Reading(now) == 0.0
    {
      startTime := now;
      paused := false;
      elapsed := 0.0;
    }

    /** `pause()`: freezes the reading at its value at `now`; a second pause changes nothing. */
    method Pause(now: real)
      modifies this
      ensures old(paused) ==> unchanged(this)
      ensures !old(paused) ==> paused && pauseTime == now && startTime == old(startTime) &&
                               elapsed == old(elapsed) + (now - old(startTime))
      ensures Reading(now) == old(Reading(now))
      ensures forall later :: Reading(later) == Reading(now)
    {
      if !paused {
        pauseTime := now;
        elapsed := elapsed + (pauseTime - startTime);
        paused := true;
      }
    }

    /** `resume()`: the reading carries on from where the pause froze it. */
    method Resume(now: real)
      modifies this
      ensures !old(paused) ==> unchanged(this)
      ensures old(paused) ==> !paused && startTime == now && elapsed == old(elapsed) && pauseTime == old(pauseTime)
      ensures Reading(now) == old(Reading(now))
    {
      if paused {
        startTime := now;
        paused := false;
      }
    }

    /** `get_elapsed()`: the whole seconds of the reading. */
    function GetElapsed(now: real): (s: int)
      reads this
      ensures Reading(now) >= 0.0 ==> s as real <= Reading(now) < s as real + 1.0
    {
      if paused then Trunc(elapsed) else Trunc(elapsed + (now - startTime))
    }

    /** `get_formatted_time()`. */
    function GetFormattedTime(now: real): string
      reads this
    {
      FormatClock(GetElapsed(now))
    }

    /** While the clock runs, its reading never goes backwards. */
    lemma ElapsedMonotone(t1: real, t2: real)
      requires t1 <= t2
      ensures GetElapsed(t1) <= GetElapsed(t2)
    {
      if !paused {
        TruncMonotone(elapsed + (t1 - startTime), elapsed + (t2 - startTime));
      }
    }
  }
}
