/**
 * The activity tracker's bookkeeping (`ActivityTracker`): input-event
 * handlers bump a mouse or a keyboard counter and mark the current whole
 * second as active; every interval a summary counts the active seconds that
 * fall in the interval and starts the next one from zero.
 *
 * Clock readings (`time.time()`) and mouse positions are parameters.
 */
module ActivityTracking {
  import opened Wrappers

  /** Python's `int(x)` on a float: truncation toward zero. */
  function Trunc(x: real): (n: int)
    ensures 0.0 <= x ==> n as real <= x < n as real + 1.0
    ensures x < 0.0 ==> n as real - 1.0 < x <= n as real
  {
    if 0.0 <= x then x.Floor else -((-x).Floor)
  }

  /** A pointer position as the input library reports it. */
  datatype Point = Point(x: int, y: int)

  /** The active seconds `s` with `lo <= s < hi`. */
  function ActiveIn(secs: set<int>, lo: int, hi: int): set<int> {
    set s | s in secs && lo <= s < hi
  }

  /** One more second at the top of the range adds at most that second. */
  lemma ActiveInExtend(secs: set<int>, lo: int, hi: int)
    requires lo <= hi
    ensures |ActiveIn(secs, lo, hi + 1)| == |ActiveIn(secs, lo, hi)| + (if hi in secs then 1 else 0)
  {
    var smaller := ActiveIn(secs, lo, hi);
    if hi in secs {
      assert ActiveIn(secs, lo, hi + 1) == smaller + {hi};
    } else {
      assert ActiveIn(secs, lo, hi + 1) == smaller;
    }
  }

  /** A range of `hi - lo` seconds holds at most `hi - lo` active ones. */
  lemma {:induction false} ActiveInBound(secs: set<int>, lo: int, hi: int)
    ensures |ActiveIn(secs, lo, hi)| <= if lo <= hi then hi - lo else 0
    decreases hi - lo
  {
    if lo < hi {
      ActiveInBound(secs, lo, hi - 1);
      ActiveInExtend(secs, lo, hi - 1);
    } else {
      assert ActiveIn(secs, lo, hi) == {};
    }
  }

  /** `calculate_activity_percentage`: active time as a percentage of the total, 0 for an empty interval. */
  function ActivityPercentage(activeTime: int, totalTime: real): (p: real)
    ensures totalTime == 0.0 ==> p == 0.0
    ensures totalTime != 0.0 ==> p * totalTime == activeTime as real * 100.0
  {
    if totalTime == 0.0 then 0.0 else (activeTime as real / totalTime) * 100.0
  }

  /** The figures `generate_summary` reports for one interval. */
  datatype Summary = Summary(
    totalTime: real,
    activeSeconds: nat,
    percentage: real,
    mouseEvents: nat,
    keyboardEvents: nat,
    totalEvents: nat)

  class ActivityTracker {
    const intervalSeconds: int
    var mouseEvents: nat
    var keyboardEvents: nat
    var startTime: Option<real>
    var lastActivityTime: Option<real>
    var isActive: bool
    var activeSeconds: set<int>
    var lastMousePos: Option<Point>

    constructor (intervalSeconds: int)
      ensures this.intervalSeconds == intervalSeconds
      ensures mouseEvents == 0 && keyboardEvents == 0
      ensures startTime == None && lastActivityTime == None && !isActive
      ensures activeSeconds == {} && lastMousePos == None
    {
      this.intervalSeconds := intervalSeconds;
      mouseEvents, keyboardEvents := 0, 0;
      startTime, lastActivityTime := None, None;
      isActive := false;
      activeSeconds := {};
      lastMousePos := None;
    }

    /** Marks the second `now` falls in as active; shared by every handler. */
    method MarkActive(now: real)
      modifies this
      ensures activeSeconds == old(activeSeconds) + {Trunc(now)}
      ensures lastActivityTime == Some(now) && isActive
      ensures mouseEvents == old(mouseEvents) && keyboardEvents == old(keyboardEvents)
      ensures startTime == old(startTime) && lastMousePos == old(lastMousePos)
    {
      activeSeconds := activeSeconds + {Trunc(now)};
      lastActivityTime := Some(now);
      isActive := true;
    }

    /** `on_mouse_move`, at clock reading `now`. */
    method OnMouseMove(now: real)
      modifies this
      ensures mouseEvents == old(mouseEvents) + 1 && keyboardEvents == old(keyboardEvents)
      ensures activeSeconds == old(activeSeconds) + {Trunc(now)}
      ensures lastActivityTime == Some(now) && isActive
      ensures startTime == old(startTime) && lastMousePos == old(lastMousePos)
    {
      mouseEvents := mouseEvents + 1;
      MarkActive(now);
    }

    /** `on_mouse_click` (press and release alike), at clock reading `now`. */
    method OnMouseClick(pressed: bool, now: real)
      modifies this
      ensures mouseEvents == old(mouseEvents) + 1 && keyboardEvents == old(keyboardEvents)
      ensures activeSeconds == old(activeSeconds) + {Trunc(now)}
      ensures lastActivityTime == Some(now) && isActive
      ensures startTime == old(startTime) && lastMousePos == old(lastMousePos)
    {
      mouseEvents := mouseEvents + 1;
      MarkActive(now);
    }

    /** `on_key_press`, at clock reading `now`. */
    method OnKeyPress(now: real)
      modifies this
      ensures keyboardEvents == old(keyboardEvents) + 1 && mouseEvents == old(mouseEvents)
      ensures activeSeconds == old(activeSeconds) + {Trunc(now)}
      ensures lastActivityTime == Some(now) && isActive
      ensures startTime == old(startTime) && lastMousePos == old(lastMousePos)
    {
      keyboardEvents := keyboardEvents + 1;
      MarkActive(now);
    }

    /**
     * One sample of the polling loop: the first sample only records the
     * position, a different position counts as a mouse event, the same
     * position changes nothing.
     */
    method PollSample(pos: Point, now: real)
      modifies this
      ensures old(lastMousePos) == None ==>
        && lastMousePos == Some(pos)
        && mouseEvents == old(mouseEvents) && activeSeconds == old(activeSeconds)
        && lastActivityTime == old(lastActivityTime) && isActive == old(isActive)
      ensures old(lastMousePos) == Some(pos) ==>
        && lastMousePos == old(lastMousePos)
        && mouseEvents == old(mouseEvents) && activeSeconds == old(activeSeconds)
        && lastActivityTime == old(lastActivityTime) && isActive == old(isActive)
      ensures old(lastMousePos).Some? && old(lastMousePos) != Some(pos) ==>
        && lastMousePos == Some(pos)
        && mouseEvents == old(mouseEvents) + 1
        && activeSeconds == old(activeSeconds) + {Trunc(now)}
        && lastActivityTime == Some(now) && isActive
      ensures keyboardEvents == old(keyboardEvents) && startTime == old(startTime)
    {
      if lastMousePos == None {
        lastMousePos := Some(pos);
      } else if lastMousePos != Some(pos) {
        mouseEvents := mouseEvents + 1;
        MarkActive(now);
        lastMousePos := Some(pos);
      }
    }

    /** The counting loop of `generate_summary`: how many seconds in `[lo, hi)` were active. */
    method CountActiveSeconds(lo: int, hi: int) returns (count: nat)
      ensures count == |ActiveIn(activeSeconds, lo, hi)|
      ensures count <= if lo <= hi then hi - lo else 0
    {
      count := 0;
      var second := lo;
      assert ActiveIn(activeSeconds, lo, lo) == {};
      while second < hi
        invariant lo <= second <= if lo <= hi then hi else lo
        invariant count == |ActiveIn(activeSeconds, lo, second)|
        invariant count <= second - lo
      {
        ActiveInExtend(activeSeconds, lo, second);
        if second in activeSeconds {
          count := count + 1;
        }
        second := second + 1;
      }
      if hi < lo {
        assert ActiveIn(activeSeconds, lo, hi) == {};
      }
    }

    /**
     * `generate_summary` for the interval from `sessionStart` to
     * `sessionEnd`: counts the active seconds from `int(sessionStart)` through
     * `int(sessionEnd)`, reports the figures, then clears both counters and the
     * active seconds.
     */
    method GenerateSummary(sessionStart: real, sessionEnd: real) returns (summary: Summary)
      modifies this
      ensures summary.totalTime == sessionEnd - sessionStart
      ensures summary.activeSeconds ==
        |ActiveIn(old(activeSeconds), Trunc(sessionStart), Trunc(sessionEnd) + 1)|
      ensures summary.percentage == ActivityPercentage(summary.activeSeconds, summary.totalTime)
      ensures summary.mouseEvents == old(mouseEvents) && summary.keyboardEvents == old(keyboardEvents)
      ensures summary.totalEvents == old(mouseEvents) + old(keyboardEvents)
      ensures mouseEvents == 0 && keyboardEvents == 0 && activeSeconds == {}
      ensures startTime == old(startTime) && lastActivityTime == old(lastActivityTime)
      ensures isActive == old(isActive) && lastMousePos == old(lastMousePos)
    {
      var totalTime := sessionEnd - sessionStart;
      var activeCount := CountActiveSeconds(Trunc(sessionStart), Trunc(sessionEnd) + 1);
      var percentage := ActivityPercentage(activeCount, totalTime);
      summary := Summary(totalTime, activeCount, percentage,
                         mouseEvents, keyboardEvents, mouseEvents + keyboardEvents);
      mouseEvents := 0;
      keyboardEvents := 0;
      activeSeconds := {};
    }
  }

  /**
   * The active-second count of an interval never exceeds the number of whole
   * seconds it touches, `int(end) - int(start) + 1`.
   */
  lemma SummaryCountBound(secs: set<int>, sessionStart: real, sessionEnd: real)
    requires sessionStart <= sessionEnd
    ensures |ActiveIn(secs, Trunc(sessionStart), Trunc(sessionEnd) + 1)|
            <= Trunc(sessionEnd) - Trunc(sessionStart) + 1
  {
    ActiveInBound(secs, Trunc(sessionStart), Trunc(sessionEnd) + 1);
  }

  /**
   * The reported percentage is not bounded by 100: partial seconds at both
   * ends count as whole active seconds. An interval from 0.5 to 1.2 with
   * activity in seconds 0 and 1 reports 2 active seconds over 0.7 seconds.
   */
  lemma PercentageMayExceedHundred()
    ensures ActivityPercentage(|ActiveIn({0, 1}, Trunc(0.5), Trunc(1.2) + 1)|, 1.2 - 0.5) > 100.0
  {
    assert Trunc(0.5) == 0 && Trunc(1.2) == 1;
    assert ActiveIn({0, 1}, 0, 2) == {0, 1};
  }
}
