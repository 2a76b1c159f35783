/** The timing of `spinColumn`'s interval and of the global completion. Each firing of the
    interval adds 100 to `elapsed`; while `elapsed < duration` it renders a random frame
    (with a tick sound at the multiples of 200), otherwise it stops once and for all. */
module Schedule {
  import opened Games

  const IntervalTime := 100
  const TickPeriod := 200

  /** The delay of the completion timeout that clears `isAnimating`. */
  const CompletionDelay := 4000

  /** The fixed spin duration of each column: the columns stop one after another. */
  function Duration(p: Provider): (d: int)
    ensures 0 < d <= CompletionDelay && d % TickPeriod == 0
    ensures d == CompletionDelay <==> p == Pp
  {
    match p
    case Jili => 2000
    case Pg => 3000
    case Pp => 4000
  }

  /** The columns stop one after another, JILI first and PP last. */
  lemma StaggeredStops()
    ensures Duration(Jili) < Duration(Pg) < Duration(Pp)
  {
  }

  /** What one firing of the interval does. */
  datatype Step = Frame(at: int, tick: bool) | Stop

  /** The firings still to come when the interval has counted `elapsed` so far. */
  function Steps(elapsed: int, duration: int): (steps: seq<Step>)
    ensures |steps| > 0 && steps[|steps| - 1] == Stop
    decreases duration - elapsed
  {
    var next := elapsed + IntervalTime;
    if next < duration then [Frame(next, next % TickPeriod == 0)] + Steps(next, duration)
    else [Stop]
  }

  /** From any count below the duration: one random frame at every later multiple of 100
      below the duration, then a single stop. */
  lemma {:induction false} StepsShape(elapsed: int, duration: int)
    requires elapsed < duration
    ensures |Steps(elapsed, duration)| == (duration - elapsed - 1) / IntervalTime + 1
    ensures forall k :: 0 <= k < |Steps(elapsed, duration)| - 1 ==>
      Steps(elapsed, duration)[k] == Frame(elapsed + IntervalTime * (k + 1),
                                           (elapsed + IntervalTime * (k + 1)) % TickPeriod == 0)
    decreases duration - elapsed
  {
    var next := elapsed + IntervalTime;
    if next < duration {
      StepsShape(next, duration);
      var s := Steps(elapsed, duration);
      assert s == [Frame(next, next % TickPeriod == 0)] + Steps(next, duration);
      forall k | 0 <= k < |s| - 1
        ensures s[k] == Frame(elapsed + IntervalTime * (k + 1), (elapsed + IntervalTime * (k + 1)) % TickPeriod == 0)
      {
        if k > 0 {
          assert s[k] == Steps(next, duration)[k - 1];
        }
      }
    }
  }

  function CountFrames(steps: seq<Step>): nat
  {
    if steps == [] then 0 else (if steps[0].Frame? then 1 else 0) + CountFrames(steps[1..])
  }

  function CountStops(steps: seq<Step>): nat
  {
    if steps == [] then 0 else (if steps[0].Stop? then 1 else 0) + CountStops(steps[1..])
  }

  lemma {:induction false} CountsFrom(elapsed: int, duration: int)
    requires elapsed < duration
    ensures CountFrames(Steps(elapsed, duration)) == (duration - elapsed - 1) / IntervalTime
    ensures CountStops(Steps(elapsed, duration)) == 1
    decreases duration - elapsed
  {
    var next := elapsed + IntervalTime;
    var s := Steps(elapsed, duration);
    if next < duration {
      CountsFrom(next, duration);
      assert s[1..] == Steps(next, duration);
    } else {
      assert s == [Stop] && s[1..] == [];
    }
  }

  /** A spin of a duration that is a multiple of 100 renders exactly duration / 100 - 1
      random frames and stops exactly once; the tick sound plays at every multiple of 200
      below the duration and nowhere else, and frame `k` comes at 100 * (k + 1). */
  lemma SpinTimeline(duration: int)
    requires duration > 0 && duration % IntervalTime == 0
    ensures CountFrames(Steps(0, duration)) == duration / IntervalTime - 1
    ensures CountStops(Steps(0, duration)) == 1
    ensures forall t :: 0 < t < duration && t % TickPeriod == 0 ==> Frame(t, true) in Steps(0, duration)
    ensures forall k :: 0 <= k < |Steps(0, duration)| && Steps(0, duration)[k].Frame? ==>
      Steps(0, duration)[k].at == IntervalTime * (k + 1) < duration
      && (Steps(0, duration)[k].tick <==> Steps(0, duration)[k].at % TickPeriod == 0)
  {
    CountsFrom(0, duration);
    StepsShape(0, duration);
    var s := Steps(0, duration);
    var n := duration / IntervalTime;
    assert duration == IntervalTime * n;
    assert |s| == n;
    forall t | 0 < t < duration && t % TickPeriod == 0 ensures Frame(t, true) in s {
      var k := t / IntervalTime - 1;
      assert t == IntervalTime * (k + 1);
      assert s[k] == Frame(t, true);
    }
    forall k | 0 <= k < |s| && s[k].Frame?
      ensures s[k].at == IntervalTime * (k + 1) < duration && (s[k].tick <==> s[k].at % TickPeriod == 0)
    {
      assert k < |s| - 1;
    }
  }
}
