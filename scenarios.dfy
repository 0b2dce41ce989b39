/**
 * Whole-lifecycle runs of the stopwatch, each following one sequence of
 * host calls and button clicks from `Init` onwards.
 */
module Scenarios {
  import opened Options
  import opened TimeFormat
  import opened Laps
  import opened Stopwatch

  /** Start from stopped, then three firings of the interval: three seconds more, still running. */
  method StartAndTickThrice(raw: nat) returns (t: Timer)
    ensures t.value == raw + 3 && t.started && t.intervalActive
    ensures t.startButtonText == StopLabel && t.timerText == SplitSeconds(raw + 3)
    ensures t.notifications == 1 && t.laps == []
  {
    t := new Timer.Init(raw);
    t.TriggerTimer();
    t.Tick();
    t.Tick();
    t.Tick();
  }

  /** Reset while running: zero, no laps, and stopped, not running again. */
  method ResetWhileRunning(raw: nat) returns (t: Timer)
    ensures t.value == 0 && t.laps == [] && t.lapText == ""
    ensures !t.started && !t.intervalActive && t.startButtonText == StartLabel
    ensures t.timerText == SplitSeconds(raw + 1)
    ensures t.notifications == 2
  {
    t := new Timer.Init(raw);
    t.TriggerTimer();
    t.Tick();
    ghost var shown := t.timerText;
    assert shown == SplitSeconds(raw + 1);
    t.ResetTimer();
    assert t.timerText == shown;
  }

  /** A host refresh while running overwrites the value but leaves the interval running. */
  method UpdateWhileRunning(raw: nat) returns (t: Timer, outputs: Outputs)
    ensures t.value == 42 && t.started && t.intervalActive
    ensures t.timerText == SplitSeconds(42)
    ensures outputs.currentTime == 42
  {
    t := new Timer.Init(raw);
    t.TriggerTimer();
    t.UpdateView(42, Some(42));
    outputs := t.GetOutputs();
  }

  /** Laps at 5 and at 12 seconds, the second after a host refresh. */
  method TwoLaps() returns (t: Timer)
    ensures t.laps == [5, 12]
    ensures t.lapText == "1. 00:00:05<br>2. 00:00:12"
  {
    t := new Timer.Init(5);
    t.BreakLap();
    t.UpdateView(12, None);
    t.BreakLap();
    LapTextExample();
  }

  /** Destroying twice leaves no interval and is harmless. */
  method DestroyTwice(raw: nat) returns (t: Timer)
    ensures !t.intervalActive && t.started && t.value == raw + 1
  {
    t := new Timer.Init(raw);
    t.TriggerTimer();
    t.Tick();
    t.Destroy();
    t.Destroy();
  }
}
