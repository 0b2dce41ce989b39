/**
 * The stopwatch control as a state machine. The host calls `Init` once,
 * then any sequence of button clicks (`TriggerTimer`, `ResetTimer`,
 * `BreakLap`), host refreshes (`UpdateView`, `GetOutputs`) and interval
 * firings (`Tick`), and finally `Destroy`.
 *
 * The repeating one-second interval is the flag `intervalActive`: starting
 * the watch sets it, clearing the interval resets it, and `Tick` is one
 * firing of the interval's callback, callable only while it is set.
 * The host's output-changed callback is counted in `notifications`.
 */
module Stopwatch {
  import opened Options
  import opened TimeFormat
  import opened Laps

  /** The single output property handed to the host. */
  datatype Outputs = Outputs(currentTime: nat)

  const StartLabel: string := "Start"
  const StopLabel: string := "Stop"

  class Timer {
    /** Elapsed seconds (`_value`). */
    var value: nat
    /** Recorded laps, oldest first (`_laps`). */
    var laps: seq<nat>
    /** Whether the watch is running (`_started`). */
    var started: bool
    /** The text of the start/stop button. */
    var startButtonText: string
    /** The text of the lap label. */
    var lapText: string
    /** The text of the elapsed-time label. */
    var timerText: string
    /** Whether the repeating one-second interval is scheduled. */
    var intervalActive: bool
    /** How many times the host has been told that the outputs changed. */
    var notifications: nat

    /** The lap label shows the lap list. */
    ghost predicate LapsRendered()
      reads this
    {
      lapText == LapText(laps)
    }

    /** An interval is only ever scheduled while the watch is running, so at most one exists. */
    ghost predicate IntervalOwned()
      reads this
    {
      intervalActive ==> started
    }

    /** The start/stop button offers the action that is not current. */
    ghost predicate LabelShown()
      reads this
    {
      startButtonText == if started then StopLabel else StartLabel
    }

    ghost predicate Valid()
      reads this
    {
      LapsRendered() && IntervalOwned() && LabelShown()
    }

    /** `init`: stopped, no laps, the host's raw value as elapsed time, the button offering Start. */
    constructor Init(raw: nat)
      ensures Valid()
      ensures value == raw && laps == [] && !started && !intervalActive
      ensures startButtonText == StartLabel && lapText == "" && timerText == ""
      ensures notifications == 0
    {
      started := false;
      laps := [];
      value := raw;
      timerText := "";
      lapText := "";
      startButtonText := StartLabel;
      intervalActive := false;
      notifications := 0;
    }

    /**
     * `triggerTimer`, the start/stop click: a stopped watch schedules the
     * interval and offers Stop; a running one clears the interval and offers
     * Start. Either way the run state flips and the host is notified once.
     */
    method TriggerTimer()
      requires IntervalOwned()
      modifies this
      ensures started == !old(started)
      ensures intervalActive == !old(started)
      ensures startButtonText == if old(started) then StartLabel else StopLabel
      ensures notifications == old(notifications) + 1
      ensures value == old(value) && laps == old(laps)
      ensures lapText == old(lapText) && timerText == old(timerText)
      ensures IntervalOwned() && LabelShown()
    {
      if !started {
        intervalActive := true;
      } else {
        intervalActive := false;
      }
      startButtonText := if started then StartLabel else StopLabel;
      started := !started;
      notifications := notifications + 1;
    }

    /**
     * One firing of the interval: one more second, shown on the elapsed-time
     * label in a form that reads back as the new value. Nothing else changes.
     */
    method Tick()
      requires Valid() && intervalActive
      modifies this
      ensures value == old(value) + 1
      ensures timerText == SplitSeconds(value)
      ensures ParseClock(timerText) == Some(value)
      ensures started == old(started) && laps == old(laps) && intervalActive == old(intervalActive)
      ensures lapText == old(lapText) && startButtonText == old(startButtonText)
      ensures notifications == old(notifications)
      ensures Valid()
    {
      value := value + 1;
      timerText := SplitSeconds(value);
      RoundTrip(value);
    }

    /**
     * `breakLap`, in either run state: the current value is appended to the
     * laps and the lap label re-rendered, which extends the old label by one
     * line.
     */
    method BreakLap()
      requires Valid()
      modifies this
      ensures laps == old(laps) + [old(value)]
      ensures lapText == LapText(laps)
      ensures lapText == if old(laps) == [] then LapLine(0, value)
                         else old(lapText) + Separator + LapLine(|old(laps)|, value)
      ensures value == old(value) && started == old(started) && intervalActive == old(intervalActive)
      ensures startButtonText == old(startButtonText) && timerText == old(timerText)
      ensures notifications == old(notifications)
      ensures Valid()
    {
      ghost var before := laps;
      laps := laps + [value];
      lapText := LapText(laps);
      LapTextSnoc(before, value);
    }

    /**
     * `resetTimer`, from any state: it marks the watch as started, zeroes
     * the value, drops the laps and then clicks start/stop, which takes the
     * running branch. So the watch ends stopped, offering Start, with no
     * interval; the elapsed-time label keeps its old text.
     */
    method ResetTimer()
      modifies this
      ensures value == 0 && laps == [] && lapText == ""
      ensures !started && !intervalActive && startButtonText == StartLabel
      ensures timerText == old(timerText)
      ensures notifications == old(notifications) + 1
      ensures Valid()
    {
      started := true;
      value := 0;
      laps := [];
      lapText := "";
      TriggerTimer();
    }

    /**
     * `updateView`: the host's raw value replaces the elapsed seconds, and the
     * elapsed-time label shows the host's formatted value, or 0 when it has
     * none. The run state, the interval and the laps are left alone.
     */
    method UpdateView(raw: nat, formatted: Option<nat>)
      requires Valid()
      modifies this
      ensures value == raw
      ensures timerText == SplitSeconds(formatted.GetOr(0))
      ensures started == old(started) && intervalActive == old(intervalActive) && laps == old(laps)
      ensures lapText == old(lapText) && startButtonText == old(startButtonText)
      ensures notifications == old(notifications)
      ensures Valid()
    {
      var shown: nat := formatted.GetOr(0);
      value := raw;
      timerText := SplitSeconds(shown);
    }

    /** `getOutputs`: the elapsed seconds, read without changing anything. */
    method GetOutputs() returns (outputs: Outputs)
      ensures outputs.currentTime == value
    {
      outputs := Outputs(value);
    }

    /** `destroy`: the interval is cleared, whether or not one was scheduled; nothing else changes. */
    method Destroy()
      requires Valid()
      modifies this
      ensures !intervalActive
      ensures value == old(value) && laps == old(laps) && started == old(started)
      ensures lapText == old(lapText) && timerText == old(timerText)
      ensures startButtonText == old(startButtonText) && notifications == old(notifications)
      ensures Valid()
    {
      intervalActive := false;
    }
  }
}
