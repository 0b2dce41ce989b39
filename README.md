# Stopwatch control: a verified model

The repository is a stopwatch control for a low-code application host. The
host creates it with `init`, feeds it values with `updateView`, reads its
single output with `getOutputs` and removes it with `destroy`. The control
has a start/stop button, a reset button and a lap button. A repeating
one-second interval counts elapsed seconds, which are shown as `HH:mm:ss`.

This project models the two parts of `Timer/index.ts` that hold logic:

- `splitSeconds`, the `HH:mm:ss` formatter. Module `Decimal` covers how a
  whole number is printed inside a template string. Module `TimeFormat`
  covers the split into hours, minutes and seconds, the zero padding, and a
  reference parser that reads the string back.
- The class `Timer` as a state machine. Module `Stopwatch` turns the fields
  `_value`, `_laps` and `_started`, the button and label texts, whether an
  interval is scheduled, and a count of output-changed notifications into
  the fields of a Dafny class. Module `Laps` holds the lap label's
  `map`/`join` rendering. Module `Scenarios` runs whole lifecycles through
  the class.

`Split` computes the three fields with `/` and `%`. The lemma
`SplitAsWritten` proves that they equal the source's formulas, which take
the hours and then the minutes away from `sec` by subtraction (lines
106-108).

The interval is the flag `intervalActive`. `Tick` is one firing of the
interval's callback, and it can be called only while the flag is set. The
class invariant `Valid` says three things:

- the lap label shows the lap list;
- an interval is scheduled only while the watch is running, so there is
  never more than one;
- the start/stop button offers the action that is not the current one.

`TriggerTimer` requires only the second part. This is because `resetTimer`
calls it from a state where the button text may not match.

Three behaviours of the code are easy to misread:

- `resetTimer` leaves the stopwatch **stopped**. It sets `_started` to true
  (line 95) and then clicks start/stop (line 99), which takes the running
  branch of `triggerTimer`. That branch clears the interval, sets the label
  to "Start" and sets `_started` to false (lines 121-125), so a reset
  never restarts the watch.
- `updateView` does overwrite the elapsed-seconds counter with the host's
  raw value (line 136). Only the label comes from the formatted value
  (line 138), the counter used by later ticks is the raw value.
- `resetTimer` does not touch the elapsed-time label. It still shows the
  old time until the next tick or host refresh.

## Model

| member | source | states |
|---|---|---|
| `Decimal.ShowNumeral` | Timer/index.ts:109 | a number interpolated into the string is printed as digits only, reads back as the same number, and has no leading zero unless it is 0; it is one digit long exactly below 10 |
| `Decimal.ShowCanonical` | Timer/index.ts:109 | any digit string without a superfluous leading zero is exactly how its value is printed, so printing is the inverse of reading |
| `TimeFormat.Split` | Timer/index.ts:106-108 | the three fields satisfy hours*3600 + minutes*60 + seconds == sec, with minutes and seconds below 60 |
| `TimeFormat.SplitAsWritten` | Timer/index.ts:106-108 | the fields are exactly the source's floor(sec/3600), floor((sec - hours*3600)/60) and sec - hours*3600 - minutes*60 |
| `TimeFormat.SplitUnique` | Timer/index.ts:106-108 | every reading with minutes and seconds below 60 is the split of its own total, so the split is the only such decomposition |
| `TimeFormat.PadNumeral` | Timer/index.ts:109 | each field is a digit string with the field's value, at least two digits, exactly two below 100, and starts with 0 exactly when the value is below 10 |
| `TimeFormat.SplitSecondsShape` | Timer/index.ts:105-110 | the output is exactly three digit fields joined by two colons; minutes and seconds are two digits; hours get a leading 0 below 10 and are printed in full, with no truncation, from 10 on |
| `TimeFormat.RoundTrip` | Timer/index.ts:105-110 | reading the three fields of the output and recombining them as h*3600 + m*60 + s gives back the input |
| `TimeFormat.SplitSecondsInjective` | Timer/index.ts:105-110 | two different numbers of seconds never produce the same string |
| `TimeFormat.SplitSecondsZero` | Timer/index.ts:105-110 | 0 seconds renders as 00:00:00 |
| `TimeFormat.SplitSecondsMinute` | Timer/index.ts:105-110 | 59 seconds renders as 00:00:59 and 60 seconds as 00:01:00 |
| `TimeFormat.SplitSecondsOneOfEach` | Timer/index.ts:105-110 | 3661 seconds renders as 01:01:01 |
| `TimeFormat.SplitSecondsLongHours` | Timer/index.ts:105-110 | 36000 seconds renders as 10:00:00, with no extra zero, and 360000 seconds as 100:00:00, with no truncation |
| `Decimal.Show` | Timer/index.ts:109 | no contract of its own; how a whole number is printed in the template string; its properties are stated by ShowNumeral and ShowCanonical |
| `TimeFormat.Pad` | Timer/index.ts:109 | no contract of its own; the `x < 10 ? \`0${x}\` : x` ternary for one field; its value, width and leading zero are stated by PadNumeral |
| `TimeFormat.SplitSeconds` | Timer/index.ts:105-110 | no contract of its own; splitSeconds itself; its shape, round trip and injectivity are stated by SplitSecondsShape, RoundTrip and SplitSecondsInjective |
| `Laps.LapLine` | Timer/index.ts:86-88 | no contract of its own; the `${i + 1}. ${splitSeconds(value)}` line of one lap; used by LapTextSnoc and LapTextExample |
| `Laps.Join` | Timer/index.ts:88 | no contract of its own; Array join with a separator; its append form is stated by JoinSnoc |
| `Laps.LapLines` | Timer/index.ts:86-87 | no contract of its own; the indexed map over the laps; used by LapTextSnoc |
| `Laps.LapText` | Timer/index.ts:86-88 | no contract of its own; the whole lap text; its empty and append forms are stated by LapTextEmpty and LapTextSnoc |
| `Laps.JoinSnoc` | Timer/index.ts:86-88 | joining one more part gives that part alone when there was nothing before, and otherwise the old join, the separator and the part |
| `Laps.LapTextEmpty` | Timer/index.ts:86-88 | an empty lap list renders as the empty text that reset writes |
| `Laps.LapTextSnoc` | Timer/index.ts:84-89 | recording a lap extends the lap text: the first lap is its own line "1. HH:mm:ss", and each later lap adds `<br>` and its numbered line while the earlier text is kept |
| `Laps.LapTextTwoLaps` | Timer/index.ts:86-88 | two laps render as the first line, `<br>`, then the second line |
| `Laps.LapTextExample` | Timer/index.ts:84-89 | laps at 5 and 12 seconds render as "1. 00:00:05<br>2. 00:00:12" |
| `Stopwatch.Timer.Init` | Timer/index.ts:45-61 | init: stopped, no laps, no interval, elapsed seconds equal to the host's raw value, button "Start", empty labels, no notification yet; the invariant holds |
| `Stopwatch.Timer.TriggerTimer` | Timer/index.ts:115-127 | when stopped it schedules the interval, shows "Stop" and becomes running; when running it clears the interval, shows "Start" and stops; either way it notifies the host exactly once and changes nothing else |
| `Stopwatch.Timer.Tick` | Timer/index.ts:117-120 | while the interval is scheduled, one firing adds exactly 1 to the value and shows splitSeconds of the new value, which reads back as that value; the run state, laps and everything else are untouched |
| `Stopwatch.Timer.BreakLap` | Timer/index.ts:84-89 | in either run state, appends the current value to the end of the laps, keeps the earlier laps, and re-renders the lap text as the old text plus one line; value, run state and interval are unchanged |
| `Stopwatch.Timer.ResetTimer` | Timer/index.ts:94-100 | from any state: value 0, no laps, empty lap text, stopped with no interval and the button showing "Start", exactly one notification; the elapsed-time label is not updated |
| `Stopwatch.Timer.UpdateView` | Timer/index.ts:134-139 | the value becomes the host's raw value; the label shows the host's formatted value, or 0 when it is absent; run state, interval and laps are unchanged |
| `Stopwatch.Timer.GetOutputs` | Timer/index.ts:145-150 | returns the current value as the only output and changes nothing |
| `Stopwatch.Timer.Destroy` | Timer/index.ts:156-159 | no interval is scheduled afterwards, whether or not one was before; nothing else changes |
| `Scenarios.StartAndTickThrice` | Timer/index.ts:115-120 | starting once and firing the interval three times adds exactly 3 and leaves the watch running |
| `Scenarios.ResetWhileRunning` | Timer/index.ts:94-127 | a reset while running ends at zero, with no laps, and stopped rather than running again, while the label still shows the pre-reset time |
| `Scenarios.UpdateWhileRunning` | Timer/index.ts:134-150 | a host refresh of 42 while running sets value and label to 42, keeps the interval running, and the output reads 42 |
| `Scenarios.TwoLaps` | Timer/index.ts:84-89 | laps recorded at 5 and 12 seconds give the lap list [5, 12] and the text "1. 00:00:05<br>2. 00:00:12" |
| `Scenarios.DestroyTwice` | Timer/index.ts:156-159 | destroying twice in a row is harmless and leaves no interval scheduled |

## Left out

- DOM construction and styling in `init` (Timer/index.ts:49-78): these are UI plumbing. Only the state they set up is kept: the empty labels and the "Start" button text.
- Scheduling by `setInterval`/`clearInterval` with its 1000 ms period: this is host timer machinery. It is modelled as the flag `intervalActive` and the method `Tick`. Real time, drift and the order of firings against clicks are not modelled.
- `parseInt` of the host's formatted string in `updateView` (line 138): the host's format is not visible. The parsed number is a parameter of type `Option<nat>`, where `None` stands for an absent or empty string, which falls back to `"0"`.
- JavaScript number semantics: negative, fractional and NaN inputs, `Math.floor` on them, the `!` non-null assertions on `raw`, precision loss above 2^53, and exponent notation when a number of 10^21 or more is printed. All values here are unbounded `nat`.
- The effect of the `notifyOutputChanged` callback on the host: it is a foreign call. Only the number of calls is counted.
- The stored `context`, the `state` argument and the event arguments of the click handlers: the model neither reads nor needs them.
- Stopwatch.Timer.TriggerTimer: the source would leak a second interval if the watch were clicked to start while an interval already exists. The model requires that no interval exists while stopped, which the class invariant guarantees in every reachable state.
