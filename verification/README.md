# Emission monitor screen — a Dafny model

This project models the logic core of the emission monitor's single React screen, `src/App.jsx`. A device with two gas sensors streams readings over a socket:

- MQ-135, for CO₂/NH₃
- MQ-7, for CO

The screen does four things with those readings:

- **Validates each reading.** NaN, infinite and negative values read as 0.
- **Shows a three-tier status per sensor.** The tiers are Normal, Waspada (caution) and Bahaya (danger). The thresholds are 400 ppm for MQ-135 and 200 ppm for MQ-7. The caution band starts above 70% of the threshold.
- **Records readings into a chart while a test runs.** The chart keeps only the 30 most recent points.
- **Runs a test session.** The steps are start, a once-a-second duration tick, stop, filling in the form, and save or cancel. Save posts the form, the chart, the mean and maximum of each channel, and the duration.

Everything is modelled with pure functions over immutable values.

- **Screen state.** The state is one `Session.State` record. Each handler is a function from the state (plus the event's inputs) to the next state.
- **Handler outputs.** Alerts, socket commands (`start-test` and `stop-test`) and the POSTed test result are returned as values in a `Session.Step`.
- **Inputs from outside.** The following become parameters:
  - the clock (`now` in milliseconds, `nowIso`, and the chart's time label);
  - whether a socket exists;
  - the server's answer to the save request.

Modules:

- `Validator`: raw channel values, `parseValidPPM`, and the validated live reading.
- `Status`: `getStatus` and the two sensor cards.
- `Chart`: the chart buffer, which holds at most 30 points in first-in, first-out order.
- `Aggregate`: the averages and maxima that `handleSave` computes.
- `Duration`: the tick's elapsed-seconds computation and `formatDuration`, with a reader for its `m:ss` output.
- `Session`: the screen state and every handler.
- `SessionProps`: properties of whole event sequences.
- `Wrappers`: `Option`.

### Notes on the code

- **No upper bound.** `parseValidPPM` has no ceiling. Any finite non-negative value is kept.
- **Thresholds.** The cards use 400 ppm (MQ-135) and 200 ppm (MQ-7), with a caution factor of 0.7. In IEEE doubles, 400 × 0.7 and 200 × 0.7 are exactly 280 and 140, so exact reals give the same tiers.
- **Averages and maxima.** They are taken over the chart as it stands when Save is pressed, which holds at most the last 30 points.

## Model

| member | source | states |
|---|---|---|
| Validator.ParseValidPPM | src/App.jsx:38-44 | The result is never negative. Every finite non-negative number is kept unchanged, so there is no upper cap. A missing, NaN, infinite or negative value becomes 0. |
| Validator.ParseValidPPMIdempotent | src/App.jsx:319-320 | Sanitising an already sanitised value changes nothing. This is why `getStatus` re-applying the validator to card values is harmless. |
| Validator.Validate | src/App.jsx:79-87 | A present payload yields non-negative channels. Each channel keeps its parsed value when that value is finite and non-negative, and is 0 when it is missing, NaN, infinite or negative. A missing timestamp is replaced by the current time. |
| Status.GetStatus | src/App.jsx:319-328 | Bahaya holds exactly when the sanitised value is above the threshold. Waspada holds exactly when the value is above 70% of the threshold and at most the threshold. Normal holds exactly when the value is at most 70% of the threshold. |
| Status.SensorStatus | src/App.jsx:330-349 | A card's tier is stated in terms of the live reading's channel and that card's threshold (400 for MQ-135, 200 for MQ-7). The same three if-and-only-if bands apply. |
| Status.GetStatusMonotone | src/App.jsx:319-328 | A larger value never gets a milder tier. |
| Status.ThresholdExamples | src/App.jsx:319-349 | Boundary values of both cards: 280/280.01/400/400.01 for MQ-135, 140/140.01/200.01 for MQ-7. NaN and negative readings are Normal. |
| Chart.Append | src/App.jsx:109-113 | Appending a point gives a chart of length min(n + 1, 30) that ends with the new point. The points before it are the newest of the old ones, in order. |
| Chart.AppendKeepsNonNegative | src/App.jsx:101-113 | Appending a point with non-negative readings keeps every chart reading non-negative. |
| Chart.AppendAllIsWindow | src/App.jsx:109-113 | After any sequence of appends, the chart is exactly the last 30 of all points appended, in arrival order. |
| Chart.OverflowEvictsOldest | src/App.jsx:110-112 | The 31st append evicts the first point and keeps the other 30 in order. |
| Aggregate.MaxOf | src/App.jsx:210-211 | The maximum is one of the values and no value exceeds it. |
| Aggregate.MeanBetweenMinAndMax | src/App.jsx:208-211 | The mean of the values lies between their minimum and their maximum. |
| Aggregate.Summarize | src/App.jsx:205-211 | Each channel's average is its mean: sum over count. Each channel's maximum is attained by some point and bounds every point. Each channel's average lies between that channel's minimum and its maximum. Both averages are non-negative when the readings are. |
| Aggregate.MeanTimesCount | src/App.jsx:208-209 | The mean times the number of values is their sum. |
| Aggregate.SummarizeExample | src/App.jsx:205-211 | Points {10, 20} and {30, 40} give means 20 and 30 and maxima 30 and 40. |
| Duration.ElapsedSeconds | src/App.jsx:166 | The tick's value d is the number of whole seconds elapsed: d × 1000 ≤ now − start < d × 1000 + 1000. |
| Duration.ElapsedSecondsMonotone | src/App.jsx:165-167 | Once the clock has passed the start, ticks report non-negative seconds that never decrease. |
| Duration.NatToStringRoundTrip | src/App.jsx:354 | The decimal text of a whole number reads back as that number. |
| Duration.PadStart | src/App.jsx:354 | `padStart` returns the text, left-filled with the fill character up to the width, and never shortens it. |
| Duration.JsRemainder | src/App.jsx:353 | JavaScript's `%` agrees with the mathematical remainder on non-negative dividends. On a negative dividend the result is never positive, and the dividend is divisor × (quotient truncated toward zero) + result. The result is always strictly between −divisor and divisor. |
| Duration.FormatDurationRoundTrip | src/App.jsx:351-355 | For every non-negative duration, the `m:ss` text reads back as that number of seconds. The text is minutes, a colon and exactly two digits of seconds below 60. |
| Duration.FormatNegativeDuration | src/App.jsx:351-355 | A negative duration renders with two minus signs: −5 gives "-1:-5". |
| Session.Init | src/App.jsx:11-35 | The mount state is valid. It has no test, no form, no running interval and an empty chart. |
| Session.OnConnectionStatus | src/App.jsx:66-69 | Only the connected flag changes, and it takes the reported value. |
| Session.OnSensorData | src/App.jsx:71-115 | An absent payload changes nothing. Otherwise the live reading becomes the validated payload. Only while a test runs does the labelled point join the chart, which keeps its newest 30 points. Nothing else changes. |
| Session.StartAsWritten | src/App.jsx:150-168 | Without a connection, the state is unchanged and the user is alerted. Otherwise the following hold. (1) The test runs with an empty chart and the new start time. (2) A still-scheduled interval is leaked, not cleared. (3) `start-test` is emitted if a socket exists. (4) The previous duration is kept. |
| Session.Start | src/App.jsx:150-168 | Behaves as `StartAsWritten`, except that the new test's duration starts at 0. |
| Session.Tick | src/App.jsx:165-167 | With no interval scheduled nothing fires. Otherwise only the duration changes, and it becomes the whole seconds since the start time. |
| Session.Stop | src/App.jsx:170-189 | The test always ends, the latest interval is cleared and `stop-test` is emitted if a socket exists. With an empty chart the duration is reset and the user is alerted. Otherwise the form is shown. |
| Session.EditField | src/App.jsx:521-565 | Typing sets one form field and leaves everything else unchanged. |
| Session.Save | src/App.jsx:191-258 | An incomplete form, or an empty chart, changes nothing and raises its own alert. Otherwise the form, the chart, its summary and the duration are posted. On success the form is cleared and hidden, and the chart and duration are reset. On failure nothing changes. |
| Session.Cancel | src/App.jsx:582 | Cancel hides the form and changes nothing else. The chart, the duration and the typed fields stay. |
| SessionProps.SensorDataPreservesValid | src/App.jsx:71-115 | A reading keeps the screen state valid. |
| SessionProps.ApplyPreservesValid | src/App.jsx:150-258 | Every event, with start handled as written (`StartAsWritten`), keeps the state valid: a chart of at most 30 points with non-negative readings, a live interval exactly while testing, and a start time whenever an interval runs. |
| SessionProps.RunPreservesValid | src/App.jsx:109-113 | Every event sequence from a valid state ends in a valid state, so the chart never holds more than 30 points. |
| SessionProps.ReachableIsValid | src/App.jsx:11-35 | Every state the screen as written reaches from the mount state, by any sequence of events, is valid. |
| SessionProps.LastTickNonNegative | src/App.jsx:165-167 | When every tick comes after the start, the reported duration is never negative. |
| SessionProps.RecordingStep | src/App.jsx:71-167 | During a test, a reading appends its point and a tick sets the duration. The session itself is unchanged. |
| SessionProps.RecordingKeepsSession | src/App.jsx:71-167 | During a test, any run of readings, ticks and status changes keeps the session: still testing, with the same start time, intervals, form and socket. |
| SessionProps.RecordingChart | src/App.jsx:93-113 | During a test, the chart is the last 30 of its old points followed by every accepted reading, in arrival order. |
| SessionProps.RecordingDuration | src/App.jsx:165-167 | During a test, the duration is the one the last tick reported, or the starting duration if no tick came. |
| SessionProps.FillFormSetsForm | src/App.jsx:521-565 | Five field edits set exactly the form and nothing else. |
| SessionProps.SessionLifecycle | src/App.jsx:150-258 | As written, start, record, stop, fill and save posts four things: (1) the form; (2) the last 30 accepted points, in order; (3) their summary; (4) the last tick's duration, or the duration left from before the start if no tick came. A successful save leaves a hidden empty form, an empty chart and a zero duration. |
| SessionProps.CorrectedSessionLifecycle | src/App.jsx:150-258 | With the duration reset on start, the same session posts the same form, points and summary, and this session's last tick (0 if none came). |
| SessionProps.InheritedDurationAsWritten | src/App.jsx:150-168 | As written, a new test reports the previous test's duration until its own first tick. |
| SessionProps.StaleDurationAsWritten | src/App.jsx:150-168 | As written, cancelling the form and then running a test with one reading and no tick posts the cancelled test's duration instead of 0. |
| SessionProps.FreshDuration | src/App.jsx:150-168 | With the duration reset on start, the reported duration comes from this session's ticks alone. It is 0 before the first tick and never negative. |

## Left out

- Socket lifecycle is left out. This covers connecting, reconnecting, the `connect`/`disconnect` logging, and closing and reopening the socket whenever `isTesting` changes. Whether a socket exists is a flag. The handlers always see the current `isTesting`.
- `fetchTestHistory`, `handlePrint` and `handleDelete` are left out. They are network and document I/O that only feed the history list and PDF downloads. No state of the test session depends on them.
- The `loading` flag is left out, and so is the disabling of buttons while a request is in flight. The model treats every save as completed, with the server's answer given as a boolean.
- Error text from a failed request is left out. A failed save is one `SaveFailed` alert.
- `parseFloat`'s text parsing is abstracted away. A raw channel is described by what `parseFloat` makes of it: missing, NaN, ±Infinity or a finite number.
- Time labels and ISO timestamps are opaque strings given as parameters. The `id-ID` locale formatting and the `Date` clock are not modelled.
- Aggregate.Summarize: the averages and maxima are exact. The `toFixed(2)` rounding followed by `parseFloat` is not modelled, so the posted values are stated before that rounding.
- Duration.FormatDurationRoundTrip: the round trip is stated for whole, non-negative durations. It matches JavaScript below 2^53 seconds, where double arithmetic on the quotient and remainder is exact; above that `Math.floor(seconds / 60)` is a rounded quotient, which the model's exact integers do not reproduce. Non-integer durations cannot reach `formatDuration`, because the tick always floors.
- Validator.ParseValidPPM: real arithmetic stands for IEEE doubles. Rounding, −0 and overflow to Infinity of large inputs are not modelled.
- The rendering of the page is left out. This covers chart drawing, history cards, and hiding and showing the panels.

## Findings

| source | as written | input that shows it | evidently intended | confidence | as-written member | corrected member |
|---|---|---|---|---|---|---|
| src/App.jsx:150-168 | `handleStart` does not reset `testDuration`. Cancel (line 582) keeps it, and the first tick only overwrites it one second after the start. | Stop a test whose duration reached 5 s. Fill in the form and cancel it. Start a new test, receive one reading and stop before one second has passed. Save with the kept form. The POST carries `test_duration: 5`. | Each test reports only its own elapsed time, 0 before its first tick. | not executed | SessionProps.StaleDurationAsWritten | SessionProps.FreshDuration |

`Session.StartAsWritten` is the handler as written, and `SessionProps.InheritedDurationAsWritten` states the carried-over duration for any run. `Session.Apply` and `Session.Run` dispatch a start to `StartAsWritten`, so every property of event runs is about the screen as written. `Session.Start` resets the duration to 0; `SessionProps.FreshDuration` and `SessionProps.CorrectedSessionLifecycle` prove the intended behaviour about it.
