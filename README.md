# Circular time slider: time-range arithmetic

A Dafny model of the logic behind a circular sleep-style time picker. Two knobs sit on a
24-hour dial as angles in degrees (0 at the top, i.e. midnight, growing clockwise). The
view model turns the pair of angles into a duration that wraps past midnight, the share
of the ring the highlighted arc covers, a duration text ("H hr M min") and clock texts
("HH:MM") with minutes rounded down to 5. It also reads an "HH:MM" text back into an hour
and a minute. The view resolves a pointer position into an angle with `atan2` and writes
the knob angles when a knob or an hour label is dragged. It also has a guarded change
that keeps the knobs at least 20 degrees apart.

Files:

- `optional.dfy`: `Option`, used for Swift's failable results.
- `decimal.dfy`: Swift's `"\(n)"` rendering of an `Int` and its `Int(String)` parse, on 64-bit values.
- `dial.dfy`: angles on the dial; `Wrap360` gives the dial angle pointing the same way as any real angle.
- `view_model.dfy` (module `SliderViewModel`): `Config`, the pure derived values, and the class
  `CircularTimeSliderViewModel`. The class has the two angle fields and the text methods with the
  round-down loop. The module also has the split-and-parse step of `updateDateWithTime`.
- `view.dfy` (module `SliderView`): the hour labels and `calcAngle`. Its class `CircularTimeSlider`
  holds the view model and has the methods that write the angles: `change`, the knob drags and the
  hour-label rotate.

`Double` is modelled as `real`. `Int(Double)` is truncation toward zero (`Trunc`), so the
model also covers negative angles. `atan2` is a library call, so the view methods take it
as a function parameter. Its range, (-pi, pi], is a precondition at the pointer in use
(`AtanInRange`). `pi` is the decimal literal of `Double.pi` (3.141592653589793), taken as an exact real.

Points where the code's behaviour is easy to misread, and which the model follows as written:

- The guard in `change` compares plain differences of angles. It does not measure the gap around the dial.
- `calcAngle` has no special fallback for a pointer at the centre.
- The duration wraps only when the start is strictly later than the end, so equal angles give 0.
- Angles are not kept in [0, 360) by every mutation. The hour-label rotate and `change` can leave them outside. See Findings.

## Model

| member | source | states |
|---|---|---|
| `Decimal.IntToString` | AppleSleepCircularSliderClone/CircularTimeSlider/ViewModel/CircularTimeSliderViewModel.swift:52 | `"\(n)"` is non-empty and has no ':'; a non-negative value gives only digits and a negative one starts with '-' |
| `Decimal.ParseInt` | AppleSleepCircularSliderClone/CircularTimeSlider/ViewModel/CircularTimeSliderViewModel.swift:128-129 | `Int(String)` succeeds only with a value in the 64-bit range; an unsigned digit text reads as its decimal value, and a `+` or `-` followed by digits as that value with the sign, when it fits; the same texts with a value outside the range are nil; a text starting with anything other than a digit or a sign is nil |
| `Decimal.ParseIntRejectsInnerNonDigit` | AppleSleepCircularSliderClone/CircularTimeSlider/ViewModel/CircularTimeSliderViewModel.swift:128-129 | a non-digit anywhere after the first character makes `Int(String)` nil |
| `Decimal.IntToStringRoundTrip` | AppleSleepCircularSliderClone/CircularTimeSlider/ViewModel/CircularTimeSliderViewModel.swift:128-129 | `Int("\(n)")` is `n` for every 64-bit `n` |
| `Dial.Wrap360` | AppleSleepCircularSliderClone/CircularTimeSlider/View/CircularTimeSliderView.swift:182-184 | the result is in [0, 360) and differs from the argument by whole turns |
| `SliderViewModel.DefaultConfigGeometry` | AppleSleepCircularSliderClone/CircularTimeSlider/ViewModel/CircularTimeSliderViewModel.swift:161-167 | with the view model's default `Config` (radius 130, knob radius 20, lines 11-16) the ring is 260 across (twice the 130 radius), the knobs are 40 across (twice 20), there are 24*60/10 = 144 steps, and one step of the ring is 10 minutes |
| `SliderViewModel.MapRotationToTime` | AppleSleepCircularSliderClone/CircularTimeSlider/ViewModel/CircularTimeSliderViewModel.swift:19-21 | hours times 15 gives back the degrees (a full turn is 24 h); an angle on the dial gives hours in [0, 24) |
| `SliderViewModel.MapRotationToTimeExamples` | AppleSleepCircularSliderClone/CircularTimeSlider/ViewModel/CircularTimeSliderViewModel.swift:19-21 | 0° is 0 h, 90° is 6 h, 300° is 20 h |
| `SliderViewModel.TotalDuration` | AppleSleepCircularSliderClone/CircularTimeSlider/ViewModel/CircularTimeSliderViewModel.swift:28-35 | the duration is the end hour minus the start hour, or that plus 24; for angles on the dial it is in [0, 24) and is 0 exactly when the angles are equal |
| `SliderViewModel.ConnectorLength` | AppleSleepCircularSliderClone/CircularTimeSlider/ViewModel/CircularTimeSliderViewModel.swift:56-63 | 360 times the fraction is end minus start, or that plus 360; for angles on the dial it is in [0, 1) and is 0 exactly when the angles are equal |
| `SliderViewModel.DurationIsArcOfDay` | AppleSleepCircularSliderClone/CircularTimeSlider/ViewModel/CircularTimeSliderViewModel.swift:28-63 | for all angles the duration is 24 times the arc fraction |
| `SliderViewModel.ConnectorIsClockwiseAngle` | AppleSleepCircularSliderClone/CircularTimeSlider/ViewModel/CircularTimeSliderViewModel.swift:56-63 | on the dial, 360 times the arc fraction is the clockwise angle from start to end (end minus start wrapped onto the dial) |
| `SliderViewModel.ShiftKeepsArcAndDuration` | AppleSleepCircularSliderClone/CircularTimeSlider/ViewModel/CircularTimeSliderViewModel.swift:28-63 | turning both angles by the same amount keeps the arc fraction and the duration |
| `SliderViewModel.Trunc` | AppleSleepCircularSliderClone/CircularTimeSlider/ViewModel/CircularTimeSliderViewModel.swift:44-45 | `Int(x)` is the floor of a non-negative `x` and the ceiling of a negative one |
| `SliderViewModel.FloorToFive` | AppleSleepCircularSliderClone/CircularTimeSlider/ViewModel/CircularTimeSliderViewModel.swift:47-50 | the result is a multiple of 5, at most `m` and more than `m - 5` |
| `SliderViewModel.MinuteOfHour` | AppleSleepCircularSliderClone/CircularTimeSlider/ViewModel/CircularTimeSliderViewModel.swift:45 | for a non-negative hour value the minutes are in 0..59, and whole hours plus minutes is the value in minutes truncated |
| `SliderViewModel.RoundDownToFive` | AppleSleepCircularSliderClone/CircularTimeSlider/ViewModel/CircularTimeSliderViewModel.swift:47-50 | the step-down loop ends at the largest multiple of 5 not above its start, for every integer |
| `SliderViewModel.ShownTimeRoundsDown` | AppleSleepCircularSliderClone/CircularTimeSlider/ViewModel/CircularTimeSliderViewModel.swift:43-50 | for a non-negative hour value the shown minutes are a multiple of 5 in 0..55, and the shown hours and minutes are the value rounded down to 5 minutes |
| `SliderViewModel.Pad2Field` | AppleSleepCircularSliderClone/CircularTimeSlider/ViewModel/CircularTimeSliderViewModel.swift:84-85 | a padded non-negative field is all digits, reads back as its value, and is two characters for values up to 99 |
| `SliderViewModel.ClockTextOnDial` | AppleSleepCircularSliderClone/CircularTimeSlider/ViewModel/CircularTimeSliderViewModel.swift:74-87 | for an angle on the dial the text is 5 characters "HH:MM", HH 00..23, MM a multiple of 5 in 00..55, and the time shown is the angle's time of day rounded down to 5 minutes |
| `SliderViewModel.ClockTextExamples` | AppleSleepCircularSliderClone/CircularTimeSlider/ViewModel/CircularTimeSliderViewModel.swift:74-87 | 14h22m shows "14:20" and 14h59m shows "14:55" |
| `SliderViewModel.DurationTextShape` | AppleSleepCircularSliderClone/CircularTimeSlider/ViewModel/CircularTimeSliderViewModel.swift:42-52 | on the dial, hours 0..23 and minutes a multiple of 5 in 0..55 give the duration rounded down to 5 minutes; the text is "H hr M min" when there is a whole hour and "M min" otherwise |
| `SliderViewModel.DurationTextExamples` | AppleSleepCircularSliderClone/CircularTimeSlider/ViewModel/CircularTimeSliderViewModel.swift:5-6 | the default 0° to 90° reads "6 hr 0 min"; 300° to 90° wraps midnight and reads "10 hr 0 min" |
| `SliderViewModel.FirstColon` | AppleSleepCircularSliderClone/CircularTimeSlider/ViewModel/CircularTimeSliderViewModel.swift:126 | the index is that of the first ':' or the length when there is none |
| `SliderViewModel.Split` | AppleSleepCircularSliderClone/CircularTimeSlider/ViewModel/CircularTimeSliderViewModel.swift:126 | every piece is non-empty and has no ':'; a text with no ':' is one piece, or none when empty |
| `SliderViewModel.NonEmpty` | AppleSleepCircularSliderClone/CircularTimeSlider/ViewModel/CircularTimeSliderViewModel.swift:126 | the pieces `split` keeps: none is empty, each is one of the given pieces, and a sequence without empty pieces is kept whole |
| `SliderViewModel.SplitJoinAll` | AppleSleepCircularSliderClone/CircularTimeSlider/ViewModel/CircularTimeSliderViewModel.swift:126 | any sequence of colon-free pieces, empty ones included, joined with ':' splits into its non-empty pieces in order; since every text is the join of its colon-free segments, this fixes `split` on every text |
| `SliderViewModel.SplitJoin` | AppleSleepCircularSliderClone/CircularTimeSlider/ViewModel/CircularTimeSliderViewModel.swift:126 | any sequence of non-empty colon-free pieces joined with ':' splits back into exactly those pieces, in order |
| `SliderViewModel.SplitDropsInnerEmpty` | AppleSleepCircularSliderClone/CircularTimeSlider/ViewModel/CircularTimeSliderViewModel.swift:126 | "12::30" splits into "12" and "30": the empty segment between the colons is dropped |
| `SliderViewModel.SplitDropsOuterEmpty` | AppleSleepCircularSliderClone/CircularTimeSlider/ViewModel/CircularTimeSliderViewModel.swift:126 | ":12:30:" splits into "12" and "30": empty segments at either end are dropped |
| `SliderViewModel.SplitColonsOnly` | AppleSleepCircularSliderClone/CircularTimeSlider/ViewModel/CircularTimeSliderViewModel.swift:126 | "::" splits into no pieces |
| `SliderViewModel.SplitPair` | AppleSleepCircularSliderClone/CircularTimeSlider/ViewModel/CircularTimeSliderViewModel.swift:126 | two non-empty colon-free texts joined by ':' split back into those two |
| `SliderViewModel.TimeComponents` | AppleSleepCircularSliderClone/CircularTimeSlider/ViewModel/CircularTimeSliderViewModel.swift:126-133 | a text without ':' is rejected (nil) |
| `SliderViewModel.TimeComponentsOfJoin` | AppleSleepCircularSliderClone/CircularTimeSlider/ViewModel/CircularTimeSliderViewModel.swift:126-133 | on any text, written as its colon-free segments joined by ':', the parser succeeds exactly when there are two non-empty segments and both read as an `Int`, and returns those two values; empty segments are skipped |
| `SliderViewModel.TimeComponentsInnerEmpty` | AppleSleepCircularSliderClone/CircularTimeSlider/ViewModel/CircularTimeSliderViewModel.swift:126-133 | "12::30" reads as hour 12, minute 30 |
| `SliderViewModel.TimeComponentsColonsOnly` | AppleSleepCircularSliderClone/CircularTimeSlider/ViewModel/CircularTimeSliderViewModel.swift:126-133 | "::" is nil |
| `SliderViewModel.TimeComponentsRejectsPieceCount` | AppleSleepCircularSliderClone/CircularTimeSlider/ViewModel/CircularTimeSliderViewModel.swift:126-133 | "1:2:3" (three pieces) and "12" (one piece) are nil |
| `SliderViewModel.TimeComponentsRejectsNonInteger` | AppleSleepCircularSliderClone/CircularTimeSlider/ViewModel/CircularTimeSliderViewModel.swift:126-133 | "1a:30" (a piece that is not an `Int`) is nil |
| `SliderViewModel.ClockTextRoundTrip` | AppleSleepCircularSliderClone/CircularTimeSlider/ViewModel/CircularTimeSliderViewModel.swift:126-133 | any "HH:MM" text with non-negative fields parses back to the same hour and minute |
| `SliderViewModel.FormatParseRoundTrip` | AppleSleepCircularSliderClone/CircularTimeSlider/ViewModel/CircularTimeSliderViewModel.swift:126-133 | the clock text of any angle on the dial parses back to the hour and minute it shows |
| `SliderViewModel.CircularTimeSliderViewModel.constructor` | AppleSleepCircularSliderClone/CircularTimeSlider/ViewModel/CircularTimeSliderViewModel.swift:5-16 | a new view model selects 0° to 90° (00:00 to 06:00), both on the dial, with the default configuration |
| `SliderViewModel.CircularTimeSliderViewModel.GetFormattedDuration` | AppleSleepCircularSliderClone/CircularTimeSlider/ViewModel/CircularTimeSliderViewModel.swift:42-53 | the text is the duration text of the current total duration |
| `SliderViewModel.CircularTimeSliderViewModel.GetStartTime` | AppleSleepCircularSliderClone/CircularTimeSlider/ViewModel/CircularTimeSliderViewModel.swift:66-68 | the text is the clock text of the start angle |
| `SliderViewModel.CircularTimeSliderViewModel.GetEndTime` | AppleSleepCircularSliderClone/CircularTimeSlider/ViewModel/CircularTimeSliderViewModel.swift:70-72 | the text is the clock text of the end angle |
| `SliderViewModel.CircularTimeSliderViewModel.FormatTimeForRotation` | AppleSleepCircularSliderClone/CircularTimeSlider/ViewModel/CircularTimeSliderViewModel.swift:74-87 | the text is the padded truncated hour, ':', and the padded minutes rounded down to 5 |
| `SliderView.GetHourStringByInt` | AppleSleepCircularSliderClone/CircularTimeSlider/View/CircularTimeSliderView.swift:138-148 | the label is empty exactly for odd numbers; otherwise it reads as the number, except 24, which reads "0" |
| `SliderView.RawAngleRange` | AppleSleepCircularSliderClone/CircularTimeSlider/View/CircularTimeSliderView.swift:178-180 | for an `atan2` value in (-pi, pi] the turned angle is in (-90, 270] |
| `SliderView.CircularTimeSlider.CalcAngle` | AppleSleepCircularSliderClone/CircularTimeSlider/View/CircularTimeSliderView.swift:175-187 | the result is on the dial and is the dial angle of the pointer (the turned `atan2` angle, wrapped) |
| `SliderView.CircularTimeSlider.Change` | AppleSleepCircularSliderClone/CircularTimeSlider/View/CircularTimeSliderView.swift:189-209 | for STARTTIME the start moves to the pointer if the end stays 20° ahead, else the end is pushed to start + 20; ENDTIME is symmetric; only one field is written; CONNECTOR changes nothing; afterwards end - start >= 20 |
| `SliderView.CircularTimeSlider.DragStartKnob` | AppleSleepCircularSliderClone/CircularTimeSlider/View/CircularTimeSliderView.swift:77-83 | the start becomes the pointer angle with no guard; the end is unchanged; both are on the dial if the end was |
| `SliderView.CircularTimeSlider.DragEndKnob` | AppleSleepCircularSliderClone/CircularTimeSlider/View/CircularTimeSliderView.swift:93-99 | the end becomes the pointer angle with no guard; the start is unchanged; both are on the dial if the start was |
| `SliderView.CircularTimeSlider.DragHourLabel` | AppleSleepCircularSliderClone/CircularTimeSlider/View/CircularTimeSliderView.swift:58-66 | the start becomes the pointer angle and end - start is kept exactly, so the arc fraction and the duration are kept |
| `SliderView.CircularTimeSlider.DragHourLabelOnDial` | AppleSleepCircularSliderClone/CircularTimeSlider/View/CircularTimeSliderView.swift:58-66 | corrected rotate: both knobs stay on the dial, the start becomes the pointer angle, and the arc fraction and the duration are kept |
| `SliderView.RotateFromDefaultShowsHour26` | AppleSleepCircularSliderClone/CircularTimeSlider/View/CircularTimeSliderView.swift:61-64 | from the default state, dragging an hour label to 300° leaves the end at 390° and the end time reads "26:00" |
| `SliderView.RotateThenDragStartOverlong` | AppleSleepCircularSliderClone/CircularTimeSlider/View/CircularTimeSliderView.swift:61-81 | after that rotate (start 300°, end 390°), a start-knob drag to 10° gives a duration of 76/3 hours (at least 24), an arc of 19/18 (at least the whole ring) and the text "25 hr 20 min" |
| `SliderView.OverlongDurationAndArc` | AppleSleepCircularSliderClone/CircularTimeSlider/ViewModel/CircularTimeSliderViewModel.swift:29-34 | from 10° to 390° the duration is 76/3 hours, 25 whole hours and 20 minutes, and the arc is 19/18 |
| `SliderView.OverlongDurationText` | AppleSleepCircularSliderClone/CircularTimeSlider/ViewModel/CircularTimeSliderViewModel.swift:42-52 | a duration of 76/3 hours reads "25 hr 20 min" |
| `SliderView.EndBelowZeroUnreadable` | AppleSleepCircularSliderClone/CircularTimeSlider/ViewModel/CircularTimeSliderViewModel.swift:84-86 | an end at -270° is shown as "0-18:00", a text the `updateDateWithTime` parser would reject (in the code that parser reads only the start text) |

## Left out

- The SwiftUI `body`, `getKnob`, the tick and label drawing, the colours and the `#Preview` block are left out. They only render.
- The haptic feedback on a change of `duration` is left out. It is a device side effect.
- The `@Published`/`ObservableObject` notifications are left out, and so are `didStartTimeTapped`, `didEndTimeTapped`, `selectedDate` and `startDate`. They carry no logic.
- `formattedDurationBetweenTimes` and the `duration` property are left out. They rely on `DateFormatter` and `Date.timeIntervalSince`. Their result, computed from texts already rounded down to 5 minutes, can differ from `getFormattedDuration`.
- The `Calendar`/`DateComponents` step of `updateDateWithTime` is left out. `TimeComponents` models only the split and the two `Int` parses, and returns the hour and minute instead of a `Date`.
- `ContentView.swift` only creates the view and is not part of this model.
- Floating point is not modelled. Angles are exact reals, so `start += angle - start` gives exactly `angle`, and the double rounding of `(24/360) * degrees` and of the minute product is absent.
- A trap of `Int(Double)` on a value outside the 64-bit range is not modelled. Angles that large do not arise from a drag.
- `atan2` is a parameter, and its range is a precondition of the methods that use it. Its values are not modelled, and neither is the behaviour at the centre of the ring.
- `Config.minDurationTime` is modelled as a field. Nothing in the code reads it: `change` uses its own 20°.
- `change(_:_:)` is modelled as written, but nothing in the view calls it. The knob drags assign without a guard.
- SliderViewModel.TimeComponents: its own contract states only that a text without ':' is rejected. Its full behaviour on every text, written as the join of its colon-free segments (empty ones included), is stated by `TimeComponentsOfJoin`, and success on every clock text by `ClockTextRoundTrip` and `FormatParseRoundTrip`.
- The `print("Invalid time format")` that `updateDateWithTime` logs before returning nil is left out. It is console output; the model returns `None` only.
- Swift's `split(separator:)` compares `Character`s (grapheme clusters), while `Split` compares single `char`s. A ':' followed by a combining mark is a separator in the model but not in Swift. Unicode segmentation is not modelled.

## Findings

| source | as written | input that shows it | evidently intended | confidence | as-written member | corrected member |
|---|---|---|---|---|---|---|
| AppleSleepCircularSliderClone/CircularTimeSlider/View/CircularTimeSliderView.swift:61-64 | the hour-label drag adds the turn to the end angle and never brings it back into [0, 360), so the end time text can show an hour of 24 or more, or a negative hour | default state (0° to 90°), drag an hour label to 300°: end becomes 390° and the end time reads "26:00"; from 300° to 30°, drag to 0°: end becomes -270° and reads "0-18:00", a text the `updateDateWithTime` parser would reject (that parser reads only the start text in the code, and the end text reaches only `DateFormatter`, which is not modelled); and after the first rotate (300° to 390°), dragging the start knob to 10° gives a duration of 25 hr 20 min and an arc of 19/18 of the ring, outside the [0, 24) hours and [0, 1) ring that hold while both knobs are on the dial | the end angle wrapped onto the dial, so the end time stays within 00:00..23:55 with the same arc and duration | not executed; high | `SliderView.CircularTimeSlider.DragHourLabel`, shown by `SliderView.RotateFromDefaultShowsHour26`, `SliderView.EndBelowZeroUnreadable` and `SliderView.RotateThenDragStartOverlong` | `SliderView.CircularTimeSlider.DragHourLabelOnDial` |
