# GlucoseMocker in Dafny

GlucoseMocker is an iOS utility that writes mock blood-glucose samples to
HealthKit. This project models its core and proves properties of the model:

- the glucose unit enum and its conversion between mmol/L and mg/dL
  (`GlucoseUnit.swift`);
- the view model (`GlucoseLoggerViewModel.swift`), including:
  - rescaling the five stored levels when the selected unit changes;
  - manual writes and deletions;
  - starting and stopping auto-logging;
  - the loop that writes a triangular series of samples across a time window;
  - saving every level in mg/dL;
  - the deletion window and how a deletion ends.
- the auto-logging button of the form (`ContentView.swift`).

Modules, one per file:

| module | file | what it holds |
|---|---|---|
| `Wrappers` | `wrappers.dfy` | `Option` |
| `GlucoseUnits` | `glucose_unit.dfy` | the unit enum, its raw values and `Convert` |
| `Ramp` | `ramp.dfy` | the loop's value update and its closed form as a triangular wave |
| `AutoSchedule` | `schedule.dfy` | the number of entries, sample times and stored levels of one run |
| `Notices` | `notices.dfy` | the toast outcomes, the deletion window and the deletion outcome |
| `GlucoseLogger` | `view_model.dfy` | the `GlucoseLoggerViewModel` class |
| `ContentView` | `content_view.dfy` | the auto-logging button, as written and as intended |

How the model represents the source:

- **Values.** Times are whole seconds. Levels are exact reals. The interval is a whole number of minutes, at least one (the interval stepper offers 1...60 in steps of 1).
- **The health store.** It is foreign, so the view model keeps logs:
  - `writes`: every sample saved;
  - `queries`: every deletion window queried;
  - `deletions`: how many samples each delete handed over.
- **Completion handlers.** Each store completion handler is a method that receives the store's answer as a parameter.
- **The main queue.** The block `logAllEntriesInRange` dispatches to the main queue waits in `mainQueue` until `RunNextMainTask` runs it. That block shows the count and clears the run flag.

Behaviour of the code worth noting:

- Starting while a run is in progress silently does nothing.
- The entry count is `Int((end - start) / 60 / interval)`, truncated toward zero.
- All samples of a run are written at once, with times spaced one interval apart across the window. Nothing waits between writes.
- The loop runs to completion in one call, so a stop cannot interrupt a run in progress.
- The reported count is the number of saves attempted, whatever the store answers.
- The loop's guard `currentTime <= autoEndTime` never decides anything:
  - the count is always `max(0, maxEntries)`;
  - every sample lies at least one interval before the window's end (`AutoSchedule.AutoSeries`).

## Model

| member | source | states |
|---|---|---|
| GlucoseUnits.GlucoseUnit.RawValue | GlucoseMocker/Utils/GlucoseUnit.swift:5-7 | mmol/L and mg/dL are the two raw values |
| GlucoseUnits.GlucoseUnit.Id | GlucoseMocker/Utils/GlucoseUnit.swift:9 | the id identifies the unit: exactly one case has that raw value |
| GlucoseUnits.GlucoseUnit.Convert | GlucoseMocker/Utils/GlucoseUnit.swift:18-21 | same unit gives the value back; mmol/L to mg/dL multiplies by 18.0182; mg/dL to mmol/L gives the value that multiplied by 18.0182 is the input |
| GlucoseUnits.AllCases | GlucoseMocker/Utils/GlucoseUnit.swift:5 | the case list has two distinct entries |
| GlucoseUnits.AllCasesComplete | GlucoseMocker/Utils/GlucoseUnit.swift:5-7 | every unit is in the case list |
| GlucoseUnits.FromRawValue | GlucoseMocker/Utils/GlucoseUnit.swift:5-7 | a unit built from a string has that string as its raw value |
| GlucoseUnits.RawValueRoundTrip | GlucoseMocker/Utils/GlucoseUnit.swift:5-7 | building from a raw value gives the unit back, and a string builds unit u exactly when it is u's raw value |
| GlucoseUnits.ConvertToSameUnit | GlucoseMocker/Utils/GlucoseUnit.swift:19 | converting to the same unit is the identity |
| GlucoseUnits.ConvertRoundTrip | GlucoseMocker/Utils/GlucoseUnit.swift:18-21 | converting there and back restores the value exactly |
| GlucoseUnits.ConvertCompose | GlucoseMocker/Utils/GlucoseUnit.swift:18-21 | converting through an intermediate unit equals converting directly |
| GlucoseUnits.ConvertMonotone | GlucoseMocker/Utils/GlucoseUnit.swift:18-21 | conversion preserves and reflects both <= and < |
| GlucoseUnits.ConvertRange | GlucoseMocker/Utils/GlucoseUnit.swift:18-21 | a level lies in [lo, hi] exactly when its converted form lies between the converted bounds |
| Ramp.Next | GlucoseMocker/ViewModels/GlucoseLoggerViewModel.swift:97-110 | one step of the up/down update keeps a level inside [min, max] for a non-negative step |
| Ramp.RampAt | GlucoseMocker/ViewModels/GlucoseLoggerViewModel.swift:89-114 | the level of the k-th sample always lies inside [min, max] when min <= max and step >= 0 |
| Ramp.RampStartsAtMin | GlucoseMocker/ViewModels/GlucoseLoggerViewModel.swift:89-92 | the first sample is min, going up |
| Ramp.FlipsOnlyAtClamp | GlucoseMocker/ViewModels/GlucoseLoggerViewModel.swift:98-110 | the direction turns exactly when the next level would reach or pass a bound, the level then equals that bound, and otherwise the level moves by exactly one step |
| Ramp.FlatRampIsConstant | GlucoseMocker/ViewModels/GlucoseLoggerViewModel.swift:97-110 | with min == max every level is that constant |
| Ramp.WideStepAlternates | GlucoseMocker/ViewModels/GlucoseLoggerViewModel.swift:97-110 | a step covering the whole range alternates min, max, min, ... |
| Ramp.RampIsTriangleWave | GlucoseMocker/ViewModels/GlucoseLoggerViewModel.swift:94-114 | when max - min is m whole steps, the series equals a reference triangular wave of period 2m |
| Ramp.PhaseIsRemainder | GlucoseMocker/ViewModels/GlucoseLoggerViewModel.swift:94-114 | the reference wave's phase at sample k is k modulo 2m, so the wave is in closed form |
| Ramp.RampIsPeriodic | GlucoseMocker/ViewModels/GlucoseLoggerViewModel.swift:94-114 | in that case the series repeats every 2m samples |
| AutoSchedule.Trunc | GlucoseMocker/ViewModels/GlucoseLoggerViewModel.swift:90 | the conversion to Int rounds toward zero (floor for non-negative, ceiling for non-positive) |
| AutoSchedule.StoredValue | GlucoseMocker/ViewModels/GlucoseLoggerViewModel.swift:125-130 | the saved level is the entered level converted to mg/dL |
| AutoSchedule.MaxEntries | GlucoseMocker/ViewModels/GlucoseLoggerViewModel.swift:90 | for a forward window maxEntries is the whole number of intervals in it; a reversed window gives no positive count |
| AutoSchedule.EntryCount | GlucoseMocker/ViewModels/GlucoseLoggerViewModel.swift:90-94 | the number of samples a run writes is the whole number of intervals in a forward window, and 0 for a window shorter than one interval or reversed |
| AutoSchedule.SampleTime | GlucoseMocker/ViewModels/GlucoseLoggerViewModel.swift:88-112 | no sample time is before the start, and only the first sample is at the start |
| AutoSchedule.AutoSeries | GlucoseMocker/ViewModels/GlucoseLoggerViewModel.swift:87-114 | a run writes one sample per entry, each inside the window and at least one interval before its end |
| AutoSchedule.EntryTimeWithinWindow | GlucoseMocker/ViewModels/GlucoseLoggerViewModel.swift:90-94 | every entry below the count starts at least one interval before the window's end, so the time guard never stops the loop |
| AutoSchedule.AutoSeriesLength | GlucoseMocker/ViewModels/GlucoseLoggerViewModel.swift:87-114 | a run writes (end - start) / (60 * interval) samples; a window shorter than one interval writes none |
| AutoSchedule.AutoSeriesTimes | GlucoseMocker/ViewModels/GlucoseLoggerViewModel.swift:88-112 | the k-th sample is k intervals after the start |
| AutoSchedule.AutoSeriesEvenlySpaced | GlucoseMocker/ViewModels/GlucoseLoggerViewModel.swift:112 | samples are a whole number of intervals apart and strictly increasing in time |
| AutoSchedule.AutoSeriesValuesInRange | GlucoseMocker/ViewModels/GlucoseLoggerViewModel.swift:89-130 | every saved level lies between the saved min and max, and the first one is the saved min |
| AutoSchedule.TenMinuteWindowScenario | GlucoseMocker/ViewModels/GlucoseLoggerViewModel.swift:87-120 | a 10-minute window, 70...100, step 10, every 5 minutes writes 70 at the start and 80 five minutes later |
| Notices.DeleteWindow | GlucoseMocker/ViewModels/GlucoseLoggerViewModel.swift:146-155 | the window starts at the timestamp and ends at the given end, or one minute later when none is given |
| Notices.DeleteOutcome | GlucoseMocker/ViewModels/GlucoseLoggerViewModel.swift:157-181 | an empty match reports nothing to delete; a failed query or failed delete reports failure; a successful delete reports the matched count; each as an if-and-only-if |
| Notices.DeleteOutcomeIgnoresUnissuedDelete | GlucoseMocker/ViewModels/GlucoseLoggerViewModel.swift:157-171 | for a failed query or an empty match the outcome does not depend on a delete |
| Notices.SaveNoticeAsWritten | GlucoseMocker/ViewModels/GlucoseLoggerViewModel.swift:135-141 | the notice as written: the saved mg/dL number labelled with the selected unit |
| Notices.SaveNoticeMislabelled | GlucoseMocker/ViewModels/GlucoseLoggerViewModel.swift:125-138 | for any nonzero mmol/L entry the notice as written claims mmol/L but shows a different number |
| Notices.SaveNotice | GlucoseMocker/ViewModels/GlucoseLoggerViewModel.swift:135-141 | a success notice carries the saved number labelled mg/dL; a failure gives the failure notice |
| Notices.SaveNoticeTruthful | GlucoseMocker/ViewModels/GlucoseLoggerViewModel.swift:125-138 | read in the unit it names and converted back, the notice gives exactly the entered level |
| GlucoseLogger.ConvertLevels | GlucoseMocker/ViewModels/GlucoseLoggerViewModel.swift:46-63 | no change for the same unit; min <= max, autoMin <= autoMax and min <= glucose <= max each hold after the rescale exactly when they held before |
| GlucoseLogger.ConvertLevelsRoundTrip | GlucoseMocker/ViewModels/GlucoseLoggerViewModel.swift:46-63 | switching the unit and back restores all five levels |
| GlucoseLogger.AutoDeleteCoversAutoSeries | GlucoseMocker/ViewModels/GlucoseLoggerViewModel.swift:83-85 | the auto deletion window contains every sample a run over the same settings wrote, and the one-minute manual window contains a sample at its start |
| GlucoseLogger.GlucoseLoggerViewModel.constructor | GlucoseMocker/ViewModels/GlucoseLoggerViewModel.swift:6-24 | the defaults: 100, 72...140, interval 5, step 1, window the last five minutes, mg/dL, not running |
| GlucoseLogger.GlucoseLoggerViewModel.ConvertValues | GlucoseMocker/ViewModels/GlucoseLoggerViewModel.swift:46-63 | the five levels become their rescaled forms and nothing else changes |
| GlucoseLogger.GlucoseLoggerViewModel.SetSelectedUnit | GlucoseMocker/ViewModels/GlucoseLoggerViewModel.swift:19-21 | the unit changes and the levels are rescaled from the old unit to the new one |
| GlucoseLogger.GlucoseLoggerViewModel.WriteManualGlucoseData | GlucoseMocker/ViewModels/GlucoseLoggerViewModel.swift:65-67 | one sample, the entered level in mg/dL at the chosen time, is saved |
| GlucoseLogger.GlucoseLoggerViewModel.DeleteManualGlucoseData | GlucoseMocker/ViewModels/GlucoseLoggerViewModel.swift:69-71 | the one-minute window from the chosen time is queried |
| GlucoseLogger.GlucoseLoggerViewModel.StartAutoLogging | GlucoseMocker/ViewModels/GlucoseLoggerViewModel.swift:73-77 | does nothing while running; otherwise sets the flag, saves the whole series and queues the report of its length |
| GlucoseLogger.GlucoseLoggerViewModel.StopAutoLogging | GlucoseMocker/ViewModels/GlucoseLoggerViewModel.swift:79-81 | clears the run flag and nothing else |
| GlucoseLogger.GlucoseLoggerViewModel.DeleteAutoLoggedData | GlucoseMocker/ViewModels/GlucoseLoggerViewModel.swift:83-85 | the auto-logging window is queried |
| GlucoseLogger.GlucoseLoggerViewModel.LogAllEntriesInRange | GlucoseMocker/ViewModels/GlucoseLoggerViewModel.swift:87-120 | while running, the loop saves exactly the run's series in order (none when not running), then queues a report of how many it saved |
| GlucoseLogger.GlucoseLoggerViewModel.WriteGlucoseData | GlucoseMocker/ViewModels/GlucoseLoggerViewModel.swift:122-133 | one sample at the given time, with the level converted to mg/dL, is saved |
| GlucoseLogger.GlucoseLoggerViewModel.SaveCompleted | GlucoseMocker/ViewModels/GlucoseLoggerViewModel.swift:135-141 | the toast becomes the save notice as the source builds it: on success the saved mg/dL number labelled with the unit selected when the handler runs, otherwise the failure notice |
| GlucoseLogger.GlucoseLoggerViewModel.DeleteGlucoseData | GlucoseMocker/ViewModels/GlucoseLoggerViewModel.swift:146-155 | the deletion window is queried |
| GlucoseLogger.GlucoseLoggerViewModel.DeleteQueryCompleted | GlucoseMocker/ViewModels/GlucoseLoggerViewModel.swift:157-171 | a non-empty match is handed to the delete without a notice; a failure or empty match ends with its notice and deletes nothing |
| GlucoseLogger.GlucoseLoggerViewModel.DeleteCompleted | GlucoseMocker/ViewModels/GlucoseLoggerViewModel.swift:173-181 | the toast reports the deleted count on success and failure otherwise, as the deletion outcome of the match |
| GlucoseLogger.GlucoseLoggerViewModel.RunNextMainTask | GlucoseMocker/ViewModels/GlucoseLoggerViewModel.swift:116-119 | the oldest queued report runs: the toast shows its count and the run flag is cleared |
| ContentView.AutoLoggingButtonAsWritten | GlucoseMocker/ContentView.swift:75-82 | the button as written stops a run, or saves the run's series twice and queues two reports |
| ContentView.InitialRunWrittenTwice | GlucoseMocker/ContentView.swift:79-80 | with the initial settings the single sample, 72 mg/dL five minutes ago, is saved twice |
| ContentView.AutoLoggingButton | GlucoseMocker/ContentView.swift:75-82 | the button as intended stops a run, or starts one that saves the series once |

## Left out

- HealthKit authorization (`GlucoseLoggerViewModel.swift:28-44`) is not modelled. The store is assumed to be available, so the quantity-type guards at lines 123 and 147 always pass. The store is foreign code.
- The store's own behaviour is not modelled. Its answers to save, query and delete are parameters of the completion-handler methods.
- `Notices.Covers` approximates which samples the `.strictEndDate` predicate matches: a point sample inside the closed window.
- `GlucoseUnit.hkUnit` (`GlucoseUnit.swift:11-16`) is not modelled. It only names HealthKit unit objects, and every sample is saved in mg/dL.
- Toast wording, the `showToast` flag and its three-second hide timer (lines 187-194) are not modelled. Notices are the `Notice` datatype. Time-driven UI is outside the model.
- Double rounding is not modelled. Levels are exact reals, so `ConvertRoundTrip` is exact here, while in Double it holds only up to rounding.
- Calendar arithmetic is not modelled. Adding `interval` minutes is adding `60 * interval` seconds. Daylight-saving effects and the `?? currentTime` and `?? Date()` fallbacks (lines 16-17, 112) are not modelled. Dates are whole seconds.
- `GlucoseLogger.GlucoseLoggerViewModel.Valid`: the interval is a whole number of minutes, at least 1. This is what the interval stepper allows. A fractional interval would make line 90 (Double) and line 112 (`Int(interval)`) disagree, and that case is not modelled.
- Swift `Int` overflow of `count` and `maxEntries` is not modelled. Integers are unbounded, and realistic windows are far below the limit.
- `[weak self]` is not modelled. The view model is assumed alive when a handler runs.
- Callbacks may interleave, and that is not modelled: each handler method is atomic and may be called in any order.
- `HealthKitManager.swift`, `DateFormatter.swift`, `TimeUnit.swift` and `DatePickerWithSeconds.swift` are not part of this model. None of them is used by the core.
- Of the view layer, only the auto-logging button and the interval stepper's lower bound are modelled.

## Findings

| source | as written | input that shows it | evidently intended | confidence | as-written member | corrected member |
|---|---|---|---|---|---|---|
| GlucoseMocker/ContentView.swift:79-80 | the start button calls `startAutoLogging()`, which already runs `logAllEntriesInRange()`, and then calls `logAllEntriesInRange()` again; the run flag is only cleared by a block queued on the main queue, so it is still set for the second call | initial settings at time t: the sample (t - 300 s, 72 mg/dL) is saved twice and two reports are queued | the series is saved once per press | high; not executed | ContentView.AutoLoggingButtonAsWritten, ContentView.InitialRunWrittenTwice | ContentView.AutoLoggingButton |
| GlucoseMocker/ViewModels/GlucoseLoggerViewModel.swift:138 | the save notice shows `convertedValue`, which is in mg/dL, labelled with `selectedUnit.rawValue` | 5.0 entered in mmol/L: the notice reads 90.091 mmol/L | the saved number labelled with the unit it is in, mg/dL | high; not executed | Notices.SaveNoticeAsWritten, Notices.SaveNoticeMislabelled | Notices.SaveNotice, Notices.SaveNoticeTruthful |
