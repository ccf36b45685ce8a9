/**
 * The view model behind the glucose logger screen
 * (GlucoseMocker/ViewModels/GlucoseLoggerViewModel.swift).
 *
 * The health store is foreign: a save is recorded by appending to `writes`,
 * a deletion query by appending its window to `queries`, and a deletion by
 * appending the number of samples handed over to `deletions`. The store's
 * completion handlers are the methods `SaveCompleted`, `DeleteQueryCompleted`
 * and `DeleteCompleted`, called with the store's answer. Blocks the view model
 * itself dispatches to the main queue wait in `mainQueue` until
 * `RunNextMainTask` runs them.
 */
module GlucoseLogger {
  import opened Wrappers
  import opened GlucoseUnits
  import opened Ramp
  import opened AutoSchedule
  import opened Notices

  /** The five stored levels that follow the selected unit. */
  datatype Levels = Levels(glucose: real, min: real, max: real, autoMin: real, autoMax: real)

  /** All five levels re-expressed from one unit in another. */
  function ConvertLevels(l: Levels, from: GlucoseUnit, to: GlucoseUnit): (r: Levels)
    ensures from == to ==> r == l
    ensures l.min <= l.max <==> r.min <= r.max
    ensures l.autoMin <= l.autoMax <==> r.autoMin <= r.autoMax
    ensures l.min <= l.glucose <= l.max <==> r.min <= r.glucose <= r.max
  {
    ConvertRange(from, to, l.min, l.glucose, l.max);
    Levels(from.Convert(l.glucose, to), from.Convert(l.min, to), from.Convert(l.max, to),
           from.Convert(l.autoMin, to), from.Convert(l.autoMax, to))
  }

  /** Switching the unit and switching it back restores every level exactly. */
  lemma ConvertLevelsRoundTrip(l: Levels, a: GlucoseUnit, b: GlucoseUnit)
    ensures ConvertLevels(ConvertLevels(l, a, b), b, a) == l
  {
    ConvertRoundTrip(a, b, l.glucose);
    ConvertRoundTrip(a, b, l.min);
    ConvertRoundTrip(a, b, l.max);
    ConvertRoundTrip(a, b, l.autoMin);
    ConvertRoundTrip(a, b, l.autoMax);
  }

  /**
   * Deleting the auto-logging window reaches every sample a run over the same
   * settings wrote, and a manual deletion reaches the manual sample at its timestamp.
   */
  lemma AutoDeleteCoversAutoSeries(c: AutoConfig, unit: GlucoseUnit, k: nat)
    requires 1 <= c.interval && k < |AutoSeries(c, unit)|
    ensures Covers(DeleteWindow(c.startTime, Some(c.endTime)), AutoSeries(c, unit)[k].time)
    ensures Covers(DeleteWindow(AutoSeries(c, unit)[k].time, None), AutoSeries(c, unit)[k].time)
  {
  }

  /** A block the view model dispatched to the main queue. */
  datatype MainTask = FinishAutoLogging(count: nat)  // report the run's count, clear the run flag

  class GlucoseLoggerViewModel {
    var isAutoLogging: bool
    var glucoseValue: real
    var minGlucose: real
    var maxGlucose: real
    var interval: int          // whole minutes
    var step: real
    var timestamp: int         // seconds
    var autoMinGlucose: real
    var autoMaxGlucose: real
    var autoStartTime: int     // seconds
    var autoEndTime: int       // seconds
    var selectedUnit: GlucoseUnit
    var toastMessage: Option<Notice>

    var writes: seq<Sample>
    var queries: seq<Window>
    var deletions: seq<nat>
    var mainQueue: seq<MainTask>

    /** The interval stepper keeps the interval at one minute or more. */
    predicate Valid()
      reads this
    {
      1 <= interval
    }

    /** The settings an auto-logging run reads. */
    function Config(): AutoConfig
      reads this
    {
      AutoConfig(autoStartTime, autoEndTime, interval, autoMinGlucose, autoMaxGlucose, step)
    }

    /** The five levels that follow the selected unit. */
    function CurrentLevels(): Levels
      reads this
    {
      Levels(glucoseValue, minGlucose, maxGlucose, autoMinGlucose, autoMaxGlucose)
    }

    /** The initial state, at time `now`; the authorization request is not modelled. */
    constructor (now: int)
      ensures Valid()
      ensures !isAutoLogging && selectedUnit == MgdL && toastMessage == None
      ensures CurrentLevels() == Levels(100.0, 72.0, 140.0, 72.0, 140.0)
      ensures interval == 5 && step == 1.0 && timestamp == now
      ensures autoStartTime == now - 5 * SecondsPerMinute && autoEndTime == now
      ensures writes == [] && queries == [] && deletions == [] && mainQueue == []
    {
      isAutoLogging := false;
      glucoseValue, minGlucose, maxGlucose := 100.0, 72.0, 140.0;
      interval, step, timestamp := 5, 1.0, now;
      autoMinGlucose, autoMaxGlucose := 72.0, 140.0;
      autoStartTime, autoEndTime := now - 5 * SecondsPerMinute, now;
      selectedUnit, toastMessage := MgdL, None;
      writes, queries, deletions, mainQueue := [], [], [], [];
    }

    /** Rescales the five levels when the unit changes; nothing else is touched. */
    method ConvertValues(oldUnit: GlucoseUnit, newUnit: GlucoseUnit)
      modifies this`glucoseValue, this`minGlucose, this`maxGlucose, this`autoMinGlucose, this`autoMaxGlucose
      ensures CurrentLevels() == ConvertLevels(old(CurrentLevels()), oldUnit, newUnit)
    {
      if oldUnit == newUnit {
        return;
      }
      var conversionFactor := ConversionFactor;
      if newUnit == MgdL {
        glucoseValue := glucoseValue * conversionFactor;
        minGlucose := minGlucose * conversionFactor;
        maxGlucose := maxGlucose * conversionFactor;
        autoMinGlucose := autoMinGlucose * conversionFactor;
        autoMaxGlucose := autoMaxGlucose * conversionFactor;
      } else {
        glucoseValue := glucoseValue / conversionFactor;
        minGlucose := minGlucose / conversionFactor;
        maxGlucose := maxGlucose / conversionFactor;
        autoMinGlucose := autoMinGlucose / conversionFactor;
        autoMaxGlucose := autoMaxGlucose / conversionFactor;
      }
    }

    /** Assigning `selectedUnit`, with its observer that rescales the levels. */
    method SetSelectedUnit(unit: GlucoseUnit)
      modifies this`selectedUnit, this`glucoseValue, this`minGlucose, this`maxGlucose,
        this`autoMinGlucose, this`autoMaxGlucose
      ensures selectedUnit == unit
      ensures CurrentLevels() == ConvertLevels(old(CurrentLevels()), old(selectedUnit), unit)
    {
      var oldValue := selectedUnit;
      selectedUnit := unit;
      ConvertValues(oldValue, selectedUnit);
    }

    /** Saves the manually entered level at the manually chosen time. */
    method WriteManualGlucoseData()
      modifies this`writes
      ensures writes == old(writes) + [Sample(timestamp, StoredValue(glucoseValue, selectedUnit))]
    {
      WriteGlucoseData(glucoseValue, timestamp);
    }

    /** Asks the store to delete what lies in the minute from the manually chosen time. */
    method DeleteManualGlucoseData()
      modifies this`queries
      ensures queries == old(queries) + [Window(timestamp, timestamp + SecondsPerMinute)]
    {
      DeleteGlucoseData(timestamp, None);
    }

    /**
     * Starts a run unless one is in progress: sets the flag and writes the
     * whole series at once. The flag stays set until the dispatched
     * `FinishAutoLogging` block runs.
     */
    method StartAutoLogging()
      requires Valid()
      modifies this`isAutoLogging, this`writes, this`mainQueue
      ensures Valid()
      ensures old(isAutoLogging) ==> isAutoLogging && writes == old(writes) && mainQueue == old(mainQueue)
      ensures !old(isAutoLogging) ==>
        && isAutoLogging
        && writes == old(writes) + AutoSeries(Config(), selectedUnit)
        && mainQueue == old(mainQueue) + [FinishAutoLogging(|AutoSeries(Config(), selectedUnit)|)]
    {
      if isAutoLogging {
        return;
      }
      isAutoLogging := true;
      LogAllEntriesInRange();
    }

    /** Clears the run flag and nothing else. */
    method StopAutoLogging()
      modifies this`isAutoLogging
      ensures !isAutoLogging
    {
      isAutoLogging := false;
    }

    /** Asks the store to delete what lies in the auto-logging window. */
    method DeleteAutoLoggedData()
      modifies this`queries
      ensures queries == old(queries) + [Window(autoStartTime, autoEndTime)]
    {
      DeleteGlucoseData(autoStartTime, Some(autoEndTime));
    }

    /**
     * Writes the triangular series across the auto-logging window, one sample
     * per interval, while the run flag is set; then dispatches the block that
     * reports how many were written and clears the flag. When the flag is
     * clear, nothing is written and the report says 0.
     */
    method LogAllEntriesInRange()
      requires Valid()
      modifies this`writes, this`mainQueue
      ensures writes == old(writes) + (if isAutoLogging then AutoSeries(Config(), selectedUnit) else [])
      ensures mainQueue == old(mainQueue) + [FinishAutoLogging(|writes| - |old(writes)|)]
    {
      ghost var c := Config();
      var currentTime := autoStartTime;
      var currentValue := autoMinGlucose;
      var maxEntries := MaxEntries(Config());
      var count := 0;
      var increasing := true;

      while currentTime <= autoEndTime && isAutoLogging && count < maxEntries
        invariant 0 <= count && (count == 0 || count <= maxEntries)
        invariant !isAutoLogging ==> count == 0
        invariant currentTime == SampleTime(c, count)
        invariant RampState(currentValue, increasing) == RampAt(count, autoMinGlucose, autoMaxGlucose, step)
        invariant writes == old(writes) + Samples(c, selectedUnit, count)
        invariant mainQueue == old(mainQueue)
      {
        WriteGlucoseData(currentValue, currentTime);
        assert Samples(c, selectedUnit, count + 1) == Samples(c, selectedUnit, count) + [SampleAt(c, selectedUnit, count)];
        SampleTimeNext(c, count);
        ghost var before := RampState(currentValue, increasing);
        assert RampAt(count + 1, autoMinGlucose, autoMaxGlucose, step) == Next(before, autoMinGlucose, autoMaxGlucose, step);

        if increasing {
          currentValue := currentValue + step;
          if currentValue >= autoMaxGlucose {
            currentValue := autoMaxGlucose;
            increasing := false;
          }
        } else {
          currentValue := currentValue - step;
          if currentValue <= autoMinGlucose {
            currentValue := autoMinGlucose;
            increasing := true;
          }
        }
        assert RampState(currentValue, increasing) == Next(before, autoMinGlucose, autoMaxGlucose, step);

        currentTime := currentTime + SecondsPerMinute * interval;
        assert currentTime == SampleTime(c, count + 1);
        count := count + 1;
      }

      if isAutoLogging && count < EntryCount(c) {
        EntryTimeWithinWindow(c, count);
      }
      assert count == if isAutoLogging then EntryCount(c) else 0;
      mainQueue := mainQueue + [FinishAutoLogging(count)];
    }

    /** Saves one level at one time, converted to mg/dL when it was entered in mmol/L. */
    method WriteGlucoseData(value: real, time: int)
      modifies this`writes
      ensures writes == old(writes) + [Sample(time, StoredValue(value, selectedUnit))]
    {
      var convertedValue := value;
      if selectedUnit == MmolL {
        convertedValue := convertedValue * ConversionFactor;
      }
      writes := writes + [Sample(time, convertedValue)];
    }

    /**
     * The save's completion handler, given whether the store accepted the
     * sample: the saved mg/dL number, labelled with the unit selected when
     * the handler runs.
     */
    method SaveCompleted(convertedValue: real, success: bool)
      modifies this`toastMessage
      ensures toastMessage == Some(SaveNoticeAsWritten(convertedValue, selectedUnit, success))
    {
      if success {
        toastMessage := Some(Saved(convertedValue, selectedUnit.RawValue()));
      } else {
        toastMessage := Some(SaveFailed);
      }
    }

    /** Queries the store for the samples in the deletion window. */
    method DeleteGlucoseData(time: int, endTime: Option<int>)
      modifies this`queries
      ensures queries == old(queries) + [DeleteWindow(time, endTime)]
    {
      var adjustedEndTime := if endTime.Some? then endTime.value else time + SecondsPerMinute;
      queries := queries + [Window(time, adjustedEndTime)];
    }

    /**
     * The query's completion handler: a failure or an empty match ends the
     * deletion with its notice; otherwise the matched samples go to the store's delete.
     */
    method DeleteQueryCompleted(result: QueryResult)
      modifies this`toastMessage, this`deletions
      ensures result.Matched? && 0 < result.count ==>
        deletions == old(deletions) + [result.count] && toastMessage == old(toastMessage)
      ensures !(result.Matched? && 0 < result.count) ==>
        deletions == old(deletions) && toastMessage == Some(DeleteOutcome(result, false))
    {
      match result
      case QueryFailed =>
        toastMessage := Some(DeleteFailed);
      case Matched(count) =>
        if count == 0 {
          toastMessage := Some(NothingToDelete);
        } else {
          deletions := deletions + [count];
        }
    }

    /** The delete's completion handler, for the `count` samples the query matched. */
    method DeleteCompleted(count: nat, success: bool)
      modifies this`toastMessage
      ensures 0 < count ==> toastMessage == Some(DeleteOutcome(Matched(count), success))
      ensures toastMessage == Some(if success then Deleted(count) else DeleteFailed)
    {
      if success {
        toastMessage := Some(Deleted(count));
      } else {
        toastMessage := Some(DeleteFailed);
      }
    }

    /** The main queue runs the oldest dispatched block, if any. */
    method RunNextMainTask()
      modifies this`mainQueue, this`isAutoLogging, this`toastMessage
      ensures old(mainQueue) == [] ==> unchanged(this)
      ensures old(mainQueue) != [] ==>
        && mainQueue == old(mainQueue)[1..]
        && !isAutoLogging
        && toastMessage == Some(AutoLogged(old(mainQueue)[0].count))
    {
      if mainQueue != [] {
        var task := mainQueue[0];
        mainQueue := mainQueue[1..];
        toastMessage := Some(AutoLogged(task.count));
        isAutoLogging := false;
      }
    }
  }
}
