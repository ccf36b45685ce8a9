/**
 * The auto-logging button of the form (GlucoseMocker/ContentView.swift:75-82):
 * it stops a run in progress, or starts one.
 */
module ContentView {
  import opened GlucoseUnits
  import opened Ramp
  import opened AutoSchedule
  import opened GlucoseLogger

  /**
   * The button's action as written: when no run is in progress it calls
   * `startAutoLogging`, which already writes the series, and then
   * `logAllEntriesInRange` again. The run flag is only cleared by the block
   * the first call dispatched, which has not run yet, so the second call
   * writes the whole series a second time.
   */
  method AutoLoggingButtonAsWritten(vm: GlucoseLoggerViewModel)
    requires vm.Valid()
    modifies vm`isAutoLogging, vm`writes, vm`mainQueue
    ensures old(vm.isAutoLogging) ==> !vm.isAutoLogging && vm.writes == old(vm.writes)
    ensures !old(vm.isAutoLogging) ==>
      var series := AutoSeries(vm.Config(), vm.selectedUnit);
      && vm.writes == old(vm.writes) + series + series
      && vm.mainQueue == old(vm.mainQueue) + [FinishAutoLogging(|series|), FinishAutoLogging(|series|)]
  {
    if vm.isAutoLogging {
      vm.StopAutoLogging();
    } else {
      vm.StartAutoLogging();
      vm.LogAllEntriesInRange();
    }
  }

  /** With the initial settings, the single sample of a run is saved twice at the same time. */
  lemma InitialRunWrittenTwice(now: int)
    ensures var series := AutoSeries(AutoConfig(now - 5 * SecondsPerMinute, now, 5, 72.0, 140.0, 1.0), MgdL);
      series + series == [Sample(now - 300, 72.0), Sample(now - 300, 72.0)]
  {
    var c := AutoConfig(now - 5 * SecondsPerMinute, now, 5, 72.0, 140.0, 1.0);
    DivModUnique(300, 300, 1, 0);
  }

  /** The button's action as intended: stop a run, or start one, which writes the series once. */
  method AutoLoggingButton(vm: GlucoseLoggerViewModel)
    requires vm.Valid()
    modifies vm`isAutoLogging, vm`writes, vm`mainQueue
    ensures old(vm.isAutoLogging) ==> !vm.isAutoLogging && vm.writes == old(vm.writes)
    ensures !old(vm.isAutoLogging) ==>
      var series := AutoSeries(vm.Config(), vm.selectedUnit);
      && vm.isAutoLogging
      && vm.writes == old(vm.writes) + series
      && vm.mainQueue == old(vm.mainQueue) + [FinishAutoLogging(|series|)]
  {
    if vm.isAutoLogging {
      vm.StopAutoLogging();
    } else {
      vm.StartAutoLogging();
    }
  }
}
