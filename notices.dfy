/**
 * The outcomes the view model reports in its toast, and the pure parts of the
 * save and delete paths (GlucoseMocker/ViewModels/GlucoseLoggerViewModel.swift:
 * 116-184). Message wording and the display timer are not modelled; a notice
 * is the outcome and the numbers the message carries.
 */
module Notices {
  import opened Wrappers
  import opened GlucoseUnits
  import opened AutoSchedule

  datatype Notice =
    | Saved(value: real, unitLabel: string)  // a save succeeded: the level and the unit shown with it
    | SaveFailed                             // a save was refused by the store
    | AutoLogged(count: nat)                 // an auto-logging run finished after `count` writes
    | DeleteFailed                           // the query or the deletion failed
    | NothingToDelete                        // the query matched no sample
    | Deleted(count: nat)                    // `count` matched samples were deleted

  /** A closed time window [start, end] in seconds, as queried for deletion. */
  datatype Window = Window(start: int, end: int)

  /** Whether a point sample taken at `t` lies in the window, ends included. */
  predicate Covers(w: Window, t: int) {
    w.start <= t <= w.end
  }

  /** What the store's sample query answered. */
  datatype QueryResult = QueryFailed | Matched(count: nat)

  /** The deletion window: from `timestamp` to the given end, or one minute long when there is none. */
  function DeleteWindow(timestamp: int, endTimestamp: Option<int>): (w: Window)
    ensures w.start == timestamp
    ensures endTimestamp.Some? ==> w.end == endTimestamp.value
    ensures endTimestamp.None? ==> w.end - w.start == SecondsPerMinute
  {
    match endTimestamp
    case Some(e) => Window(timestamp, e)
    case None => Window(timestamp, timestamp + SecondsPerMinute)
  }

  /**
   * The notice a deletion ends with, given the query's answer and, when a
   * deletion was issued, whether it succeeded. An empty match is its own
   * outcome, not an error; a deletion reports how many samples the query matched.
   */
  function DeleteOutcome(r: QueryResult, deleteSucceeded: bool): (n: Notice)
    ensures n == NothingToDelete <==> r == Matched(0)
    ensures n.Deleted? <==> r.Matched? && 0 < r.count && deleteSucceeded
    ensures n.Deleted? ==> n.count == r.count
    ensures n == DeleteFailed <==> r.QueryFailed? || (0 < r.count && !deleteSucceeded)
  {
    match r
    case QueryFailed => DeleteFailed
    case Matched(count) =>
      if count == 0 then NothingToDelete
      else if deleteSucceeded then Deleted(count)
      else DeleteFailed
  }

  /** A deletion is only issued, and so its success only matters, for a non-empty match. */
  lemma DeleteOutcomeIgnoresUnissuedDelete(r: QueryResult)
    requires !(r.Matched? && 0 < r.count)
    ensures DeleteOutcome(r, true) == DeleteOutcome(r, false)
  {
  }

  /**
   * The save notice as the source builds it: the saved number, which is in
   * mg/dL, labelled with the unit the user selected.
   */
  function SaveNoticeAsWritten(convertedValue: real, selected: GlucoseUnit, success: bool): (n: Notice)
    ensures success <==> n.Saved?
    ensures n.Saved? ==> n.value == convertedValue && FromRawValue(n.unitLabel) == Some(selected)
  {
    if success then Saved(convertedValue, selected.RawValue()) else SaveFailed
  }

  /** For any nonzero level entered in mmol/L the notice as written misstates it in its own unit. */
  lemma SaveNoticeMislabelled(v: real)
    requires v != 0.0
    ensures var n := SaveNoticeAsWritten(StoredValue(v, MmolL), MmolL, true);
      && FromRawValue(n.unitLabel) == Some(MmolL)
      && n.value != v
  {
  }

  /** The save notice labels the saved number with the unit it is in, mg/dL. */
  function SaveNotice(convertedValue: real, success: bool): (n: Notice)
    ensures success <==> n.Saved?
    ensures n.Saved? ==> n.value == convertedValue && FromRawValue(n.unitLabel) == Some(MgdL)
  {
    if success then Saved(convertedValue, MgdL.RawValue()) else SaveFailed
  }

  /** Read in the unit it names, the save notice gives back exactly the level entered. */
  lemma SaveNoticeTruthful(v: real, entered: GlucoseUnit)
    ensures var n := SaveNotice(StoredValue(v, entered), true);
      && FromRawValue(n.unitLabel).Some?
      && FromRawValue(n.unitLabel).value.Convert(n.value, entered) == v
  {
    ConvertRoundTrip(entered, MgdL, v);
  }
}
