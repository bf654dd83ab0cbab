/** The disk-space checks of the Electron main process
    (src-electron/disk-utils.js). The reading from the disk library is a
    parameter: the free bytes, or None when the call threw. */
module DiskUtils {
  import opened Wrappers
  import opened Text

  const Mebibyte: nat := 1024 * 1024
  const MinFreeSpace: nat := 500 * 1024 * 1024
  const CriticalFreeSpace: nat := 100 * 1024 * 1024

  /** getAvailableSpace: the reading, or one byte above the start threshold
      when the check failed, so that recording is still allowed. */
  function AvailableSpace(reading: Option<nat>): (free: nat)
    ensures reading.Some? ==> free == reading.value
    ensures reading.None? ==> free == MinFreeSpace + 1
  {
    match reading
    case Some(free) => free
    case None => MinFreeSpace + 1
  }

  /** `Math.round(free / (1024 * 1024))`: halves round up. */
  function RoundMB(free: nat): (mb: nat)
    ensures mb * Mebibyte <= free + Mebibyte / 2 < (mb + 1) * Mebibyte
  {
    (free + Mebibyte / 2) / Mebibyte
  }

  datatype StartCheck = StartCheck(canStart: bool, freeSpace: nat, freeSpaceMB: nat, message: string)

  datatype StopCheck = StopCheck(shouldStop: bool, freeSpace: nat, freeSpaceMB: nat)

  function LowSpaceMessage(freeSpaceMB: nat): (m: string)
    ensures m != ""
  {
    "Insufficient disk space. You need at least 500MB free to start recording. Currently available: "
      + NatToString(freeSpaceMB) + "MB"
  }

  /** canStartRecording. */
  function CanStartRecording(reading: Option<nat>): (r: StartCheck)
    ensures r.freeSpace == AvailableSpace(reading) && r.freeSpaceMB == RoundMB(r.freeSpace)
    ensures r.canStart <==> r.freeSpace >= MinFreeSpace
    ensures r.message == "" <==> r.canStart
  {
    var free := AvailableSpace(reading);
    var freeSpaceMB := RoundMB(free);
    var canStart := free >= MinFreeSpace;
    var message := if canStart then "" else LowSpaceMessage(freeSpaceMB);
    StartCheck(canStart, free, freeSpaceMB, message)
  }

  /** shouldForceStopRecording. */
  function ShouldForceStopRecording(reading: Option<nat>): (r: StopCheck)
    ensures r.freeSpace == AvailableSpace(reading) && r.freeSpaceMB == RoundMB(r.freeSpace)
    ensures r.shouldStop <==> r.freeSpace < CriticalFreeSpace
  {
    var free := AvailableSpace(reading);
    StopCheck(free < CriticalFreeSpace, free, RoundMB(free))
  }

  /** Because the critical threshold is below the start threshold, a
      reading that forces a stop also forbids a start. */
  lemma StopImpliesNoStart(reading: Option<nat>)
    ensures ShouldForceStopRecording(reading).shouldStop ==> !CanStartRecording(reading).canStart
  {
  }

  /** A failed reading allows starting and never forces a stop. */
  lemma FailedReadingAllows()
    ensures CanStartRecording(None).canStart && CanStartRecording(None).message == ""
    ensures !ShouldForceStopRecording(None).shouldStop
  {
  }

  /** Both checks report the same rounded figure for the same reading. */
  lemma SameFigure(reading: Option<nat>)
    ensures CanStartRecording(reading).freeSpaceMB == ShouldForceStopRecording(reading).freeSpaceMB
  {
  }
}
