/** The runtime storage monitor (src/services/storageMonitor.js). The
    module-level refs become the fields of one StorageMonitor object. The
    registered callbacks are flags; each call of one is appended to `fired`,
    so that what the monitor made happen can be stated. The free-space
    reading is a parameter of every check, which is split at its await:
    what runs before it is one method and what runs after it another, so
    that other calls can come in between. */
module StorageMonitor {
  import opened Wrappers
  import opened Text
  import opened Storage

  /** The status a check reports: a level, or 'unknown' when the disk
      could not be read. */
  datatype Reported = Level(level: StorageStatus) | Unknown

  datatype Action = ForceStop | Warn | NoAction

  datatype CheckResult = CheckResult(status: Reported, freeMB: int, action: Action)

  /** Which of onLow, onCritical and onRecovered were given. */
  datatype Callbacks = Callbacks(onLow: bool, onCritical: bool, onRecovered: bool)

  const NoCallbacks := Callbacks(false, false, false)

  datatype Notification = LowStorage(freeMB: int) | CriticalStorage(freeMB: int) | StorageRecovered(freeMB: int)

  /** The module state. `intervalSet` says whether `monitorInterval` holds a
      timer; `leakedTimers` counts intervals still running whose handle was
      overwritten, which no stop can clear; `starting` counts the
      startStorageMonitor calls suspended at their first check. */
  datatype MonitorState = MonitorState(
    status: StorageStatus, freeMB: int, monitoring: bool, intervalSet: bool, leakedTimers: nat,
    starting: nat, callbacks: Callbacks, fired: seq<Notification>)

  const InitialMonitor := MonitorState(Sufficient, -1, false, false, 0, 0, NoCallbacks, [])

  /** The number of 30-second intervals running. */
  function LiveTimers(s: MonitorState): nat
  {
    s.leakedTimers + if s.intervalSet then 1 else 0
  }

  /** What startStorageMonitor returns: `{ status, freeMB }`. */
  datatype StartReply = StartReply(status: Reported, freeMB: int)

  /** The action a level calls for. */
  function ActionFor(s: StorageStatus): (a: Action)
    ensures a == ForceStop <==> s == Critical
    ensures a == Warn <==> s == Low
  {
    match s
    case Critical => ForceStop
    case Low => Warn
    case Sufficient => NoAction
  }

  /** The callback a check calls when the level goes from `previous` to
      `current`: none unless the level changed, and then only the one
      belonging to the new level, if it was registered. */
  function Notify(previous: StorageStatus, current: StorageStatus, freeMB: int, cb: Callbacks): (r: seq<Notification>)
    ensures |r| <= 1
  {
    if current == previous then []
    else if current == Critical && cb.onCritical then [CriticalStorage(freeMB)]
    else if current == Low && cb.onLow then [LowStorage(freeMB)]
    else if current == Sufficient && previous != Sufficient && cb.onRecovered then [StorageRecovered(freeMB)]
    else []
  }

  /** Callbacks fire only on a change of level, each for the level entered,
      and the recovered callback only on coming back to ok. */
  lemma NotifyOnChangeOnly(previous: StorageStatus, current: StorageStatus, freeMB: int, cb: Callbacks)
    ensures current == previous ==> Notify(previous, current, freeMB, cb) == []
    ensures Notify(previous, current, freeMB, cb) == [CriticalStorage(freeMB)] <==> current != previous && current == Critical && cb.onCritical
    ensures Notify(previous, current, freeMB, cb) == [LowStorage(freeMB)] <==> current != previous && current == Low && cb.onLow
    ensures Notify(previous, current, freeMB, cb) == [StorageRecovered(freeMB)]
      <==> previous != Sufficient && current == Sufficient && cb.onRecovered
  {
  }

  /** Without registered callbacks nothing ever fires. */
  lemma NoCallbacksNoNotification(previous: StorageStatus, current: StorageStatus, freeMB: int)
    ensures Notify(previous, current, freeMB, NoCallbacks) == []
  {
  }

  /** checkStorage once its reading arrives: a failed reading changes
      nothing; otherwise the level and figures are stored and Notify's
      callback fires, with the callbacks registered at that moment. */
  function Checked(s: MonitorState, space: FreeSpace): MonitorState
  {
    if space.Unmeasured? then s
    else
      var level := Classify(space.freeMB);
      s.(status := level, freeMB := space.freeMB, fired := s.fired + Notify(s.status, level, space.freeMB, s.callbacks))
  }

  /** startStorageMonitor up to the await of its first check. */
  function Begun(s: MonitorState, given: Callbacks): MonitorState
  {
    if s.monitoring then s else s.(callbacks := given, starting := s.starting + 1)
  }

  /** startStorageMonitor after its first check: the check's update, then
      monitoring on and a new interval, whose handle replaces any other. */
  function FirstChecked(s: MonitorState, space: FreeSpace): MonitorState
    requires s.starting > 0
  {
    var c := Checked(s, space);
    c.(monitoring := true, intervalSet := true,
       leakedTimers := if s.intervalSet then s.leakedTimers + 1 else s.leakedTimers, starting := s.starting - 1)
  }

  /** stopStorageMonitor: the interval in the handle is cleared and the
      figures, flag and callbacks go back to their initial values. Leaked
      intervals, suspended starts and what already fired stay. */
  function Stopped(s: MonitorState): MonitorState
  {
    MonitorState(Sufficient, -1, false, false, s.leakedTimers, s.starting, NoCallbacks, s.fired)
  }

  class Monitor {
    var currentStatus: StorageStatus
    var currentFreeMB: int
    var isMonitoring: bool
    var intervalSet: bool
    var leakedTimers: nat
    var starting: nat
    var callbacks: Callbacks
    var fired: seq<Notification>

    function State(): MonitorState
      reads this
    {
      MonitorState(currentStatus, currentFreeMB, isMonitoring, intervalSet, leakedTimers, starting, callbacks, fired)
    }

    /** The module's initial values. */
    constructor ()
      ensures State() == InitialMonitor
    {
      currentStatus := Sufficient;
      currentFreeMB := -1;
      isMonitoring := false;
      intervalSet := false;
      leakedTimers := 0;
      starting := 0;
      callbacks := NoCallbacks;
      fired := [];
    }

    /** checkStorage after its awaited reading; nothing precedes that await,
        so a forced check is this step alone. A reading that failed leaves
        everything as it was. */
    method CheckStorage(space: FreeSpace) returns (r: CheckResult)
      modifies this
      ensures space.Unmeasured? ==> r == CheckResult(Unknown, -1, NoAction) && State() == old(State())
      ensures space.Measured? ==>
        var level := Classify(space.freeMB);
        r == CheckResult(Level(level), space.freeMB, ActionFor(level))
        && State() == old(State()).(status := level, freeMB := space.freeMB,
             fired := old(fired) + Notify(old(currentStatus), level, space.freeMB, old(callbacks)))
      ensures State() == Checked(old(State()), space)
    {
      if space.Unmeasured? {
        return CheckResult(Unknown, -1, NoAction);
      }
      var freeMB := space.freeMB;
      var previousStatus := currentStatus;
      currentFreeMB := freeMB;
      var action;
      if freeMB < CriticalStorageMB {
        currentStatus := Critical;
        action := ForceStop;
      } else if freeMB < MinStorageMB {
        currentStatus := Low;
        action := Warn;
      } else {
        currentStatus := Sufficient;
        action := NoAction;
      }
      if currentStatus != previousStatus {
        if currentStatus == Critical && callbacks.onCritical {
          fired := fired + [CriticalStorage(freeMB)];
        } else if currentStatus == Low && callbacks.onLow {
          fired := fired + [LowStorage(freeMB)];
        } else if currentStatus == Sufficient && previousStatus != Sufficient && callbacks.onRecovered {
          fired := fired + [StorageRecovered(freeMB)];
        }
      }
      r := CheckResult(Level(currentStatus), freeMB, action);
    }

    /** startStorageMonitor up to the await of its first check. When already
      monitoring it answers at once with the current figures; otherwise it
      registers the callbacks and waits, still not monitoring, so that a
      second start or a stop can run before the check returns. */
    method Start(given: Callbacks) returns (r: Option<StartReply>)
      modifies this
      ensures old(isMonitoring) ==>
        r == Some(StartReply(Level(old(currentStatus)), old(currentFreeMB))) && State() == old(State())
      ensures !old(isMonitoring) ==>
        r.None? && State() == old(State()).(callbacks := given, starting := old(starting) + 1)
      ensures State() == Begun(old(State()), given)
    {
      if isMonitoring {
        return Some(StartReply(Level(currentStatus), currentFreeMB));
      }
      callbacks := given;
      starting := starting + 1;
      r := None;
    }

    /** startStorageMonitor once its first reading arrives: the check's
      update, then monitoring on and one more interval running; the reply
      is the check's status and megabytes. */
    method FirstCheckDone(space: FreeSpace) returns (r: StartReply)
      requires starting > 0
      modifies this
      ensures r == if space.Unmeasured? then StartReply(Unknown, -1) else StartReply(Level(Classify(space.freeMB)), space.freeMB)
      ensures isMonitoring && intervalSet && LiveTimers(State()) == LiveTimers(old(State())) + 1
      ensures State() == FirstChecked(old(State()), space)
    {
      var initial := CheckStorage(space);
      if intervalSet {
        leakedTimers := leakedTimers + 1;
      }
      intervalSet := true;
      isMonitoring := true;
      starting := starting - 1;
      r := StartReply(initial.status, initial.freeMB);
    }

    /** What an interval runs every 30 seconds, up to its await: a reading
      is requested exactly while monitoring. When it arrives the rest is
      CheckStorage, whatever happened in between. */
    method Tick() returns (reading: bool)
      ensures reading == isMonitoring
    {
      reading := isMonitoring;
    }

    /** stopStorageMonitor: back to the initial values; what fired stays
      fired, and only the interval in the handle is cleared. */
    method Stop()
      modifies this
      ensures State() == MonitorState(Sufficient, -1, false, false, old(leakedTimers), old(starting), NoCallbacks, old(fired))
      ensures State() == Stopped(old(State()))
    {
      intervalSet := false;
      isMonitoring := false;
      currentStatus := Sufficient;
      currentFreeMB := -1;
      callbacks := NoCallbacks;
    }

    /** getStorageStatus. */
    function GetStorageStatus(): (r: (StorageStatus, int, bool))
      reads this
      ensures r == (State().status, State().freeMB, State().monitoring)
    {
      (currentStatus, currentFreeMB, isMonitoring)
    }
  }

  /** With nothing in between, the two steps of startStorageMonitor register
      the callbacks, check once with them, turn monitoring on and start one
      interval. */
  lemma UninterruptedStart(s: MonitorState, given: Callbacks, space: FreeSpace)
    requires !s.monitoring
    ensures var t := FirstChecked(Begun(s, given), space);
      t.monitoring && t.callbacks == given && t.starting == s.starting && LiveTimers(t) == LiveTimers(s) + 1
      && (space.Unmeasured? ==> t.status == s.status && t.freeMB == s.freeMB && t.fired == s.fired)
      && (space.Measured? ==>
            t.status == Classify(space.freeMB) && t.freeMB == space.freeMB
            && t.fired == s.fired + Notify(s.status, Classify(space.freeMB), space.freeMB, given))
  {
  }

  /** A second start while the first awaits its check is not turned away:
      the second callbacks replace the first and two intervals run, of which
      a stop clears only one. */
  lemma SecondStartDuringFirstCheck(s: MonitorState, first: Callbacks, second: Callbacks, a: FreeSpace, b: FreeSpace)
    requires !s.monitoring && LiveTimers(s) == 0
    ensures var t := FirstChecked(FirstChecked(Begun(Begun(s, first), second), a), b);
      t.monitoring && t.callbacks == second && LiveTimers(t) == 2 && LiveTimers(Stopped(t)) == 1
  {
  }

  /** A stop while a start awaits its check is undone when the check
      returns: monitoring is back on, with no callbacks, so nothing fires. */
  lemma StopDuringFirstCheckIsUndone(s: MonitorState, given: Callbacks, space: FreeSpace)
    requires !s.monitoring
    ensures var t := FirstChecked(Stopped(Begun(s, given)), space);
      t.monitoring && t.callbacks == NoCallbacks && t.fired == s.fired && LiveTimers(t) == s.leakedTimers + 1
  {
  }

  /** After a stop no callback can fire until the next start, whatever
      the readings. */
  method StoppedMonitorStaysQuiet(m: Monitor, a: FreeSpace, b: FreeSpace) returns (reading: bool)
    modifies m
    ensures m.fired == old(m.fired) && !m.isMonitoring && !reading
  {
    m.Stop();
    reading := m.Tick();
    var _ := m.CheckStorage(b);
  }

  datatype PreCheck = PreCheck(canStart: bool, status: Reported, freeMB: int, message: Option<string>)

  const UnverifiedMessage := "Could not verify available storage. Recording may fail if storage is full."

  function CriticalMessage(freeMB: nat): string
  {
    "Cannot start recording. Only " + NatToString(freeMB)
      + "MB of storage remaining. Please free up at least 500MB to continue."
  }

  function LowMessage(freeMB: nat): string
  {
    "Low storage warning: Only " + NatToString(freeMB) + "MB remaining. Recording may be interrupted if storage runs out."
  }

  /** checkStorageBeforeRecording. */
  function CheckStorageBeforeRecording(space: FreeSpace): (r: PreCheck)
    ensures space.Unmeasured? ==> r.canStart && r.status == Unknown && r.freeMB == -1 && r.message.Some?
    ensures space.Measured? ==> r.status == Level(Classify(space.freeMB)) && r.freeMB == space.freeMB
    ensures !r.canStart <==> r.status == Level(Critical)
    ensures r.message.None? <==> r.status == Level(Sufficient)
  {
    match space
    case Unmeasured(_) =>
      PreCheck(true, Unknown, -1, Some(UnverifiedMessage))
    case Measured(_, freeMB) =>
      if freeMB < CriticalStorageMB then
        PreCheck(false, Level(Critical), freeMB, Some(CriticalMessage(freeMB)))
      else if freeMB < MinStorageMB then
        PreCheck(true, Level(Low), freeMB, Some(LowMessage(freeMB)))
      else PreCheck(true, Level(Sufficient), freeMB, None)
  }

  /** The pre-recording check agrees with checkStorageForRecording on
      whether to record, except that it names an unread disk 'unknown'. */
  lemma PreCheckAgreesWithStorageCheck(space: FreeSpace)
    ensures CheckStorageBeforeRecording(space).canStart == CheckStorageForRecording(space).canRecord
    ensures space.Measured? ==> CheckStorageBeforeRecording(space).status == Level(CheckStorageForRecording(space).status)
  {
  }
}
