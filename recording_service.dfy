/** The recording service (src/services/recordingService.js): the singleton
    that owns the MediaRecorder. Its module-level variables are the fields of
    one Service object; the MediaRecorder is reduced to its `state` (or its
    absence). A listener is a callback identity. Each emitted event is
    appended to `emitted`; emitting it calls every listener registered for
    it, and each call is appended to `calls`, together with whether that
    callback threw (an oracle parameter). The
    100 ms level timer and the 1 s duration timer are flags plus the Tick
    methods their callbacks run; the audio level and the elapsed seconds are
    parameters of the ticks. */
module RecordingService {
  import opened Wrappers
  import RecordingStore

  /** `mediaRecorder` is null, or a recorder in one of its three states. */
  datatype RecorderState = NoRecorder | Inactive | Recording | Paused

  /** A registered callback, by identity. */
  type Callback = nat

  datatype Payload =
    | NoPayload
    | Level(level: real)
    | Warning(message: Option<string>)
    | Seconds(seconds: int)
    | Minutes(minutes: int)
    | StateChange(isRecording: bool, isPaused: bool)

  datatype Event = Event(name: string, data: Payload)

  /** One call of a listener, and whether it threw. */
  datatype Call = Call(callback: Callback, event: Event, threw: bool)

  /** The MediaRecorder calls the service makes beyond its state changes. */
  datatype RecorderCall = RequestData | PauseRecorder | ResumeRecorder

  const LevelChange := "levelChange"
  const SilenceWarning := "silenceWarning"
  const StateChanged := "stateChange"
  const DurationChange := "durationChange"
  const LimitWarning := "limitWarning"
  const LimitReached := "limitReached"

  /** The level under which a tick counts as silent. */
  const SilenceThreshold: real := 1.0
  /** Ticks of the 100 ms level timer: 10 s and 30 s of silence. */
  const WarningTicks: nat := 100
  const PauseTicks: nat := 300
  /** 4 h 55 min, the length at which a recording is split. */
  const MaxDurationSeconds: nat := 4 * 60 * 60 + 55 * 60
  /** The limit warning comes 5 minutes before the limit. */
  const LimitWarningSeconds: int := 300

  const NoAudioMessage := "No audio detected - check if your microphone is connected and not muted"
  const SilencePauseMessage := "Recording paused: Microphone disconnected or muted for too long"
  const NoAudioWarning := Event(SilenceWarning, Warning(Some(NoAudioMessage)))
  const SilencePauseWarning := Event(SilenceWarning, Warning(Some(SilencePauseMessage)))

  // ---------------------------------------------------------------- listeners

  /** The listeners of one event in registration order: a JS Set iterates in
      insertion order and holds each callback once. */
  function RegisteredIn(listeners: map<string, seq<Callback>>, name: string): seq<Callback>
  {
    if name in listeners then listeners[name] else []
  }

  predicate Distinct(cbs: seq<Callback>)
  {
    forall i, j :: 0 <= i < j < |cbs| ==> cbs[i] != cbs[j]
  }

  /** Set.add: a callback already present stays where it is. */
  function Added(cbs: seq<Callback>, c: Callback): (r: seq<Callback>)
    ensures forall d :: d in r <==> d in cbs || d == c
    ensures Distinct(cbs) ==> Distinct(r)
    ensures c in cbs ==> r == cbs
  {
    if c in cbs then cbs else cbs + [c]
  }

  /** Set.delete. */
  function Without(cbs: seq<Callback>, c: Callback): (r: seq<Callback>)
    ensures forall d :: d in r <==> d in cbs && d != c
    ensures |r| <= |cbs|
    ensures Distinct(cbs) ==> Distinct(r)
  {
    if cbs == [] then []
    else
      var rest := Without(cbs[1..], c);
      assert forall d :: d in cbs <==> d == cbs[0] || d in cbs[1..];
      if cbs[0] == c then rest
      else
        assert Distinct(cbs) ==> cbs[0] !in rest && Distinct(cbs[1..]);
        assert Distinct(cbs) ==> forall j :: 0 < j < |[cbs[0]] + rest| ==> ([cbs[0]] + rest)[j] == rest[j - 1];
        [cbs[0]] + rest
  }

  /** The calls one emit makes: every listener, in order, whether or not an
      earlier one threw. */
  function Deliveries(cbs: seq<Callback>, e: Event, throws: (Callback, Event) -> bool): seq<Call>
  {
    if cbs == [] then []
    else
      var last := cbs[|cbs| - 1];
      Deliveries(cbs[..|cbs| - 1], e, throws) + [Call(last, e, throws(last, e))]
  }

  lemma {:induction false} DeliveriesReachEveryone(cbs: seq<Callback>, e: Event, throws: (Callback, Event) -> bool)
    ensures var r := Deliveries(cbs, e, throws);
      |r| == |cbs| && forall i :: 0 <= i < |cbs| ==> r[i] == Call(cbs[i], e, throws(cbs[i], e))
  {
    if cbs != [] {
      DeliveriesReachEveryone(cbs[..|cbs| - 1], e, throws);
    }
  }

  /** After a removal the emit reaches every other listener of the event and
      never the removed one. */
  lemma RemovedListenerIsNotCalled(cbs: seq<Callback>, c: Callback, e: Event, throws: (Callback, Event) -> bool)
    ensures var calls := Deliveries(Without(cbs, c), e, throws);
      (forall k :: 0 <= k < |calls| ==> calls[k].callback != c)
      && (forall d :: d in cbs && d != c ==> exists k :: 0 <= k < |calls| && calls[k].callback == d)
  {
    var r := Without(cbs, c);
    var calls := Deliveries(r, e, throws);
    DeliveriesReachEveryone(r, e, throws);
    assert forall k :: 0 <= k < |calls| ==> calls[k].callback == r[k] && r[k] in r;
    forall d | d in cbs && d != c
      ensures exists k :: 0 <= k < |calls| && calls[k].callback == d
    {
      var k :| 0 <= k < |r| && r[k] == d;
      assert calls[k].callback == d;
    }
  }

  // ---------------------------------------------------------------- silence

  /** silenceCounter, silenceWarningShown and silenceError. */
  datatype Silence = Silence(counter: nat, shown: bool, error: Option<string>)

  const Quiet := Silence(0, false, None)

  /** What one level tick does to the silence state, the warnings it emits,
      and whether it calls for the emergency pause. */
  datatype SilenceOutcome = SilenceOutcome(next: Silence, events: seq<Event>, pause: bool)

  function SilenceStep(s: Silence, level: real): SilenceOutcome
  {
    if level < SilenceThreshold then
      var n := s.counter + 1;
      var warn := n >= WarningTicks && !s.shown;
      var warned := if warn then Silence(n, true, Some(NoAudioMessage)) else s.(counter := n);
      var warnings := if warn then [NoAudioWarning] else [];
      if n >= PauseTicks then
        SilenceOutcome(warned.(error := Some(SilencePauseMessage)), warnings + [SilencePauseWarning], true)
      else SilenceOutcome(warned, warnings, false)
    else if s.counter > 0 then SilenceOutcome(Quiet, [Event(SilenceWarning, Warning(None))], false)
    else SilenceOutcome(s, [], false)
  }

  /** The flag and the error are only ever set after 10 s of silence. */
  predicate SilenceConsistent(s: Silence)
  {
    (s.shown || s.error.Some?) ==> s.counter >= WarningTicks
  }

  /** One tick: a silent one counts, the warning comes when the counter first
      reaches 100 and the pause from 300 on; a sound one goes back to the
      quiet state and announces it only if there was silence to clear. */
  lemma SilenceStepFacts(s: Silence, level: real)
    ensures var o := SilenceStep(s, level);
      SilenceConsistent(s) ==> SilenceConsistent(o.next)
    ensures var o := SilenceStep(s, level);
      level < SilenceThreshold ==>
        o.next.counter == s.counter + 1
        && (NoAudioWarning in o.events <==> s.counter + 1 >= WarningTicks && !s.shown)
        && (o.pause <==> s.counter + 1 >= PauseTicks)
    ensures var o := SilenceStep(s, level);
      level >= SilenceThreshold ==>
        !o.pause && (s.counter > 0 ==> o.next == Quiet && o.events == [Event(SilenceWarning, Warning(None))])
        && (s.counter == 0 ==> o.events == [])
        && (SilenceConsistent(s) ==> o.next == Quiet)
  {
  }

  /** Several level ticks in a row. */
  function SilenceRun(s: Silence, levels: seq<real>): SilenceOutcome
  {
    if levels == [] then SilenceOutcome(s, [], false)
    else
      var before := SilenceRun(s, levels[..|levels| - 1]);
      var step := SilenceStep(before.next, levels[|levels| - 1]);
      SilenceOutcome(step.next, before.events + step.events, before.pause || step.pause)
  }

  /** The state after `k` silent ticks from the quiet state. */
  function SilentFor(k: nat): Silence
  {
    Silence(k, k >= WarningTicks,
      if k < WarningTicks then None else if k < PauseTicks then Some(NoAudioMessage) else Some(SilencePauseMessage))
  }

  /** `k` silent ticks from the quiet state: the "no audio" warning has been
      emitted exactly once if `k` reached 100 and never before, and the pause
      was called for exactly when `k` reached 300. */
  lemma {:induction false} SilentTicks(levels: seq<real>)
    requires forall i :: 0 <= i < |levels| ==> levels[i] < SilenceThreshold
    ensures var o := SilenceRun(Quiet, levels);
      o.next == SilentFor(|levels|)
      && multiset(o.events)[NoAudioWarning] == (if |levels| >= WarningTicks then 1 else 0)
      && (o.pause <==> |levels| >= PauseTicks)
  {
    if levels != [] {
      var init := levels[..|levels| - 1];
      SilentTicks(init);
      var before := SilenceRun(Quiet, init);
      var step := SilenceStep(before.next, levels[|levels| - 1]);
      assert before.next == SilentFor(|init|);
      var w := NoAudioWarning;
      assert multiset(step.events)[w] == (if |levels| == WarningTicks then 1 else 0);
      assert step.next == SilentFor(|levels|);
    }
  }

  // ---------------------------------------------------------------- limit

  /** ⌈remaining / 60⌉ for a positive number of seconds. */
  function CeilMinutes(remaining: int): (m: int)
    requires remaining > 0
    ensures (m - 1) * 60 < remaining <= m * 60
  {
    (remaining + 59) / 60
  }

  /** What one second of the duration timer decides about the minutes limit
      and the auto-split, after the duration has been reported. */
  datatype DurationOutcome = DurationOutcome(shown: bool, events: seq<Event>, reached: bool, split: bool)

  function DurationStep(limit: Option<int>, shown: bool, splitting: bool, seconds: nat): DurationOutcome
  {
    if limit.Some? && limit.value > 0 && limit.value - seconds <= 0 then
      DurationOutcome(shown, [Event(LimitReached, NoPayload)], true, false)
    else
      var split := seconds >= MaxDurationSeconds && !splitting;
      if limit.Some? && limit.value > 0 && limit.value - seconds <= LimitWarningSeconds && !shown then
        DurationOutcome(true, [Event(LimitWarning, Minutes(CeilMinutes(limit.value - seconds)))], false, split)
      else DurationOutcome(shown, [], false, split)
  }

  predicate IsLimitWarning(e: Event)
  {
    e.name == LimitWarning
  }

  /** One second: the warning comes only inside the last five minutes and
      only if not shown yet, with the minutes rounded up; the limit is
      reached when nothing remains, and then no split starts; no limit, or
      a limit of 0, means neither. */
  lemma DurationStepFacts(limit: Option<int>, shown: bool, splitting: bool, seconds: nat)
    ensures var o := DurationStep(limit, shown, splitting, seconds);
      (exists e :: e in o.events && IsLimitWarning(e)) <==>
        limit.Some? && limit.value > 0 && 0 < limit.value - seconds <= LimitWarningSeconds && !shown
    ensures var o := DurationStep(limit, shown, splitting, seconds);
      o.reached <==> limit.Some? && limit.value > 0 && limit.value - seconds <= 0
    ensures var o := DurationStep(limit, shown, splitting, seconds);
      o.split <==> !o.reached && seconds >= MaxDurationSeconds && !splitting
    ensures var o := DurationStep(limit, shown, splitting, seconds);
      (shown ==> o.shown) && |o.events| <= 1
    ensures var o := DurationStep(limit, shown, splitting, seconds);
      0 < |o.events| && IsLimitWarning(o.events[0]) ==>
        var m := o.events[0].data.minutes; (m - 1) * 60 < limit.value - seconds <= m * 60 && 1 <= m <= 5
  {
    var o := DurationStep(limit, shown, splitting, seconds);
    assert LimitReached != LimitWarning by { assert LimitReached[5] != LimitWarning[5]; }
    assert forall e :: e in o.events ==> e == o.events[0];
    if limit.Some? && limit.value > 0 && 0 < limit.value - seconds <= LimitWarningSeconds && !shown {
      assert o.events[0] in o.events && IsLimitWarning(o.events[0]);
    }
  }

  /** The number of limit warnings across several seconds with one limit. */
  function LimitWarnings(limit: Option<int>, shown: bool, seconds: seq<nat>): (r: (bool, nat))
  {
    if seconds == [] then (shown, 0)
    else
      var before := LimitWarnings(limit, shown, seconds[..|seconds| - 1]);
      var o := DurationStep(limit, before.0, false, seconds[|seconds| - 1]);
      (o.shown, before.1 + (if o.events != [] && IsLimitWarning(o.events[0]) then 1 else 0))
  }

  /** The limit warning is emitted at most once until the flag is reset, and
      not at all once it has been shown. */
  lemma {:induction false} LimitWarningAtMostOnce(limit: Option<int>, shown: bool, seconds: seq<nat>)
    ensures LimitWarnings(limit, shown, seconds).1 <= 1
    ensures shown ==> LimitWarnings(limit, shown, seconds).1 == 0
    ensures LimitWarnings(limit, shown, seconds).1 == 1 ==> LimitWarnings(limit, shown, seconds).0
    ensures shown ==> LimitWarnings(limit, shown, seconds).0
  {
    if seconds != [] {
      LimitWarningAtMostOnce(limit, shown, seconds[..|seconds| - 1]);
      var before := LimitWarnings(limit, shown, seconds[..|seconds| - 1]);
      DurationStepFacts(limit, before.0, false, seconds[|seconds| - 1]);
    }
  }

  // ---------------------------------------------------------------- codecs

  /** The codec preference of startRecording; '' lets the browser choose. */
  const CodecPreference: seq<string> :=
    ["audio/webm;codecs=opus", "audio/webm", "audio/ogg;codecs=opus", "audio/mp4", "audio/aac", "audio/3gpp", ""]

  predicate Usable(codec: string, isTypeSupported: string -> bool)
  {
    codec == "" || isTypeSupported(codec)
  }

  /** The position of the first usable entry of a list, or its length. */
  function FirstUsable(codecs: seq<string>, isTypeSupported: string -> bool): (i: nat)
    ensures i <= |codecs|
    ensures i < |codecs| ==> Usable(codecs[i], isTypeSupported)
    ensures forall j :: 0 <= j < i ==> !Usable(codecs[j], isTypeSupported)
    ensures codecs != [] && codecs[|codecs| - 1] == "" ==> i < |codecs|
  {
    if codecs == [] then 0
    else if Usable(codecs[0], isTypeSupported) then 0
    else 1 + FirstUsable(codecs[1..], isTypeSupported)
  }

  /** The mime type startRecording asks for. */
  method ChooseMimeType(isTypeSupported: string -> bool) returns (mimeType: string)
    ensures mimeType == CodecPreference[FirstUsable(CodecPreference, isTypeSupported)]
  {
    mimeType := "";
    var i := 0;
    while i < |CodecPreference|
      invariant 0 <= i <= |CodecPreference| - 1
      invariant forall j :: 0 <= j < i ==> !Usable(CodecPreference[j], isTypeSupported)
    {
      var codec := CodecPreference[i];
      if codec == "" || isTypeSupported(codec) {
        mimeType := codec;
        FirstIsFirst(CodecPreference, isTypeSupported, i);
        return;
      }
      i := i + 1;
    }
    assert false;
  }

  lemma {:induction false} FirstIsFirst(codecs: seq<string>, isTypeSupported: string -> bool, i: nat)
    requires i < |codecs| && Usable(codecs[i], isTypeSupported)
    requires forall j :: 0 <= j < i ==> !Usable(codecs[j], isTypeSupported)
    ensures FirstUsable(codecs, isTypeSupported) == i
  {
    if i > 0 {
      assert !Usable(codecs[0], isTypeSupported);
      FirstIsFirst(codecs[1..], isTypeSupported, i - 1);
    }
  }

  /** The choice is a supported entry of the list, or '' exactly when none
      of the six codecs is supported. */
  lemma ChosenMimeType(isTypeSupported: string -> bool)
    ensures var m := CodecPreference[FirstUsable(CodecPreference, isTypeSupported)];
      (m == "" || isTypeSupported(m)) && m in CodecPreference
      && (m == "" <==> forall j :: 0 <= j < 6 ==> !isTypeSupported(CodecPreference[j]))
  {
    var k := FirstUsable(CodecPreference, isTypeSupported);
    if k < 6 {
      assert CodecPreference[k] != "";
    }
  }

  // ---------------------------------------------------------------- service

  /** What getState returns. */
  datatype View = View(isActive: bool, isRecording: bool, isPaused: bool, audioLevel: real,
                       silenceWarning: Option<string>, hasStream: bool)

  const PausedChange := Event(StateChanged, StateChange(false, true))
  const ResumedChange := Event(StateChanged, StateChange(true, false))

  class Service {
    var recorder: RecorderState
    var hasStream: bool
    var audioLevel: real
    /** `analyser` is set and the level timer runs. */
    var levelMonitoring: bool
    var silenceCounter: nat
    var silenceWarningShown: bool
    var silenceError: Option<string>
    /** `durationInterval` is set. */
    var durationTicking: bool
    /** The duration the running duration timer counts from: 0 after a start,
        the stored duration after a resume. */
    var baseDuration: nat
    var minutesLimitSeconds: Option<int>
    var limitWarningShown: bool
    /** The caller's `isAutoSplitting` ref. */
    var autoSplitting: bool
    var listeners: map<string, seq<Callback>>
    /** Every event emitted, in order. */
    var emitted: seq<Event>
    /** Every listener call those emits made, in order. */
    var calls: seq<Call>
    var recorderCalls: seq<RecorderCall>

    function SilenceState(): Silence
      reads this`silenceCounter, this`silenceWarningShown, this`silenceError
    {
      Silence(silenceCounter, silenceWarningShown, silenceError)
    }

    function Registered(name: string): seq<Callback>
      reads this`listeners
    {
      RegisteredIn(listeners, name)
    }

    /** Every event's listeners form a set. */
    predicate Valid()
      reads this`listeners
    {
      forall name :: name in listeners ==> Distinct(listeners[name])
    }

    /** The module's initial values. */
    constructor ()
      ensures recorder == NoRecorder && !hasStream && audioLevel == 0.0 && !levelMonitoring
      ensures SilenceState() == Quiet
      ensures !durationTicking && baseDuration == 0 && minutesLimitSeconds.None? && !limitWarningShown
      ensures !autoSplitting && listeners == map[] && emitted == [] && calls == [] && recorderCalls == []
      ensures Valid()
    {
      recorder, hasStream, audioLevel, levelMonitoring := NoRecorder, false, 0.0, false;
      silenceCounter, silenceWarningShown, silenceError := 0, false, None;
      durationTicking, baseDuration, minutesLimitSeconds, limitWarningShown := false, 0, None, false;
      autoSplitting, listeners, emitted, calls, recorderCalls := false, map[], [], [], [];
    }

    method AddEventListener(name: string, callback: Callback)
      modifies this`listeners
      ensures listeners == old(listeners)[name := Added(old(Registered(name)), callback)]
      ensures old(Valid()) ==> Valid()
    {
      if name !in listeners {
        listeners := listeners[name := []];
      }
      listeners := listeners[name := Added(listeners[name], callback)];
    }

    method RemoveEventListener(name: string, callback: Callback)
      modifies this`listeners
      ensures name in old(listeners) ==> listeners == old(listeners)[name := Without(old(listeners)[name], callback)]
      ensures name !in old(listeners) ==> listeners == old(listeners)
      ensures forall d :: d in Registered(name) <==> d in old(Registered(name)) && d != callback
      ensures forall other :: other != name ==> Registered(other) == old(Registered(other))
      ensures old(Valid()) ==> Valid()
    {
      if name in listeners {
        listeners := listeners[name := Without(listeners[name], callback)];
      }
    }

    /** emit: each listener is called in turn; one that throws is logged and
        the loop goes on. */
    method Emit(e: Event, throws: (Callback, Event) -> bool)
      modifies this`calls, this`emitted
      ensures emitted == old(emitted) + [e]
      ensures calls == old(calls) + Deliveries(Registered(e.name), e, throws)
    {
      emitted := emitted + [e];
      if e.name in listeners {
        var cbs := listeners[e.name];
        var i := 0;
        while i < |cbs|
          invariant 0 <= i <= |cbs|
          invariant emitted == old(emitted) + [e]
          invariant calls == old(calls) + Deliveries(cbs[..i], e, throws)
        {
          assert cbs[..i + 1][..i] == cbs[..i];
          calls := calls + [Call(cbs[i], e, throws(cbs[i], e))];
          i := i + 1;
        }
        assert cbs[..|cbs|] == cbs;
      }
    }

    function IsActive(): (r: bool)
      reads this`recorder
      ensures r <==> recorder == Recording || recorder == Paused
    {
      recorder != NoRecorder && recorder != Inactive
    }

    function GetState(): (v: View)
      reads this
      ensures v.isActive == IsActive()
      ensures v.isRecording ==> v.isActive && !v.isPaused
      ensures v.isPaused ==> v.isActive && !v.isRecording
      ensures v.isActive ==> v.isRecording || v.isPaused
      ensures v.silenceWarning == silenceError && v.audioLevel == audioLevel && v.hasStream == hasStream
    {
      View(recorder != NoRecorder && recorder != Inactive, recorder == Recording, recorder == Paused,
        audioLevel, silenceError, hasStream)
    }

    /** startLevelMonitoring; `analyserReady` is false when creating the
        audio context throws, and then nothing starts. */
    method StartLevelMonitoring(analyserReady: bool)
      modifies this`levelMonitoring, this`silenceCounter, this`silenceWarningShown, this`silenceError
      ensures analyserReady ==> levelMonitoring && SilenceState() == Quiet
      ensures !analyserReady ==> levelMonitoring == old(levelMonitoring) && SilenceState() == old(SilenceState())
    {
      if analyserReady {
        silenceCounter, silenceWarningShown, silenceError := 0, false, None;
        levelMonitoring := true;
      }
    }

    /** stopLevelMonitoring: the level and the silence state are cleared and
        both announced. */
    method StopLevelMonitoring(throws: (Callback, Event) -> bool)
      modifies this`levelMonitoring, this`audioLevel, this`silenceCounter, this`silenceWarningShown,
        this`silenceError, this`emitted, this`calls
      ensures !levelMonitoring && audioLevel == 0.0 && SilenceState() == Quiet
      ensures emitted == old(emitted) + [Event(LevelChange, Level(0.0)), Event(SilenceWarning, Warning(None))]
    {
      levelMonitoring := false;
      audioLevel := 0.0;
      silenceCounter, silenceWarningShown, silenceError := 0, false, None;
      Emit(Event(LevelChange, Level(0.0)), throws);
      Emit(Event(SilenceWarning, Warning(None)), throws);
    }

    /** startDurationTracking's state; the timer counts from 0. */
    method StartDurationTracking(maxSeconds: Option<int>)
      modifies this`durationTicking, this`baseDuration, this`minutesLimitSeconds, this`limitWarningShown
      ensures durationTicking && baseDuration == 0 && minutesLimitSeconds == maxSeconds && !limitWarningShown
    {
      minutesLimitSeconds := maxSeconds;
      limitWarningShown := false;
      baseDuration := 0;
      durationTicking := true;
    }

    /** stopDurationTracking: the timer stops and the limit is forgotten. */
    method StopDurationTracking()
      modifies this`durationTicking, this`minutesLimitSeconds, this`limitWarningShown
      ensures !durationTicking && minutesLimitSeconds.None? && !limitWarningShown
    {
      durationTicking := false;
      minutesLimitSeconds := None;
      limitWarningShown := false;
    }

    /** The state pauseRecording and the emergency pause leave once the
        recorder is paused: duration tracking stopped and the change
        announced. */
    predicate PausedAfter(recorderCallsBefore: seq<RecorderCall>, emittedBefore: seq<Event>)
      reads this
    {
      recorder == Paused && recorderCalls == recorderCallsBefore
      && !durationTicking && minutesLimitSeconds.None? && !limitWarningShown
      && emitted == emittedBefore + [PausedChange]
    }

    /** emergencyPauseForSilence: acts only on a recording recorder. */
    method EmergencyPause(store: RecordingStore.Store, throws: (Callback, Event) -> bool)
      modifies this`recorder, this`recorderCalls, this`durationTicking, this`minutesLimitSeconds,
        this`limitWarningShown, this`emitted, this`calls, store
      ensures old(recorder) != Recording ==> unchanged(this, store)
      ensures old(recorder) == Recording ==>
        PausedAfter(old(recorderCalls) + [RequestData, PauseRecorder], old(emitted))
        && calls == old(calls) + Deliveries(Registered(StateChanged), PausedChange, throws)
        && store.State() == (if old(store.status) == RecordingStore.Recording
                             then old(store.State()).(status := RecordingStore.Paused) else old(store.State()))
    {
      if recorder == Recording {
        recorderCalls := recorderCalls + [RequestData, PauseRecorder];
        recorder := Paused;
        store.PauseRecording();
        StopDurationTracking();
        Emit(PausedChange, throws);
      }
    }

    /** pauseRecording: acts only on a recording recorder. */
    method PauseRecording(store: RecordingStore.Store, throws: (Callback, Event) -> bool)
      modifies this`recorder, this`recorderCalls, this`durationTicking, this`minutesLimitSeconds,
        this`limitWarningShown, this`emitted, this`calls, store
      ensures old(recorder) != Recording ==> unchanged(this, store)
      ensures old(recorder) == Recording ==>
        PausedAfter(old(recorderCalls) + [PauseRecorder], old(emitted))
        && calls == old(calls) + Deliveries(Registered(StateChanged), PausedChange, throws)
        && store.State() == (if old(store.status) == RecordingStore.Recording
                             then old(store.State()).(status := RecordingStore.Paused) else old(store.State()))
    {
      if recorder == Recording {
        recorderCalls := recorderCalls + [PauseRecorder];
        recorder := Paused;
        store.PauseRecording();
        StopDurationTracking();
        Emit(PausedChange, throws);
      }
    }

    /** resumeRecording: acts only on a paused recorder; the limit is
        replaced only when one is given, the warning flag always cleared,
        and the new timer counts on from the stored duration. */
    method ResumeRecording(store: RecordingStore.Store, maxSeconds: Option<int>, throws: (Callback, Event) -> bool)
      modifies this`recorder, this`recorderCalls, this`minutesLimitSeconds, this`limitWarningShown,
        this`durationTicking, this`baseDuration, this`emitted, this`calls, store
      ensures old(recorder) != Paused ==> unchanged(this, store)
      ensures old(recorder) == Paused ==>
        recorder == Recording && recorderCalls == old(recorderCalls) + [ResumeRecorder]
        && minutesLimitSeconds == (if maxSeconds.Some? then maxSeconds else old(minutesLimitSeconds))
        && !limitWarningShown && durationTicking && baseDuration == old(store.duration)
        && emitted == old(emitted) + [ResumedChange]
        && calls == old(calls) + Deliveries(Registered(StateChanged), ResumedChange, throws)
        && store.State() == (if old(store.status) == RecordingStore.Paused
                             then old(store.State()).(status := RecordingStore.Recording) else old(store.State()))
    {
      if recorder == Paused {
        recorderCalls := recorderCalls + [ResumeRecorder];
        recorder := Recording;
        store.ResumeRecording();
        baseDuration := store.duration;
        if maxSeconds.Some? {
          minutesLimitSeconds := maxSeconds;
        }
        limitWarningShown := false;
        durationTicking := true;
        Emit(ResumedChange, throws);
      }
    }

    /** The part of performAutoSplit before its first await: a no-op while a
        split is in progress. */
    method BeginAutoSplit() returns (started: bool)
      modifies this`autoSplitting, this`recorderCalls
      ensures started <==> !old(autoSplitting)
      ensures autoSplitting
      ensures recorderCalls == old(recorderCalls) + (if started && recorder == Recording then [RequestData] else [])
    {
      if autoSplitting {
        return false;
      }
      autoSplitting := true;
      if recorder == Recording {
        recorderCalls := recorderCalls + [RequestData];
      }
      started := true;
    }

    /** The `finally` of performAutoSplit. The store has neither
        createSessionFile nor resetChunkIndex, so the calls between throw and
        the error is only logged. */
    method FinishAutoSplit()
      modifies this`autoSplitting
      ensures !autoSplitting
    {
      autoSplitting := false;
    }

    /** The "no audio" warning of a silent tick, once the counter has
        reached 10 s and only if it has not been shown. */
    method WarnOfSilence(throws: (Callback, Event) -> bool)
      modifies this`silenceWarningShown, this`silenceError, this`emitted, this`calls
      ensures var warn := silenceCounter >= WarningTicks && !old(silenceWarningShown);
        silenceWarningShown == (old(silenceWarningShown) || warn)
        && silenceError == (if warn then Some(NoAudioMessage) else old(silenceError))
        && emitted == old(emitted) + (if warn then [NoAudioWarning] else [])
    {
      if silenceCounter >= WarningTicks && !silenceWarningShown {
        silenceWarningShown := true;
        silenceError := Some(NoAudioMessage);
        Emit(Event(SilenceWarning, Warning(silenceError)), throws);
      } else {
        assert emitted == old(emitted) + [];
      }
    }

    /** The pause of a silent tick once the counter has reached 30 s. */
    method PauseForSilence(store: RecordingStore.Store, throws: (Callback, Event) -> bool)
      modifies this`silenceError, this`emitted, this`calls,
        this`recorder, this`recorderCalls, this`durationTicking, this`minutesLimitSeconds, this`limitWarningShown, store
      ensures silenceCounter < PauseTicks ==> unchanged(this, store)
      ensures silenceCounter >= PauseTicks ==> silenceError == Some(SilencePauseMessage)
      ensures silenceCounter >= PauseTicks && old(recorder) == Recording ==>
        PausedAfter(old(recorderCalls) + [RequestData, PauseRecorder], old(emitted) + [SilencePauseWarning])
        && store.State() == (if old(store.status) == RecordingStore.Recording
                             then old(store.State()).(status := RecordingStore.Paused) else old(store.State()))
      ensures silenceCounter >= PauseTicks && old(recorder) != Recording ==>
        emitted == old(emitted) + [SilencePauseWarning]
        && unchanged(store) && unchanged(this`recorder, this`recorderCalls, this`durationTicking,
             this`minutesLimitSeconds, this`limitWarningShown)
    {
      if silenceCounter >= PauseTicks {
        silenceError := Some(SilencePauseMessage);
        Emit(Event(SilenceWarning, Warning(silenceError)), throws);
        EmergencyPause(store, throws);
      }
    }

    /** A silent level tick, after the level was announced. */
    method CountSilentTick(store: RecordingStore.Store, throws: (Callback, Event) -> bool)
      modifies this`silenceCounter, this`silenceWarningShown, this`silenceError, this`emitted, this`calls,
        this`recorder, this`recorderCalls, this`durationTicking, this`minutesLimitSeconds, this`limitWarningShown, store
      ensures SilenceState() == SilenceStep(old(SilenceState()), 0.0).next
      ensures var o := SilenceStep(old(SilenceState()), 0.0);
        o.pause && old(recorder) == Recording ==>
          PausedAfter(old(recorderCalls) + [RequestData, PauseRecorder], old(emitted) + o.events)
          && store.State() == (if old(store.status) == RecordingStore.Recording
                               then old(store.State()).(status := RecordingStore.Paused) else old(store.State()))
      ensures var o := SilenceStep(old(SilenceState()), 0.0);
        !(o.pause && old(recorder) == Recording) ==>
          emitted == old(emitted) + o.events
          && unchanged(store) && unchanged(this`recorder, this`recorderCalls, this`durationTicking,
               this`minutesLimitSeconds, this`limitWarningShown)
    {
      ghost var o := SilenceStep(SilenceState(), 0.0);
      silenceCounter := silenceCounter + 1;
      WarnOfSilence(throws);
      ghost var warned := emitted;
      PauseForSilence(store, throws);
      if silenceCounter >= PauseTicks {
        assert warned + [SilencePauseWarning] == old(emitted) + o.events;
      }
    }

    /** A level tick at or above the threshold, after the level was
        announced. */
    method ClearSilence(level: real, throws: (Callback, Event) -> bool)
      modifies this`silenceCounter, this`silenceWarningShown, this`silenceError, this`emitted, this`calls
      requires level >= SilenceThreshold
      ensures var o := SilenceStep(old(SilenceState()), level);
        SilenceState() == o.next && emitted == old(emitted) + o.events
    {
      if silenceCounter > 0 {
        silenceCounter, silenceWarningShown, silenceError := 0, false, None;
        Emit(Event(SilenceWarning, Warning(None)), throws);
      } else {
        assert emitted == old(emitted) + [];
      }
    }

    /** The silence part of a level tick, after the level was announced. */
    method CountSilence(store: RecordingStore.Store, level: real, throws: (Callback, Event) -> bool)
      modifies this`silenceCounter, this`silenceWarningShown, this`silenceError, this`emitted, this`calls,
        this`recorder, this`recorderCalls, this`durationTicking, this`minutesLimitSeconds, this`limitWarningShown, store
      ensures var o := SilenceStep(old(SilenceState()), level);
        SilenceState() == o.next
        && if o.pause && old(recorder) == Recording then
          PausedAfter(old(recorderCalls) + [RequestData, PauseRecorder], old(emitted) + o.events)
          && store.State() == (if old(store.status) == RecordingStore.Recording
                               then old(store.State()).(status := RecordingStore.Paused) else old(store.State()))
        else
          emitted == old(emitted) + o.events
          && unchanged(store) && unchanged(this`recorder, this`recorderCalls, this`durationTicking,
               this`minutesLimitSeconds, this`limitWarningShown)
    {
      if level < SilenceThreshold {
        assert SilenceStep(SilenceState(), level) == SilenceStep(SilenceState(), 0.0);
        CountSilentTick(store, throws);
      } else {
        ClearSilence(level, throws);
      }
    }

    /** One run of the 100 ms level timer with the measured level. */
    method LevelTick(store: RecordingStore.Store, level: real, throws: (Callback, Event) -> bool)
      modifies this`audioLevel, this`silenceCounter, this`silenceWarningShown, this`silenceError, this`emitted,
        this`calls, this`recorder, this`recorderCalls, this`durationTicking, this`minutesLimitSeconds,
        this`limitWarningShown, store
      ensures !(old(levelMonitoring) && old(store.status) == RecordingStore.Recording) ==> unchanged(this, store)
      ensures old(levelMonitoring) && old(store.status) == RecordingStore.Recording ==>
        var o := SilenceStep(old(SilenceState()), level);
        var announced := old(emitted) + [Event(LevelChange, Level(level))] + o.events;
        audioLevel == level && SilenceState() == o.next
        && if o.pause && old(recorder) == Recording then
          PausedAfter(old(recorderCalls) + [RequestData, PauseRecorder], announced)
          && store.State() == old(store.State()).(status := RecordingStore.Paused)
        else
          emitted == announced && unchanged(store)
          && unchanged(this`recorder, this`recorderCalls, this`durationTicking, this`minutesLimitSeconds, this`limitWarningShown)
    {
      if !(levelMonitoring && store.status == RecordingStore.Recording) {
        return;
      }
      audioLevel := level;
      Emit(Event(LevelChange, Level(level)), throws);
      CountSilence(store, level, throws);
    }

    /** The minutes-limit and auto-split part of a duration tick, after the
        duration was announced. */
    method CheckLimit(seconds: nat, throws: (Callback, Event) -> bool)
      modifies this`limitWarningShown, this`emitted, this`calls, this`autoSplitting, this`recorderCalls
      ensures var o := DurationStep(minutesLimitSeconds, old(limitWarningShown), old(autoSplitting), seconds);
        limitWarningShown == o.shown && autoSplitting == (old(autoSplitting) || o.split)
        && recorderCalls == old(recorderCalls) + (if o.split && recorder == Recording then [RequestData] else [])
        && emitted == old(emitted) + o.events
    {
      ghost var o := DurationStep(minutesLimitSeconds, limitWarningShown, autoSplitting, seconds);
      if minutesLimitSeconds.Some? && minutesLimitSeconds.value > 0 {
        var remaining := minutesLimitSeconds.value - seconds;
        if remaining <= LimitWarningSeconds && remaining > 0 && !limitWarningShown {
          limitWarningShown := true;
          Emit(Event(LimitWarning, Minutes(CeilMinutes(remaining))), throws);
        }
        if remaining <= 0 {
          Emit(Event(LimitReached, NoPayload), throws);
          return;
        }
      }
      if seconds >= MaxDurationSeconds && !autoSplitting {
        var _ := BeginAutoSplit();
      }
      if o.events == [] {
        assert emitted == old(emitted) + o.events;
      }
    }

    /** One run of the 1 s duration timer, `elapsed` whole seconds after it
        was started. */
    method DurationTick(store: RecordingStore.Store, elapsed: nat, throws: (Callback, Event) -> bool)
      modifies this`limitWarningShown, this`emitted, this`calls, this`autoSplitting, this`recorderCalls, store
      ensures !(old(durationTicking) && old(store.status) == RecordingStore.Recording) ==> unchanged(this, store)
      ensures old(durationTicking) && old(store.status) == RecordingStore.Recording ==>
        var seconds := baseDuration + elapsed;
        var o := DurationStep(minutesLimitSeconds, old(limitWarningShown), old(autoSplitting), seconds);
        store.State() == old(store.State()).(duration := seconds)
        && limitWarningShown == o.shown && autoSplitting == (old(autoSplitting) || o.split)
        && recorderCalls == old(recorderCalls) + (if o.split && recorder == Recording then [RequestData] else [])
        && emitted == old(emitted) + [Event(DurationChange, Seconds(seconds))] + o.events
    {
      if !(durationTicking && store.status == RecordingStore.Recording) {
        return;
      }
      var seconds := baseDuration + elapsed;
      store.UpdateDuration(seconds);
      Emit(Event(DurationChange, Seconds(seconds)), throws);
      CheckLimit(seconds, throws);
    }
  }

  /** A paused recorder stays paused through pauseRecording, and neither
      timer reports anything while the store is paused. */
  method PausedServiceIsQuiet(s: Service, store: RecordingStore.Store, level: real, elapsed: nat,
                              throws: (Callback, Event) -> bool)
    modifies s, store
    requires s.recorder == Paused && store.status == RecordingStore.Paused
    ensures unchanged(s, store)
  {
    s.PauseRecording(store, throws);
    s.LevelTick(store, level, throws);
    s.DurationTick(store, elapsed, throws);
  }

  /** While a split is in progress another tick past the split length
      starts no second split. */
  method NoSecondSplit(s: Service, store: RecordingStore.Store, elapsed: nat, throws: (Callback, Event) -> bool)
    modifies s, store
    requires s.autoSplitting
    ensures s.autoSplitting && s.recorderCalls == old(s.recorderCalls)
  {
    s.DurationTick(store, elapsed, throws);
    var started := s.BeginAutoSplit();
    assert !started;
  }
}
