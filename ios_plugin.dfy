/** The iOS background recording plugin
    (src-capacitor/ios/App/App/Plugins/BackgroundRecordingPlugin.swift) as
    one Plugin object. The AVAudioRecorder is its file and whether it is
    capturing, paused or stopped; the two repeating timers are flags that
    are on while scheduled; what the plugin sends to JavaScript through
    notifyListeners is appended to `notices`, and what a plugin call
    resolves or rejects with is the method's reply. What AVFoundation and
    the file manager answer is a parameter: `Some(description)` where the
    call throws with that localized description. */
module IosPlugin {
  import opened Wrappers
  import opened NativeChunk
  import Storage

  datatype Mode = Capturing | Paused | Stopped

  datatype Recorder = Recorder(url: string, mode: Mode)

  /** RecordingSession; its start time is not modelled. */
  datatype Session = Session(id: string, chunkIndex: nat, chunksDirectory: string, currentChunk: Option<string>)

  datatype Notice =
    | ChunkStarted(chunkIndex: nat, chunkPath: string)
    | RecordingDead(reason: string, chunkCount: nat)
    | ErrorNotice(message: string)
    | Interrupted(reason: string)
    | Resumed

  /** How a plugin call ends: rejected with a message, handed to the main
      queue (answered later by the private method it queues), or resolved
      with one of the payloads below. */
  datatype Reply =
    | Rejected(message: string)
    | Queued
    | Succeeded
    | Started(recordId: string)
    | Finished(recordId: string, chunkCount: nat, chunksDirectory: string)
    | Status(isRecording: bool, isRecorderActive: bool, chunkIndex: nat, recordId: string)

  /** The interruption notifications handleInterruption tells apart; one
      without readable user info, or of a type it does not know, is
      `Unrecognised`, and an end without options is `Ended(false)`. */
  datatype Interruption = Began | Ended(shouldResume: bool) | Unrecognised

  datatype RouteChange = OldDeviceUnavailable | CategoryChange | OtherRouteChange

  /** The plugin's fields; `routeChecks` counts the route-change checks
      scheduled on the main queue and not yet run. */
  datatype PluginState = PluginState(
    recorder: Option<Recorder>, chunkTimer: bool, healthTimer: bool,
    session: Option<Session>, isRecording: bool, notices: seq<Notice>, routeChecks: nat)

  function StartFailure(description: string): string
  {
    "Failed to start recording: " + description
  }

  /** `audioRecorder?.isRecording ?? false`. */
  predicate RecorderActive(r: Option<Recorder>)
  {
    r.Some? && r.value.mode == Capturing
  }

  /** What `stop()` does to a recorder that is capturing, and nothing to any
      other. */
  function StopIfCapturing(r: Option<Recorder>): (t: Option<Recorder>)
    ensures !RecorderActive(t)
    ensures t.Some? <==> r.Some?
    ensures r.Some? ==> t.value.url == r.value.url
  {
    if RecorderActive(r) then Some(r.value.(mode := Stopped)) else r
  }

  /** `pause()`: only a capturing recorder pauses. */
  function PauseRecorder(r: Recorder): (t: Recorder)
    ensures t.url == r.url && t.mode != Capturing
    ensures r.mode == Stopped ==> t == r
  {
    if r.mode == Capturing then r.(mode := Paused) else r
  }

  /** `recordingSession?.chunkIndex ?? 0`. */
  function ChunkCount(s: Option<Session>): nat
  {
    if s.Some? then s.value.chunkIndex else 0
  }

  /** The state handleRecordingDeath leaves once it acts: timers gone,
      isRecording false, and one recordingDead notice carrying the reason and
      the number of chunks started. */
  function Dead(s: PluginState, reason: string): (t: PluginState)
    ensures !t.isRecording && !t.chunkTimer && !t.healthTimer
    ensures t.recorder == s.recorder && t.session == s.session
    ensures t.notices == s.notices + [RecordingDead(reason, ChunkCount(s.session))]
  {
    s.(chunkTimer := false, healthTimer := false, isRecording := false,
       notices := s.notices + [RecordingDead(reason, ChunkCount(s.session))])
  }

  /** A session's directory is the one built from its id, and the chunk it
      records into, once there is one, is the last index it started. */
  predicate SessionValid(s: Session)
  {
    s.chunksDirectory == ChunksDirectory(s.id)
    && (s.currentChunk.Some? ==> s.chunkIndex >= 1 && s.currentChunk.value == ChunkPath(s.chunksDirectory, s.chunkIndex - 1))
  }

  class Plugin {
    var recorder: Option<Recorder>
    var chunkTimer: bool
    var healthTimer: bool
    var session: Option<Session>
    var isRecording: bool
    var notices: seq<Notice>
    var routeChecks: nat

    function State(): PluginState
      reads this
    {
      PluginState(recorder, chunkTimer, healthTimer, session, isRecording, notices, routeChecks)
    }

    /** While recording there is a session; the session follows the chunk
        layout; and the recorder writes the session's current chunk. */
    predicate Valid()
      reads this
    {
      (isRecording ==> session.Some?)
      && (session.Some? ==> SessionValid(session.value))
      && (session.Some? && session.value.currentChunk.Some? ==>
            recorder.Some? && recorder.value.url == session.value.currentChunk.value)
    }

    constructor ()
      ensures State() == PluginState(None, false, false, None, false, [], 0)
      ensures Valid()
    {
      recorder, chunkTimer, healthTimer := None, false, false;
      session, isRecording, notices := None, false, [];
      routeChecks := 0;
    }

    /** startRecording: a call without a record id, or one made while
        recording, is rejected; any other is queued for
        setupAndStartRecording. */
    method StartRecording(recordId: Option<string>) returns (r: Reply)
      ensures recordId.None? ==> r == Rejected("Missing recordId parameter")
      ensures recordId.Some? && isRecording ==> r == Rejected("Already recording")
      ensures r == Queued <==> recordId.Some? && !isRecording
    {
      if recordId.None? {
        return Rejected("Missing recordId parameter");
      }
      if isRecording {
        return Rejected("Already recording");
      }
      r := Queued;
    }

    /** stopRecording: rejected unless recording, queued otherwise. */
    method StopRecording() returns (r: Reply)
      ensures r == Rejected("Not currently recording") <==> !isRecording
      ensures isRecording ==> r == Queued
    {
      if !isRecording {
        return Rejected("Not currently recording");
      }
      r := Queued;
    }

    /** startNewChunk. Without a session it throws "No active session" and
        changes nothing. Otherwise a capturing recorder is stopped, and a
        recorder for `chunk_%06d.m4a` at the current index is created: if
        that throws, the index stays and the stopped recorder stays in
        place; if not, it captures, becomes the session's current chunk, the
        index goes up by one and chunkStarted reports the index used. */
    method StartNewChunk(recorderError: Option<string>) returns (error: Option<string>)
      requires Valid()
      modifies this
      ensures Valid()
      ensures old(session).None? ==> error == Some("No active session") && State() == old(State())
      ensures old(session).Some? && recorderError.Some? ==>
        error == recorderError && State() == old(State()).(recorder := StopIfCapturing(old(recorder)))
      ensures old(session).Some? && recorderError.None? ==>
        var s := old(session).value;
        var path := ChunkPath(s.chunksDirectory, s.chunkIndex);
        error.None?
        && State() == old(State()).(recorder := Some(Recorder(path, Capturing)),
             session := Some(s.(chunkIndex := s.chunkIndex + 1, currentChunk := Some(path))),
             notices := old(notices) + [ChunkStarted(s.chunkIndex, path)])
    {
      if session.None? {
        return Some("No active session");
      }
      var s := session.value;
      recorder := StopIfCapturing(recorder);
      var path := ChunkPath(s.chunksDirectory, s.chunkIndex);
      if recorderError.Some? {
        return recorderError;
      }
      recorder := Some(Recorder(path, Capturing));
      session := Some(s.(chunkIndex := s.chunkIndex + 1, currentChunk := Some(path)));
      notices := notices + [ChunkStarted(s.chunkIndex, path)];
      error := None;
    }

    /** setupAndStartRecording. `sessionError` is what configuring the audio
        session or creating the chunks directory threw; `recorderError` what
        creating the first chunk's recorder threw. Once the directory exists
        the session is installed at index 0; only when the first chunk
        starts is isRecording set and the timers scheduled. */
    method SetupAndStartRecording(recordId: string, sessionError: Option<string>, recorderError: Option<string>)
      returns (r: Reply)
      requires Valid()
      modifies this
      ensures Valid()
      ensures sessionError.Some? ==> r == Rejected(StartFailure(sessionError.value)) && State() == old(State())
      ensures sessionError.None? && recorderError.Some? ==>
        r == Rejected(StartFailure(recorderError.value))
        && State() == old(State()).(recorder := StopIfCapturing(old(recorder)),
             session := Some(Session(recordId, 0, ChunksDirectory(recordId), None)))
      ensures sessionError.None? && recorderError.None? ==>
        var first := ChunkPath(ChunksDirectory(recordId), 0);
        r == Started(recordId)
        && State() == PluginState(Some(Recorder(first, Capturing)), true, true,
             Some(Session(recordId, 1, ChunksDirectory(recordId), Some(first))), true,
             old(notices) + [ChunkStarted(0, first)], old(routeChecks))
    {
      if sessionError.Some? {
        return Rejected(StartFailure(sessionError.value));
      }
      session := Some(Session(recordId, 0, ChunksDirectory(recordId), None));
      var error := StartNewChunk(recorderError);
      if error.Some? {
        return Rejected(StartFailure(error.value));
      }
      isRecording := true;
      chunkTimer := true;
      healthTimer := true;
      r := Started(recordId);
    }

    /** pauseRecording: needs both the flag and a recorder; pauses the
        recorder and stops both timers, and leaves isRecording true. */
    method PauseRecording() returns (r: Reply)
      requires Valid()
      modifies this
      ensures Valid()
      ensures !(old(isRecording) && old(recorder).Some?) ==>
        r == Rejected("Not currently recording") && State() == old(State())
      ensures old(isRecording) && old(recorder).Some? ==>
        r == Succeeded
        && State() == old(State()).(recorder := Some(PauseRecorder(old(recorder).value)), chunkTimer := false, healthTimer := false)
    {
      if !(isRecording && recorder.Some?) {
        return Rejected("Not currently recording");
      }
      recorder := Some(PauseRecorder(recorder.value));
      chunkTimer := false;
      healthTimer := false;
      r := Succeeded;
    }

    /** resumeRecording: needs only a recorder, whatever isRecording says;
        the recorder captures again and both timers are rescheduled. */
    method ResumeRecording() returns (r: Reply)
      requires Valid()
      modifies this
      ensures Valid()
      ensures isRecording == old(isRecording)
      ensures old(recorder).None? ==> r == Rejected("No active recording to resume") && State() == old(State())
      ensures old(recorder).Some? ==>
        r == Succeeded
        && State() == old(State()).(recorder := Some(old(recorder).value.(mode := Capturing)), chunkTimer := true, healthTimer := true)
    {
      if recorder.None? {
        return Rejected("No active recording to resume");
      }
      recorder := Some(recorder.value.(mode := Capturing));
      chunkTimer := true;
      healthTimer := true;
      r := Succeeded;
    }

    /** getStatus; the timing fields are not modelled. */
    function GetStatus(): (r: Reply)
      reads this
      ensures r.Status? && r.isRecording == isRecording && r.isRecorderActive == RecorderActive(recorder)
      ensures session.None? ==> r.chunkIndex == 0 && r.recordId == ""
      ensures session.Some? ==> r.chunkIndex == session.value.chunkIndex && r.recordId == session.value.id
    {
      Status(isRecording, RecorderActive(recorder), ChunkCount(session),
             if session.Some? then session.value.id else "")
    }

    /** handleRecordingDeath: acts only while recording. */
    method HandleRecordingDeath(reason: string)
      requires Valid()
      modifies this
      ensures Valid()
      ensures !old(isRecording) ==> State() == old(State())
      ensures old(isRecording) ==> State() == Dead(old(State()), reason)
    {
      if !isRecording {
        return;
      }
      chunkTimer := false;
      healthTimer := false;
      isRecording := false;
      notices := notices + [RecordingDead(reason, ChunkCount(session))];
    }

    /** performHealthCheck: while recording, a recorder that is not
        capturing is a death. */
    method PerformHealthCheck()
      requires Valid()
      modifies this
      ensures Valid()
      ensures !old(isRecording) || RecorderActive(old(recorder)) ==> State() == old(State())
      ensures old(isRecording) && !RecorderActive(old(recorder)) ==> State() == Dead(old(State()), "native_recorder_stopped")
    {
      if !isRecording {
        return;
      }
      if !RecorderActive(recorder) {
        HandleRecordingDeath("native_recorder_stopped");
      }
    }

    /** rotateChunk: while recording, starts the next chunk; a failure is
        reported as an error notice and recording goes on. */
    method RotateChunk(recorderError: Option<string>)
      requires Valid()
      modifies this
      ensures Valid()
      ensures !old(isRecording) ==> State() == old(State())
      ensures old(isRecording) && recorderError.Some? ==>
        State() == old(State()).(recorder := StopIfCapturing(old(recorder)),
          notices := old(notices) + [ErrorNotice("Failed to save chunk: " + recorderError.value)])
      ensures old(isRecording) && recorderError.None? ==>
        var s := old(session).value;
        var path := ChunkPath(s.chunksDirectory, s.chunkIndex);
        State() == old(State()).(recorder := Some(Recorder(path, Capturing)),
          session := Some(s.(chunkIndex := s.chunkIndex + 1, currentChunk := Some(path))),
          notices := old(notices) + [ChunkStarted(s.chunkIndex, path)])
    {
      if !isRecording {
        return;
      }
      var error := StartNewChunk(recorderError);
      if error.Some? {
        notices := notices + [ErrorNotice("Failed to save chunk: " + error.value)];
      }
    }

    /** stopCurrentRecording: timers and recorder go, isRecording is
        cleared; then it rejects when there is no session, and otherwise
        resolves with the session's id, its chunk index as the chunk count
        and its directory, and drops the session. */
    method StopCurrentRecording() returns (r: Reply)
      requires Valid()
      modifies this
      ensures Valid()
      ensures State() == old(State()).(recorder := None, chunkTimer := false, healthTimer := false, session := None, isRecording := false)
      ensures old(session).None? ==> r == Rejected("No recording session found")
      ensures old(session).Some? ==>
        r == Finished(old(session).value.id, old(session).value.chunkIndex, old(session).value.chunksDirectory)
    {
      chunkTimer := false;
      healthTimer := false;
      recorder := None;
      isRecording := false;
      if session.None? {
        return Rejected("No recording session found");
      }
      var s := session.value;
      r := Finished(s.id, s.chunkIndex, s.chunksDirectory);
      session := None;
    }

    /** handleInterruption: a call pauses the recorder and the timers and
        says so; its end resumes both when the system allows it. isRecording
        is left alone either way. */
    method HandleInterruption(event: Interruption)
      requires Valid()
      modifies this
      ensures Valid()
      ensures isRecording == old(isRecording) && session == old(session)
      ensures event == Began ==>
        State() == old(State()).(recorder := if old(recorder).Some? then Some(PauseRecorder(old(recorder).value)) else None,
          chunkTimer := false, healthTimer := false, notices := old(notices) + [Interrupted("call")])
      ensures event == Ended(true) ==>
        State() == old(State()).(recorder := if old(recorder).Some? then Some(old(recorder).value.(mode := Capturing)) else None,
          chunkTimer := true, healthTimer := true, notices := old(notices) + [Resumed])
      ensures event == Ended(false) || event == Unrecognised ==> State() == old(State())
    {
      match event {
        case Began =>
          if recorder.Some? {
            recorder := Some(PauseRecorder(recorder.value));
          }
          chunkTimer := false;
          healthTimer := false;
          notices := notices + [Interrupted("call")];
        case Ended(shouldResume) =>
          if shouldResume {
            if recorder.Some? {
              recorder := Some(recorder.value.(mode := Capturing));
            }
            chunkTimer := true;
            healthTimer := true;
            notices := notices + [Resumed];
          }
        case Unrecognised =>
      }
    }

    /** handleRouteChange: a lost device or a category change schedules a
        check on the main queue half a second later; nothing else happens
        now. */
    method HandleRouteChange(change: RouteChange)
      modifies this
      ensures change == OtherRouteChange ==> State() == old(State())
      ensures change != OtherRouteChange ==> State() == old(State()).(routeChecks := old(routeChecks) + 1)
    {
      if change != OtherRouteChange {
        routeChecks := routeChecks + 1;
      }
    }

    /** The scheduled route-change check, when it runs: a recorder that is
        not capturing while isRecording is true counts as dead, even when it
        is only paused. */
    method RouteCheck()
      requires Valid() && routeChecks > 0
      modifies this
      ensures Valid()
      ensures !old(isRecording) || RecorderActive(old(recorder)) ==>
        State() == old(State()).(routeChecks := old(routeChecks) - 1)
      ensures old(isRecording) && !RecorderActive(old(recorder)) ==>
        State() == Dead(old(State()), "route_change").(routeChecks := old(routeChecks) - 1)
    {
      routeChecks := routeChecks - 1;
      if !isRecording {
        return;
      }
      if !RecorderActive(recorder) {
        HandleRecordingDeath("route_change");
      }
    }

    /** The same check as its comment means it: only a recorder that is gone
        or stopped is dead; a paused one is alive. */
    method RouteCheckIntended()
      requires Valid() && routeChecks > 0
      modifies this
      ensures Valid()
      ensures old(isRecording) && (old(recorder).None? || old(recorder).value.mode == Stopped) ==>
        State() == Dead(old(State()), "route_change").(routeChecks := old(routeChecks) - 1)
      ensures !(old(isRecording) && (old(recorder).None? || old(recorder).value.mode == Stopped)) ==>
        State() == old(State()).(routeChecks := old(routeChecks) - 1)
    {
      routeChecks := routeChecks - 1;
      if !isRecording {
        return;
      }
      if recorder.None? || recorder.value.mode == Stopped {
        HandleRecordingDeath("route_change");
      }
    }

    /** audioRecorderDidFinishRecording: an unsuccessful finish while
        recording is a death. */
    method RecorderDidFinish(successfully: bool)
      requires Valid()
      modifies this
      ensures Valid()
      ensures !successfully && old(isRecording) ==> State() == Dead(old(State()), "recorder_finished_unsuccessfully")
      ensures successfully || !old(isRecording) ==> State() == old(State())
    {
      if !successfully && isRecording {
        HandleRecordingDeath("recorder_finished_unsuccessfully");
      }
    }

    /** audioRecorderEncodeErrorDidOccur: an error is reported, and while
        recording it is also a death. */
    method EncodeErrorDidOccur(error: Option<string>)
      requires Valid()
      modifies this
      ensures Valid()
      ensures error.None? ==> State() == old(State())
      ensures error.Some? && !old(isRecording) ==>
        State() == old(State()).(notices := old(notices) + [ErrorNotice("Encoding error: " + error.value)])
      ensures error.Some? && old(isRecording) ==>
        State() == Dead(old(State()).(notices := old(notices) + [ErrorNotice("Encoding error: " + error.value)]), "encoding_error")
    {
      if error.Some? {
        notices := notices + [ErrorNotice("Encoding error: " + error.value)];
        if isRecording {
          HandleRecordingDeath("encoding_error");
        }
      }
    }

    /** The system stops the recorder on its own (the input is taken away);
        nothing in the plugin hears of it until a check looks. */
    method SystemStopsRecorder()
      requires Valid()
      modifies this
      ensures Valid()
      ensures State() == old(State()).(recorder := StopIfCapturing(old(recorder)))
    {
      recorder := StopIfCapturing(recorder);
    }
  }

  /** A death is final: the state it leaves is not recording, so a second
      death changes nothing and stopRecording is refused afterwards. */
  lemma DeathIsFinal(s: PluginState, reason: string, again: string)
    ensures !Dead(s, reason).isRecording
    ensures |Dead(s, reason).notices| == |s.notices| + 1
    ensures Dead(s, reason).notices[|s.notices|] == RecordingDead(reason, ChunkCount(s.session))
  {
  }

  /** handleRecordingDeath twice is handleRecordingDeath once. */
  method DeathIsIdempotent(p: Plugin, first: string, second: string)
    requires p.Valid()
    modifies p
    ensures old(p.isRecording) ==> p.State() == Dead(old(p.State()), first)
    ensures !old(p.isRecording) ==> p.State() == old(p.State())
  {
    p.HandleRecordingDeath(first);
    p.HandleRecordingDeath(second);
  }

  /** After a death, stopRecording is rejected: the session is never
      resolved with its chunk count. */
  method StopAfterDeathIsRefused(p: Plugin, reason: string) returns (r: Reply)
    requires p.Valid()
    modifies p
    ensures r == Rejected("Not currently recording")
  {
    p.HandleRecordingDeath(reason);
    r := p.StopRecording();
  }

  /** Pausing, then unplugging the headphones, kills the recording as
      written: isRecording drops, recordingDead is sent, and the recording
      can no longer be stopped. */
  method PausedRecordingDiesOnRouteChange(p: Plugin) returns (paused: Reply, stop: Reply)
    requires p.Valid() && p.isRecording && p.recorder.Some?
    modifies p
    ensures paused == Succeeded && !p.isRecording
    ensures p.notices == old(p.notices) + [RecordingDead("route_change", ChunkCount(old(p.session)))]
    ensures stop == Rejected("Not currently recording")
  {
    paused := p.PauseRecording();
    p.HandleRouteChange(OldDeviceUnavailable);
    p.RouteCheck();
    stop := p.StopRecording();
  }

  /** With the intended check the paused recording survives and can still
      be stopped. */
  method PausedRecordingSurvivesRouteChange(p: Plugin) returns (paused: Reply, stop: Reply)
    requires p.Valid() && p.isRecording && p.recorder.Some? && p.recorder.value.mode == Capturing
    modifies p
    ensures paused == Succeeded && p.isRecording
    ensures p.notices == old(p.notices)
    ensures stop == Queued
  {
    paused := p.PauseRecording();
    p.HandleRouteChange(OldDeviceUnavailable);
    p.RouteCheckIntended();
    stop := p.StopRecording();
  }

  /** As written, a paused recording resumed within the half second before
      the scheduled check runs survives the route change. */
  method ResumeBeforeRouteCheckSurvives(p: Plugin) returns (paused: Reply, resumed: Reply)
    requires p.Valid() && p.isRecording && p.recorder.Some?
    modifies p
    ensures paused == Succeeded && resumed == Succeeded && p.isRecording
    ensures p.notices == old(p.notices)
  {
    paused := p.PauseRecording();
    p.HandleRouteChange(OldDeviceUnavailable);
    resumed := p.ResumeRecording();
    p.RouteCheck();
  }

  /** A session starts at chunk 0 and each successful rotation starts the
      next index: in a started session the chunk index is one past the chunk
      being recorded, and that chunk's file is where the web layer looks for
      it. */
  lemma CurrentChunkIsLastStarted(s: Session)
    requires SessionValid(s) && s.currentChunk.Some?
    ensures s.chunkIndex >= 1
    ensures s.currentChunk.value == Storage.CapacitorChunkPath(s.id, s.chunkIndex - 1, Extension)
  {
    ChunkPathMatchesStorage(s.id, s.chunkIndex - 1);
  }
}
