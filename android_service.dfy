/** The Android foreground recording service
    (src-capacitor/android/app/src/main/java/ch/suissenotes/app/ForegroundRecordingService.kt)
    as one Service object: the companion's isRecording, currentRecordId and
    chunkIndex and the instance's recorder, timer, directory and callbacks
    are its fields. The foreground notification is the text it shows, or
    None once removed; what the service sends out (the recording-death
    broadcast and the plugin's callbacks) is appended to `outbox`. Whether
    a MediaRecorder or startForeground call throws is a parameter:
    `Some(message)` where it throws, the message being the exception's
    nullable `message`. */
module AndroidService {
  import opened Wrappers
  import opened NativeChunk
  import Storage

  const ActionStart := "ch.suissenotes.app.START_RECORDING"
  const ActionStop := "ch.suissenotes.app.STOP_RECORDING"
  const ActionPause := "ch.suissenotes.app.PAUSE_RECORDING"
  const ActionResume := "ch.suissenotes.app.RESUME_RECORDING"

  /** Service.START_STICKY. */
  const StartSticky := 1

  const InProgressText := "Recording in progress..."
  const PausedText := "Recording paused"

  datatype RecorderState = Capturing | Paused | Released

  datatype MediaRecorder = MediaRecorder(file: string, state: RecorderState)

  /** Which of onChunkSaved and onError the plugin has set. */
  datatype Callbacks = Callbacks(onChunkSaved: bool, onError: bool)

  datatype Outgoing =
    | RecordingDead(reason: string, chunkCount: nat)
    | ChunkSaved(chunkIndex: nat, path: string)
    | ErrorCallback(message: string)

  datatype ServiceState = ServiceState(
    isRecording: bool, currentRecordId: Option<string>, chunkIndex: nat,
    recorder: Option<MediaRecorder>, chunkTimer: bool, chunksDirectory: Option<string>,
    currentChunkFile: Option<string>, callbacks: Callbacks, notification: Option<string>,
    selfStopped: bool, outbox: seq<Outgoing>)

  /** Kotlin's `"${e.message}"`: a missing message prints as "null". */
  function MessageText(message: Option<string>): (r: string)
    ensures message.Some? ==> r == message.value
    ensures message.None? ==> r == "null"
  {
    message.GetOr("null")
  }

  /** `File(chunksDirectory, "chunk_%06d.m4a")`; without a directory the
      file is the bare name. */
  function ChunkFile(directory: Option<string>, chunkIndex: nat): string
  {
    if directory.Some? then ChunkPath(directory.value, chunkIndex) else Storage.CapacitorChunkName(chunkIndex, Extension)
  }

  /** `stop()` then `release()`, whose exceptions are caught: the recorder
      object stays referenced, released. */
  function ReleaseRecorder(r: Option<MediaRecorder>): (t: Option<MediaRecorder>)
    ensures t.Some? <==> r.Some?
    ensures t.Some? ==> t.value.state == Released && t.value.file == r.value.file
  {
    if r.Some? then Some(r.value.(state := Released)) else None
  }

  function PauseRecorder(r: Option<MediaRecorder>): (t: Option<MediaRecorder>)
    ensures t.Some? <==> r.Some?
    ensures t.Some? ==> t.value.state != Capturing && t.value.file == r.value.file
    ensures r.Some? && r.value.state == Released ==> t == r
  {
    if r.Some? && r.value.state == Capturing then Some(r.value.(state := Paused)) else r
  }

  function ResumeRecorder(r: Option<MediaRecorder>): (t: Option<MediaRecorder>)
    ensures t.Some? <==> r.Some?
    ensures t.Some? ==> t.value.file == r.value.file && (t.value.state == Released <==> r.value.state == Released)
  {
    if r.Some? && r.value.state == Paused then Some(r.value.(state := Capturing)) else r
  }

  /** A callback call goes out only when that callback is set. */
  function IfSet(registered: bool, message: Outgoing): (r: seq<Outgoing>)
    ensures registered ==> r == [message]
    ensures !registered ==> r == []
  {
    if registered then [message] else []
  }

  class Service {
    var isRecording: bool
    var currentRecordId: Option<string>
    var chunkIndex: nat
    var recorder: Option<MediaRecorder>
    var chunkTimer: bool
    var chunksDirectory: Option<string>
    var currentChunkFile: Option<string>
    var callbacks: Callbacks
    var notification: Option<string>
    var selfStopped: bool
    var outbox: seq<Outgoing>

    function State(): ServiceState
      reads this
    {
      ServiceState(isRecording, currentRecordId, chunkIndex, recorder, chunkTimer, chunksDirectory,
                   currentChunkFile, callbacks, notification, selfStopped, outbox)
    }

    /** A recorder that is not released writes the chunk just before the
        current index: the index counts the chunks started. */
    predicate WritesLastChunk()
      reads this
    {
      recorder.Some? && recorder.value.state != Released ==>
        chunkIndex >= 1 && recorder.value.file == ChunkFile(chunksDirectory, chunkIndex - 1)
    }

    /** While recording, the directory is the one of the current record id,
        and a recorder that is not released exists only while recording. */
    predicate Valid()
      reads this
    {
      (isRecording ==> currentRecordId.Some? && chunksDirectory == Some(ChunksDirectory(currentRecordId.value)))
      && (recorder.Some? && recorder.value.state != Released ==> isRecording)
      && WritesLastChunk()
    }

    /** The companion's initial values and a service that has set nothing
        up yet. */
    constructor ()
      ensures State() == ServiceState(false, None, 0, None, false, None, None, Callbacks(false, false), None, false, [])
      ensures Valid()
    {
      isRecording, currentRecordId, chunkIndex := false, None, 0;
      recorder, chunkTimer, chunksDirectory, currentChunkFile := None, false, None, None;
      callbacks, notification, selfStopped, outbox := Callbacks(false, false), None, false, [];
    }

    /** setCallbacks. */
    method SetCallbacks(onChunkSaved: bool, onError: bool)
      requires Valid()
      modifies this
      ensures Valid()
      ensures State() == old(State()).(callbacks := Callbacks(onChunkSaved, onError))
    {
      callbacks := Callbacks(onChunkSaved, onError);
    }

    /** startNewChunk. The previous recorder is stopped and released, the
        current chunk file becomes `chunk_%06d.m4a` at the current index,
        and a new recorder is prepared and started on it. Only when that
        succeeds is it kept, reported to onChunkSaved with the index used,
        and the index incremented; a failure is reported to onError and
        leaves the index, and the released recorder, as they were. */
    method StartNewChunk(failure: Option<Option<string>>)
      requires WritesLastChunk()
      modifies this
      ensures WritesLastChunk()
      ensures isRecording == old(isRecording) && currentRecordId == old(currentRecordId)
      ensures chunkTimer == old(chunkTimer) && chunksDirectory == old(chunksDirectory)
      ensures callbacks == old(callbacks) && notification == old(notification) && selfStopped == old(selfStopped)
      ensures currentChunkFile == Some(ChunkFile(old(chunksDirectory), old(chunkIndex)))
      ensures failure.Some? ==>
        recorder == ReleaseRecorder(old(recorder)) && chunkIndex == old(chunkIndex)
        && outbox == old(outbox) + IfSet(callbacks.onError, ErrorCallback("Failed to save chunk: " + MessageText(failure.value)))
      ensures failure.None? ==>
        var file := ChunkFile(old(chunksDirectory), old(chunkIndex));
        recorder == Some(MediaRecorder(file, Capturing)) && chunkIndex == old(chunkIndex) + 1
        && outbox == old(outbox) + IfSet(callbacks.onChunkSaved, ChunkSaved(old(chunkIndex), file))
    {
      recorder := ReleaseRecorder(recorder);
      var file := ChunkFile(chunksDirectory, chunkIndex);
      currentChunkFile := Some(file);
      if failure.Some? {
        outbox := outbox + IfSet(callbacks.onError, ErrorCallback("Failed to save chunk: " + MessageText(failure.value)));
        return;
      }
      recorder := Some(MediaRecorder(file, Capturing));
      outbox := outbox + IfSet(callbacks.onChunkSaved, ChunkSaved(chunkIndex, file));
      chunkIndex := chunkIndex + 1;
    }

    /** startRecording. A no-op while recording. Otherwise the chunks
        directory, record id and index 0 are set first; if startForeground
        throws, onError hears of it, the service stops itself and isRecording
        stays false. If not, the notification shows, the first chunk is
        started (a failure there is swallowed by startNewChunk), and
        isRecording and the rotation timer are set. */
    method StartRecording(recordId: string, foregroundFailure: Option<Option<string>>, chunkFailure: Option<Option<string>>)
      requires Valid()
      modifies this
      ensures Valid()
      ensures old(isRecording) ==> State() == old(State())
      ensures !old(isRecording) ==> currentRecordId == Some(recordId) && chunksDirectory == Some(ChunksDirectory(recordId))
      ensures !old(isRecording) && foregroundFailure.Some? ==>
        State() == old(State()).(currentRecordId := Some(recordId), chunkIndex := 0,
          chunksDirectory := Some(ChunksDirectory(recordId)), selfStopped := true,
          outbox := old(outbox) + IfSet(callbacks.onError, ErrorCallback("Failed to start recording: " + MessageText(foregroundFailure.value))))
      ensures !old(isRecording) && foregroundFailure.None? ==>
        var first := ChunkPath(ChunksDirectory(recordId), 0);
        isRecording && chunkTimer && notification == Some(InProgressText)
        && currentChunkFile == Some(first)
      ensures !old(isRecording) && foregroundFailure.None? && chunkFailure.None? ==>
        var first := ChunkPath(ChunksDirectory(recordId), 0);
        chunkIndex == 1 && recorder == Some(MediaRecorder(first, Capturing))
        && outbox == old(outbox) + IfSet(callbacks.onChunkSaved, ChunkSaved(0, first))
      ensures !old(isRecording) && foregroundFailure.None? && chunkFailure.Some? ==>
        chunkIndex == 0 && recorder == ReleaseRecorder(old(recorder))
        && outbox == old(outbox) + IfSet(callbacks.onError, ErrorCallback("Failed to save chunk: " + MessageText(chunkFailure.value)))
    {
      if isRecording {
        return;
      }
      chunksDirectory := Some(ChunksDirectory(recordId));
      currentRecordId := Some(recordId);
      chunkIndex := 0;
      if foregroundFailure.Some? {
        outbox := outbox + IfSet(callbacks.onError, ErrorCallback("Failed to start recording: " + MessageText(foregroundFailure.value)));
        selfStopped := true;
        return;
      }
      GoForeground(chunkFailure);
    }

    /** The part of startRecording after startForeground returned: the
        notification, the first chunk, the flag and the timer. */
    method GoForeground(chunkFailure: Option<Option<string>>)
      requires WritesLastChunk() && currentRecordId.Some? && chunksDirectory == Some(ChunksDirectory(currentRecordId.value))
      modifies this
      ensures Valid()
      ensures isRecording && chunkTimer && notification == Some(InProgressText)
      ensures currentRecordId == old(currentRecordId) && chunksDirectory == old(chunksDirectory) && selfStopped == old(selfStopped)
      ensures callbacks == old(callbacks)
      ensures currentChunkFile == Some(ChunkFile(chunksDirectory, old(chunkIndex)))
      ensures chunkFailure.None? ==>
        chunkIndex == old(chunkIndex) + 1 && recorder == Some(MediaRecorder(ChunkFile(chunksDirectory, old(chunkIndex)), Capturing))
        && outbox == old(outbox) + IfSet(callbacks.onChunkSaved, ChunkSaved(old(chunkIndex), ChunkFile(chunksDirectory, old(chunkIndex))))
      ensures chunkFailure.Some? ==>
        chunkIndex == old(chunkIndex) && recorder == ReleaseRecorder(old(recorder))
        && outbox == old(outbox) + IfSet(callbacks.onError, ErrorCallback("Failed to save chunk: " + MessageText(chunkFailure.value)))
    {
      notification := Some(InProgressText);
      StartNewChunk(chunkFailure);
      isRecording := true;
      chunkTimer := true;
    }

    /** rotateChunk, which the timer runs every five seconds: the next
        chunk while recording, nothing otherwise. */
    method RotateChunk(failure: Option<Option<string>>)
      requires Valid()
      modifies this
      ensures Valid()
      ensures !old(isRecording) ==> State() == old(State())
      ensures old(isRecording) && failure.Some? ==>
        State() == old(State()).(recorder := ReleaseRecorder(old(recorder)),
          currentChunkFile := Some(ChunkFile(old(chunksDirectory), old(chunkIndex))),
          outbox := old(outbox) + IfSet(callbacks.onError, ErrorCallback("Failed to save chunk: " + MessageText(failure.value))))
      ensures old(isRecording) && failure.None? ==>
        var file := ChunkFile(old(chunksDirectory), old(chunkIndex));
        State() == old(State()).(recorder := Some(MediaRecorder(file, Capturing)), chunkIndex := old(chunkIndex) + 1,
          currentChunkFile := Some(file), outbox := old(outbox) + IfSet(callbacks.onChunkSaved, ChunkSaved(old(chunkIndex), file)))
    {
      if !isRecording {
        return;
      }
      StartNewChunk(failure);
    }

    /** handleRecordingDeath: while recording, the timer and the recorder
        go, isRecording is cleared, the death is broadcast with the reason
        and the chunk index, and the service leaves the foreground and stops
        itself. Otherwise nothing. */
    method HandleRecordingDeath(reason: string)
      requires Valid()
      modifies this
      ensures Valid()
      ensures !old(isRecording) ==> State() == old(State())
      ensures old(isRecording) ==>
        State() == old(State()).(isRecording := false, recorder := None, chunkTimer := false, notification := None,
          selfStopped := true, outbox := old(outbox) + [RecordingDead(reason, old(chunkIndex))])
    {
      if !isRecording {
        return;
      }
      chunkTimer := false;
      recorder := None;
      isRecording := false;
      outbox := outbox + [RecordingDead(reason, chunkIndex)];
      notification := None;
      selfStopped := true;
    }

    /** pauseRecording: while recording, pauses the recorder, cancels the
        timer and shows "Recording paused"; if pausing the recorder throws,
        the rest is skipped. isRecording stays true. */
    method PauseRecording(recorderThrows: bool)
      requires Valid()
      modifies this
      ensures Valid()
      ensures !old(isRecording) || recorderThrows ==> State() == old(State())
      ensures old(isRecording) && !recorderThrows ==>
        State() == old(State()).(recorder := PauseRecorder(old(recorder)), chunkTimer := false, notification := Some(PausedText))
    {
      if !isRecording || recorderThrows {
        return;
      }
      recorder := PauseRecorder(recorder);
      chunkTimer := false;
      notification := Some(PausedText);
    }

    /** resumeRecording: the same, the other way. */
    method ResumeRecording(recorderThrows: bool)
      requires Valid()
      modifies this
      ensures Valid()
      ensures !old(isRecording) || recorderThrows ==> State() == old(State())
      ensures old(isRecording) && !recorderThrows ==>
        State() == old(State()).(recorder := ResumeRecorder(old(recorder)), chunkTimer := true, notification := Some(InProgressText))
    {
      if !isRecording || recorderThrows {
        return;
      }
      recorder := ResumeRecorder(recorder);
      chunkTimer := true;
      notification := Some(InProgressText);
    }

    /** stopRecording: while recording, the timer and the recorder go and
        isRecording is cleared, and, in the `finally`, the foreground
        notification is removed and the service stops itself. */
    method StopRecording()
      requires Valid()
      modifies this
      ensures Valid()
      ensures !old(isRecording) ==> State() == old(State())
      ensures old(isRecording) ==>
        State() == old(State()).(isRecording := false, recorder := None, chunkTimer := false, notification := None, selfStopped := true)
    {
      if !isRecording {
        return;
      }
      chunkTimer := false;
      recorder := None;
      isRecording := false;
      notification := None;
      selfStopped := true;
    }

    /** onStartCommand: START with a record id starts, STOP, PAUSE and
        RESUME go to their handlers, anything else is ignored; the answer
        is START_STICKY whatever happened. */
    method OnStartCommand(action: Option<string>, recordId: Option<string>,
                          foregroundFailure: Option<Option<string>>, chunkFailure: Option<Option<string>>, recorderThrows: bool)
      returns (flag: int)
      requires Valid()
      modifies this
      ensures Valid()
      ensures flag == StartSticky
      ensures action == Some(ActionStart) && recordId.None? ==> State() == old(State())
      ensures action.None? ==> State() == old(State())
      ensures action.Some? && action.value !in {ActionStart, ActionStop, ActionPause, ActionResume} ==> State() == old(State())
      ensures action == Some(ActionStop) ==> !isRecording
      ensures action == Some(ActionStop) && old(isRecording) ==>
        State() == old(State()).(isRecording := false, recorder := None, chunkTimer := false, notification := None, selfStopped := true)
      ensures action == Some(ActionStart) && recordId.Some? && old(isRecording) ==> State() == old(State())
      ensures action == Some(ActionStart) && recordId.Some? && !old(isRecording) ==> currentRecordId == recordId
      ensures action in {Some(ActionPause), Some(ActionResume)} && (!old(isRecording) || recorderThrows) ==> State() == old(State())
      ensures action == Some(ActionPause) && old(isRecording) && !recorderThrows ==>
        State() == old(State()).(recorder := PauseRecorder(old(recorder)), chunkTimer := false, notification := Some(PausedText))
      ensures action == Some(ActionResume) && old(isRecording) && !recorderThrows ==>
        State() == old(State()).(recorder := ResumeRecorder(old(recorder)), chunkTimer := true, notification := Some(InProgressText))
    {
      if action == Some(ActionStart) {
        if recordId.Some? {
          StartRecording(recordId.value, foregroundFailure, chunkFailure);
        }
      } else if action == Some(ActionStop) {
        StopRecording();
      } else if action == Some(ActionPause) {
        PauseRecording(recorderThrows);
      } else if action == Some(ActionResume) {
        ResumeRecording(recorderThrows);
      }
      flag := StartSticky;
    }

    /** onDestroy: a service killed while recording broadcasts its death as
        "service_destroyed", then stops. */
    method OnDestroy()
      requires Valid()
      modifies this
      ensures Valid()
      ensures !old(isRecording) ==> State() == old(State())
      ensures old(isRecording) ==>
        State() == old(State()).(isRecording := false, recorder := None, chunkTimer := false, notification := None,
          selfStopped := true, outbox := old(outbox) + [RecordingDead("service_destroyed", old(chunkIndex))])
    {
      if isRecording {
        outbox := outbox + [RecordingDead("service_destroyed", chunkIndex)];
      }
      StopRecording();
    }
  }

  /** A service that is not recording ignores every command but a start:
      rotation, pause, resume, stop and a death report change nothing. */
  method IdleServiceIgnoresCommands(s: Service, failure: Option<Option<string>>, throws: bool, reason: string)
    requires s.Valid() && !s.isRecording
    modifies s
    ensures s.State() == old(s.State())
  {
    s.RotateChunk(failure);
    s.PauseRecording(throws);
    s.ResumeRecording(throws);
    s.StopRecording();
    s.HandleRecordingDeath(reason);
  }

  /** A second death report, whatever its reason, changes nothing: one
      broadcast per death. */
  method DeathIsIdempotent(s: Service, first: string, second: string)
    requires s.Valid()
    modifies s
    ensures !s.isRecording
    ensures old(s.isRecording) ==> s.outbox == old(s.outbox) + [RecordingDead(first, old(s.chunkIndex))]
    ensures !old(s.isRecording) ==> s.State() == old(s.State())
  {
    s.HandleRecordingDeath(first);
    s.HandleRecordingDeath(second);
  }

  /** A start while recording changes nothing: the record id and the index
      of the recording under way stay. */
  method SecondStartIsIgnored(s: Service, first: string, second: string, f1: Option<Option<string>>, c1: Option<Option<string>>,
                              f2: Option<Option<string>>, c2: Option<Option<string>>)
    requires s.Valid()
    modifies s
    ensures f1.None? || old(s.isRecording) ==> s.isRecording
    ensures !old(s.isRecording) && f1.None? ==> s.currentRecordId == Some(first)
  {
    s.StartRecording(first, f1, c1);
    s.StartRecording(second, f2, c2);
  }

  /** The chunk counted in a death broadcast is the number of chunks
      started: the live recorder writes the chunk numbered one below. */
  lemma LiveRecorderWritesChunkBelowCount(recordId: string, chunkIndex: nat, file: string)
    requires chunkIndex >= 1 && file == ChunkFile(Some(ChunksDirectory(recordId)), chunkIndex - 1)
    ensures file == Storage.CapacitorChunkPath(recordId, chunkIndex - 1, Extension)
  {
    ChunkPathMatchesStorage(recordId, chunkIndex - 1);
  }
}
