/** The recording store (src/stores/recording.js): the status machine of the
    current recording, its chunk counter, upload progress and the slot that
    keeps an upload running in the background while a new recording starts.
    The awaited Electron calls are parameters: a `Result` whose `Err` carries
    the message of the error the call throws. */
module RecordingStore {
  import opened Wrappers
  import opened Text

  datatype Status = Idle | Recording | Paused | Stopped | Uploading | Uploaded | Error

  datatype UploadMetadata = UploadMetadata(createdAt: Option<int>, fileSize: int, finalDuration: int)

  const EmptyMetadata := UploadMetadata(None, 0, 0)

  datatype BackgroundUpload = BackgroundUpload(
    active: bool,
    recordId: Option<string>,
    progress: int,
    bytesUploaded: int,
    bytesTotal: int,
    metadata: Option<UploadMetadata>)

  const NoBackgroundUpload := BackgroundUpload(false, None, 0, 0, 0, None)

  /** Every field of the store at one moment. */
  datatype Snapshot = Snapshot(
    recordId: Option<string>,
    status: Status,
    startTime: Option<int>,
    duration: nat,
    chunkIndex: nat,
    audioFilePath: Option<string>,
    uploadProgress: int,
    bytesUploaded: int,
    bytesTotal: int,
    error: Option<string>,
    uploadMetadata: UploadMetadata,
    backgroundUpload: BackgroundUpload)

  /** What the actions return: `{ success, recordId?, filePath?, error? }`. */
  datatype Outcome = Outcome(success: bool, recordId: Option<string>, filePath: Option<string>, error: Option<string>)

  /** The reply of `combineChunks`: `{ success, outputPath, error }`. */
  datatype CombineReply = CombineReply(success: bool, outputPath: Option<string>, error: Option<string>)

  /** The argument of setUploading; an absent field is `None`. */
  datatype UploadingArgs = UploadingArgs(createdAt: Option<int>, fileSize: Option<int>, finalDuration: Option<int>)

  /** The arguments of `electronAPI.recording.saveChunk` besides the data. */
  datatype ChunkRequest = ChunkRequest(recordId: Option<string>, chunkIndex: nat, extension: string)

  /** Two-digit components `HH:MM:SS`, as the formattedDuration getter prints. */
  function FormatHms(d: nat): string
  {
    ZeroPad(d / 3600, 2) + ":" + ZeroPad(d % 3600 / 60, 2) + ":" + ZeroPad(d % 60, 2)
  }

  /** Under 100 hours the text is 8 characters `HH:MM:SS` whose fields read
      back as hours, minutes (< 60) and seconds (< 60) that add up to `d`. */
  lemma FormatHmsRoundTrip(d: nat)
    requires d < 360000
    ensures |FormatHms(d)| == 8 && FormatHms(d)[2] == ':' && FormatHms(d)[5] == ':'
    ensures FromRadix(FormatHms(d)[3..5], 10) < 60 && FromRadix(FormatHms(d)[6..], 10) < 60
    ensures 3600 * FromRadix(FormatHms(d)[..2], 10) + 60 * FromRadix(FormatHms(d)[3..5], 10)
      + FromRadix(FormatHms(d)[6..], 10) == d
  {
    var h, m, s := d / 3600, d % 3600 / 60, d % 60;
    HmsSplit(d);
    assert Pow(10, 2) == 100;
    ZeroPadLength(h, 2);
    ZeroPadLength(m, 2);
    ZeroPadLength(s, 2);
    var r := FormatHms(d);
    assert r[..2] == ZeroPad(h, 2);
    assert r[3..5] == ZeroPad(m, 2);
    assert r[6..] == ZeroPad(s, 2);
    ZeroPadRoundTrip(h, 2);
    ZeroPadRoundTrip(m, 2);
    ZeroPadRoundTrip(s, 2);
  }

  class Store {
    var recordId: Option<string>
    var status: Status
    var startTime: Option<int>
    var duration: nat
    var chunkIndex: nat
    var audioFilePath: Option<string>
    var uploadProgress: int
    var bytesUploaded: int
    var bytesTotal: int
    var error: Option<string>
    var uploadMetadata: UploadMetadata
    var backgroundUpload: BackgroundUpload

    function State(): Snapshot
      reads this
    {
      Snapshot(recordId, status, startTime, duration, chunkIndex, audioFilePath,
        uploadProgress, bytesUploaded, bytesTotal, error, uploadMetadata, backgroundUpload)
    }

    /** The state the store is created in. */
    constructor()
      ensures State() == Snapshot(None, Idle, None, 0, 0, None, 0, 0, 0, None, EmptyMetadata, NoBackgroundUpload)
    {
      recordId, status, startTime, duration, chunkIndex, audioFilePath := None, Idle, None, 0, 0, None;
      uploadProgress, bytesUploaded, bytesTotal, error := 0, 0, 0, None;
      uploadMetadata, backgroundUpload := EmptyMetadata, NoBackgroundUpload;
    }

    /** hasActiveUpload: an upload of this session or one in the background. */
    predicate HasActiveUpload()
      reads this
    {
      status == Uploading || backgroundUpload.active
    }

    /** activeUploadProgress: the session's progress first, then the
        background one, else 0. */
    function ActiveUploadProgress(): (p: int)
      reads this
      ensures status == Uploading ==> p == uploadProgress
      ensures status != Uploading && backgroundUpload.active ==> p == backgroundUpload.progress
      ensures !HasActiveUpload() ==> p == 0
    {
      if status == Uploading then uploadProgress
      else if backgroundUpload.active then backgroundUpload.progress
      else 0
    }

    function FormattedDuration(): string
      reads this
    {
      FormatHms(duration)
    }

    /** startRecording with `newId` from uuidv4, `now` from the clock and
        `session` the reply of createSession (its `success` flag). */
    method StartRecording(newId: string, now: int, session: Result<bool>) returns (r: Outcome)
      modifies this
      ensures var started := old(State()).(recordId := Some(newId), status := Recording, startTime := Some(now),
          duration := 0, chunkIndex := 0, error := None);
        if session == Ok(true) then
          State() == started && r == Outcome(true, Some(newId), None, None)
        else
          var message := if session.Err? then session.error else "Failed to create recording session";
          State() == started.(status := Error, error := Some(message)) && r == Outcome(false, None, None, Some(message))
    {
      recordId := Some(newId);
      status := Recording;
      startTime := Some(now);
      duration := 0;
      chunkIndex := 0;
      error := None;
      var message: string;
      match session {
        case Ok(success) =>
          if success {
            return Outcome(true, recordId, None, None);
          }
          message := "Failed to create recording session";
        case Err(thrown) =>
          message := thrown;
      }
      error := Some(message);
      status := Error;
      r := Outcome(false, None, None, Some(message));
    }

    /** pauseRecording: only a recording pauses. */
    method PauseRecording()
      modifies this
      ensures State() == if old(status) == Recording then old(State()).(status := Paused) else old(State())
    {
      if status == Recording {
        status := Paused;
      }
    }

    /** resumeRecording: only a paused recording resumes. */
    method ResumeRecording()
      modifies this
      ensures State() == if old(status) == Paused then old(State()).(status := Recording) else old(State())
    {
      if status == Paused {
        status := Recording;
      }
    }

    /** stopRecording with `combine` the reply of combineChunks. */
    method StopRecording(combine: Result<CombineReply>) returns (r: Outcome)
      modifies this
      ensures combine.Ok? && combine.value.success ==>
        State() == old(State()).(status := Stopped, audioFilePath := combine.value.outputPath)
        && r == Outcome(true, None, combine.value.outputPath, None)
      ensures !(combine.Ok? && combine.value.success) ==>
        var message := if combine.Err? then combine.error
          else StringOr(combine.value.error, "Failed to combine recording chunks");
        State() == old(State()).(status := Error, error := Some(message)) && r == Outcome(false, None, None, Some(message))
    {
      status := Stopped;
      var message: string;
      match combine {
        case Ok(reply) =>
          if reply.success {
            audioFilePath := reply.outputPath;
            return Outcome(true, None, reply.outputPath, None);
          }
          message := StringOr(reply.error, "Failed to combine recording chunks");
        case Err(thrown) =>
          message := thrown;
      }
      error := Some(message);
      status := Error;
      r := Outcome(false, None, None, Some(message));
    }

    /** saveChunk up to its await: the call to the main process carries
        the record id and the chunk index as they are now. Nothing changes
        until the reply comes, so two saves begun before either reply send
        the same index. */
    method SaveChunk() returns (request: ChunkRequest)
      ensures request == ChunkRequest(recordId, chunkIndex, ".webm")
    {
      request := ChunkRequest(recordId, chunkIndex, ".webm");
    }

    /** saveChunk after its await, with `save` the reply of the chunk write:
        the counter, as it is then, advances by one exactly when the write
        succeeded. */
    method ChunkSaved(save: Result<bool>) returns (r: Outcome)
      modifies this
      ensures save == Ok(true) ==> State() == old(State()).(chunkIndex := old(chunkIndex) + 1) && r.success
      ensures save != Ok(true) ==> State() == old(State()) && !r.success
      ensures save == Ok(false) ==> r.error == Some("Failed to save chunk")
      ensures save.Err? ==> r.error == Some(save.error)
    {
      match save {
        case Ok(success) =>
          if success {
            chunkIndex := chunkIndex + 1;
            return Outcome(true, None, None, None);
          }
          r := Outcome(false, None, None, Some("Failed to save chunk"));
        case Err(thrown) =>
          r := Outcome(false, None, None, Some(thrown));
      }
    }

    method UpdateDuration(seconds: nat)
      modifies this
      ensures State() == old(State()).(duration := seconds)
    {
      duration := seconds;
    }

    method UpdateUploadProgress(progress: int, uploaded: int, total: int)
      modifies this
      ensures State() == old(State()).(uploadProgress := progress, bytesUploaded := uploaded, bytesTotal := total)
    {
      uploadProgress := progress;
      bytesUploaded := uploaded;
      bytesTotal := total;
    }

    /** setUploading: a truthy createdAt or fileSize and a defined
        finalDuration overwrite the upload metadata. */
    method SetUploading(args: UploadingArgs)
      modifies this
      ensures State() == old(State()).(status := Uploading, uploadProgress := 0, uploadMetadata := UploadMetadata(
        if args.createdAt.Some? && args.createdAt.value != 0 then args.createdAt else old(uploadMetadata.createdAt),
        if args.fileSize.Some? && args.fileSize.value != 0 then args.fileSize.value else old(uploadMetadata.fileSize),
        if args.finalDuration.Some? then args.finalDuration.value else old(uploadMetadata.finalDuration)))
    {
      status := Uploading;
      uploadProgress := 0;
      if args.createdAt.Some? && args.createdAt.value != 0 {
        uploadMetadata := uploadMetadata.(createdAt := args.createdAt);
      }
      if args.fileSize.Some? && args.fileSize.value != 0 {
        uploadMetadata := uploadMetadata.(fileSize := args.fileSize.value);
      }
      if args.finalDuration.Some? {
        uploadMetadata := uploadMetadata.(finalDuration := args.finalDuration.value);
      }
    }

    method SetUploaded()
      modifies this
      ensures State() == old(State()).(status := Uploaded, uploadProgress := 100)
    {
      status := Uploaded;
      uploadProgress := 100;
    }

    method SetError(e: Option<string>)
      modifies this
      ensures State() == old(State()).(status := Error, error := e)
    {
      error := e;
      status := Error;
    }

    /** moveToBackgroundUpload: only an upload in progress moves to the
        background slot, with a copy of its metadata. */
    method MoveToBackgroundUpload()
      modifies this
      ensures old(status) == Uploading ==> State() == old(State()).(backgroundUpload :=
        BackgroundUpload(true, old(recordId), old(uploadProgress), old(bytesUploaded), old(bytesTotal), Some(old(uploadMetadata))))
      ensures old(status) != Uploading ==> State() == old(State())
    {
      if status == Uploading {
        backgroundUpload := BackgroundUpload(true, recordId, uploadProgress, bytesUploaded, bytesTotal, Some(uploadMetadata));
      }
    }

    /** updateBackgroundUploadProgress: only for the active background upload
        of that recording. */
    method UpdateBackgroundUploadProgress(id: Option<string>, progress: int, uploaded: int, total: int)
      modifies this
      ensures old(backgroundUpload.active) && old(backgroundUpload.recordId) == id ==>
        State() == old(State()).(backgroundUpload := old(backgroundUpload).(progress := progress, bytesUploaded := uploaded, bytesTotal := total))
      ensures !(old(backgroundUpload.active) && old(backgroundUpload.recordId) == id) ==> State() == old(State())
    {
      if backgroundUpload.active && backgroundUpload.recordId == id {
        backgroundUpload := backgroundUpload.(progress := progress, bytesUploaded := uploaded, bytesTotal := total);
      }
    }

    method ClearBackgroundUpload()
      modifies this
      ensures State() == old(State()).(backgroundUpload := NoBackgroundUpload)
    {
      backgroundUpload := NoBackgroundUpload;
    }

    /** reset: every field back to its initial value except the background
        upload slot. */
    method Reset()
      modifies this
      ensures State() == Snapshot(None, Idle, None, 0, 0, None, 0, 0, 0, None, EmptyMetadata, old(backgroundUpload))
    {
      recordId, status, startTime, duration, chunkIndex, audioFilePath := None, Idle, None, 0, 0, None;
      uploadProgress, bytesUploaded, bytesTotal, error := 0, 0, 0, None;
      uploadMetadata := EmptyMetadata;
    }
  }

  /** A new recording after an upload was moved to the background keeps that
      upload visible: the recording store still reports an active upload and
      its progress. */
  method BackgroundUploadSurvivesNewRecording(store: Store, newId: string, now: int, session: Result<bool>)
    requires store.status == Uploading
    modifies store
    ensures store.HasActiveUpload() && store.backgroundUpload.recordId == old(store.recordId)
    ensures store.status != Error ==> store.ActiveUploadProgress() == old(store.uploadProgress)
  {
    store.MoveToBackgroundUpload();
    store.Reset();
    var _ := store.StartRecording(newId, now, session);
  }

  /** Two saves begun before either reply send the same chunk index, so the
      second file replaces the first, and still the counter goes up by two
      when both succeed. */
  method OverlappingSavesShareIndex(store: Store) returns (first: ChunkRequest, second: ChunkRequest)
    modifies store
    ensures first == second && first.chunkIndex == old(store.chunkIndex)
    ensures store.chunkIndex == old(store.chunkIndex) + 2
  {
    first := store.SaveChunk();
    second := store.SaveChunk();
    var _ := store.ChunkSaved(Ok(true));
    var _ := store.ChunkSaved(Ok(true));
  }
}
