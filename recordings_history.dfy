/** The renderer's recordings-history store (src/stores/recordings-history.js).
    Its state is one Store object. Each IPC call into the Electron history
    handlers is a function parameter that gives the handler's reply; a call
    that throws answers Threw. The current user id is passed in, as
    `_getUserId` computes it from the auth store. */
module RecordingsHistory {
  import opened Wrappers
  import opened Text
  import Validation
  import opened ElectronHistory

  /** `user?.id || user?.userId || null`. */
  function GetUserId(id: Option<string>, userId: Option<string>): (r: Option<string>)
    ensures r.Some? ==> r.value != ""
    ensures r.Some? <==> (id.Some? && id.value != "") || (userId.Some? && userId.value != "")
    ensures id.Some? && id.value != "" ==> r == id
  {
    if id.Some? && id.value != "" then id
    else if userId.Some? && userId.value != "" then userId
    else None
  }

  /** A history handler's reply: success, `{ success: false, error }`, or a
      thrown error whose message may be missing. */
  datatype Reply = Succeeded | Refused(error: Option<string>) | Threw(message: Option<string>)

  datatype AddReply = AddSucceeded(recording: HistoryEntry) | AddRefused(error: Option<string>) | AddThrew(message: Option<string>)

  datatype Outcome = Outcome(success: bool, recording: Option<HistoryEntry>, error: Option<string>)

  const NotAuthenticated := Outcome(false, None, Some("Not authenticated"))

  /** The outcome an action reports for a reply other than success. */
  function Failure(reply: Reply): (r: Outcome)
    requires !reply.Succeeded?
    ensures !r.success && r.recording.None?
    ensures r.error == if reply.Refused? then reply.error else reply.message
  {
    match reply
    case Refused(error) => Outcome(false, None, error)
    case Threw(message) => Outcome(false, None, message)
  }

  // ------------------------------------------------------- local updates

  /** `recordings.findIndex(r => r.id === id)`. */
  function FirstWithId(recordings: seq<HistoryEntry>, id: string): (r: Option<nat>)
    ensures r.Some? ==> (r.value < |recordings| && recordings[r.value].id == id
      && forall k :: 0 <= k < r.value ==> recordings[k].id != id)
    ensures r.None? <==> forall k :: 0 <= k < |recordings| ==> recordings[k].id != id
  {
    if recordings == [] then None
    else if recordings[0].id == id then Some(0)
    else match FirstWithId(recordings[1..], id)
      case None => None
      case Some(k) => Some(k + 1)
  }

  /** `{ ...entry, ...updates }` in the renderer, where a userId in the
      updates is applied too. */
  function LocalMerge(entry: HistoryEntry, updates: HistoryUpdate): (r: HistoryEntry)
    ensures r.userId == updates.userId.GetOr(entry.userId)
    ensures r.(userId := entry.userId) == Merge(entry, updates)
  {
    Merge(entry, updates).(userId := updates.userId.GetOr(entry.userId))
  }

  /** The local list after updateRecording succeeded: the first entry with
      the id takes the updates; every other entry stays. */
  function Updated(recordings: seq<HistoryEntry>, id: string, updates: HistoryUpdate): (r: seq<HistoryEntry>)
    ensures |r| == |recordings|
    ensures FirstWithId(recordings, id).None? ==> r == recordings
    ensures FirstWithId(recordings, id).Some? ==>
      var i := FirstWithId(recordings, id).value;
      r[i] == LocalMerge(recordings[i], updates) && forall k :: 0 <= k < |r| && k != i ==> r[k] == recordings[k]
  {
    match FirstWithId(recordings, id)
    case None => recordings
    case Some(i) => recordings[i := LocalMerge(recordings[i], updates)]
  }

  /** An update that leaves the id alone keeps the same entry first. */
  lemma UpdatedKeepsPosition(recordings: seq<HistoryEntry>, id: string, updates: HistoryUpdate)
    requires updates.id.None?
    ensures FirstWithId(Updated(recordings, id, updates), id) == FirstWithId(recordings, id)
  {
    var r := Updated(recordings, id, updates);
    var f := FirstWithId(recordings, id);
    if f.Some? {
      assert r[f.value].id == id;
      assert forall k :: 0 <= k < f.value ==> r[k].id != id;
    } else {
      assert forall k :: 0 <= k < |r| ==> r[k].id != id;
    }
  }

  function WithoutRecord(id: string): HistoryEntry -> bool
  {
    (e: HistoryEntry) => e.id != id
  }

  /** The update markAsUploaded sends. */
  function UploadedUpdate(transcriptionId: Option<string>, audioFileId: Option<string>): HistoryUpdate
  {
    HistoryUpdate(None, None, None, None, None, None, Some("uploaded"), None, Some(transcriptionId), Some(audioFileId), None)
  }

  /** `{ filePath: null }`; a null path is the empty string here, falsy like
      null wherever the path is read. */
  const ClearedPath: HistoryUpdate := HistoryUpdate(None, None, None, None, None, Some(""), None, None, None, None, None)

  /** The update markAsFailed sends. */
  function FailedUpdate(error: Option<string>): HistoryUpdate
  {
    HistoryUpdate(None, None, None, None, None, None, Some("failed"), None, None, None, Some(error))
  }

  /** Whether history:update accepts the update for a signed-in user. */
  predicate Accepts(update: (string, HistoryUpdate, string) -> Reply, id: string, u: HistoryUpdate, userId: Option<string>)
  {
    userId.Some? && update(id, u, userId.value).Succeeded?
  }

  /** The local list after markAsUploaded: the status update when it is
      accepted, then the path cleared when the entry asked for deletion
      after upload, its file was removed and the second update accepted. */
  function AfterUpload(recordings: seq<HistoryEntry>, id: string, uploaded: HistoryUpdate,
                       accepted: bool, wantsDelete: bool, removed: bool, clearedAccepted: bool): (r: seq<HistoryEntry>)
  {
    var first := if accepted then Updated(recordings, id, uploaded) else recordings;
    if wantsDelete && removed && clearedAccepted then Updated(first, id, ClearedPath) else first
  }

  /** `recording && recording.storagePreference === 'delete_after_upload'`
      for the entry found before the update. */
  predicate WantsDelete(recordings: seq<HistoryEntry>, id: string)
  {
    FirstWithId(recordings, id).Some? && recordings[FirstWithId(recordings, id).value].storagePreference == "delete_after_upload"
  }

  /** After an accepted markAsUploaded the entry is 'uploaded' with the
      given ids, and its path is cleared exactly when deletion after upload
      went through. */
  lemma AfterUploadEntry(recordings: seq<HistoryEntry>, id: string, transcriptionId: Option<string>, audioFileId: Option<string>,
                         wantsDelete: bool, removed: bool, clearedAccepted: bool)
    requires FirstWithId(recordings, id).Some?
    ensures var i := FirstWithId(recordings, id).value;
      var r := AfterUpload(recordings, id, UploadedUpdate(transcriptionId, audioFileId), true, wantsDelete, removed, clearedAccepted);
      |r| == |recordings| && r[i].uploadStatus == "uploaded"
      && r[i].transcriptionId == transcriptionId && r[i].audioFileId == audioFileId
      && r[i].filePath == (if wantsDelete && removed && clearedAccepted then "" else recordings[i].filePath)
      && forall k :: 0 <= k < |r| && k != i ==> r[k] == recordings[k]
  {
    var u := UploadedUpdate(transcriptionId, audioFileId);
    UpdatedKeepsPosition(recordings, id, u);
  }

  // ------------------------------------------------------------- the store

  /** Where a call of loadRecordings is suspended: awaiting `getAll`, or
      awaiting `getDefaultStoragePreference`. */
  datatype LoadStage = AwaitingList | AwaitingPreference

  /** The store's state; `loads` are the calls of loadRecordings still
      suspended at an await, which a reset does not cancel. */
  datatype HistoryState = HistoryState(
    recordings: seq<HistoryEntry>, defaultStoragePreference: Option<string>, loaded: bool, loading: bool,
    loads: seq<LoadStage>)

  function InitialHistory(): HistoryState
  {
    HistoryState([], Some("keep"), false, false, [])
  }

  /** loadRecordings up to its first await: ignored while loading; without
      a user the list is emptied at once; otherwise the call waits for the
      user's entries. */
  function Started(s: HistoryState, userId: Option<string>): HistoryState
  {
    if s.loading then s
    else if userId.None? then s.(recordings := [], loaded := true)
    else s.(loading := true, loads := s.loads + [AwaitingList])
  }

  function Dropped(loads: seq<LoadStage>, k: nat): seq<LoadStage>
    requires k < |loads|
  {
    loads[..k] + loads[k + 1..]
  }

  /** The suspended call `k` is given the entries, or None where getAll
      threw: the catch and the finally end that call. */
  function ListReceived(s: HistoryState, k: nat, reply: Option<seq<HistoryEntry>>): HistoryState
    requires k < |s.loads| && s.loads[k] == AwaitingList
  {
    if reply.None? then s.(loading := false, loads := Dropped(s.loads, k))
    else s.(recordings := reply.value, loads := s.loads[k := AwaitingPreference])
  }

  /** The suspended call `k` is given the preference, or None where the call
      threw; either way its finally clears `loading`. */
  function PreferenceReceived(s: HistoryState, k: nat, reply: Option<Option<string>>): HistoryState
    requires k < |s.loads| && s.loads[k] == AwaitingPreference
  {
    if reply.None? then s.(loading := false, loads := Dropped(s.loads, k))
    else s.(defaultStoragePreference := reply.value, loaded := true, loading := false, loads := Dropped(s.loads, k))
  }

  /** reset: the suspended loads go on. */
  function Cleared(s: HistoryState): HistoryState
  {
    s.(recordings := [], loaded := false, loading := false)
  }

  /** What one load does when nothing else runs during its awaits. */
  function LoadOutcome(s: HistoryState, userId: Option<string>, getAll: string -> Option<seq<HistoryEntry>>,
                       getPreference: Option<Option<string>>): HistoryState
  {
    if s.loading then s
    else if userId.None? then s.(recordings := [], loaded := true)
    else match getAll(userId.value)
      case None => s
      case Some(list) =>
        if getPreference.None? then s.(recordings := list)
        else s.(recordings := list, defaultStoragePreference := getPreference.value, loaded := true)
  }

  lemma DroppedLast(loads: seq<LoadStage>, x: LoadStage)
    ensures Dropped(loads + [x], |loads|) == loads
  {
    assert (loads + [x])[..|loads|] == loads;
  }

  /** With nothing else run during its awaits, the suspended load ends as
      LoadOutcome says, and leaves the other suspended loads as they were. */
  lemma UninterruptedLoad(s: HistoryState, userId: Option<string>, getAll: string -> Option<seq<HistoryEntry>>,
                          getPreference: Option<Option<string>>)
    requires !s.loading
    ensures var k, t := |s.loads|, Started(s, userId);
      (userId.None? ==> t == LoadOutcome(s, userId, getAll, getPreference))
      && (userId.Some? ==>
            (t.loading && k < |t.loads| && t.loads[k] == AwaitingList
             && var u := ListReceived(t, k, getAll(userId.value));
             (getAll(userId.value).None? ==> u == LoadOutcome(s, userId, getAll, getPreference))
             && (getAll(userId.value).Some? ==>
                   (k < |u.loads| && u.loads[k] == AwaitingPreference
                    && PreferenceReceived(u, k, getPreference) == LoadOutcome(s, userId, getAll, getPreference)))))
  {
    var k := |s.loads|;
    DroppedLast(s.loads, AwaitingList);
    DroppedLast(s.loads, AwaitingPreference);
    assert (s.loads + [AwaitingList])[k := AwaitingPreference] == s.loads + [AwaitingPreference];
  }

  /** A fresh store that starts a load is loading, and a second call then
      changes nothing. */
  lemma SecondLoadIsIgnored(userId: string, other: Option<string>)
    ensures var t := Started(InitialHistory(), Some(userId));
      t.loading && t.loads == [AwaitingList] && Started(t, other) == t
  {
  }

  /** A reset during a load clears `loading`, so a second load starts while
      the first is still suspended. */
  lemma ResetAllowsConcurrentLoad(s: HistoryState, userId: string)
    requires s.loading
    ensures Started(s, Some(userId)) == s
    ensures var t := Started(Cleared(s), Some(userId));
      t.loading && t.recordings == [] && t.loads == s.loads + [AwaitingList]
  {
  }

  /** An answer to a load begun before a reset is still stored: the list the
      reset emptied is filled again. */
  lemma AnswerAfterResetIsStored(s: HistoryState, k: nat, list: seq<HistoryEntry>)
    requires k < |s.loads| && s.loads[k] == AwaitingList
    ensures Cleared(s).recordings == []
    ensures ListReceived(Cleared(s), k, Some(list)).recordings == list
  {
  }

  /** The first load's failure clears `loading` while the second is still
      suspended. */
  lemma EarlierLoadEndsLoading(s: HistoryState, k: nat, userId: string)
    requires s.loading && k < |s.loads| && s.loads[k] == AwaitingList
    ensures var t := Started(Cleared(s), Some(userId));
      k < |t.loads| && t.loads[k] == AwaitingList
      && var u := ListReceived(t, k, None);
      !u.loading && |u.loads| == |s.loads| && u.loads[|u.loads| - 1] == AwaitingList
  {
    var t := Started(Cleared(s), Some(userId));
    assert Dropped(t.loads, k)[|s.loads| - 1] == t.loads[|s.loads|];
  }

  predicate HasStatus(e: HistoryEntry, status: string) { e.uploadStatus == status }

  class Store {
    var recordings: seq<HistoryEntry>
    /** 'keep', 'delete_after_upload', or null (None). */
    var defaultStoragePreference: Option<string>
    var loaded: bool
    var loading: bool
    var loads: seq<LoadStage>

    function State(): HistoryState
      reads this
    {
      HistoryState(recordings, defaultStoragePreference, loaded, loading, loads)
    }

    constructor ()
      ensures State() == InitialHistory()
    {
      recordings := [];
      defaultStoragePreference := Some("keep");
      loaded := false;
      loading := false;
      loads := [];
    }

    function PendingRecordings(): (r: seq<HistoryEntry>)
      reads this
    {
      Filter(recordings, (e: HistoryEntry) => HasStatus(e, "pending"))
    }

    function UploadedRecordings(): (r: seq<HistoryEntry>)
      reads this
    {
      Filter(recordings, (e: HistoryEntry) => HasStatus(e, "uploaded"))
    }

    function FailedRecordings(): (r: seq<HistoryEntry>)
      reads this
    {
      Filter(recordings, (e: HistoryEntry) => HasStatus(e, "failed"))
    }

    function RecordingCount(): (n: nat)
      reads this
      ensures n == |recordings|
    {
      |recordings|
    }

    /** getRecordingById: the first entry with the id. */
    function GetRecordingById(id: string): (r: Option<HistoryEntry>)
      reads this
      ensures r.Some? <==> exists k :: 0 <= k < |recordings| && recordings[k].id == id
      ensures r.Some? ==> r.value in recordings && r.value.id == id
    {
      match FirstWithId(recordings, id)
      case None => None
      case Some(i) => Some(recordings[i])
    }

    predicate ShouldShowStorageDialog()
      reads this
    {
      defaultStoragePreference.None?
    }

    /** loadRecordings up to its first await. A call while a load is in
        progress returns at once; without a user the list is emptied and the
        call ends. */
    method LoadRecordings(userId: Option<string>)
      modifies this
      ensures State() == Started(old(State()), userId)
      ensures old(loading) ==> State() == old(State())
    {
      if loading {
        return;
      }
      loading := true;
      if userId.None? {
        recordings := [];
        loaded := true;
        loading := false;
        return;
      }
      loads := loads + [AwaitingList];
    }

    /** The awaited `getAll` of suspended load `k` answered, None where it
        threw. */
    method ListAnswered(k: nat, reply: Option<seq<HistoryEntry>>)
      requires k < |loads| && loads[k] == AwaitingList
      modifies this
      ensures State() == ListReceived(old(State()), k, reply)
    {
      if reply.None? {
        loading := false;
        loads := loads[..k] + loads[k + 1..];
        return;
      }
      recordings := reply.value;
      loads := loads[k := AwaitingPreference];
    }

    /** The awaited `getDefaultStoragePreference` of suspended load `k`
        answered, None where it threw. */
    method PreferenceAnswered(k: nat, reply: Option<Option<string>>)
      requires k < |loads| && loads[k] == AwaitingPreference
      modifies this
      ensures State() == PreferenceReceived(old(State()), k, reply)
    {
      if reply.Some? {
        defaultStoragePreference := reply.value;
        loaded := true;
      }
      loading := false;
      loads := loads[..k] + loads[k + 1..];
    }

    /** addRecording: the recording goes out with the user id; the entry the
        handler stored is put first. */
    method AddRecording(recording: NewRecording, userId: Option<string>, add: NewRecording -> AddReply) returns (r: Outcome)
      modifies this
      ensures userId.None? ==> r == NotAuthenticated && State() == old(State())
      ensures userId.Some? ==>
        var reply := add(recording.(userId := Validation.Str(userId.value)));
        (reply.AddSucceeded? ==> (r == Outcome(true, Some(reply.recording), None)
           && State() == old(State()).(recordings := [reply.recording] + old(recordings))))
        && (reply.AddRefused? ==> r == Outcome(false, None, reply.error) && State() == old(State()))
        && (reply.AddThrew? ==> r == Outcome(false, None, reply.message) && State() == old(State()))
    {
      if userId.None? {
        return NotAuthenticated;
      }
      var reply := add(recording.(userId := Validation.Str(userId.value)));
      match reply {
        case AddSucceeded(entry) =>
          recordings := [entry] + recordings;
          r := Outcome(true, Some(entry), None);
        case AddRefused(error) =>
          r := Outcome(false, None, error);
        case AddThrew(message) =>
          r := Outcome(false, None, message);
      }
    }

    /** updateRecording: the local entry changes only after the handler
        accepted the update. */
    method UpdateRecording(id: string, updates: HistoryUpdate, userId: Option<string>,
                           update: (string, HistoryUpdate, string) -> Reply) returns (r: Outcome)
      modifies this
      ensures userId.None? ==> r == NotAuthenticated
      ensures Accepts(update, id, updates, userId) ==>
        r == Outcome(true, None, None) && State() == old(State()).(recordings := Updated(old(recordings), id, updates))
      ensures !Accepts(update, id, updates, userId) ==> !r.success && State() == old(State())
      ensures userId.Some? && !update(id, updates, userId.value).Succeeded? ==> r == Failure(update(id, updates, userId.value))
    {
      if userId.None? {
        return NotAuthenticated;
      }
      var reply := update(id, updates, userId.value);
      if reply.Succeeded? {
        var index := FirstWithId(recordings, id);
        if index.Some? {
          recordings := recordings[index.value := LocalMerge(recordings[index.value], updates)];
        }
        return Outcome(true, None, None);
      }
      r := Failure(reply);
    }

    /** deleteRecording: after the handler's success every local entry with
        the id goes. */
    method DeleteRecording(id: string, deleteFile: bool, userId: Option<string>,
                           delete: (string, bool, string) -> Reply) returns (r: Outcome)
      modifies this
      ensures userId.None? ==> r == NotAuthenticated && State() == old(State())
      ensures userId.Some? && delete(id, deleteFile, userId.value).Succeeded? ==>
        r == Outcome(true, None, None) && State() == old(State()).(recordings := Filter(old(recordings), WithoutRecord(id)))
      ensures userId.Some? && !delete(id, deleteFile, userId.value).Succeeded? ==>
        r == Failure(delete(id, deleteFile, userId.value)) && State() == old(State())
    {
      if userId.None? {
        return NotAuthenticated;
      }
      var reply := delete(id, deleteFile, userId.value);
      if reply.Succeeded? {
        recordings := Filter(recordings, WithoutRecord(id));
        return Outcome(true, None, None);
      }
      r := Failure(reply);
    }

    /** reset, on logout: the preference is kept. */
    method Reset()
      modifies this
      ensures State() == Cleared(old(State()))
    {
      recordings := [];
      loaded := false;
      loading := false;
    }

    /** setDefaultStoragePreference: set unless the handler threw. */
    method SetDefaultStoragePreference(preference: Option<string>, reply: Reply) returns (r: Outcome)
      modifies this
      ensures !reply.Threw? ==> r == Outcome(true, None, None) && State() == old(State()).(defaultStoragePreference := preference)
      ensures reply.Threw? ==> r == Outcome(false, None, reply.message) && State() == old(State())
    {
      if reply.Threw? {
        return Outcome(false, None, reply.message);
      }
      defaultStoragePreference := preference;
      r := Outcome(true, None, None);
    }

    /** markAsUploaded. `removeFile` tells whether recording:deleteRecording
        went through (false where it threw). */
    method MarkAsUploaded(id: string, transcriptionId: Option<string>, audioFileId: Option<string>, userId: Option<string>,
                          update: (string, HistoryUpdate, string) -> Reply, removeFile: string -> bool)
      modifies this
      ensures State() == old(State()).(recordings := AfterUpload(old(recordings), id, UploadedUpdate(transcriptionId, audioFileId),
        Accepts(update, id, UploadedUpdate(transcriptionId, audioFileId), userId), WantsDelete(old(recordings), id),
        removeFile(id), Accepts(update, id, ClearedPath, userId)))
    {
      var recording := GetRecordingById(id);
      var updates := UploadedUpdate(transcriptionId, audioFileId);
      var _ := UpdateRecording(id, updates, userId, update);
      if recording.Some? && recording.value.storagePreference == "delete_after_upload" {
        if removeFile(id) {
          var _ := UpdateRecording(id, ClearedPath, userId, update);
        }
      }
    }

    /** markAsFailed. */
    method MarkAsFailed(id: string, error: Option<string>, userId: Option<string>, update: (string, HistoryUpdate, string) -> Reply)
      modifies this
      ensures Accepts(update, id, FailedUpdate(error), userId) ==>
        State() == old(State()).(recordings := Updated(old(recordings), id, FailedUpdate(error)))
      ensures !Accepts(update, id, FailedUpdate(error), userId) ==> State() == old(State())
    {
      var _ := UpdateRecording(id, FailedUpdate(error), userId, update);
    }
  }

  /** The status getters hold exactly the entries of that status. */
  lemma StatusGettersExact(s: Store)
    ensures forall e :: e in s.PendingRecordings() <==> e in s.recordings && e.uploadStatus == "pending"
    ensures forall e :: e in s.UploadedRecordings() <==> e in s.recordings && e.uploadStatus == "uploaded"
    ensures forall e :: e in s.FailedRecordings() <==> e in s.recordings && e.uploadStatus == "failed"
  {
    FilterMembers(s.recordings, (e: HistoryEntry) => HasStatus(e, "pending"));
    FilterMembers(s.recordings, (e: HistoryEntry) => HasStatus(e, "uploaded"));
    FilterMembers(s.recordings, (e: HistoryEntry) => HasStatus(e, "failed"));
  }

  /** After a successful delete no entry has the id, and every entry with
      another id is still there. */
  lemma DeleteRemovesEveryCopy(recordings: seq<HistoryEntry>, id: string)
    ensures forall e :: e in Filter(recordings, WithoutRecord(id)) <==> e in recordings && e.id != id
  {
    FilterMembers(recordings, WithoutRecord(id));
  }

  // ------------------------------------------------------------ formatters

  /** 1024 to the power k. */
  function Scale(k: nat): (s: real)
    ensures s >= 1.0
  {
    if k == 0 then 1.0 else 1024.0 * Scale(k - 1)
  }

  const Units: seq<string> := ["B", "KB", "MB", "GB"]

  datatype FileSize = ZeroBytes | Sized(size: real, unitIndex: nat)

  /** formatFileSize, before `toFixed(1)`: the figure and the index into
      B, KB, MB, GB. A zero size is '0 B'. */
  method FormatFileSize(bytes: real) returns (r: FileSize)
    ensures r.ZeroBytes? <==> bytes == 0.0
    ensures r.Sized? ==> r.unitIndex < |Units| && r.size * Scale(r.unitIndex) == bytes
    ensures r.Sized? && r.unitIndex < |Units| - 1 ==> r.size < 1024.0
    ensures r.Sized? && r.unitIndex > 0 ==> r.size >= 1.0
  {
    if bytes == 0.0 {
      return ZeroBytes;
    }
    var unitIndex: nat := 0;
    var size := bytes;
    while size >= 1024.0 && unitIndex < |Units| - 1
      invariant unitIndex < |Units|
      invariant size * Scale(unitIndex) == bytes
      invariant unitIndex > 0 ==> size >= 1.0
      decreases |Units| - unitIndex
    {
      ScaleStep(size, unitIndex);
      size := size / 1024.0;
      unitIndex := unitIndex + 1;
    }
    r := Sized(size, unitIndex);
  }

  lemma ScaleStep(size: real, k: nat)
    ensures (size / 1024.0) * Scale(k + 1) == size * Scale(k)
  {
    calc {
      (size / 1024.0) * Scale(k + 1);
      (size / 1024.0) * (1024.0 * Scale(k));
      ((size / 1024.0) * 1024.0) * Scale(k);
      size * Scale(k);
    }
  }

  /** What formatFileSize's postcondition describes is a single figure and
      unit: the conditions pin the unit down. */
  lemma FileSizeUnique(bytes: real, s: real, k: nat, t: real, m: nat)
    requires k < 4 && m < 4
    requires s * Scale(k) == bytes && t * Scale(m) == bytes
    requires k < 3 ==> s < 1024.0
    requires m < 3 ==> t < 1024.0
    requires k > 0 ==> s >= 1.0
    requires m > 0 ==> t >= 1.0
    ensures k == m && s == t
  {
    if k < m {
      LargerUnit(s, k, t, m);
    } else if m < k {
      LargerUnit(t, m, s, k);
    } else {
      assert s * Scale(k) == t * Scale(k);
    }
  }

  /** A figure of at least one in a larger unit is at least 1024 in a
      smaller one. */
  lemma {:induction false} LargerUnit(s: real, k: nat, t: real, m: nat)
    requires k < m && t >= 1.0 && s * Scale(k) == t * Scale(m)
    ensures s >= 1024.0
    decreases m
  {
    if m == k + 1 {
      assert s * Scale(k) == (t * 1024.0) * Scale(k);
    } else {
      assert t * Scale(m) == (t * 1024.0) * Scale(m - 1);
      LargerUnit(s, k, t * 1024.0, m - 1);
    }
  }

  /** formatDuration; Text.CompactHoursRoundTrip and
      Text.CompactMinutesRoundTrip state what the text holds. */
  function FormatDuration(seconds: nat): (r: string)
    ensures seconds == 0 ==> r == "0:00"
  {
    if seconds == 0 then "0:00" else CompactDuration(seconds)
  }
}
