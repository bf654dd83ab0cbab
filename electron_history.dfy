/** The recording history kept by the Electron main process
    (src-electron/electron-main.js, the history:getAll, history:add,
    history:update, history:delete and history:deleteAll handlers). The
    history is the `recordings` list of an electron-store; every handler
    that changes it is scoped to one validated user. Creation times are the
    numeric value of the stored date; removing recording directories is an
    outcome given per file path. */
module ElectronHistory {
  import opened Wrappers
  import opened Text
  import Validation

  datatype HistoryEntry = HistoryEntry(
    id: string,
    userId: string,
    createdAt: int,
    duration: real,
    fileSize: real,
    filePath: string,
    uploadStatus: string,
    storagePreference: string,
    transcriptionId: Option<string>,
    audioFileId: Option<string>,
    uploadError: Option<string>)

  // ---------------------------------------------------------- filtering

  /** `s.filter(keep)`. */
  function Filter(s: seq<HistoryEntry>, keep: HistoryEntry -> bool): (r: seq<HistoryEntry>)
    ensures |r| <= |s|
    ensures forall k :: 0 <= k < |r| ==> keep(r[k])
  {
    if s == [] then []
    else if keep(s[0]) then [s[0]] + Filter(s[1..], keep)
    else Filter(s[1..], keep)
  }

  /** The filter keeps exactly the entries it accepts. */
  lemma {:induction false} FilterMembers(s: seq<HistoryEntry>, keep: HistoryEntry -> bool)
    ensures forall e :: e in Filter(s, keep) <==> e in s && keep(e)
  {
    if s != [] {
      FilterMembers(s[1..], keep);
      assert s == [s[0]] + s[1..];
    }
  }

  /** Two filters may be applied in either order. */
  lemma {:induction false} FilterCommutes(s: seq<HistoryEntry>, p: HistoryEntry -> bool, q: HistoryEntry -> bool)
    ensures Filter(Filter(s, p), q) == Filter(Filter(s, q), p)
  {
    if s != [] {
      FilterCommutes(s[1..], p, q);
    }
  }

  /** A filter that accepts every entry the other accepts, inside it,
      changes nothing. */
  lemma {:induction false} FilterSubsumed(s: seq<HistoryEntry>, p: HistoryEntry -> bool, q: HistoryEntry -> bool)
    requires forall e :: p(e) ==> q(e)
    ensures Filter(Filter(s, p), q) == Filter(s, p)
  {
    if s != [] {
      FilterSubsumed(s[1..], p, q);
    }
  }

  /** A filter that rejects every entry the other accepts leaves nothing. */
  lemma {:induction false} FilterDisjoint(s: seq<HistoryEntry>, p: HistoryEntry -> bool, q: HistoryEntry -> bool)
    requires forall e :: p(e) ==> !q(e)
    ensures Filter(Filter(s, p), q) == []
  {
    if s != [] {
      FilterDisjoint(s[1..], p, q);
    }
  }

  /** Filtering a list with one entry more keeps that entry at the end
      exactly when it passes. */
  lemma {:induction false} FilterAppend(s: seq<HistoryEntry>, e: HistoryEntry, keep: HistoryEntry -> bool)
    ensures Filter(s + [e], keep) == Filter(s, keep) + (if keep(e) then [e] else [])
  {
    if s == [] {
      assert [] + [e] == [e];
    } else {
      FilterAppend(s[1..], e, keep);
      assert (s + [e])[1..] == s[1..] + [e];
    }
  }

  function OwnedBy(userId: string): HistoryEntry -> bool
  {
    (e: HistoryEntry) => e.userId == userId
  }

  function NotOwnedBy(userId: string): HistoryEntry -> bool
  {
    (e: HistoryEntry) => e.userId != userId
  }

  function NotTheEntry(id: string, userId: string): HistoryEntry -> bool
  {
    (e: HistoryEntry) => !(e.id == id && e.userId == userId)
  }

  // ------------------------------------------------------------ sorting

  // The chunk list (ChunkSequence.SortEntries) is sorted by its own
  // insertion sort: there the key is parsed from a name, ascending, with
  // unnumbered names last, while here it is an integer field, descending.
  // Each sort keeps the order lemmas its key needs.

  /** Newest first: no entry is older than one after it. */
  predicate NewestFirst(s: seq<HistoryEntry>)
  {
    forall i, j :: 0 <= i < j < |s| ==> s[i].createdAt >= s[j].createdAt
  }

  /** `e` placed after every entry at least as new (the comparator
      `b.createdAt - a.createdAt` in the stable library sort). */
  function Insert(e: HistoryEntry, sorted: seq<HistoryEntry>): (r: seq<HistoryEntry>)
    ensures |r| == |sorted| + 1 && multiset(r) == multiset(sorted) + multiset{e}
  {
    if sorted == [] then [e]
    else if sorted[0].createdAt < e.createdAt then [e] + sorted
    else
      assert sorted == [sorted[0]] + sorted[1..];
      [sorted[0]] + Insert(e, sorted[1..])
  }

  /** Inserting keeps every entry at most as new as a bound that the entry
      and the list respect. */
  lemma {:induction false} InsertBounded(e: HistoryEntry, sorted: seq<HistoryEntry>, bound: int)
    requires e.createdAt <= bound && forall k :: 0 <= k < |sorted| ==> sorted[k].createdAt <= bound
    ensures forall k :: 0 <= k < |Insert(e, sorted)| ==> Insert(e, sorted)[k].createdAt <= bound
  {
    if sorted != [] && sorted[0].createdAt >= e.createdAt {
      InsertBounded(e, sorted[1..], bound);
    }
  }

  lemma {:induction false} InsertNewestFirst(e: HistoryEntry, sorted: seq<HistoryEntry>)
    requires NewestFirst(sorted)
    ensures NewestFirst(Insert(e, sorted))
  {
    if sorted != [] && sorted[0].createdAt >= e.createdAt {
      InsertNewestFirst(e, sorted[1..]);
      InsertBounded(e, sorted[1..], sorted[0].createdAt);
    }
  }

  function SortNewestFirst(s: seq<HistoryEntry>): (r: seq<HistoryEntry>)
    ensures |r| == |s| && multiset(r) == multiset(s)
  {
    if s == [] then []
    else
      assert s == s[..|s| - 1] + [s[|s| - 1]];
      Insert(s[|s| - 1], SortNewestFirst(s[..|s| - 1]))
  }

  /** The sort orders by creation time, newest first. */
  lemma {:induction false} SortIsNewestFirst(s: seq<HistoryEntry>)
    ensures NewestFirst(SortNewestFirst(s))
  {
    if s != [] {
      SortIsNewestFirst(s[..|s| - 1]);
      InsertNewestFirst(s[|s| - 1], SortNewestFirst(s[..|s| - 1]));
    }
  }

  // ---------------------------------------------------- add and update

  /** The fields history:add reads from the renderer's recording. */
  datatype NewRecording = NewRecording(
    id: string,
    userId: Validation.JsValue,
    createdAt: Option<int>,
    duration: Option<real>,
    fileSize: Option<real>,
    filePath: Option<string>,
    uploadStatus: Option<string>,
    storagePreference: Option<string>,
    transcriptionId: Option<string>,
    audioFileId: Option<string>)

  /** `s || null`. */
  function StringOrNull(s: Option<string>): (r: Option<string>)
    ensures r.Some? <==> s.Some? && s.value != ""
    ensures r.Some? ==> r == s
  {
    if s.Some? && s.value != "" then s else None
  }

  /** The entry history:add stores for a validated user. */
  function NewEntry(recording: NewRecording, validUserId: string, now: int): (e: HistoryEntry)
    ensures e.userId == validUserId && e.id == recording.id
    ensures e.createdAt == if recording.createdAt.Some? && recording.createdAt.value != 0 then recording.createdAt.value else now
    ensures e.uploadStatus == if recording.uploadStatus.Some? && recording.uploadStatus.value != "" then recording.uploadStatus.value else "pending"
    ensures e.storagePreference == if recording.storagePreference.Some? && recording.storagePreference.value != "" then recording.storagePreference.value else "keep"
    ensures e.filePath == if recording.filePath.Some? then recording.filePath.value else ""
  {
    HistoryEntry(
      recording.id,
      validUserId,
      if recording.createdAt.Some? && recording.createdAt.value != 0 then recording.createdAt.value else now,
      recording.duration.GetOr(0.0),
      recording.fileSize.GetOr(0.0),
      StringOr(recording.filePath, ""),
      StringOr(recording.uploadStatus, "pending"),
      StringOr(recording.storagePreference, "keep"),
      StringOrNull(recording.transcriptionId),
      StringOrNull(recording.audioFileId),
      None)
  }

  /** The fields a renderer may send to history:update. */
  datatype HistoryUpdate = HistoryUpdate(
    id: Option<string>,
    userId: Option<string>,
    createdAt: Option<int>,
    duration: Option<real>,
    fileSize: Option<real>,
    filePath: Option<string>,
    uploadStatus: Option<string>,
    storagePreference: Option<string>,
    transcriptionId: Option<Option<string>>,
    audioFileId: Option<Option<string>>,
    uploadError: Option<Option<string>>)

  /** `{ ...entry, ...safeUpdates }` with `userId` taken out of the updates. */
  function Merge(entry: HistoryEntry, updates: HistoryUpdate): (r: HistoryEntry)
    ensures r.userId == entry.userId
    ensures r.id == updates.id.GetOr(entry.id)
    ensures r.uploadStatus == updates.uploadStatus.GetOr(entry.uploadStatus)
  {
    HistoryEntry(
      updates.id.GetOr(entry.id),
      entry.userId,
      updates.createdAt.GetOr(entry.createdAt),
      updates.duration.GetOr(entry.duration),
      updates.fileSize.GetOr(entry.fileSize),
      updates.filePath.GetOr(entry.filePath),
      updates.uploadStatus.GetOr(entry.uploadStatus),
      updates.storagePreference.GetOr(entry.storagePreference),
      updates.transcriptionId.GetOr(entry.transcriptionId),
      updates.audioFileId.GetOr(entry.audioFileId),
      updates.uploadError.GetOr(entry.uploadError))
  }

  /** `recordings.findIndex(r => r.id === id && r.userId === userId)`. */
  function FindEntry(recordings: seq<HistoryEntry>, id: string, userId: string): (r: Option<nat>)
    ensures r.Some? ==> (r.value < |recordings| && recordings[r.value].id == id && recordings[r.value].userId == userId
      && forall k :: 0 <= k < r.value ==> !(recordings[k].id == id && recordings[k].userId == userId))
    ensures r.None? <==> forall k :: 0 <= k < |recordings| ==> !(recordings[k].id == id && recordings[k].userId == userId)
  {
    if recordings == [] then None
    else if recordings[0].id == id && recordings[0].userId == userId then Some(0)
    else match FindEntry(recordings[1..], id, userId)
      case None => None
      case Some(i) => Some(i + 1)
  }

  /** What removing recording directories does for one path. */
  datatype Removal = Removed | NoDirectory | RemoveFailed

  /** deletedCount and errorCount of history:deleteAll over `s`. */
  function RemovalCounts(s: seq<HistoryEntry>, remove: string -> Removal): (c: (nat, nat))
    ensures c.0 + c.1 <= |s|
  {
    if s == [] then (0, 0)
    else
      var rest := RemovalCounts(s[..|s| - 1], remove);
      var last := s[|s| - 1];
      if last.filePath == "" then rest
      else match remove(last.filePath)
        case Removed => (rest.0 + 1, rest.1)
        case NoDirectory => rest
        case RemoveFailed => (rest.0, rest.1 + 1)
  }

  datatype DeleteAllReport = DeleteAllReport(deletedCount: nat, errorCount: nat)

  /** A delete handler suspended at an awaited directory removal, holding the
      list it read before the await and, for deleteAll, its counts. */
  datatype Suspended =
    | SuspendedDelete(id: string, user: string, snapshot: seq<HistoryEntry>)
    | SuspendedDeleteAll(user: string, snapshot: seq<HistoryEntry>, report: DeleteAllReport)

  function Dropped(s: seq<Suspended>, k: nat): (r: seq<Suspended>)
    requires k < |s|
    ensures |r| == |s| - 1
  {
    s[..k] + s[k + 1..]
  }

  /** The store's `recordings` list, and the delete handlers waiting for a
      directory removal; other handlers may run while they wait. */
  class HistoryStore {
    var recordings: seq<HistoryEntry>
    var suspended: seq<Suspended>

    constructor()
      ensures recordings == [] && suspended == []
    {
      recordings := [];
      suspended := [];
    }

    /** history:getAll: the given user's entries, newest first; nobody's
        without a user id. */
    method GetAll(userId: Validation.JsValue) returns (r: seq<HistoryEntry>)
      ensures !Validation.Truthy(userId) || !userId.Str? ==> r == []
      ensures Validation.Truthy(userId) && userId.Str? ==>
        multiset(r) == multiset(Filter(recordings, OwnedBy(userId.s))) && NewestFirst(r)
      ensures forall e :: e in r ==> e in recordings && userId == Validation.Str(e.userId)
    {
      if !Validation.Truthy(userId) || !userId.Str? {
        return [];
      }
      var userRecordings := Filter(recordings, OwnedBy(userId.s));
      FilterMembers(recordings, OwnedBy(userId.s));
      r := SortNewestFirst(userRecordings);
      SortIsNewestFirst(userRecordings);
      assert forall e :: e in r ==> e in multiset(userRecordings);
    }

    /** history:add: validates the user id, then appends the new entry. */
    method Add(recording: NewRecording, now: int) returns (r: Result<HistoryEntry>)
      modifies this
      ensures suspended == old(suspended)
      ensures Validation.ValidateUserId(recording.userId).Err? ==>
        r == Err(Validation.ValidateUserId(recording.userId).error) && recordings == old(recordings)
      ensures Validation.ValidateUserId(recording.userId).Ok? ==>
        var entry := NewEntry(recording, Validation.ValidateUserId(recording.userId).value, now);
        r == Ok(entry) && recordings == old(recordings) + [entry]
    {
      var valid := Validation.ValidateUserId(recording.userId);
      if valid.Err? {
        return Err(valid.error);
      }
      var entry := NewEntry(recording, valid.value, now);
      recordings := recordings + [entry];
      r := Ok(entry);
    }

    /** history:update: merges the updates into the user's entry with that
        id, keeping its userId. */
    method Update(id: string, updates: HistoryUpdate, userId: Validation.JsValue) returns (r: Result<HistoryEntry>)
      modifies this
      ensures suspended == old(suspended)
      ensures Validation.ValidateUserId(userId).Err? ==>
        r == Err(Validation.ValidateUserId(userId).error) && recordings == old(recordings)
      ensures Validation.ValidateUserId(userId).Ok? ==>
        match FindEntry(old(recordings), id, Validation.ValidateUserId(userId).value)
        case None => r == Err("Recording not found") && recordings == old(recordings)
        case Some(i) =>
          var merged := Merge(old(recordings)[i], updates);
          r == Ok(merged) && recordings == old(recordings)[i := merged]
    {
      var valid := Validation.ValidateUserId(userId);
      if valid.Err? {
        return Err(valid.error);
      }
      var index := FindEntry(recordings, id, valid.value);
      if index.None? {
        return Err("Recording not found");
      }
      recordings := recordings[index.value := Merge(recordings[index.value], updates)];
      r := Ok(recordings[index.value]);
    }

    /** history:delete up to its await. The list is read first; with
        `deleteFile`, an entry with a path whose directory exists is
        removed by an awaited call, and the handler waits with what it read
        (`None`). Otherwise it drops the user's entries with that id at
        once. `remove` is what removing the directory of a path does. */
    method Delete(id: string, deleteFile: bool, userId: Validation.JsValue, remove: string -> Removal)
      returns (r: Option<Result<()>>)
      modifies this
      ensures Validation.ValidateUserId(userId).Err? ==>
        r == Some(Err(Validation.ValidateUserId(userId).error)) && recordings == old(recordings) && suspended == old(suspended)
      ensures Validation.ValidateUserId(userId).Ok? ==>
        var user := Validation.ValidateUserId(userId).value;
        match FindEntry(old(recordings), id, user)
        case None => r == Some(Err("Recording not found")) && recordings == old(recordings) && suspended == old(suspended)
        case Some(i) =>
          var path := old(recordings)[i].filePath;
          if deleteFile && path != "" && remove(path) != NoDirectory
          then r.None? && recordings == old(recordings) && suspended == old(suspended) + [SuspendedDelete(id, user, old(recordings))]
          else r == Some(Ok(())) && recordings == Filter(old(recordings), NotTheEntry(id, user)) && suspended == old(suspended)
    {
      var valid := Validation.ValidateUserId(userId);
      if valid.Err? {
        return Some(Err(valid.error));
      }
      var found := FindEntry(recordings, id, valid.value);
      if found.None? {
        return Some(Err("Recording not found"));
      }
      var path := recordings[found.value].filePath;
      if deleteFile && path != "" && remove(path) != NoDirectory {
        suspended := suspended + [SuspendedDelete(id, valid.value, recordings)];
        return None;
      }
      recordings := Filter(recordings, NotTheEntry(id, valid.value));
      r := Some(Ok(()));
    }

    /** history:deleteAll up to its awaits: removes the user's directories,
        counting what was removed and what failed. When no removal was
        awaited it drops all of the user's entries at once; otherwise it
        waits with the list it read and the counts (`None`). */
    method DeleteAll(userId: Validation.JsValue, remove: string -> Removal) returns (r: Option<Result<DeleteAllReport>>)
      modifies this
      ensures Validation.ValidateUserId(userId).Err? ==>
        r == Some(Err(Validation.ValidateUserId(userId).error)) && recordings == old(recordings) && suspended == old(suspended)
      ensures Validation.ValidateUserId(userId).Ok? ==>
        var user := Validation.ValidateUserId(userId).value;
        var counts := RemovalCounts(Filter(old(recordings), OwnedBy(user)), remove);
        var report := DeleteAllReport(counts.0, counts.1);
        if counts.0 + counts.1 > 0
        then r.None? && recordings == old(recordings) && suspended == old(suspended) + [SuspendedDeleteAll(user, old(recordings), report)]
        else r == Some(Ok(report)) && recordings == Filter(old(recordings), NotOwnedBy(user)) && suspended == old(suspended)
    {
      var valid := Validation.ValidateUserId(userId);
      if valid.Err? {
        return Some(Err(valid.error));
      }
      var userRecordings := Filter(recordings, OwnedBy(valid.value));
      var deletedCount, errorCount := 0, 0;
      var i := 0;
      while i < |userRecordings|
        invariant i <= |userRecordings|
        invariant (deletedCount, errorCount) == RemovalCounts(userRecordings[..i], remove)
      {
        assert userRecordings[..i + 1][..i] == userRecordings[..i];
        var recording := userRecordings[i];
        if recording.filePath != "" {
          var outcome := remove(recording.filePath);
          if outcome == Removed {
            deletedCount := deletedCount + 1;
          } else if outcome == RemoveFailed {
            errorCount := errorCount + 1;
          }
        }
        i := i + 1;
      }
      assert userRecordings[..i] == userRecordings;
      var report := DeleteAllReport(deletedCount, errorCount);
      if deletedCount + errorCount > 0 {
        suspended := suspended + [SuspendedDeleteAll(valid.value, recordings, report)];
        return None;
      }
      recordings := Filter(recordings, NotOwnedBy(valid.value));
      r := Some(Ok(report));
    }

    /** A suspended delete handler resumes after its last removal: it writes
        back the list it read before the await, filtered, so whatever other
        handlers stored in between is overwritten. */
    method Resumed(k: nat) returns (r: Result<DeleteAllReport>)
      requires k < |suspended|
      modifies this
      ensures suspended == Dropped(old(suspended), k)
      ensures match old(suspended)[k]
        case SuspendedDelete(id, user, snapshot) =>
          recordings == Filter(snapshot, NotTheEntry(id, user)) && r == Ok(DeleteAllReport(0, 0))
        case SuspendedDeleteAll(user, snapshot, report) =>
          recordings == Filter(snapshot, NotOwnedBy(user)) && r == Ok(report)
    {
      var waiting := suspended[k];
      suspended := Dropped(suspended, k);
      match waiting
      case SuspendedDelete(id, user, snapshot) =>
        recordings := Filter(snapshot, NotTheEntry(id, user));
        r := Ok(DeleteAllReport(0, 0));
      case SuspendedDeleteAll(user, snapshot, report) =>
        recordings := Filter(snapshot, NotOwnedBy(user));
        r := Ok(report);
    }

    /** The resumption as the handlers mean it: the list is read again after
        the awaits, so only the user's entries are dropped from what is
        stored now. */
    method ResumedIntended(k: nat) returns (r: Result<DeleteAllReport>)
      requires k < |suspended|
      modifies this
      ensures suspended == Dropped(old(suspended), k)
      ensures match old(suspended)[k]
        case SuspendedDelete(id, user, _) =>
          recordings == Filter(old(recordings), NotTheEntry(id, user)) && r == Ok(DeleteAllReport(0, 0))
        case SuspendedDeleteAll(user, _, report) =>
          recordings == Filter(old(recordings), NotOwnedBy(user)) && r == Ok(report)
    {
      var waiting := suspended[k];
      suspended := Dropped(suspended, k);
      match waiting
      case SuspendedDelete(id, user, _) =>
        recordings := Filter(recordings, NotTheEntry(id, user));
        r := Ok(DeleteAllReport(0, 0));
      case SuspendedDeleteAll(user, _, report) =>
        recordings := Filter(recordings, NotOwnedBy(user));
        r := Ok(report);
    }
  }

  // ---------------------------------------------------------- scoping

  /** history:update changes only the one matching entry and never any
      entry's owner, so every other user's view is unchanged. */
  lemma UpdateScoped(recordings: seq<HistoryEntry>, i: nat, updates: HistoryUpdate)
    requires i < |recordings|
    ensures var after := recordings[i := Merge(recordings[i], updates)];
      |after| == |recordings|
      && (forall k :: 0 <= k < |after| ==> after[k].userId == recordings[k].userId)
      && (forall k :: 0 <= k < |after| && k != i ==> after[k] == recordings[k])
  {
  }

  /** Other users' views after a change that only touched entries of
      `user`: those lists are equal when each kept the other entries. */
  lemma {:induction false} UpdateKeepsOthers(recordings: seq<HistoryEntry>, i: nat, updates: HistoryUpdate, other: string)
    requires i < |recordings| && recordings[i].userId != other
    ensures Filter(recordings[i := Merge(recordings[i], updates)], OwnedBy(other)) == Filter(recordings, OwnedBy(other))
  {
    if i > 0 {
      UpdateKeepsOthers(recordings[1..], i - 1, updates, other);
      assert recordings[i := Merge(recordings[i], updates)][1..] == recordings[1..][i - 1 := Merge(recordings[i], updates)];
    } else {
      assert recordings[0 := Merge(recordings[0], updates)][1..] == recordings[1..];
    }
  }

  /** history:delete removes the matching entries of that user only. */
  lemma DeleteScoped(recordings: seq<HistoryEntry>, id: string, user: string, other: string)
    requires other != user
    ensures Filter(Filter(recordings, NotTheEntry(id, user)), OwnedBy(other)) == Filter(recordings, OwnedBy(other))
    ensures forall e :: e in Filter(recordings, NotTheEntry(id, user)) <==> e in recordings && !(e.id == id && e.userId == user)
  {
    FilterCommutes(recordings, NotTheEntry(id, user), OwnedBy(other));
    FilterSubsumed(recordings, OwnedBy(other), NotTheEntry(id, user));
    FilterMembers(recordings, NotTheEntry(id, user));
  }

  /** history:deleteAll leaves nothing of that user and all of everyone
      else's entries, in order. */
  lemma DeleteAllScoped(recordings: seq<HistoryEntry>, user: string, other: string)
    requires other != user
    ensures Filter(Filter(recordings, NotOwnedBy(user)), OwnedBy(user)) == []
    ensures Filter(Filter(recordings, NotOwnedBy(user)), OwnedBy(other)) == Filter(recordings, OwnedBy(other))
  {
    FilterDisjoint(recordings, NotOwnedBy(user), OwnedBy(user));
    FilterCommutes(recordings, NotOwnedBy(user), OwnedBy(other));
    FilterSubsumed(recordings, OwnedBy(other), NotOwnedBy(user));
  }

  // ------------------------------------------- handlers that interleave

  /** As written, an entry another user adds while deleteAll awaits a
      directory removal is lost: the write-back of the list read before
      the awaits overwrites it. */
  method DeleteAllLosesConcurrentAdd(store: HistoryStore, userId: Validation.JsValue, remove: string -> Removal,
                                     recording: NewRecording, now: int) returns (added: Result<HistoryEntry>)
    requires Validation.ValidateUserId(userId).Ok? && Validation.ValidateUserId(recording.userId).Ok?
    requires Validation.ValidateUserId(recording.userId).value != Validation.ValidateUserId(userId).value
    requires var c := RemovalCounts(Filter(store.recordings, OwnedBy(Validation.ValidateUserId(userId).value)), remove);
      c.0 + c.1 > 0
    modifies store
    ensures added.Ok? && added.value.userId != Validation.ValidateUserId(userId).value
    ensures store.recordings == Filter(old(store.recordings), NotOwnedBy(Validation.ValidateUserId(userId).value))
  {
    var started := store.DeleteAll(userId, remove);
    added := store.Add(recording, now);
    var _ := store.Resumed(|store.suspended| - 1);
  }

  /** With the list read again after the awaits, the concurrent entry
      stays, after everything else of the other users. */
  method DeleteAllKeepsConcurrentAdd(store: HistoryStore, userId: Validation.JsValue, remove: string -> Removal,
                                     recording: NewRecording, now: int) returns (added: Result<HistoryEntry>)
    requires Validation.ValidateUserId(userId).Ok? && Validation.ValidateUserId(recording.userId).Ok?
    requires Validation.ValidateUserId(recording.userId).value != Validation.ValidateUserId(userId).value
    requires var c := RemovalCounts(Filter(store.recordings, OwnedBy(Validation.ValidateUserId(userId).value)), remove);
      c.0 + c.1 > 0
    modifies store
    ensures added.Ok? && added.value.userId != Validation.ValidateUserId(userId).value
    ensures store.recordings == Filter(old(store.recordings), NotOwnedBy(Validation.ValidateUserId(userId).value)) + [added.value]
  {
    var user := Validation.ValidateUserId(userId).value;
    var started := store.DeleteAll(userId, remove);
    var before := store.recordings;
    added := store.Add(recording, now);
    FilterAppend(before, added.value, NotOwnedBy(user));
    var _ := store.ResumedIntended(|store.suspended| - 1);
  }

  /** history:delete with `deleteFile` loses a concurrent add the same way. */
  method DeleteLosesConcurrentAdd(store: HistoryStore, id: string, userId: Validation.JsValue, remove: string -> Removal,
                                  recording: NewRecording, now: int) returns (added: Result<HistoryEntry>)
    requires Validation.ValidateUserId(userId).Ok? && Validation.ValidateUserId(recording.userId).Ok?
    requires var user := Validation.ValidateUserId(userId).value;
      var found := FindEntry(store.recordings, id, user);
      found.Some? && store.recordings[found.value].filePath != "" && remove(store.recordings[found.value].filePath) != NoDirectory
    modifies store
    ensures added.Ok?
    ensures store.recordings == Filter(old(store.recordings), NotTheEntry(id, Validation.ValidateUserId(userId).value))
  {
    var started := store.Delete(id, true, userId, remove);
    added := store.Add(recording, now);
    var _ := store.Resumed(|store.suspended| - 1);
  }

  /** With the list read again after the await, the concurrent entry stays
      whenever it is not the one deleted. */
  method DeleteKeepsConcurrentAdd(store: HistoryStore, id: string, userId: Validation.JsValue, remove: string -> Removal,
                                  recording: NewRecording, now: int) returns (added: Result<HistoryEntry>)
    requires Validation.ValidateUserId(userId).Ok? && Validation.ValidateUserId(recording.userId).Ok?
    requires recording.id != id
    requires var user := Validation.ValidateUserId(userId).value;
      var found := FindEntry(store.recordings, id, user);
      found.Some? && store.recordings[found.value].filePath != "" && remove(store.recordings[found.value].filePath) != NoDirectory
    modifies store
    ensures added.Ok?
    ensures store.recordings == Filter(old(store.recordings), NotTheEntry(id, Validation.ValidateUserId(userId).value)) + [added.value]
  {
    var user := Validation.ValidateUserId(userId).value;
    var started := store.Delete(id, true, userId, remove);
    var before := store.recordings;
    added := store.Add(recording, now);
    FilterAppend(before, added.value, NotTheEntry(id, user));
    var _ := store.ResumedIntended(|store.suspended| - 1);
  }
}
