/** The persistent offline upload queue of the Electron main process
    (src-electron/electron-main.js, addToUploadQueue, removeFromUploadQueue
    and updateUploadQueueRetry). The queue lives in an electron-store under
    `pendingUploads`; here it is the field of one object. Timestamps are
    parameters; the metadata object is kept as its serialised text. */
module ElectronQueue {
  import opened Wrappers

  datatype PendingUpload = PendingUpload(
    recordId: string,
    filePath: string,
    metadata: string,
    addedAt: string,
    retryCount: nat,
    lastRetry: Option<string>)

  /** No two entries share a recordId. */
  predicate UniqueIds(queue: seq<PendingUpload>)
  {
    forall i, j :: 0 <= i < j < |queue| ==> queue[i].recordId != queue[j].recordId
  }

  /** `queue.find(u => u.recordId === recordId)`, as a position. */
  function FindIndex(queue: seq<PendingUpload>, recordId: string): (r: Option<nat>)
    ensures r.Some? ==> (r.value < |queue| && queue[r.value].recordId == recordId
      && forall k :: 0 <= k < r.value ==> queue[k].recordId != recordId)
    ensures r.None? <==> forall k :: 0 <= k < |queue| ==> queue[k].recordId != recordId
  {
    if queue == [] then None
    else if queue[0].recordId == recordId then Some(0)
    else match FindIndex(queue[1..], recordId)
      case None => None
      case Some(i) => Some(i + 1)
  }

  /** The queue after addToUploadQueue. */
  function Added(queue: seq<PendingUpload>, entry: PendingUpload): (r: seq<PendingUpload>)
    ensures FindIndex(queue, entry.recordId).None? ==> r == queue + [entry]
    ensures FindIndex(queue, entry.recordId).Some? ==> r == queue
  {
    if FindIndex(queue, entry.recordId).None? then queue + [entry] else queue
  }

  /** `queue.filter(u => u.recordId !== recordId)`. */
  function WithoutId(queue: seq<PendingUpload>, recordId: string): (r: seq<PendingUpload>)
    ensures |r| <= |queue|
    ensures forall k :: 0 <= k < |r| ==> r[k].recordId != recordId
  {
    if queue == [] then []
    else if queue[0].recordId == recordId then WithoutId(queue[1..], recordId)
    else [queue[0]] + WithoutId(queue[1..], recordId)
  }

  /** The queue after updateUploadQueueRetry. */
  function Retried(queue: seq<PendingUpload>, recordId: string, now: string): (r: seq<PendingUpload>)
    ensures |r| == |queue|
  {
    match FindIndex(queue, recordId)
    case None => queue
    case Some(i) => queue[i := queue[i].(retryCount := queue[i].retryCount + 1, lastRetry := Some(now))]
  }

  /** An entry already queued under the same recordId keeps the queue as it
      is, so the queue never holds a recordId twice. */
  lemma AddedKeepsUnique(queue: seq<PendingUpload>, entry: PendingUpload)
    requires UniqueIds(queue)
    ensures UniqueIds(Added(queue, entry))
    ensures exists k :: 0 <= k < |Added(queue, entry)| && Added(queue, entry)[k].recordId == entry.recordId
  {
    var r := Added(queue, entry);
    match FindIndex(queue, entry.recordId)
    case None =>
      assert r[|queue|] == entry;
    case Some(i) =>
      assert r[i].recordId == entry.recordId;
  }

  /** removeFromUploadQueue keeps exactly the other entries, in order. */
  lemma {:induction false} WithoutIdMembers(queue: seq<PendingUpload>, recordId: string)
    ensures forall u :: u in WithoutId(queue, recordId) <==> u in queue && u.recordId != recordId
  {
    if queue != [] {
      WithoutIdMembers(queue[1..], recordId);
      assert queue == [queue[0]] + queue[1..];
    }
  }

  /** Filtering works piece by piece, so the entries kept stay in their
      original order. */
  lemma {:induction false} WithoutIdAppend(a: seq<PendingUpload>, b: seq<PendingUpload>, recordId: string)
    ensures WithoutId(a + b, recordId) == WithoutId(a, recordId) + WithoutId(b, recordId)
  {
    if a != [] {
      WithoutIdAppend(a[1..], b, recordId);
      assert (a + b)[1..] == a[1..] + b;
    } else {
      assert a + b == b;
    }
  }

  /** A queue without that recordId is left exactly as it is. */
  lemma {:induction false} WithoutAbsentId(queue: seq<PendingUpload>, recordId: string)
    requires forall k :: 0 <= k < |queue| ==> queue[k].recordId != recordId
    ensures WithoutId(queue, recordId) == queue
  {
    if queue != [] {
      WithoutAbsentId(queue[1..], recordId);
    }
  }

  /** Removing keeps the queue free of repeated recordIds. */
  lemma {:induction false} WithoutIdKeepsUnique(queue: seq<PendingUpload>, recordId: string)
    requires UniqueIds(queue)
    ensures UniqueIds(WithoutId(queue, recordId))
  {
    if queue != [] {
      WithoutIdKeepsUnique(queue[1..], recordId);
      WithoutIdMembers(queue[1..], recordId);
      var rest := WithoutId(queue[1..], recordId);
      assert forall k :: 0 <= k < |rest| ==> rest[k] in queue[1..];
    }
  }

  /** updateUploadQueueRetry adds one to the matching entry's retryCount and
      stamps it; every other entry, and every other field, stays. An absent
      recordId changes nothing. */
  lemma RetriedSpec(queue: seq<PendingUpload>, recordId: string, now: string)
    requires UniqueIds(queue)
    ensures var r := Retried(queue, recordId, now);
      UniqueIds(r) && forall k :: 0 <= k < |queue| ==>
        if queue[k].recordId == recordId
        then r[k] == queue[k].(retryCount := queue[k].retryCount + 1, lastRetry := Some(now))
        else r[k] == queue[k]
  {
  }

  /** The `pendingUploads` entry of the upload-queue store. */
  class UploadQueueStore {
    var pendingUploads: seq<PendingUpload>

    constructor()
      ensures pendingUploads == []
    {
      pendingUploads := [];
    }

    /** addToUploadQueue: appends a fresh entry with retryCount 0 unless the
        recordId is already queued. */
    method AddToUploadQueue(recordId: string, filePath: string, metadata: string, now: string)
      modifies this
      ensures pendingUploads == Added(old(pendingUploads), PendingUpload(recordId, filePath, metadata, now, 0, None))
    {
      var queue := pendingUploads;
      var found := FindIndex(queue, recordId);
      if found.None? {
        queue := queue + [PendingUpload(recordId, filePath, metadata, now, 0, None)];
        pendingUploads := queue;
      }
    }

    /** removeFromUploadQueue. */
    method RemoveFromUploadQueue(recordId: string)
      modifies this
      ensures pendingUploads == WithoutId(old(pendingUploads), recordId)
    {
      pendingUploads := WithoutId(pendingUploads, recordId);
    }

    /** updateUploadQueueRetry. */
    method UpdateUploadQueueRetry(recordId: string, now: string)
      modifies this
      ensures pendingUploads == Retried(old(pendingUploads), recordId, now)
    {
      var queue := pendingUploads;
      var found := FindIndex(queue, recordId);
      if found.Some? {
        var item := queue[found.value];
        queue := queue[found.value := item.(retryCount := item.retryCount + 1, lastRetry := Some(now))];
        pendingUploads := queue;
      }
    }
  }
}
