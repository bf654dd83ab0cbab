/** The desktop upload path of the Electron main process
    (src-electron/electron-main.js): the size-dependent upload timeout, the
    server-status poll and the retry classification of uploadWithRetry.
    The auth token, the HTTP replies and the poll result of each attempt are
    parameters; the waits between attempts are returned as the list of
    delays that would be slept. */
module ElectronUpload {
  import opened Wrappers
  import opened Text
  import Upload

  // -------------------------------------------------------------- timeout

  const MinUploadTimeoutMs: real := 600000.0

  /** calculateUploadTimeout: 1.5 times the time at 100 KiB/s, at least ten
      minutes. Exact arithmetic stands for the double of the source. */
  function UploadTimeout(fileSizeBytes: real): (t: real)
    ensures t >= MinUploadTimeoutMs
    ensures t >= fileSizeBytes * 15.0 / 1024.0
    ensures t == MinUploadTimeoutMs || t == fileSizeBytes * 15.0 / 1024.0
  {
    var estimatedTimeMs := fileSizeBytes / (100.0 * 1024.0) * 1000.0;
    var timeoutWithBuffer := estimatedTimeMs * 1.5;
    if MinUploadTimeoutMs >= timeoutWithBuffer then MinUploadTimeoutMs else timeoutWithBuffer
  }

  /** The timeout grows with the file: never shorter for a larger file. */
  lemma UploadTimeoutMonotone(a: real, b: real)
    requires a <= b
    ensures UploadTimeout(a) <= UploadTimeout(b)
  {
  }

  // ------------------------------------------------------------ status poll

  /** One answer of the status endpoint: a response with or without data,
      or a thrown request with the HTTP status of its response, if any. */
  datatype PollReply =
    | Data(status: Option<string>, error: Option<string>)
    | NoData
    | Threw(responseStatus: Option<int>)

  /** What one reply decides, or None to poll again. Unlike the renderer's
      poll, `processing` already counts as persisted and verified, and no
      checksum is compared. */
  function Decide(reply: PollReply): (v: Option<Upload.Verification>)
    ensures v.Some? && v.value.persisted && !v.value.fallback ==>
      reply.Data? && reply.status.Some? && reply.status.value in {"persisted", "complete", "processing"}
    ensures v.Some? && v.value.fallback ==> reply == Threw(Some(404))
    ensures v.Some? && !v.value.persisted ==> reply.Data? && reply.status == Some("failed")
  {
    match reply
    case NoData => None
    case Threw(code) =>
      if code == Some(404) then Some(Upload.Verification(true, false, true, None)) else None
    case Data(status, error) =>
      if status.Some? && status.value in {"persisted", "complete", "processing"} then
        Some(Upload.Verification(true, true, false, None))
      else if status == Some("failed") then
        Some(Upload.Verification(false, false, false, Some(StringOr(error, "Server processing failed"))))
      else None
  }

  const Timeout := Upload.Verification(false, false, false, Some("Server confirmation timeout"))

  /** pollServerStatus from attempt `start` on. */
  function PollFrom(reply: nat -> PollReply, start: nat, maxAttempts: nat): Upload.Verification
    decreases maxAttempts - start
  {
    if start >= maxAttempts then Timeout
    else match Decide(reply(start))
      case Some(v) => v
      case None => PollFrom(reply, start + 1, maxAttempts)
  }

  /** pollServerStatus; `reply(k)` answers attempt k. */
  method PollServerStatus(reply: nat -> PollReply, maxAttempts: nat) returns (v: Upload.Verification)
    ensures v == PollFrom(reply, 0, maxAttempts)
  {
    var attempt := 0;
    while attempt < maxAttempts
      invariant attempt <= maxAttempts
      invariant PollFrom(reply, 0, maxAttempts) == PollFrom(reply, attempt, maxAttempts)
    {
      var decision := Decide(reply(attempt));
      if decision.Some? {
        return decision.value;
      }
      attempt := attempt + 1;
    }
    return Timeout;
  }

  /** A poll that confirms persistence without the fallback saw a persisted,
      complete or processing status; one that does not confirm saw `failed`
      or ran out of attempts. */
  lemma {:induction false} PollPersistedMeans(reply: nat -> PollReply, start: nat, maxAttempts: nat)
    ensures var v := PollFrom(reply, start, maxAttempts);
      (v.persisted ==> exists k :: start <= k < maxAttempts && Decide(reply(k)) == Some(v))
      && (!v.persisted ==> v == Timeout || exists k :: start <= k < maxAttempts && reply(k).Data? && reply(k).status == Some("failed"))
    decreases maxAttempts - start
  {
    if start < maxAttempts && Decide(reply(start)).None? {
      PollPersistedMeans(reply, start + 1, maxAttempts);
    }
  }

  // ---------------------------------------------------------------- retry

  const RetryDelays: seq<nat> := [0, 2000, 5000, 10000]

  /** `retryDelays[Math.min(attempt, retryDelays.length - 1)]`. */
  function RetryDelay(attempt: nat): (d: nat)
    ensures attempt < 4 ==> d == RetryDelays[attempt]
    ensures attempt >= 4 ==> d == 10000
  {
    RetryDelays[if attempt < |RetryDelays| - 1 then attempt else |RetryDelays| - 1]
  }

  /** The `response` of a thrown axios error. */
  datatype ErrorResponse = ErrorResponse(status: nat, dataError: Option<string>, dataMessage: Option<string>)

  /** A thrown error as the catch block reads it. */
  datatype ThrownError = ThrownError(code: Option<string>, response: Option<ErrorResponse>, message: Option<string>)

  /** What one attempt met after its wait: no token, an accepted upload
      (with the poll's verdict when the server named the file), a reply
      whose `success` was falsy, or a thrown error (file stat, network or
      HTTP). */
  datatype Attempt =
    | NoToken
    | Accepted(audioFileId: Option<string>, poll: nat -> PollReply)
    | Rejected(dataError: Option<string>)
    | Failure(error: ThrownError)

  datatype UploadResult = UploadResult(
    success: bool,
    error: Option<string>,
    status: Option<nat>,
    canRetry: Option<bool>,
    canDelete: Option<bool>,
    audioFileId: Option<string>)

  const RetryableCodes: set<string> := {"ECONNREFUSED", "ETIMEDOUT", "ECONNABORTED", "ENOTFOUND", "ENETUNREACH", "EAI_AGAIN"}

  /** isRetryable of the catch block: a listed network code or a server
      error status. */
  predicate IsRetryable(e: ThrownError)
  {
    (e.code.Some? && e.code.value in RetryableCodes) || (e.response.Some? && e.response.value.status >= 500)
  }

  /** The message once the attempts are spent or the error is final. */
  function FinalMessage(e: ThrownError): string
  {
    if e.response.Some? then StringOr(e.response.value.dataError, "Server error: " + NatToString(e.response.value.status))
    else if e.code == Some("ECONNREFUSED") then "Could not connect to server. Please check your internet connection."
    else if e.code == Some("ETIMEDOUT") || e.code == Some("ECONNABORTED") then "Upload timed out. Please try again."
    else if e.code == Some("ENOTFOUND") || e.code == Some("ENETUNREACH") then "No internet connection. Please check your network."
    else StringOr(e.message, "Unknown error")
  }

  /** A falsy `success` is thrown as a plain Error and caught by the same
      block. */
  function RejectedError(dataError: Option<string>): (e: ThrownError)
    ensures !IsRetryable(e)
  {
    ThrownError(None, None, Some(StringOr(dataError, "Upload failed")))
  }

  /** How the catch block ends attempt `attempt`: a result, or None to go on
      with the next attempt. Without a response and without a listed code
      the source's `canRetry` is `undefined`, which is falsy; it is
      `Some(false)` here. */
  function CatchDecision(e: ThrownError, attempt: nat, maxRetries: nat): (r: Option<UploadResult>)
    ensures r.None? <==> !(e.response.Some? && e.response.value.status == 401) && IsRetryable(e) && attempt < maxRetries
    ensures r.Some? ==> !r.value.success && r.value.canDelete.None?
  {
    if e.response.Some? && e.response.value.status == 401 then
      var data := e.response.value;
      Some(UploadResult(false, Some(StringOr(data.dataError, StringOr(data.dataMessage, "Token expired"))),
        Some(401), Some(false), None, None))
    else if attempt >= maxRetries || !IsRetryable(e) then
      Some(UploadResult(false, Some(FinalMessage(e)),
        Some(if e.response.Some? then e.response.value.status else 0), Some(IsRetryable(e)), None, None))
    else None
  }

  /** pollServerStatus's default number of attempts. */
  const StatusPollAttempts: nat := 15

  /** How attempt `attempt` ends. An accepted upload that named a file is
      polled with `pollServerStatus(audioFileId)`. */
  function AttemptDecision(a: Attempt, attempt: nat, maxRetries: nat): (r: Option<UploadResult>)
    ensures r.Some? && r.value.canDelete == Some(true) ==>
      a.Accepted? && (Upload.Truthy(a.audioFileId) ==> PollFrom(a.poll, 0, StatusPollAttempts).persisted)
    ensures a.Accepted? ==> r.Some? && (r.value.canDelete == Some(true) <==>
      (!Upload.Truthy(a.audioFileId) || PollFrom(a.poll, 0, StatusPollAttempts).persisted))
    ensures r.None? ==> a.Failure? && attempt < maxRetries
  {
    match a
    case NoToken => Some(UploadResult(false, Some("Not authenticated. Please login first."), None, Some(false), None, None))
    case Accepted(audioFileId, poll) =>
      var verification := PollFrom(poll, 0, StatusPollAttempts);
      if Upload.Truthy(audioFileId) && !verification.persisted then
        Some(UploadResult(false, Some(StringOr(verification.error, "Server did not confirm file persistence")),
          None, None, Some(false), audioFileId))
      else Some(UploadResult(true, None, None, None, Some(true), audioFileId))
    case Rejected(dataError) => CatchDecision(RejectedError(dataError), attempt, maxRetries)
    case Failure(e) => CatchDecision(e, attempt, maxRetries)
  }

  /** uploadWithRetry; `outcome(k)` is what attempt k met. Returns the
      result, the number of attempts made and the delays waited before the
      second and later attempts. */
  method UploadWithRetry(maxRetries: nat, outcome: nat -> Attempt)
    returns (result: UploadResult, attempts: nat, waits: seq<nat>)
    ensures 1 <= attempts <= maxRetries + 1
    ensures AttemptDecision(outcome(attempts - 1), attempts - 1, maxRetries) == Some(result)
    ensures forall k :: 0 <= k < attempts - 1 ==> AttemptDecision(outcome(k), k, maxRetries).None?
    ensures |waits| == attempts - 1 && forall k :: 0 <= k < |waits| ==> waits[k] == RetryDelay(k + 1)
  {
    var attempt := 0;
    waits := [];
    while attempt <= maxRetries
      invariant attempt <= maxRetries
      invariant forall k :: 0 <= k < attempt ==> AttemptDecision(outcome(k), k, maxRetries).None?
      invariant |waits| == attempt && forall k :: 0 <= k < attempt ==> waits[k] == RetryDelay(k + 1)
    {
      var decision := AttemptDecision(outcome(attempt), attempt, maxRetries);
      if decision.Some? {
        return decision.value, attempt + 1, waits;
      }
      waits := waits + [RetryDelay(attempt + 1)];
      attempt := attempt + 1;
    }
    assert false;
  }

  /** A 401 is never retried: the attempt that meets it is the last, and it
      reports status 401 with retrying ruled out. */
  lemma NeverRetries401(e: ThrownError, attempt: nat, maxRetries: nat)
    requires e.response.Some? && e.response.value.status == 401
    ensures var r := CatchDecision(e, attempt, maxRetries);
      r.Some? && r.value.status == Some(401) && r.value.canRetry == Some(false)
  {
  }

  /** Only a listed network code or a server error is retried, and only
      while attempts remain. */
  lemma RetriesOnlyTransient(a: Attempt, attempt: nat, maxRetries: nat)
    requires AttemptDecision(a, attempt, maxRetries).None?
    ensures a.Failure? && attempt < maxRetries
    ensures (a.error.code.Some? && a.error.code.value in RetryableCodes)
      || (a.error.response.Some? && a.error.response.value.status >= 500)
  {
  }

  /** A file may be deleted only after an accepted upload that the poll
      confirmed as persisted (or whose reply named no file). */
  lemma DeleteOnlyWhenPersisted(maxRetries: nat, outcome: nat -> Attempt, result: UploadResult, attempts: nat)
    requires 1 <= attempts <= maxRetries + 1
    requires AttemptDecision(outcome(attempts - 1), attempts - 1, maxRetries) == Some(result)
    requires result.canDelete == Some(true)
    ensures outcome(attempts - 1).Accepted?
    ensures var a := outcome(attempts - 1);
      Upload.Truthy(a.audioFileId) ==>
        exists k :: (0 <= k < StatusPollAttempts && Decide(a.poll(k)).Some? && Decide(a.poll(k)).value.persisted)
  {
    var a := outcome(attempts - 1);
    PollPersistedMeans(a.poll, 0, StatusPollAttempts);
  }
}
