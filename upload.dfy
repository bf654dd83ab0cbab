/** The upload service (src/services/upload.js): the error classifiers, the
    back-off schedule, the server-status poll, the two-phase upload with
    verification, the retry wrapper and the background upload queue. Every
    network reply, token refresh and upload result is a parameter: a
    function from the attempt (and whatever identifies the call) to what
    the server or the callee answered. */
module Upload {
  import opened Wrappers
  import opened Text

  const MaxUploadRetries: nat := 15
  const InitialRetryDelayMs: nat := 2000
  const MaxRetryDelayMs: nat := 120000
  const MaxTokenRefreshAttempts: nat := 2
  const DefaultPollAttempts: nat := 15

  /** Some phrase of `phrases` occurs in `s`. */
  predicate ContainsAny(s: string, phrases: seq<string>)
  {
    exists k :: 0 <= k < |phrases| && Contains(s, phrases[k])
  }

  const TokenErrors: seq<string> := ["token expired", "jwt expired", "invalid token", "unauthorized",
    "authentication required", "not authenticated"]

  const NonRetryable: seq<string> := ["Checksum mismatch", "Invalid file format", "Unauthorized", "Forbidden"]

  /** isTokenExpiredError: a 401, or one of the phrases in the lower-cased
      message. */
  function IsTokenExpiredError(error: Option<string>, status: int): (r: bool)
    ensures status == 401 ==> r
    ensures status != 401 ==> (r <==> ContainsAny(ToLower(error.GetOr("")), TokenErrors))
  {
    status == 401 || ContainsAny(ToLower(error.GetOr("")), TokenErrors)
  }

  /** isRetryableError: a present, non-empty message naming none of the
      non-retryable causes (case-sensitive). */
  function IsRetryableError(error: Option<string>): (r: bool)
    ensures r <==> error.Some? && error.value != "" && !ContainsAny(error.value, NonRetryable)
  {
    match error
    case None => false
    case Some(e) => e != "" && !ContainsAny(e, NonRetryable)
  }

  lemma ClassifierExamples()
    ensures IsTokenExpiredError(None, 401)
    ensures !IsTokenExpiredError(None, 500)
    ensures !IsRetryableError(None) && !IsRetryableError(Some(""))
    ensures !IsRetryableError(Some("Checksum mismatch"))
  {
    assert OccursAt("Checksum mismatch", NonRetryable[0], 0);
    assert ToLower("") == "";
  }

  /** getBackoffDelay: doubling from 2 s, capped at 2 min. */
  function BackoffDelay(attempt: nat): (d: nat)
    ensures InitialRetryDelayMs <= d <= MaxRetryDelayMs
  {
    var delay := InitialRetryDelayMs * Pow(2, attempt);
    if delay < MaxRetryDelayMs then delay else MaxRetryDelayMs
  }

  lemma {:induction false} PowMonotone(a: nat, b: nat)
    requires a <= b
    ensures Pow(2, a) <= Pow(2, b)
  {
    if a < b {
      PowMonotone(a, b - 1);
    }
  }

  /** A later attempt never waits less. */
  lemma BackoffMonotone(a: nat, b: nat)
    requires a <= b
    ensures BackoffDelay(a) <= BackoffDelay(b)
  {
    PowMonotone(a, b);
  }

  /** The delay doubles until the cap, which it reaches from the sixth retry
      and keeps. */
  lemma BackoffSchedule(attempt: nat)
    ensures attempt < 5 ==> BackoffDelay(attempt + 1) == 2 * BackoffDelay(attempt)
    ensures attempt >= 6 ==> BackoffDelay(attempt) == MaxRetryDelayMs
  {
    if attempt < 5 {
      PowMonotone(attempt + 1, 5);
      assert Pow(2, 5) == 32;
    }
    if attempt >= 6 {
      PowMonotone(6, attempt);
      assert Pow(2, 6) == 64;
    }
  }

  // ------------------------------------------------------------ status poll

  /** One answer of the status endpoint: a response that is not ok, a JSON
      body, or a thrown fetch or parse. */
  datatype PollReply =
    | NotOk(code: int)
    | Body(status: string, checksum: Option<string>, error: Option<string>)
    | Thrown

  datatype Verification = Verification(persisted: bool, verified: bool, fallback: bool, error: Option<string>)

  predicate Truthy(s: Option<string>)
  {
    s.Some? && s.value != ""
  }

  /** What one reply decides, or None to poll again. */
  function Decide(reply: PollReply, localChecksum: Option<string>): (v: Option<Verification>)
    ensures v.Some? && v.value.verified ==> v.value.persisted && reply.Body? && reply.checksum == localChecksum
    ensures v.Some? && v.value.persisted && !v.value.fallback ==> reply.Body? && reply.status in {"persisted", "complete"}
  {
    match reply
    case NotOk(code) => if code == 404 then Some(Verification(true, false, true, None)) else None
    case Thrown => None
    case Body(status, checksum, error) =>
      if status == "persisted" || status == "complete" then
        if Truthy(checksum) && Truthy(localChecksum) then
          if checksum == localChecksum then Some(Verification(true, true, false, None))
          else Some(Verification(true, false, false, Some("Checksum mismatch")))
        else Some(Verification(true, false, false, None))
      else if status == "failed" then
        Some(Verification(false, false, false, Some(StringOr(error, "Server processing failed"))))
      else None
  }

  const Timeout := Verification(false, false, false, Some("Server confirmation timeout"))

  /** pollServerStatus from attempt `from` on: the first deciding reply, or
      the timeout once the attempts are spent. */
  function PollFrom(reply: nat -> PollReply, localChecksum: Option<string>, from: nat, maxAttempts: nat): Verification
    decreases maxAttempts - from
  {
    if from >= maxAttempts then Timeout
    else match Decide(reply(from), localChecksum)
      case Some(v) => v
      case None => PollFrom(reply, localChecksum, from + 1, maxAttempts)
  }

  /** pollServerStatus; `reply(k)` answers attempt k. */
  method PollServerStatus(reply: nat -> PollReply, localChecksum: Option<string>, maxAttempts: nat)
    returns (v: Verification)
    ensures v == PollFrom(reply, localChecksum, 0, maxAttempts)
  {
    var attempt := 0;
    while attempt < maxAttempts
      invariant attempt <= maxAttempts || maxAttempts == 0
      invariant PollFrom(reply, localChecksum, 0, maxAttempts) == PollFrom(reply, localChecksum, attempt, maxAttempts)
    {
      var decision := Decide(reply(attempt), localChecksum);
      if decision.Some? {
        return decision.value;
      }
      attempt := attempt + 1;
    }
    return Timeout;
  }

  /** The poll's result is the first deciding reply, or the timeout when no
      attempt decided. */
  lemma {:induction false} PollFirstDecision(reply: nat -> PollReply, localChecksum: Option<string>, from: nat, maxAttempts: nat)
    ensures var v := PollFrom(reply, localChecksum, from, maxAttempts);
      ((forall k :: from <= k < maxAttempts ==> Decide(reply(k), localChecksum).None?) && v == Timeout)
      || exists k :: (from <= k < maxAttempts && Decide(reply(k), localChecksum) == Some(v)
        && forall j :: from <= j < k ==> Decide(reply(j), localChecksum).None?)
    decreases maxAttempts - from
  {
    if from < maxAttempts && Decide(reply(from), localChecksum).None? {
      PollFirstDecision(reply, localChecksum, from + 1, maxAttempts);
      var v := PollFrom(reply, localChecksum, from, maxAttempts);
      if !(forall k :: from + 1 <= k < maxAttempts ==> Decide(reply(k), localChecksum).None?) || v != Timeout {
        var k :| from + 1 <= k < maxAttempts && Decide(reply(k), localChecksum) == Some(v)
          && forall j :: from + 1 <= j < k ==> Decide(reply(j), localChecksum).None?;
        assert forall j :: from <= j < k ==> Decide(reply(j), localChecksum).None?;
      }
    }
  }

  /** A verified poll saw a persisted status whose checksum equals the local
      one, and an attempt no earlier than `from` reported it. */
  lemma {:induction false} PollVerifiedMatches(reply: nat -> PollReply, localChecksum: Option<string>, from: nat, maxAttempts: nat)
    requires PollFrom(reply, localChecksum, from, maxAttempts).verified
    ensures Truthy(localChecksum)
    ensures exists k :: (from <= k < maxAttempts && reply(k).Body? && reply(k).status in {"persisted", "complete"}
      && reply(k).checksum == localChecksum)
    decreases maxAttempts - from
  {
    if Decide(reply(from), localChecksum).Some? {
      assert from < maxAttempts;
    } else {
      PollVerifiedMatches(reply, localChecksum, from + 1, maxAttempts);
    }
  }

  // ------------------------------------------------ upload with verification

  datatype Platform = Electron | Capacitor | Unsupported

  /** What the platform's upload call answered, or the message it rejected
      with: uploadFileMobileSimple rejects on an HTTP status other than 401
      outside 2xx, on a network error and on a timeout, and the Electron
      IPC call may reject too. */
  datatype UploadReply =
    | UploadReply(success: bool, audioFileId: Option<string>, error: Option<string>, status: int)
    | UploadRejected(message: string)

  datatype UploadOutcome = UploadOutcome(success: bool, audioFileId: Option<string>, canDelete: bool,
    verified: bool, fallback: bool, error: Option<string>)

  /** The token the mobile upload sends; the Electron upload sends none. */
  function TokenFor(platform: Platform, token: Option<string>): Option<string>
  {
    if platform == Capacitor then token else None
  }

  /** What getFreshToken answered: the token `handleAuthError` gave, None
      without an auth store or after a failed refresh, or the message it
      threw with (the auth store defines no `handleAuthError`, so calling it
      throws a TypeError). */
  datatype RefreshReply = Refreshed(token: Option<string>) | RefreshThrew(message: string)

  /** getFreshToken never called, or never giving a token. */
  function NoRefresh(n: nat): RefreshReply
  {
    Refreshed(None)
  }

  /** How attempt `n` ends when no further send follows its failure: the
      refresh's throw when a token error asked for one and it threw,
      otherwise the reply's own error. */
  function FailedAttempt(reply: UploadReply, n: nat, refresh: nat -> RefreshReply): Result<Option<string>>
    requires reply.UploadReply?
  {
    if IsTokenExpiredError(reply.error, reply.status) && refresh(n).RefreshThrew? then Err(refresh(n).message)
    else Err(StringOr(reply.error, "Upload failed"))
  }

  /** Phase 1b as a reference: the audio file id, or the message thrown.
      `refresh(n)` is what getFreshToken answers after attempt n. A token
      error is retried once, when a fresh token was obtained; a rejected
      call or a throwing refresh reaches the outer catch with its own
      message. */
  function UploadPhaseSpec(platform: Platform, authToken: Option<string>, refresh: nat -> RefreshReply,
    send: (nat, Option<string>) -> UploadReply): Result<Option<string>>
  {
    if platform == Unsupported then Err("Unsupported platform")
    else
      var first := send(1, TokenFor(platform, authToken));
      if first.UploadRejected? then Err(first.message)
      else if first.success then Ok(first.audioFileId)
      else if IsTokenExpiredError(first.error, first.status) && refresh(1).Refreshed? && Truthy(refresh(1).token) then
        var second := send(2, TokenFor(platform, refresh(1).token));
        if second.UploadRejected? then Err(second.message)
        else if second.success then Ok(second.audioFileId) else FailedAttempt(second, 2, refresh)
      else FailedAttempt(first, 1, refresh)
  }

  /** Phase 1b's loop: `send(n, token)` answers attempt n. */
  method UploadPhase(platform: Platform, authToken: Option<string>, refresh: nat -> RefreshReply,
    send: (nat, Option<string>) -> UploadReply) returns (r: Result<Option<string>>)
    ensures r == UploadPhaseSpec(platform, authToken, refresh, send)
  {
    var currentToken := authToken;
    var uploadAttempts := 0;
    while uploadAttempts < MaxTokenRefreshAttempts
      invariant uploadAttempts <= 1
      invariant uploadAttempts == 1 ==> (platform != Unsupported && refresh(1).Refreshed?
        && currentToken == refresh(1).token && Truthy(currentToken)
        && send(1, TokenFor(platform, authToken)).UploadReply?
        && !send(1, TokenFor(platform, authToken)).success
        && IsTokenExpiredError(send(1, TokenFor(platform, authToken)).error, send(1, TokenFor(platform, authToken)).status))
      invariant uploadAttempts == 0 ==> currentToken == authToken
    {
      uploadAttempts := uploadAttempts + 1;
      if platform == Unsupported {
        return Err("Unsupported platform");
      }
      var result := send(uploadAttempts, TokenFor(platform, currentToken));
      if result.UploadRejected? {
        return Err(result.message);
      }
      if !result.success {
        if IsTokenExpiredError(result.error, result.status) {
          var answer := refresh(uploadAttempts);
          if answer.RefreshThrew? {
            return Err(answer.message);
          }
          if Truthy(answer.token) && uploadAttempts < MaxTokenRefreshAttempts {
            currentToken := answer.token;
            continue;
          }
        }
        return Err(StringOr(result.error, "Upload failed"));
      }
      return Ok(result.audioFileId);
    }
    assert false;
  }

  /** A rejected call is never checked for an expired token: whatever the
      refresh would answer, the phase fails with the rejection's message
      and the upload is not sent again. */
  lemma RejectedCallSkipsRefresh(platform: Platform, authToken: Option<string>, refresh: nat -> RefreshReply,
    send: (nat, Option<string>) -> UploadReply)
    requires platform != Unsupported && send(1, TokenFor(platform, authToken)).UploadRejected?
    ensures UploadPhaseSpec(platform, authToken, refresh, send) == Err(send(1, TokenFor(platform, authToken)).message)
    ensures UploadPhaseSpec(platform, authToken, refresh, send) == UploadPhaseSpec(platform, authToken, NoRefresh, send)
  {
  }

  /** The refresh matters only after a resolved reply that failed with an
      expired token. */
  lemma RefreshOnlyAfterExpiredToken(platform: Platform, authToken: Option<string>, refresh: nat -> RefreshReply,
    send: (nat, Option<string>) -> UploadReply)
    requires platform != Unsupported
    ensures var first := send(1, TokenFor(platform, authToken));
      !(first.UploadReply? && !first.success && IsTokenExpiredError(first.error, first.status))
      ==> UploadPhaseSpec(platform, authToken, refresh, send) == UploadPhaseSpec(platform, authToken, NoRefresh, send)
  {
  }

  /** A second send happens only with a truthy refreshed token; a refresh
      that throws after the first token error ends the phase with its
      message. */
  lemma SecondSendOnlyWithFreshToken(platform: Platform, authToken: Option<string>, refresh: nat -> RefreshReply,
    send: (nat, Option<string>) -> UploadReply)
    requires platform != Unsupported
    ensures var first := send(1, TokenFor(platform, authToken));
      first.UploadReply? && !first.success && IsTokenExpiredError(first.error, first.status) ==>
        (refresh(1).RefreshThrew? ==> UploadPhaseSpec(platform, authToken, refresh, send) == Err(refresh(1).message))
        && (refresh(1).Refreshed? && !Truthy(refresh(1).token) ==>
              UploadPhaseSpec(platform, authToken, refresh, send) == Err(StringOr(first.error, "Upload failed")))
  {
  }

  /** The outcome from Phase 1b's result and Phase 2's verification. */
  function Outcome(phase: Result<Option<string>>, v: Verification): (o: UploadOutcome)
    ensures o.canDelete <==> phase.Ok? && v.persisted && v.error != Some("Checksum mismatch")
    ensures o.canDelete <==> o.success
  {
    match phase
    case Err(message) => UploadOutcome(false, None, false, false, false, Some(message))
    case Ok(id) =>
      if !v.persisted then
        UploadOutcome(false, id, false, false, false, Some(StringOr(v.error, "Server did not confirm file persistence")))
      else if v.error == Some("Checksum mismatch") then
        UploadOutcome(false, id, false, false, false, Some("File verification failed - checksums do not match"))
      else UploadOutcome(true, id, true, v.verified, v.fallback, None)
  }

  /** uploadWithVerification: `localChecksum` is what the checksum phase
      produced (None when the file could not be read), `poll` the status
      endpoint's replies. */
  method UploadWithVerification(platform: Platform, authToken: Option<string>, refresh: nat -> RefreshReply,
    send: (nat, Option<string>) -> UploadReply, localChecksum: Option<string>, poll: nat -> PollReply)
    returns (outcome: UploadOutcome)
    ensures outcome == Outcome(UploadPhaseSpec(platform, authToken, refresh, send),
      PollFrom(poll, localChecksum, 0, DefaultPollAttempts))
  {
    var phase := UploadPhase(platform, authToken, refresh, send);
    if phase.Err? {
      return Outcome(phase, Timeout);
    }
    var verification := PollServerStatus(poll, localChecksum, DefaultPollAttempts);
    outcome := Outcome(phase, verification);
  }

  /** The file may only be deleted after a persisted, non-mismatching
      status, and a verified deletion saw the same checksum on the server. */
  lemma DeleteOnlyWhenConfirmed(phase: Result<Option<string>>, poll: nat -> PollReply, localChecksum: Option<string>)
    ensures var o := Outcome(phase, PollFrom(poll, localChecksum, 0, DefaultPollAttempts));
      o.canDelete && o.verified ==> exists k :: (0 <= k < DefaultPollAttempts && poll(k).Body?
        && poll(k).checksum == localChecksum && Truthy(localChecksum))
    ensures var o := Outcome(phase, PollFrom(poll, localChecksum, 0, DefaultPollAttempts));
      (forall k :: 0 <= k < DefaultPollAttempts ==> Decide(poll(k), localChecksum).None?) ==> !o.canDelete
  {
    var v := PollFrom(poll, localChecksum, 0, DefaultPollAttempts);
    if Outcome(phase, v).verified && Outcome(phase, v).canDelete {
      PollVerifiedMatches(poll, localChecksum, 0, DefaultPollAttempts);
    }
    PollFirstDecision(poll, localChecksum, 0, DefaultPollAttempts);
  }

  // ------------------------------------------------------------------ retry

  /** uploadWithRetry: `verify(k)` is the result of attempt k. Returns the
      result handed back and how many attempts were made. */
  method UploadWithRetry(verify: nat -> UploadOutcome) returns (result: UploadOutcome, attempts: nat)
    ensures 1 <= attempts <= MaxUploadRetries + 1
    ensures result == verify(attempts - 1)
    ensures forall k :: 0 <= k < attempts - 1 ==> !verify(k).success && IsRetryableError(verify(k).error)
    ensures result.success || !IsRetryableError(result.error) || attempts == MaxUploadRetries + 1
  {
    var attempt := 0;
    while attempt <= MaxUploadRetries
      invariant attempt <= MaxUploadRetries
      invariant forall k :: 0 <= k < attempt ==> !verify(k).success && IsRetryableError(verify(k).error)
    {
      result := verify(attempt);
      if result.success {
        return result, attempt + 1;
      }
      if !IsRetryableError(result.error) || attempt >= MaxUploadRetries {
        return result, attempt + 1;
      }
      attempt := attempt + 1;
    }
    assert false;
  }

  // ------------------------------------------------------------------ queue

  datatype ItemStatus = Pending | Uploading | Complete | Failed

  datatype QueueItem = QueueItem(id: string, addedAt: int, attempts: nat, status: ItemStatus, error: Option<string>)

  /** Every pending item still has attempts left. */
  predicate PendingBelow(items: seq<QueueItem>)
  {
    forall k :: 0 <= k < |items| && items[k].status == Pending ==> items[k].attempts < MaxUploadRetries
  }

  /** `uploadQueue.find(u => u.status === 'pending')`, as a position. */
  function FirstPending(items: seq<QueueItem>): (r: Option<nat>)
    ensures r.Some? ==> (r.value < |items| && items[r.value].status == Pending
      && forall k :: 0 <= k < r.value ==> items[k].status != Pending)
    ensures r.None? ==> forall k :: 0 <= k < |items| ==> items[k].status != Pending
  {
    if items == [] then None
    else if items[0].status == Pending then Some(0)
    else match FirstPending(items[1..])
      case None => None
      case Some(k) => Some(k + 1)
  }

  /** One round of processUploadQueue on the item at `i`: it is uploaded
      once more and removed, failed, or put back. */
  function Step(items: seq<QueueItem>, i: nat, upload: (string, nat) -> UploadOutcome): seq<QueueItem>
    requires i < |items|
  {
    var item := items[i].(status := Uploading, attempts := items[i].attempts + 1);
    var result := upload(item.id, item.attempts);
    if result.success then items[..i] + items[i + 1..]
    else if item.attempts >= MaxUploadRetries then items[i := item.(status := Failed, error := result.error)]
    else items[i := item.(status := Pending)]
  }

  /** The retries an item still has, plus one while it is pending. */
  function Weight(x: QueueItem): nat
  {
    if x.status == Pending && x.attempts < MaxUploadRetries then MaxUploadRetries + 1 - x.attempts else 0
  }

  /** The sum of a per-item measure over the queue. */
  function Total(items: seq<QueueItem>, w: QueueItem -> nat): nat
  {
    if items == [] then 0 else w(items[0]) + Total(items[1..], w)
  }

  function Potential(items: seq<QueueItem>): nat
  {
    Total(items, Weight)
  }

  lemma {:induction false} TotalAppend(a: seq<QueueItem>, b: seq<QueueItem>, w: QueueItem -> nat)
    ensures Total(a + b, w) == Total(a, w) + Total(b, w)
  {
    if a != [] {
      var x, rest := a[0], a[1..];
      assert a + b == [x] + (rest + b);
      TotalCons(x, rest + b, w);
      TotalAppend(rest, b, w);
      assert a == [x] + rest;
      TotalCons(x, rest, w);
    } else {
      assert a + b == b;
    }
  }

  lemma TotalCons(x: QueueItem, rest: seq<QueueItem>, w: QueueItem -> nat)
    ensures Total([x] + rest, w) == w(x) + Total(rest, w)
  {
    assert ([x] + rest)[1..] == rest;
  }

  lemma TotalUpdate(items: seq<QueueItem>, i: nat, y: QueueItem, w: QueueItem -> nat)
    requires i < |items|
    ensures Total(items[i := y], w) == Total(items, w) - w(items[i]) + w(y)
  {
    var pre, post := items[..i], items[i + 1..];
    assert items == pre + ([items[i]] + post);
    assert items[i := y] == pre + ([y] + post);
    TotalAppend(pre, [items[i]] + post, w);
    TotalCons(items[i], post, w);
    TotalAppend(pre, [y] + post, w);
    TotalCons(y, post, w);
  }

  lemma TotalRemove(items: seq<QueueItem>, i: nat, w: QueueItem -> nat)
    requires i < |items|
    ensures Total(items[..i] + items[i + 1..], w) == Total(items, w) - w(items[i])
  {
    var pre, x, post := items[..i], items[i], items[i + 1..];
    assert items == pre + ([x] + post);
    calc {
      Total(items, w);
      Total(pre + ([x] + post), w);
      { TotalAppend(pre, [x] + post, w); }
      Total(pre, w) + Total([x] + post, w);
      { TotalCons(x, post, w); }
      Total(pre, w) + w(x) + Total(post, w);
      { TotalAppend(pre, post, w); }
      Total(pre + post, w) + w(x);
    }
  }

  /** A measure that sums to zero is zero on every item. */
  lemma {:induction false} TotalZero(items: seq<QueueItem>, w: QueueItem -> nat)
    requires Total(items, w) == 0
    ensures forall k :: 0 <= k < |items| ==> w(items[k]) == 0
  {
    if items != [] {
      TotalZero(items[1..], w);
      assert forall k :: 1 <= k < |items| ==> items[k] == items[1..][k - 1];
    }
  }

  /** Each round lowers the potential and keeps pending items below the
      retry limit. */
  lemma StepDecreases(items: seq<QueueItem>, i: nat, upload: (string, nat) -> UploadOutcome)
    requires PendingBelow(items) && i < |items| && items[i].status == Pending
    ensures PendingBelow(Step(items, i, upload))
    ensures Potential(Step(items, i, upload)) < Potential(items)
    ensures |Step(items, i, upload)| <= |items|
  {
    var x := items[i];
    var y := x.(status := Uploading, attempts := x.attempts + 1);
    var result := upload(y.id, y.attempts);
    if result.success {
      assert Step(items, i, upload) == items[..i] + items[i + 1..];
      RemoveKeeps(items, i);
    } else if y.attempts >= MaxUploadRetries {
      var z := y.(status := Failed, error := result.error);
      assert Step(items, i, upload) == items[i := z];
      UpdateKeeps(items, i, z);
    } else {
      var z := y.(status := Pending);
      assert Step(items, i, upload) == items[i := z];
      UpdateKeeps(items, i, z);
    }
  }

  /** Removing an item keeps pending items below the limit and takes its
      weight off the potential. */
  lemma RemoveKeeps(items: seq<QueueItem>, i: nat)
    requires PendingBelow(items) && i < |items|
    ensures PendingBelow(items[..i] + items[i + 1..])
    ensures Potential(items[..i] + items[i + 1..]) == Potential(items) - Weight(items[i])
  {
    TotalRemove(items, i, Weight);
    var pre, post := items[..i], items[i + 1..];
    assert PendingBelow(pre);
    forall k | 0 <= k < |post| && post[k].status == Pending ensures post[k].attempts < MaxUploadRetries {
      assert post[k] == items[i + 1 + k];
    }
    PendingBelowAppend(pre, post);
  }

  lemma PendingBelowAppend(a: seq<QueueItem>, b: seq<QueueItem>)
    requires PendingBelow(a) && PendingBelow(b)
    ensures PendingBelow(a + b)
  {
    forall k | 0 <= k < |a + b| && (a + b)[k].status == Pending ensures (a + b)[k].attempts < MaxUploadRetries {
      if k < |a| {
        assert (a + b)[k] == a[k];
      } else {
        assert (a + b)[k] == b[k - |a|];
      }
    }
  }

  /** Replacing an item by one that, if pending, is below the limit keeps
      pending items below it and trades the two weights. */
  lemma UpdateKeeps(items: seq<QueueItem>, i: nat, y: QueueItem)
    requires PendingBelow(items) && i < |items|
    requires y.status == Pending ==> y.attempts < MaxUploadRetries
    ensures PendingBelow(items[i := y])
    ensures Potential(items[i := y]) == Potential(items) - Weight(items[i]) + Weight(y)
  {
    TotalUpdate(items, i, y, Weight);
  }

  /** processUploadQueue's loop, run to the end: until no item is pending. */
  function Drain(items: seq<QueueItem>, upload: (string, nat) -> UploadOutcome): seq<QueueItem>
    requires PendingBelow(items)
    decreases Potential(items)
  {
    match FirstPending(items)
    case None => items
    case Some(i) =>
      StepDecreases(items, i, upload);
      Drain(Step(items, i, upload), upload)
  }

  /** Items of `items` that were in `orig`, are pending, or failed after all
      retries. */
  predicate Tracked(items: seq<QueueItem>, orig: seq<QueueItem>)
  {
    forall k :: 0 <= k < |items| ==>
      items[k].status == Pending || items[k] in orig || (items[k].status == Failed && items[k].attempts == MaxUploadRetries)
  }

  lemma StepTracked(items: seq<QueueItem>, orig: seq<QueueItem>, i: nat, upload: (string, nat) -> UploadOutcome)
    requires PendingBelow(items) && Tracked(items, orig) && i < |items| && items[i].status == Pending
    ensures Tracked(Step(items, i, upload), orig)
  {
    var s := Step(items, i, upload);
    if upload(items[i].id, items[i].attempts + 1).success {
      forall k | 0 <= k < |s|
        ensures s[k].status == Pending || s[k] in orig || (s[k].status == Failed && s[k].attempts == MaxUploadRetries)
      {
        assert s[k] == if k < i then items[k] else items[k + 1];
      }
    }
  }

  /** Processing ends with nothing pending; what is left was already settled
      before, or failed after exactly MaxUploadRetries attempts. Nothing is
      added. */
  lemma {:induction false} DrainSettles(items: seq<QueueItem>, orig: seq<QueueItem>, upload: (string, nat) -> UploadOutcome)
    requires PendingBelow(items) && Tracked(items, orig)
    ensures var r := Drain(items, upload);
      |r| <= |items| && forall k :: 0 <= k < |r| ==> (r[k].status != Pending
        && (r[k] in orig || (r[k].status == Failed && r[k].attempts == MaxUploadRetries)))
    decreases Potential(items)
  {
    match FirstPending(items) {
      case None =>
      case Some(i) =>
        StepDecreases(items, i, upload);
        StepTracked(items, orig, i, upload);
        DrainSettles(Step(items, i, upload), orig, upload);
    }
  }

  /** `filter(u => u.status === 'pending' || u.status === 'uploading')`. */
  function KeepActive(items: seq<QueueItem>): seq<QueueItem>
  {
    if items == [] then [] else Kept(items[0]) + KeepActive(items[1..])
  }

  /** What the filter keeps of one item. */
  function Kept(x: QueueItem): seq<QueueItem>
  {
    if x.status == Pending || x.status == Uploading then [x] else []
  }

  /** The filter keeps exactly the pending and uploading items ... */
  lemma {:induction false} KeepActiveMembers(items: seq<QueueItem>)
    ensures forall x :: x in KeepActive(items) <==> x in items && (x.status == Pending || x.status == Uploading)
  {
    if items != [] {
      KeepActiveMembers(items[1..]);
      assert items == [items[0]] + items[1..];
    }
  }

  /** ... in their original order. */
  lemma {:induction false} KeepActiveAppend(a: seq<QueueItem>, b: seq<QueueItem>)
    ensures KeepActive(a + b) == KeepActive(a) + KeepActive(b)
  {
    if a == [] {
      assert a + b == b;
    } else {
      var x, rest := a[0], a[1..];
      assert a + b == [x] + (rest + b);
      KeepActiveCons(x, rest + b);
      KeepActiveAppend(rest, b);
      assert a == [x] + rest;
      KeepActiveCons(x, rest);
      AppendAssoc(Kept(x), KeepActive(rest), KeepActive(b));
    }
  }

  lemma KeepActiveCons(x: QueueItem, rest: seq<QueueItem>)
    ensures KeepActive([x] + rest) == Kept(x) + KeepActive(rest)
  {
    assert ([x] + rest)[1..] == rest;
  }

  lemma AppendAssoc(a: seq<QueueItem>, b: seq<QueueItem>, c: seq<QueueItem>)
    ensures a + (b + c) == (a + b) + c
  {
  }

  // ------------------------------------------- processing, one await at a time

  /** `upload.status = 'uploading'; upload.attempts++`. */
  function Begin(items: seq<QueueItem>, i: nat): seq<QueueItem>
    requires i < |items|
  {
    items[i := items[i].(status := Uploading, attempts := items[i].attempts + 1)]
  }

  /** What the awaited result does to the item in flight at `i`: removed on
      success, failed once its attempts reach the limit, pending again
      otherwise. */
  function Settle(items: seq<QueueItem>, i: nat, result: UploadOutcome): seq<QueueItem>
    requires i < |items|
  {
    var item := items[i];
    if result.success then items[..i] + items[i + 1..]
    else if item.attempts >= MaxUploadRetries then items[i := item.(status := Failed, error := result.error)]
    else items[i := item.(status := Pending)]
  }

  /** A round of the loop is the item marked, then its result applied. */
  lemma StepIsBeginSettle(items: seq<QueueItem>, i: nat, upload: (string, nat) -> UploadOutcome)
    requires i < |items|
    ensures Step(items, i, upload) == Settle(Begin(items, i), i, upload(items[i].id, items[i].attempts + 1))
  {
    var b := Begin(items, i);
    assert b[..i] == items[..i];
    assert b[i + 1..] == items[i + 1..];
    var z := b[i];
    assert b[i := z.(status := Pending)] == items[i := z.(status := Pending)];
  }

  /** 1 for the item whose upload is being awaited. */
  function InFlight(x: QueueItem): nat
  {
    if x.status == Uploading then 1 else 0
  }

  function Uploads(items: seq<QueueItem>): nat
  {
    Total(items, InFlight)
  }

  /** The item being uploaded, found as `indexOf(upload)` finds it. */
  function FirstUploading(items: seq<QueueItem>): (r: Option<nat>)
    ensures r.Some? ==> (r.value < |items| && items[r.value].status == Uploading
      && forall k :: 0 <= k < r.value ==> items[k].status != Uploading)
    ensures r.None? ==> Uploads(items) == 0
  {
    if items == [] then None
    else if items[0].status == Uploading then Some(0)
    else match FirstUploading(items[1..])
      case None => None
      case Some(k) => Some(k + 1)
  }

  /** An item being uploaded has been counted as an attempt. */
  predicate Attempted(items: seq<QueueItem>)
  {
    forall k :: 0 <= k < |items| && items[k].status == Uploading ==> items[k].attempts >= 1
  }

  /** Where processUploadQueue is suspended: not running, awaiting an
      upload, or awaiting the back-off sleep. */
  datatype Await = Idle | AwaitingUpload | AwaitingBackoff

  datatype Processing = Processing(items: seq<QueueItem>, isProcessing: bool, awaiting: Await)

  /** The flag is set exactly while processing is suspended at an await, and
      exactly one item is uploading while an upload is awaited, none
      otherwise. */
  predicate Consistent(s: Processing)
  {
    PendingBelow(s.items) && Attempted(s.items) && (s.isProcessing <==> s.awaiting != Idle)
    && Uploads(s.items) == if s.awaiting == AwaitingUpload then 1 else 0
  }

  /** The loop's head: stop when no item is pending, otherwise mark the first
      pending one and await its upload. */
  function LoopHead(s: Processing): Processing
  {
    if |s.items| == 0 then s.(isProcessing := false, awaiting := Idle)
    else match FirstPending(s.items)
      case None => s.(isProcessing := false, awaiting := Idle)
      case Some(i) => s.(items := Begin(s.items, i), awaiting := AwaitingUpload)
  }

  /** Resuming after `await uploadWithVerification(upload)`: a failure with
      attempts left sleeps; otherwise the loop goes straight on. */
  function Resolve(s: Processing, result: UploadOutcome): Processing
    requires FirstUploading(s.items).Some?
  {
    var i := FirstUploading(s.items).value;
    var settled := Settle(s.items, i, result);
    if !result.success && s.items[i].attempts < MaxUploadRetries then s.(items := settled, awaiting := AwaitingBackoff)
    else LoopHead(s.(items := settled))
  }

  /** queueUpload's push. */
  function Queued(s: Processing, recordId: string, now: int): Processing
  {
    s.(items := s.items + [QueueItem(recordId, now, 0, Pending, None)])
  }

  /** The loop's head, entered while processing with nothing in flight,
      leaves a consistent state. */
  lemma LoopHeadConsistent(s: Processing)
    requires PendingBelow(s.items) && Attempted(s.items) && s.isProcessing && Uploads(s.items) == 0
    ensures Consistent(LoopHead(s))
  {
    if |s.items| > 0 && FirstPending(s.items).Some? {
      var i := FirstPending(s.items).value;
      var y := s.items[i].(status := Uploading, attempts := s.items[i].attempts + 1);
      UpdateKeeps(s.items, i, y);
      TotalUpdate(s.items, i, y, InFlight);
    }
  }

  /** Applying the awaited result keeps the state consistent. */
  lemma ResolveConsistent(s: Processing, result: UploadOutcome)
    requires Consistent(s) && s.awaiting == AwaitingUpload
    ensures FirstUploading(s.items).Some? && Consistent(Resolve(s, result))
    ensures var settled := Settle(s.items, FirstUploading(s.items).value, result);
      PendingBelow(settled) && Attempted(settled) && Uploads(settled) == 0
  {
    var i := FirstUploading(s.items).value;
    var item := s.items[i];
    var settled := Settle(s.items, i, result);
    if result.success {
      RemoveKeeps(s.items, i);
      TotalRemove(s.items, i, InFlight);
    } else if item.attempts >= MaxUploadRetries {
      UpdateKeeps(s.items, i, item.(status := Failed, error := result.error));
      TotalUpdate(s.items, i, item.(status := Failed, error := result.error), InFlight);
    } else {
      UpdateKeeps(s.items, i, item.(status := Pending));
      TotalUpdate(s.items, i, item.(status := Pending), InFlight);
    }
    assert PendingBelow(settled) && Uploads(settled) == 0;
    if result.success || item.attempts >= MaxUploadRetries {
      LoopHeadConsistent(s.(items := settled));
    }
  }

  /** queueUpload's push keeps the state consistent: the new item is pending
      with no attempts and not uploading. */
  lemma QueuedConsistent(s: Processing, recordId: string, now: int)
    requires Consistent(s)
    ensures Consistent(Queued(s, recordId, now))
  {
    var x := QueueItem(recordId, now, 0, Pending, None);
    TotalAppend(s.items, [x], InFlight);
    TotalCons(x, [], InFlight);
    PendingBelowAppend(s.items, [x]);
  }

  /** clearCompletedUploads keeps the in-flight item and the consistency of
      the state. */
  lemma ClearConsistent(s: Processing)
    requires Consistent(s)
    ensures Consistent(s.(items := KeepActive(s.items)))
  {
    KeepActiveMembers(s.items);
    KeepActiveKeepsUploads(s.items);
    var r := KeepActive(s.items);
    forall k | 0 <= k < |r| && r[k].status == Pending ensures r[k].attempts < MaxUploadRetries {
      assert r[k] in s.items;
    }
  }

  lemma {:induction false} KeepActiveKeepsUploads(items: seq<QueueItem>)
    ensures Uploads(KeepActive(items)) == Uploads(items)
  {
    if items != [] {
      var x, rest := items[0], items[1..];
      KeepActiveKeepsUploads(rest);
      TotalAppend(Kept(x), KeepActive(rest), InFlight);
      if Kept(x) != [] {
        TotalCons(x, [], InFlight);
      }
    }
  }

  /** Between rounds nothing is uploading, so the item begun is the one
      `indexOf(upload)` finds. */
  lemma BeginIsOnlyUpload(s: Processing, i: nat)
    requires Consistent(s) && s.awaiting == AwaitingBackoff && i < |s.items|
    ensures FirstUploading(Begin(s.items, i)) == Some(i)
  {
    var b := Begin(s.items, i);
    TotalZero(s.items, InFlight);
    assert forall k :: 0 <= k < |b| && k != i ==> b[k] == s.items[k] && InFlight(s.items[k]) == 0;
    TotalUpdate(s.items, i, b[i], InFlight);
    var j := FirstUploading(b);
    assert j.Some? && j.value == i;
  }

  /** With no queueUpload or clear in between, one pass from the loop's head
      through the awaited upload is exactly one round of the reference
      loop: the suspended machine follows Step, and Drain settles it. */
  lemma UninterruptedRound(s: Processing, upload: (string, nat) -> UploadOutcome)
    requires Consistent(s) && s.awaiting == AwaitingBackoff && FirstPending(s.items).Some?
    ensures var i := FirstPending(s.items).value;
      var t := LoopHead(s);
      var result := upload(s.items[i].id, s.items[i].attempts + 1);
      t.awaiting == AwaitingUpload && FirstUploading(t.items) == Some(i)
      && if !result.success && s.items[i].attempts + 1 < MaxUploadRetries
        then Resolve(t, result) == s.(items := Step(s.items, i, upload))
        else Resolve(t, result) == LoopHead(s.(items := Step(s.items, i, upload)))
  {
    var i := FirstPending(s.items).value;
    var b := Begin(s.items, i);
    BeginIsOnlyUpload(s, i);
    StepIsBeginSettle(s.items, i, upload);
    var t := LoopHead(s);
    assert t == s.(items := b, awaiting := AwaitingUpload);
    var result := upload(s.items[i].id, s.items[i].attempts + 1);
    assert t.(items := Settle(b, i, result)) == s.(items := Step(s.items, i, upload), awaiting := AwaitingUpload);
  }

  /** The module-level upload queue, its processing flag, and where the
      asynchronous processUploadQueue is suspended. */
  class Queue {
    var items: seq<QueueItem>
    var isProcessing: bool
    var awaiting: Await

    function State(): Processing
      reads this
    {
      Processing(items, isProcessing, awaiting)
    }

    ghost predicate Valid()
      reads this
    {
      Consistent(State())
    }

    constructor()
      ensures State() == Processing([], false, Idle) && Valid()
    {
      items, isProcessing, awaiting := [], false, Idle;
    }

    /** processUploadQueue, up to its first await. A second call while a
        round is suspended, or a call on an empty queue, does nothing. */
    method ProcessUploadQueue()
      requires Valid()
      modifies this
      ensures Valid()
      ensures old(isProcessing) || old(items) == [] ==> State() == old(State())
      ensures !old(isProcessing) && old(items) != [] ==> State() == LoopHead(old(State()).(isProcessing := true))
    {
      if isProcessing || |items| == 0 {
        return;
      }
      isProcessing := true;
      ContinueLoop();
    }

    /** The `while` test and the `find`, run whenever processing resumes
        without awaiting. */
    method ContinueLoop()
      requires PendingBelow(items) && Attempted(items) && isProcessing && Uploads(items) == 0
      modifies this
      ensures Valid() && State() == LoopHead(old(State()))
    {
      LoopHeadConsistent(State());
      if |items| == 0 {
        isProcessing, awaiting := false, Idle;
        return;
      }
      var next := FirstPending(items);
      if next.None? {
        isProcessing, awaiting := false, Idle;
      } else {
        items := Begin(items, next.value);
        awaiting := AwaitingUpload;
      }
    }

    /** The awaited uploadWithVerification answered `result`. Returns the
        back-off delay when the item is put back to wait. */
    method UploadSettled(result: UploadOutcome) returns (delay: Option<nat>)
      requires Valid() && awaiting == AwaitingUpload
      modifies this
      ensures Valid() && State() == Resolve(old(State()), result)
      ensures delay.Some? <==> awaiting == AwaitingBackoff
      ensures delay.Some? ==> var i := FirstUploading(old(items)).value;
        delay.value == BackoffDelay(old(items)[i].attempts - 1)
    {
      ResolveConsistent(State(), result);
      var i := FirstUploading(items).value;
      var item := items[i];
      var settled := Settle(items, i, result);
      if !result.success && item.attempts < MaxUploadRetries {
        items, awaiting := settled, AwaitingBackoff;
        return Some(BackoffDelay(item.attempts - 1));
      }
      items := settled;
      ContinueLoop();
      delay := None;
    }

    /** The back-off sleep ended: the loop goes on. */
    method BackoffElapsed()
      requires Valid() && awaiting == AwaitingBackoff
      modifies this
      ensures Valid() && State() == LoopHead(old(State()))
    {
      ContinueLoop();
    }

    /** queueUpload: a new pending item, then processing unless a round is
        already suspended, in which case that round will reach the item. */
    method QueueUpload(recordId: string, now: int)
      requires Valid()
      modifies this
      ensures Valid()
      ensures var queued := Queued(old(State()), recordId, now);
        if old(isProcessing) then State() == queued else State() == LoopHead(queued.(isProcessing := true))
    {
      QueuedConsistent(State(), recordId, now);
      items := items + [QueueItem(recordId, now, 0, Pending, None)];
      if !isProcessing {
        ProcessUploadQueue();
      }
    }

    /** clearCompletedUploads, which may run while an upload is awaited. */
    method ClearCompletedUploads()
      requires Valid()
      modifies this
      ensures Valid() && State() == old(State()).(items := KeepActive(old(items)))
    {
      ClearConsistent(State());
      items := KeepActive(items);
    }
  }
}
