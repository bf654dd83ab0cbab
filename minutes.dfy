/** The minutes store (src/stores/minutes.js): the user's free, bonus and used
    transcription minutes and the recording allowance derived from them.
    Minutes are exact `real` numbers; the server call and the clock are
    parameters. */
module Minutes {
  import opened Wrappers

  /** One hour, in milliseconds. */
  const CacheDurationMs: int := 60 * 60 * 1000

  /** The three counters the getters read. */
  datatype Balance = Balance(free: real, bonus: real, used: real)

  function Unspent(b: Balance): real
  {
    b.free + b.bonus - b.used
  }

  function TotalMinutes(b: Balance): (t: real)
    ensures t - b.used == Unspent(b)
  {
    b.free + b.bonus
  }

  /** remainingMinutes: the unspent minutes, clamped at zero. */
  function RemainingMinutes(b: Balance): (r: real)
    ensures r >= 0.0 && r >= Unspent(b)
    ensures r == Unspent(b) || r == 0.0
  {
    if Unspent(b) > 0.0 then Unspent(b) else 0.0
  }

  /** remainingSeconds: whole seconds of the unspent minutes, clamped at zero. */
  function RemainingSeconds(b: Balance): (r: int)
    ensures r >= 0
    ensures Unspent(b) >= 0.0 ==> r as real <= Unspent(b) * 60.0 < r as real + 1.0
    ensures Unspent(b) < 0.0 ==> r == 0
  {
    var seconds := (Unspent(b) * 60.0).Floor;
    if seconds > 0 then seconds else 0
  }

  /** hasMinutesRemaining. */
  function HasMinutesRemaining(b: Balance): (r: bool)
    ensures r <==> Unspent(b) > 0.0
  {
    Unspent(b) > 0.0
  }

  /** A whole second left means minutes remain, and then the clamped
      minutes are the unspent minutes. */
  lemma SecondsImplyMinutes(b: Balance)
    ensures RemainingSeconds(b) > 0 ==> HasMinutesRemaining(b)
    ensures HasMinutesRemaining(b) <==> RemainingMinutes(b) > 0.0
    ensures HasMinutesRemaining(b) ==> RemainingMinutes(b) == Unspent(b)
  {
  }

  /** usagePercentage: 100 with nothing allocated, otherwise the used share
      capped at 100. */
  function UsagePercentage(b: Balance): (p: real)
    ensures p <= 100.0
    ensures TotalMinutes(b) == 0.0 ==> p == 100.0
    ensures TotalMinutes(b) != 0.0 ==> p == 100.0 || p == b.used / TotalMinutes(b) * 100.0
    ensures TotalMinutes(b) > 0.0 && b.used >= 0.0 ==> p >= 0.0
  {
    var total := TotalMinutes(b);
    if total == 0.0 then 100.0
    else
      var share := b.used / total * 100.0;
      if share < 100.0 then share else 100.0
  }

  /** Within the allocation, the percentage is the exact used share. */
  lemma UsageWithinAllocation(b: Balance)
    requires TotalMinutes(b) > 0.0 && 0.0 <= b.used <= TotalMinutes(b)
    ensures 0.0 <= UsagePercentage(b) && UsagePercentage(b) * TotalMinutes(b) == b.used * 100.0
  {
    var total := TotalMinutes(b);
    var share := b.used / total * 100.0;
    assert share * total == b.used * 100.0;
    assert b.used / total <= 1.0;
  }

  /** deductMinutesLocally, on values. */
  function Deduct(b: Balance, durationSeconds: real): (d: Balance)
    ensures d.free == b.free && d.bonus == b.bonus
    ensures Unspent(d) == Unspent(b) - durationSeconds / 60.0
  {
    b.(used := b.used + durationSeconds / 60.0)
  }

  /** A recording of no negative length never raises the allowance. */
  lemma DeductNeverRaises(b: Balance, durationSeconds: real)
    requires durationSeconds >= 0.0
    ensures RemainingMinutes(Deduct(b, durationSeconds)) <= RemainingMinutes(b)
    ensures RemainingSeconds(Deduct(b, durationSeconds)) <= RemainingSeconds(b)
    ensures HasMinutesRemaining(Deduct(b, durationSeconds)) ==> HasMinutesRemaining(b)
  {
    var d := Deduct(b, durationSeconds);
    assert Unspent(d) * 60.0 <= Unspent(b) * 60.0;
  }

  /** Deducting the seconds just remaining uses the whole allowance up. */
  lemma DeductAllowance(b: Balance)
    requires Unspent(b) >= 0.0
    ensures RemainingSeconds(Deduct(b, Unspent(b) * 60.0)) == 0
    ensures !HasMinutesRemaining(Deduct(b, Unspent(b) * 60.0))
  {
  }

  /** canRecordFor. */
  function CanRecordFor(b: Balance, durationSeconds: real): (r: bool)
    ensures r <==> RemainingSeconds(b) as real >= durationSeconds
  {
    RemainingSeconds(b) as real >= durationSeconds
  }

  /** getMaxRecordingDuration. */
  function MaxRecordingDuration(b: Balance): (r: int)
    ensures r >= 0
  {
    RemainingSeconds(b)
  }

  /** For a whole, positive number of seconds the check is exactly "that
      many seconds are left unspent". */
  lemma CanRecordForExact(b: Balance, seconds: int)
    requires seconds > 0
    ensures CanRecordFor(b, seconds as real) <==> seconds as real <= Unspent(b) * 60.0
  {
  }

  /** The maximum is the longest duration, in whole seconds, that may be
      recorded. */
  lemma MaxIsLargest(b: Balance)
    ensures CanRecordFor(b, MaxRecordingDuration(b) as real)
    ensures !CanRecordFor(b, MaxRecordingDuration(b) as real + 1.0)
  {
  }

  /** What getUserMinutes answers; a missing or zero field reads 0. */
  datatype MinutesData = MinutesData(freeMinutes: Option<real>, bonusMinutes: Option<real>, usedMinutes: Option<real>)

  datatype FetchOutcome = FetchOutcome(success: bool, cached: bool, error: Option<string>)

  /** The store's whole state. */
  datatype Snapshot = Snapshot(balance: Balance, loading: bool, error: Option<string>, lastFetchedAt: Option<int>)

  class Store {
    var freeMinutes: real
    var bonusMinutes: real
    var usedMinutes: real
    var loading: bool
    var error: Option<string>
    var lastFetchedAt: Option<int>

    constructor()
      ensures State() == Snapshot(Balance(0.0, 0.0, 0.0), false, None, None)
    {
      freeMinutes, bonusMinutes, usedMinutes := 0.0, 0.0, 0.0;
      loading, error, lastFetchedAt := false, None, None;
    }

    function CurrentBalance(): Balance
      reads this
    {
      Balance(freeMinutes, bonusMinutes, usedMinutes)
    }

    function State(): Snapshot
      reads this
    {
      Snapshot(CurrentBalance(), loading, error, lastFetchedAt)
    }

    /** isCacheValid at time `now`: a fetch time is set (0 counts as unset)
        and lies less than an hour back. */
    function IsCacheValid(now: int): (r: bool)
      reads this
      ensures r <==> lastFetchedAt.Some? && lastFetchedAt.value != 0 && now - lastFetchedAt.value < CacheDurationMs
    {
      match lastFetchedAt
      case None => false
      case Some(t) => t != 0 && now - t < CacheDurationMs
    }

    /** fetchMinutes: `token` None or empty is not authenticated, `now` the
        clock, `reply` the server's answer or the error it threw. */
    method FetchMinutes(token: Option<string>, force: bool, now: int, reply: Result<MinutesData>)
      returns (outcome: FetchOutcome)
      modifies this
      ensures !force && old(IsCacheValid(now)) ==>
        outcome == FetchOutcome(true, true, None) && State() == old(State())
      ensures !(!force && old(IsCacheValid(now))) && (token.None? || token.value == "") ==>
        outcome == FetchOutcome(false, false, Some("Not authenticated"))
        && State() == old(State()).(error := Some("Not authenticated"))
      ensures !(!force && old(IsCacheValid(now))) && token.Some? && token.value != "" && reply.Ok? ==>
        outcome == FetchOutcome(true, false, None)
        && State() == Snapshot(Balance(reply.value.freeMinutes.GetOr(0.0), reply.value.bonusMinutes.GetOr(0.0),
          reply.value.usedMinutes.GetOr(0.0)), false, None, Some(now))
      ensures !(!force && old(IsCacheValid(now))) && token.Some? && token.value != "" && reply.Err? ==>
        outcome == FetchOutcome(false, false, Some(reply.error))
        && State() == old(State()).(loading := false, error := Some(reply.error))
    {
      if !force && IsCacheValid(now) {
        return FetchOutcome(true, true, None);
      }
      if token.None? || token.value == "" {
        error := Some("Not authenticated");
        return FetchOutcome(false, false, Some("Not authenticated"));
      }
      loading := true;
      error := None;
      match reply {
        case Ok(data) =>
          freeMinutes := data.freeMinutes.GetOr(0.0);
          bonusMinutes := data.bonusMinutes.GetOr(0.0);
          usedMinutes := data.usedMinutes.GetOr(0.0);
          lastFetchedAt := Some(now);
          outcome := FetchOutcome(true, false, None);
        case Err(message) =>
          error := Some(message);
          outcome := FetchOutcome(false, false, Some(message));
      }
      loading := false;
    }

    /** deductMinutesLocally. */
    method DeductMinutesLocally(durationSeconds: real)
      modifies this
      ensures State() == old(State()).(balance := Deduct(old(CurrentBalance()), durationSeconds))
    {
      usedMinutes := usedMinutes + durationSeconds / 60.0;
    }

    /** reset, on logout. */
    method Reset()
      modifies this
      ensures State() == Snapshot(Balance(0.0, 0.0, 0.0), false, None, None)
    {
      freeMinutes, bonusMinutes, usedMinutes := 0.0, 0.0, 0.0;
      loading, error, lastFetchedAt := false, None, None;
    }

    /** setMinutes: only the counters given change; the fetch time is `now`. */
    method SetMinutes(free: Option<real>, bonus: Option<real>, used: Option<real>, now: int)
      modifies this
      ensures State() == old(State()).(balance := Balance(free.GetOr(old(freeMinutes)),
        bonus.GetOr(old(bonusMinutes)), used.GetOr(old(usedMinutes))), lastFetchedAt := Some(now))
    {
      if free.Some? {
        freeMinutes := free.value;
      }
      if bonus.Some? {
        bonusMinutes := bonus.value;
      }
      if used.Some? {
        usedMinutes := used.value;
      }
      lastFetchedAt := Some(now);
    }
  }
}
