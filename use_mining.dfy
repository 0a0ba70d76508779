/**
 * The client-side mirror of the claim cooldown (`useMining`): it keeps the
 * last status the server reported and counts `timeRemaining` down by one
 * second per tick, so that the claim button enables itself when the
 * countdown reaches zero. The server calls are parameters: the hook is
 * handed the result that `getMiningStatus` or `claimMining` returned, or
 * told that the call rejected.
 */
module UseMining {
  import opened Common
  import Mining

  /** The hard-coded `3 * 60 * 60 * 1000` the hook starts counting from after a claim. */
  const ClaimedCountdownMs: int := 3 * 60 * 60 * 1000
  const TickMs: int := 1000

  /** The hook restarts its countdown from the same interval the server reschedules by. */
  lemma CountdownMatchesServerInterval()
    ensures ClaimedCountdownMs == Mining.IntervalMs == 10800000
  {
  }

  class MiningHook {
    var canMine: bool
    var timeRemaining: int
    var nextMine: Option<int>
    var isClaiming: bool
    var isLoading: bool

    /** The countdown is never negative. */
    ghost predicate Valid()
      reads this
    {
      timeRemaining >= 0
    }

    /** The initial `useState` values. */
    constructor ()
      ensures Valid()
      ensures !canMine && timeRemaining == 0 && nextMine == None && !isClaiming && isLoading
    {
      canMine := false;
      timeRemaining := 0;
      nextMine := None;
      isClaiming := false;
      isLoading := true;
    }

    /**
     * `fetchMiningStatus` with the outcome of the awaited `getMiningStatus`: a
     * successful status overwrites the three status fields and loading ends.
     * There is no `try`, so a rejected call skips `setIsLoading(false)` and
     * nothing changes: a first fetch that rejects leaves the hook loading.
     */
    method FetchMiningStatus(outcome: Call<Mining.StatusResult>)
      requires Valid()
      requires outcome.Returned? && outcome.value.StatusOk? ==> outcome.value.status.timeRemaining >= 0
      modifies this
      ensures Valid()
      ensures isClaiming == old(isClaiming)
      ensures outcome.Returned? ==> !isLoading
      ensures outcome.Returned? && outcome.value.StatusOk? ==>
        var status := outcome.value.status;
        canMine == status.canMine && nextMine == status.nextMine && timeRemaining == status.timeRemaining
      ensures outcome.Returned? && outcome.value.StatusFailed? ==>
        canMine == old(canMine) && nextMine == old(nextMine) && timeRemaining == old(timeRemaining)
      ensures outcome.Threw? ==>
        isLoading == old(isLoading) && canMine == old(canMine) && nextMine == old(nextMine) &&
        timeRemaining == old(timeRemaining)
    {
      if outcome.Threw? {
        return;
      }
      var result := outcome.value;
      if result.StatusOk? {
        canMine := result.status.canMine;
        nextMine := result.status.nextMine;
        timeRemaining := result.status.timeRemaining;
      }
      isLoading := false;
    }

    /** One firing of the one-second timer; the timer only runs while `!canMine && timeRemaining > 0`. */
    method Tick()
      requires Valid()
      modifies this
      ensures Valid()
      ensures nextMine == old(nextMine) && isClaiming == old(isClaiming) && isLoading == old(isLoading)
      ensures !(old(!canMine) && old(timeRemaining) > 0) ==>
        canMine == old(canMine) && timeRemaining == old(timeRemaining)
      ensures old(!canMine) && old(timeRemaining) > TickMs ==>
        !canMine && timeRemaining == old(timeRemaining) - TickMs
      ensures old(!canMine) && 0 < old(timeRemaining) <= TickMs ==>
        canMine && timeRemaining == 0
      ensures timeRemaining <= old(timeRemaining)
    {
      if !canMine && timeRemaining > 0 {
        var newTime := timeRemaining - TickMs;
        if newTime <= 0 {
          canMine := true;
          timeRemaining := 0;
        } else {
          timeRemaining := newTime;
        }
      }
    }

    /** The synchronous part of `handleClaim` up to the server call: whether the call is made. */
    method BeginClaim() returns (started: bool)
      requires Valid()
      modifies this
      ensures Valid()
      ensures started <==> old(canMine) && !old(isClaiming)
      ensures started ==> isClaiming
      ensures !started ==> isClaiming == old(isClaiming)
      ensures canMine == old(canMine) && timeRemaining == old(timeRemaining)
      ensures nextMine == old(nextMine) && isLoading == old(isLoading)
    {
      if !canMine || isClaiming {
        return false;
      }
      isClaiming := true;
      started := true;
    }

    /**
     * The part of `handleClaim` after the awaited `claimMining` settled. There
     * is no `try`: when the call rejects, `setIsClaiming(false)` is skipped and
     * nothing changes.
     */
    method CompleteClaim(outcome: Call<Mining.ClaimResult>)
      requires Valid()
      modifies this
      ensures Valid()
      ensures isLoading == old(isLoading)
      ensures outcome.Returned? ==> !isClaiming
      ensures outcome.Returned? && outcome.value.Claimed? ==>
        !canMine && nextMine == Some(outcome.value.newNextMine) && timeRemaining == 10800000
      ensures outcome.Returned? && outcome.value.ClaimFailed? ==>
        canMine == old(canMine) && nextMine == old(nextMine) && timeRemaining == old(timeRemaining)
      ensures outcome.Threw? ==>
        isClaiming == old(isClaiming) && canMine == old(canMine) && nextMine == old(nextMine) &&
        timeRemaining == old(timeRemaining)
    {
      if outcome.Threw? {
        return;
      }
      var result := outcome.value;
      if result.Claimed? {
        canMine := false;
        nextMine := Some(result.newNextMine);
        timeRemaining := ClaimedCountdownMs;
      }
      isClaiming := false;
    }

    /**
     * `handleClaim` when nothing else runs during the server call: `None` is
     * the early return, `Some(Threw)` a rejection passed on to the caller,
     * and `Some(Returned(result))` the server's answer.
     */
    method HandleClaim(server: Call<Mining.ClaimResult>) returns (r: Option<Call<Mining.ClaimResult>>)
      requires Valid()
      modifies this
      ensures Valid()
      ensures isLoading == old(isLoading)
      ensures !old(canMine) || old(isClaiming) ==>
        r == None && canMine == old(canMine) && timeRemaining == old(timeRemaining) &&
        nextMine == old(nextMine) && isClaiming == old(isClaiming)
      ensures old(canMine) && !old(isClaiming) ==> r == Some(server)
      ensures old(canMine) && !old(isClaiming) && server.Returned? ==> !isClaiming
      ensures old(canMine) && !old(isClaiming) && server.Returned? && server.value.Claimed? ==>
        !canMine && timeRemaining == 10800000 && nextMine == Some(server.value.newNextMine)
      ensures old(canMine) && !old(isClaiming) && server.Returned? && server.value.ClaimFailed? ==>
        canMine && timeRemaining == old(timeRemaining) && nextMine == old(nextMine)
      // A rejected server call leaves the claim in flight for good.
      ensures old(canMine) && !old(isClaiming) && server.Threw? ==>
        isClaiming && canMine && timeRemaining == old(timeRemaining) && nextMine == old(nextMine)
    {
      var started := BeginClaim();
      if !started {
        return None;
      }
      CompleteClaim(server);
      r := Some(server);
    }

    /**
     * A claim whose server call rejects, followed by any further claim: the
     * second one returns early, because `isClaiming` was never cleared.
     */
    method ClaimAfterRejection(later: Call<Mining.ClaimResult>) returns (r1: Option<Call<Mining.ClaimResult>>, r2: Option<Call<Mining.ClaimResult>>)
      requires Valid()
      requires canMine && !isClaiming
      modifies this
      ensures r1 == Some(Threw) && r2 == None
      ensures isClaiming && canMine && timeRemaining == old(timeRemaining) && nextMine == old(nextMine)
    {
      r1 := HandleClaim(Threw);
      r2 := HandleClaim(later);
    }
  }
}
