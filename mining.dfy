/**
 * The server action behind the reward claim ("mining"): a user may claim a
 * fixed amount once the stored `next_mine` instant has been reached; a claim
 * pushes `next_mine` three hours ahead, inserts one `available` coin row and
 * logs a transaction. The three writes are separate store calls, each of
 * which may fail, and the action does not undo the earlier ones.
 */
module Mining {
  import opened Common
  import opened Coins

  const MiningAmount: real := 0.73
  const MiningIntervalHours: int := 3
  /** `MINING_INTERVAL_HOURS * 60 * 60 * 1000`, in milliseconds. */
  const IntervalMs: int := MiningIntervalHours * 60 * 60 * 1000

  /** The failures the two actions report; `Message` is the text they return. */
  datatype MiningError =
    | NotAuthenticated
    | FetchProfileFailed
    | NotAvailableYet
    | UpdateFailed
    | AddCoinsFailed
    | UnexpectedError
    | FetchStatusFailed
  {
    function Message(): string {
      match this
      case NotAuthenticated => "Not authenticated"
      case FetchProfileFailed => "Failed to fetch profile"
      case NotAvailableYet => "Mining not available yet"
      case UpdateFailed => "Failed to update mining status"
      case AddCoinsFailed => "Failed to add coins"
      case UnexpectedError => "An unexpected error occurred"
      case FetchStatusFailed => "Failed to fetch mining status"
    }
  }

  /** The mining columns of a `profiles` row; instants are milliseconds since the epoch. */
  datatype Profile = Profile(lastMine: Option<int>, nextMine: Option<int>, updatedAt: Option<int>)

  /** One entry of the transaction log written by `createTransaction`. */
  datatype Transaction = Transaction(userId: UserId, kind: string, amount: real, description: string)

  /** How the call that logs the transaction ends: its body is not part of this model. */
  datatype LogOutcome = LogOk | LogSilentFail | LogThrows

  /** Which store calls fail during one claim. */
  datatype StoreFaults = StoreFaults(fetchFails: bool, updateFails: bool, insertFails: bool, log: LogOutcome)

  datatype ClaimResult =
    | Claimed(amount: real, newNextMine: int)
    | ClaimFailed(error: MiningError, nextMine: Option<int>)

  datatype MiningStatus = MiningStatus(canMine: bool, lastMine: Option<int>, nextMine: Option<int>, timeRemaining: int)

  datatype StatusResult = StatusOk(status: MiningStatus) | StatusFailed(error: MiningError)

  /** Guard of the claim: `nextMine && now < nextMine`. */
  predicate CoolingDown(p: Profile, now: int) {
    p.nextMine.Some? && now < p.nextMine.value
  }

  /** The profile after the update of a claim at `now`. */
  function Rescheduled(p: Profile, now: int): (q: Profile)
    ensures q.lastMine == Some(now) && q.updatedAt == Some(now)
    ensures q.nextMine == Some(now + IntervalMs) && q.nextMine.value - now == 3 * 60 * 60 * 1000
  {
    Profile(Some(now), Some(now + IntervalMs), Some(now))
  }

  /** The coin row a claim inserts. */
  function MiningCoin(user: UserId, now: int): (c: Coin)
    ensures c.userId == user && c.amount == Some(0.73) && AmountOf(c) == 0.73
    ensures c.claimType == "mining" && c.status == AvailableStatus && c.createdAt == now
  {
    Coin(user, Some(MiningAmount), "mining", "available", now)
  }

  function MiningTransaction(user: UserId): Transaction {
    Transaction(user, "mining", MiningAmount, "Mining reward claimed")
  }

  /** `getMiningStatus` once the profile has been read: a missing `next_mine` counts as `now`. */
  function DeriveStatus(p: Profile, now: int): (s: MiningStatus)
    ensures s.canMine <==> p.nextMine.None? || now >= p.nextMine.value
    ensures s.canMine ==> s.timeRemaining == 0
    ensures !s.canMine ==> s.timeRemaining > 0 && now + s.timeRemaining == p.nextMine.value
    ensures s.timeRemaining >= 0
    ensures s.lastMine == p.lastMine && s.nextMine == p.nextMine
  {
    var next := if p.nextMine.Some? then p.nextMine.value else now;
    var canMine := now >= next;
    MiningStatus(canMine, p.lastMine, p.nextMine, if canMine then 0 else next - now)
  }

  /** The status query and the claim guard agree: the status says `canMine` exactly when a claim passes the cooldown check. */
  lemma StatusAgreesWithClaim(p: Profile, now: int)
    ensures DeriveStatus(p, now).canMine <==> !CoolingDown(p, now)
    ensures CoolingDown(p, now) ==> DeriveStatus(p, now).timeRemaining == p.nextMine.value - now
  {
  }

  /** Once a claim at `now` has been written, every instant earlier than three hours later is in the cooldown. */
  lemma CooldownAfterClaim(p: Profile, now: int, t: int)
    requires t < now + 3 * 60 * 60 * 1000
    ensures CoolingDown(Rescheduled(p, now), t)
    ensures !DeriveStatus(Rescheduled(p, now), t).canMine
  {
  }

  /** The persistent state the claim reads and writes. */
  class MiningStore {
    var profiles: map<UserId, Profile>
    var coins: seq<Coin>
    var transactions: seq<Transaction>

    constructor (initialProfiles: map<UserId, Profile>, initialCoins: seq<Coin>)
      ensures profiles == initialProfiles && coins == initialCoins && transactions == []
    {
      profiles := initialProfiles;
      coins := initialCoins;
      transactions := [];
    }

    /**
     * `claimMining` with the signed-in user (`None` when unauthenticated), the
     * server clock `now` and the store calls that fail.
     */
    method ClaimMining(user: Option<UserId>, now: int, faults: StoreFaults) returns (r: ClaimResult)
      modifies this
      // No user, or the profile could not be read: an error and no write.
      ensures user.None? ==> r == ClaimFailed(NotAuthenticated, None) && unchanged(this)
      ensures user.Some? && (user.value !in old(profiles) || faults.fetchFails) ==>
        r == ClaimFailed(FetchProfileFailed, None) && unchanged(this)
      // The cooldown check: rejected, with the stored next instant, iff next_mine is set and now < next_mine.
      ensures r.ClaimFailed? && r.error == NotAvailableYet <==>
        user.Some? && user.value in old(profiles) && !faults.fetchFails && CoolingDown(old(profiles)[user.value], now)
      ensures r.ClaimFailed? && r.error == NotAvailableYet ==>
        r.nextMine == old(profiles)[user.value].nextMine && unchanged(this)
      ensures user.Some? && user.value in old(profiles) && !faults.fetchFails && !CoolingDown(old(profiles)[user.value], now) ==>
        var u := user.value;
        // The profile update failed: nothing is written.
        && (faults.updateFails ==> r == ClaimFailed(UpdateFailed, None) && unchanged(this))
        // The update took effect; whatever follows, the cooldown is consumed.
        && (!faults.updateFails ==> profiles == old(profiles)[u := Rescheduled(old(profiles)[u], now)])
        // The coin insert failed: no credit and no log entry.
        && (!faults.updateFails && faults.insertFails ==>
              r == ClaimFailed(AddCoinsFailed, None) && coins == old(coins) && transactions == old(transactions))
        // The coin was inserted: exactly one available 0.73 row of this user.
        && (!faults.updateFails && !faults.insertFails ==> coins == old(coins) + [MiningCoin(u, now)])
        && (!faults.updateFails && !faults.insertFails && faults.log == LogThrows ==>
              r == ClaimFailed(UnexpectedError, None) && transactions == old(transactions))
        && (!faults.updateFails && !faults.insertFails && faults.log != LogThrows ==>
              r == Claimed(0.73, now + IntervalMs))
        && (!faults.updateFails && !faults.insertFails && faults.log == LogOk ==>
              transactions == old(transactions) + [MiningTransaction(u)])
        && (!faults.updateFails && !faults.insertFails && faults.log == LogSilentFail ==>
              transactions == old(transactions))
      // A success is reported only when the coin row was inserted.
      ensures r.Claimed? ==> user.Some? && coins == old(coins) + [MiningCoin(user.value, now)]
    {
      if user.None? {
        return ClaimFailed(NotAuthenticated, None);
      }
      var u := user.value;
      if u !in profiles || faults.fetchFails {
        return ClaimFailed(FetchProfileFailed, None);
      }
      var profile := profiles[u];
      if CoolingDown(profile, now) {
        return ClaimFailed(NotAvailableYet, profile.nextMine);
      }
      var newNextMine := now + MiningIntervalHours * 60 * 60 * 1000;
      if faults.updateFails {
        return ClaimFailed(UpdateFailed, None);
      }
      profiles := profiles[u := Rescheduled(profile, now)];
      if faults.insertFails {
        return ClaimFailed(AddCoinsFailed, None);
      }
      coins := coins + [MiningCoin(u, now)];
      if faults.log == LogThrows {
        return ClaimFailed(UnexpectedError, None);
      }
      if faults.log == LogOk {
        transactions := transactions + [MiningTransaction(u)];
      }
      r := Claimed(MiningAmount, newNextMine);
    }

    /** `getMiningStatus`: a read of the profile and a pure derivation; it cannot write. */
    function GetMiningStatus(user: Option<UserId>, now: int, fetchFails: bool): (r: StatusResult)
      reads this
      ensures user.None? ==> r == StatusFailed(NotAuthenticated)
      ensures user.Some? && (user.value !in profiles || fetchFails) ==> r == StatusFailed(FetchStatusFailed)
      ensures r.StatusOk? <==> user.Some? && user.value in profiles && !fetchFails
      ensures r.StatusOk? ==> r.status == DeriveStatus(profiles[user.value], now)
      ensures r.StatusOk? ==>
        && (r.status.canMine <==> !CoolingDown(profiles[user.value], now))
        && (r.status.canMine ==> r.status.timeRemaining == 0)
        && (!r.status.canMine ==> r.status.timeRemaining == profiles[user.value].nextMine.value - now > 0)
    {
      if user.None? then StatusFailed(NotAuthenticated)
      else if user.value !in profiles || fetchFails then StatusFailed(FetchStatusFailed)
      else StatusOk(DeriveStatus(profiles[user.value], now))
    }

    /**
     * Two claims in sequence by one user, the second earlier than three hours
     * after the first: once the first has written its profile update, the
     * second never succeeds and at most one coin row is added in all.
     */
    method ClaimTwice(user: UserId, now: int, later: int, first: StoreFaults, second: StoreFaults)
      returns (r1: ClaimResult, r2: ClaimResult)
      requires later < now + IntervalMs
      modifies this
      ensures r1.Claimed? || (r1.ClaimFailed? && r1.error in {AddCoinsFailed, UnexpectedError}) ==>
        && !r2.Claimed?
        && (!second.fetchFails ==> r2 == ClaimFailed(NotAvailableYet, Some(now + IntervalMs)))
        && |coins| <= |old(coins)| + 1
    {
      r1 := ClaimMining(Some(user), now, first);
      r2 := ClaimMining(Some(user), later, second);
    }
  }
}
