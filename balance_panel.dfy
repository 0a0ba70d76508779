/**
 * The dashboard's balance panel: the balance is the sum of the signed-in
 * user's `available` coin rows, and the rating and trade count are read from
 * the profile with non-numbers shown as 0. The queries are parameters: the
 * coins table (which the query filters) and whether the query returned no
 * data, and the profile row if one was returned.
 */
module BalancePanel {
  import opened Common
  import opened Coins
  import Mining

  /** A profile column as `Number(...)` sees it. */
  datatype ProfileValue = Missing | Numeric(value: real) | NonNumeric

  /** `Number(x) || 0`: a number stays itself; null, undefined and non-numbers give 0. */
  function NumberOrZero(v: ProfileValue): (r: real)
    ensures v.Numeric? ==> r == v.value
    ensures !v.Numeric? ==> r == 0.0
  {
    match v
    case Numeric(x) => x
    case _ => 0.0
  }

  datatype ProfileStats = ProfileStats(rating: ProfileValue, totalTrades: ProfileValue)

  datatype PanelState = PanelState(balance: real, userRating: real, userTrades: real)

  /** The three `useState(0)` values. */
  const InitialPanel: PanelState := PanelState(0.0, 0.0, 0.0)

  /** `loadUserData`: the panel's state once both queries have answered. */
  function LoadUserData(user: Option<UserId>, table: seq<Coin>, coinsNull: bool, profile: Option<ProfileStats>): (s: PanelState)
    ensures user.None? ==> s == InitialPanel
    ensures coinsNull ==> s.balance == 0.0
    ensures profile.None? ==> s.userRating == 0.0 && s.userTrades == 0.0
  {
    if user.None? then InitialPanel
    else
      var balance := if coinsNull then InitialPanel.balance else Balance(table, user.value, AvailableStatus);
      if profile.None? then InitialPanel.(balance := balance)
      else PanelState(balance, NumberOrZero(profile.value.rating), NumberOrZero(profile.value.totalTrades))
  }

  /** The panel shows the sum of exactly the user's available rows. */
  lemma PanelShowsAvailableBalance(user: UserId, table: seq<Coin>, profile: Option<ProfileStats>)
    ensures LoadUserData(Some(user), table, false, profile).balance ==
      Sum(Select(table, user, AvailableStatus))
    ensures forall c :: c in Select(table, user, AvailableStatus) <==>
      c in table && c.userId == user && c.status == "available"
  {
  }

  /** Rating and trade count are the profile's numbers, 0 when missing or not numeric. */
  lemma PanelStatsDefault(user: UserId, table: seq<Coin>, coinsNull: bool, stats: ProfileStats)
    ensures var s := LoadUserData(Some(user), table, coinsNull, Some(stats));
      && (stats.rating.Numeric? ==> s.userRating == stats.rating.value)
      && (!stats.rating.Numeric? ==> s.userRating == 0.0)
      && (stats.totalTrades.Numeric? ==> s.userTrades == stats.totalTrades.value)
      && (!stats.totalTrades.Numeric? ==> s.userTrades == 0.0)
  {
  }

  /** A row of another status (a locked coin, say) or of another user changes nothing, whether added or removed. */
  lemma PanelIgnoresOtherRows(user: UserId, table: seq<Coin>, c: Coin, i: nat, profile: Option<ProfileStats>)
    requires !Matches(c, user, AvailableStatus)
    ensures LoadUserData(Some(user), table + [c], false, profile) == LoadUserData(Some(user), table, false, profile)
    ensures i < |table| && !Matches(table[i], user, AvailableStatus) ==>
      LoadUserData(Some(user), table[..i] + table[i + 1..], false, profile) == LoadUserData(Some(user), table, false, profile)
  {
    BalanceAfterInsert(table, c, user, AvailableStatus);
    if i < |table| && !Matches(table[i], user, AvailableStatus) {
      BalanceAfterRemove(table, i, user, AvailableStatus);
    }
  }

  /** Without an available row of the user, the panel shows 0. */
  lemma PanelEmpty(user: UserId, table: seq<Coin>, profile: Option<ProfileStats>)
    requires forall c :: c in table ==> !Matches(c, user, AvailableStatus)
    ensures LoadUserData(Some(user), table, false, profile).balance == 0.0
  {
    BalanceWithoutMatches(table, user, AvailableStatus);
  }

  /** With no negative amount stored, the panel never shows a negative balance. */
  lemma PanelNonNegative(user: Option<UserId>, table: seq<Coin>, coinsNull: bool, profile: Option<ProfileStats>)
    requires forall c :: c in table ==> AmountOf(c) >= 0.0
    ensures LoadUserData(user, table, coinsNull, profile).balance >= 0.0
  {
    if user.Some? {
      BalanceNonNegative(table, user.value, AvailableStatus);
    }
  }

  /** One successful claim raises the panel's balance by exactly the mining amount. */
  lemma PanelAfterMining(user: UserId, table: seq<Coin>, now: int, profile: Option<ProfileStats>)
    ensures LoadUserData(Some(user), table + [Mining.MiningCoin(user, now)], false, profile).balance ==
      LoadUserData(Some(user), table, false, profile).balance + 0.73
  {
    BalanceAfterInsert(table, Mining.MiningCoin(user, now), user, AvailableStatus);
  }
}
