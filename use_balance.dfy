/**
 * `useBalance().fetchBalance`: the hook's own reading of the balance. Like
 * `fetchAvailableBalance` it prefers the `get_available_balance` procedure
 * and falls back to summing coin rows, but it also turns a null answer and
 * any exception into 0, and it clears `loading` in a `finally`.
 *
 * Its fallback filters on the status `"active"`, which no writer in this
 * model produces: mining inserts `"available"`. `FetchBalance` keeps that
 * filter; `FetchBalanceFixed` is the same hook with the `"available"`
 * filter, the one the rest of the module reasons about.
 */
module UseBalance {
  import opened Common
  import opened Coins
  import Mining
  import opened AvailableBalance

  /** The status the hook's fallback query filters on. */
  const ActiveStatus: string := "active"

  /** The fallback query: it yields the filtered rows, no data, or throws. */
  datatype Fallback = Rows | NoData | FallbackThrew

  /** `totalBalance || 0`: with no NaN in the model this keeps every number. */
  function OrZeroNumber(x: real): (r: real)
    ensures r == x
  {
    if x == 0.0 then 0.0 else x
  }

  /**
   * The hook's `fetchBalance` with its fallback filtering on `status`: the
   * signed-in user (or the exception `getUser` threw), the procedure's answer,
   * the coins table and the fallback query's outcome.
   */
  function FetchBalanceWith(status: string, user: Call<Option<UserId>>, rpc: Call<RpcResult>, table: seq<Coin>, fallback: Fallback): (effects: seq<Effect>)
    // The `finally` clears loading last on every path.
    ensures |effects| >= 1 && effects[|effects| - 1] == SetLoading(false)
    // No user: loading is cleared twice, by the early return and by `finally`.
    ensures user == Returned(None) ==> effects == [SetLoading(false), SetLoading(false)]
    // Any exception sets the balance to 0.
    ensures user.Threw? || (user.Returned? && user.value.Some? && (rpc.Threw? || (rpc == Returned(RpcError) && fallback == FallbackThrew))) ==>
      effects == [SetBalance(0.0), SetLoading(false)]
    ensures user.Returned? && user.value.Some? && rpc.Returned? && rpc.value.RpcData? ==>
      effects == [SetBalance(if rpc.value.data.Some? then rpc.value.data.value else 0.0), SetLoading(false)]
    ensures user.Returned? && user.value.Some? && rpc == Returned(RpcError) && fallback == Rows ==>
      effects == [SetBalance(Balance(table, user.value.value, status)), SetLoading(false)]
    ensures user.Returned? && user.value.Some? && rpc == Returned(RpcError) && fallback == NoData ==>
      effects == [SetLoading(false)]
  {
    var body: seq<Effect> :=
      match user
      case Threw => [SetBalance(0.0)]
      case Returned(None) => [SetLoading(false)]
      case Returned(Some(u)) =>
        match rpc
        case Threw => [SetBalance(0.0)]
        case Returned(RpcError) =>
          (match fallback
           case FallbackThrew => [SetBalance(0.0)]
           case NoData => []
           case Rows => [SetBalance(OrZeroNumber(Sum(Select(table, u, status))))])
        case Returned(RpcData(data)) =>
          if data.Some? then [SetBalance(data.value)] else [SetBalance(0.0)];
    body + [SetLoading(false)]
  }

  /** The hook as written: the fallback sums `"active"` rows. */
  function FetchBalance(user: Call<Option<UserId>>, rpc: Call<RpcResult>, table: seq<Coin>, fallback: Fallback): seq<Effect> {
    FetchBalanceWith(ActiveStatus, user, rpc, table, fallback)
  }

  /** The hook with the fallback filter the procedure and the other reader use. */
  function FetchBalanceFixed(user: Call<Option<UserId>>, rpc: Call<RpcResult>, table: seq<Coin>, fallback: Fallback): seq<Effect> {
    FetchBalanceWith(AvailableStatus, user, rpc, table, fallback)
  }

  /** A null answer and a fallback total of 0 both leave the balance at 0, never at null. */
  lemma NullBecomesZero(user: UserId, table: seq<Coin>, fallback: Fallback)
    ensures LastBalance(FetchBalance(Returned(Some(user)), Returned(RpcData(None)), table, fallback)) == Some(0.0)
    ensures Balance(table, user, ActiveStatus) == 0.0 ==>
      LastBalance(FetchBalance(Returned(Some(user)), Returned(RpcError), table, Rows)) == Some(0.0)
  {
  }

  /** The `"active"` fallback never sees a mined coin: a claim leaves its total unchanged. */
  lemma MinedCoinInvisibleToFallback(user: UserId, table: seq<Coin>, now: int)
    ensures FetchBalance(Returned(Some(user)), Returned(RpcError), table + [Mining.MiningCoin(user, now)], Rows) ==
      FetchBalance(Returned(Some(user)), Returned(RpcError), table, Rows)
  {
    BalanceAfterInsert(table, Mining.MiningCoin(user, now), user, ActiveStatus);
  }

  /** A table holding one mined coin: the other reader reports 0.73, this hook's fallback reports 0. */
  lemma ActiveFallbackMissesMinedCoin()
    ensures var table := [Mining.MiningCoin("u", 0)];
      && LastBalance(FetchAvailableBalance(Some("u"), RpcError, table, false)) == Some(0.73)
      && LastBalance(FetchBalance(Returned(Some("u")), Returned(RpcError), table, Rows)) == Some(0.0)
  {
    var table := [Mining.MiningCoin("u", 0)];
    BalanceAfterInsert([], Mining.MiningCoin("u", 0), "u", AvailableStatus);
    BalanceAfterInsert([], Mining.MiningCoin("u", 0), "u", ActiveStatus);
    assert [] + table == table;
  }

  /** With the corrected filter, the hook stores the same balance as the other reader whenever that one stores any. */
  lemma FixedAgreesWithAvailableBalance(user: Option<UserId>, rpc: RpcResult, table: seq<Coin>, fallbackNull: bool)
    ensures var theirs := LastBalance(FetchAvailableBalance(user, rpc, table, fallbackNull));
      theirs.Some? ==>
        LastBalance(FetchBalanceFixed(Returned(user), Returned(rpc), table, if fallbackNull then NoData else Rows)) == theirs
  {
  }

  /** With the corrected filter, a claim raises the fallback balance by exactly the mining amount. */
  lemma FixedFallbackCountsMinedCoin(user: UserId, table: seq<Coin>, now: int)
    ensures var before := Balance(table, user, AvailableStatus);
      && LastBalance(FetchBalanceFixed(Returned(Some(user)), Returned(RpcError), table, Rows)) == Some(before)
      && LastBalance(FetchBalanceFixed(Returned(Some(user)), Returned(RpcError), table + [Mining.MiningCoin(user, now)], Rows)) ==
           Some(before + 0.73)
  {
    BalanceAfterInsert(table, Mining.MiningCoin(user, now), user, AvailableStatus);
  }
}
