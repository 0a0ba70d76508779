/**
 * `fetchAvailableBalance`: ask the store's `get_available_balance` procedure
 * for the user's available balance and, if the call errors, sum the user's
 * `available` coin rows instead. The function reports through two setter
 * callbacks; the model returns the calls it makes, in order.
 */
module AvailableBalance {
  import opened Common
  import opened Coins

  /** A call of one of the two setters. */
  datatype Effect = SetBalance(value: real) | SetLoading(loading: bool)

  /** What the procedure call returned: an error, or data that may be null. */
  datatype RpcResult = RpcError | RpcData(data: Option<real>)

  /** The value the last balance-setter call stored, if any. */
  function LastBalance(effects: seq<Effect>): (r: Option<real>)
    ensures r.Some? <==> exists i :: 0 <= i < |effects| && effects[i].SetBalance?
    ensures r.Some? && effects != [] && effects[|effects| - 1].SetBalance? ==> r.value == effects[|effects| - 1].value
  {
    if effects == [] then None
    else if effects[|effects| - 1].SetBalance? then Some(effects[|effects| - 1].value)
    else
      var r := LastBalance(effects[..|effects| - 1]);
      assert forall i :: 0 <= i < |effects| - 1 ==> effects[..|effects| - 1][i] == effects[i];
      r
  }

  /**
   * `fetchAvailableBalance(setAvailableBalance, setIsLoading)` with the
   * signed-in user, the procedure's answer, the coins table the fallback
   * query filters and whether that query returned no data.
   */
  function FetchAvailableBalance(user: Option<UserId>, rpc: RpcResult, table: seq<Coin>, fallbackNull: bool): (effects: seq<Effect>)
    // Loading is switched off exactly once, as the last call, on every path.
    ensures |effects| >= 1 && effects[|effects| - 1] == SetLoading(false)
    ensures forall i :: 0 <= i < |effects| - 1 ==> effects[i].SetBalance?
    ensures |effects| <= 2
    // Without a user nothing else happens.
    ensures user.None? ==> effects == [SetLoading(false)]
    ensures user.Some? && rpc.RpcData? && rpc.data.Some? ==> LastBalance(effects) == Some(rpc.data.value)
    ensures user.Some? && rpc.RpcData? && rpc.data.None? ==> LastBalance(effects) == None
    ensures user.Some? && rpc.RpcError? && !fallbackNull ==>
      LastBalance(effects) == Some(Balance(table, user.value, AvailableStatus))
    ensures rpc.RpcError? && fallbackNull ==> LastBalance(effects) == None
  {
    if user.None? then [SetLoading(false)]
    else
      var setter :=
        match rpc
        case RpcError =>
          if fallbackNull then [] else [SetBalance(Sum(Select(table, user.value, AvailableStatus)))]
        case RpcData(data) =>
          if data.Some? then [SetBalance(data.value)] else [];
      setter + [SetLoading(false)]
  }

  /** The balance is set at most once, and never to anything but the procedure's value or the available sum. */
  lemma BalanceSources(user: Option<UserId>, rpc: RpcResult, table: seq<Coin>, fallbackNull: bool)
    ensures var b := LastBalance(FetchAvailableBalance(user, rpc, table, fallbackNull));
      b.Some? ==>
        && user.Some?
        && ((rpc.RpcData? && rpc.data == b) || (rpc.RpcError? && b.value == Balance(table, user.value, AvailableStatus)))
  {
  }
}
