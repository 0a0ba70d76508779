/**
 * Rows of the `coins` table and the balance formula that every balance reader
 * applies to them: select the rows of one user with one status, then
 * `reduce((sum, coin) => sum + amount, 0)` over them.
 */
module Coins {
  import opened Common

  /** One row of the `coins` table. `amount` is a nullable numeric column. */
  datatype Coin = Coin(userId: UserId, amount: Option<real>, claimType: string, status: string, createdAt: int)

  const AvailableStatus: string := "available"

  /** What one row adds to a sum: `Number(null)` and `null || 0` are both 0. */
  function AmountOf(c: Coin): real {
    OrZero(c.amount)
  }

  predicate Matches(c: Coin, user: UserId, status: string) {
    c.userId == user && c.status == status
  }

  /** `.eq("user_id", user).eq("status", status)`: the matching rows, in table order. */
  function Select(table: seq<Coin>, user: UserId, status: string): (rows: seq<Coin>)
    ensures |rows| <= |table|
    ensures forall c :: c in rows ==> c in table && Matches(c, user, status)
    ensures forall c :: c in table && Matches(c, user, status) ==> c in rows
  {
    if table == [] then []
    else
      var last := table[|table| - 1];
      Select(table[..|table| - 1], user, status) + (if Matches(last, user, status) then [last] else [])
  }

  /**
   * The selection keeps every matching row as often as the table holds it and
   * no other row: two identical coins are both selected and summed twice.
   */
  lemma {:induction false} SelectMultiplicity(table: seq<Coin>, user: UserId, status: string)
    ensures forall c :: multiset(Select(table, user, status))[c] == if Matches(c, user, status) then multiset(table)[c] else 0
    decreases |table|
  {
    if table != [] {
      var prefix, last := table[..|table| - 1], table[|table| - 1];
      assert table == prefix + [last];
      SelectMultiplicity(prefix, user, status);
      assert multiset(table) == multiset(prefix) + multiset{last};
    }
  }

  /** The left fold `rows.reduce((sum, c) => sum + AmountOf(c), 0)`. */
  function Sum(rows: seq<Coin>): real {
    if rows == [] then 0.0 else Sum(rows[..|rows| - 1]) + AmountOf(rows[|rows| - 1])
  }

  /** The balance of `user` over the rows with `status`. */
  function Balance(table: seq<Coin>, user: UserId, status: string): real {
    Sum(Select(table, user, status))
  }

  lemma {:induction false} SumAppend(a: seq<Coin>, b: seq<Coin>)
    ensures Sum(a + b) == Sum(a) + Sum(b)
    decreases |b|
  {
    if b == [] {
      assert a + b == a;
    } else {
      var b' := b[..|b| - 1];
      assert (a + b)[..|a + b| - 1] == a + b';
      assert (a + b)[|a + b| - 1] == b[|b| - 1];
      SumAppend(a, b');
    }
  }

  lemma {:induction false} SelectAppend(a: seq<Coin>, b: seq<Coin>, user: UserId, status: string)
    ensures Select(a + b, user, status) == Select(a, user, status) + Select(b, user, status)
    decreases |b|
  {
    if b == [] {
      assert a + b == a;
    } else {
      var b' := b[..|b| - 1];
      assert (a + b)[..|a + b| - 1] == a + b';
      assert (a + b)[|a + b| - 1] == b[|b| - 1];
      SelectAppend(a, b', user, status);
    }
  }

  /** The balance is additive over a split of the table. */
  lemma BalanceAppend(a: seq<Coin>, b: seq<Coin>, user: UserId, status: string)
    ensures Balance(a + b, user, status) == Balance(a, user, status) + Balance(b, user, status)
  {
    SelectAppend(a, b, user, status);
    SumAppend(Select(a, user, status), Select(b, user, status));
  }

  /** Inserting one row changes the balance by its amount if it matches, and not at all otherwise. */
  lemma BalanceAfterInsert(table: seq<Coin>, c: Coin, user: UserId, status: string)
    ensures Matches(c, user, status) ==> Balance(table + [c], user, status) == Balance(table, user, status) + AmountOf(c)
    ensures !Matches(c, user, status) ==> Balance(table + [c], user, status) == Balance(table, user, status)
  {
    BalanceAppend(table, [c], user, status);
    assert [c][..0] == [];
  }

  /** Deleting a row of another user or another status leaves the balance unchanged. */
  lemma BalanceAfterRemove(table: seq<Coin>, i: nat, user: UserId, status: string)
    requires i < |table|
    requires !Matches(table[i], user, status)
    ensures Balance(table[..i] + table[i + 1..], user, status) == Balance(table, user, status)
  {
    assert table == table[..i] + [table[i]] + table[i + 1..];
    BalanceAppend(table[..i] + [table[i]], table[i + 1..], user, status);
    BalanceAfterInsert(table[..i], table[i], user, status);
    BalanceAppend(table[..i], table[i + 1..], user, status);
  }

  /** With no matching row (an empty table in particular) the balance is the initial accumulator 0. */
  lemma {:induction false} BalanceWithoutMatches(table: seq<Coin>, user: UserId, status: string)
    requires forall c :: c in table ==> !Matches(c, user, status)
    ensures Select(table, user, status) == []
    ensures Balance(table, user, status) == 0.0
    decreases |table|
  {
    if table != [] {
      var prefix := table[..|table| - 1];
      assert forall c :: c in prefix ==> c in table;
      assert table[|table| - 1] in table;
      BalanceWithoutMatches(prefix, user, status);
    }
  }

  lemma {:induction false} SumNonNegative(rows: seq<Coin>)
    requires forall c :: c in rows ==> AmountOf(c) >= 0.0
    ensures Sum(rows) >= 0.0
    decreases |rows|
  {
    if rows != [] {
      SumNonNegative(rows[..|rows| - 1]);
      assert rows[|rows| - 1] in rows;
    }
  }

  /** If no row has a negative amount, no balance is negative. */
  lemma BalanceNonNegative(table: seq<Coin>, user: UserId, status: string)
    requires forall c :: c in table ==> AmountOf(c) >= 0.0
    ensures Balance(table, user, status) >= 0.0
  {
    SumNonNegative(Select(table, user, status));
  }
}
