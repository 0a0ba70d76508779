/**
 * The referral dashboard's arithmetic: commission totals summed over the
 * user's referrals and downline transactions with missing values counted as
 * 0, the per-row total of each referral, the lookup of the referred user's
 * name and email, and the shareable sign-up link.
 */
module Referrals {
  import opened Common

  /** A `referrals` row; the two commission columns may be null. */
  datatype Referral = Referral(
    id: string,
    referredId: UserId,
    referralCode: string,
    totalTradingCommission: Option<real>,
    totalClaimCommission: Option<real>,
    createdAt: string)

  /** A profile as the page loads it for the referred users; username and email may be null. */
  datatype ReferredUser = ReferredUser(id: UserId, username: Option<string>, email: Option<string>)

  /** A row of the downline-transactions procedure; only its commission is read. */
  datatype DownlineTx = DownlineTx(commissionEarned: Option<real>)

  /** `r.total_trading_commission || 0`. */
  function TradingOf(r: Referral): real {
    OrZero(r.totalTradingCommission)
  }

  /** `r.total_claim_commission || 0`. */
  function ClaimOf(r: Referral): real {
    OrZero(r.totalClaimCommission)
  }

  /** `referrals.reduce((sum, r) => sum + (r.total_trading_commission || 0), 0)`. */
  function TotalTrading(rs: seq<Referral>): real {
    if rs == [] then 0.0 else TotalTrading(rs[..|rs| - 1]) + TradingOf(rs[|rs| - 1])
  }

  /** `referrals.reduce((sum, r) => sum + (r.total_claim_commission || 0), 0)`. */
  function TotalClaim(rs: seq<Referral>): real {
    if rs == [] then 0.0 else TotalClaim(rs[..|rs| - 1]) + ClaimOf(rs[|rs| - 1])
  }

  function TotalCommission(rs: seq<Referral>): real {
    TotalTrading(rs) + TotalClaim(rs)
  }

  /** `downlineTransactions.reduce((sum, t) => sum + (t.commission_earned || 0), 0)`. */
  function TransactionCommission(txs: seq<DownlineTx>): real {
    if txs == [] then 0.0 else TransactionCommission(txs[..|txs| - 1]) + OrZero(txs[|txs| - 1].commissionEarned)
  }

  /** The "Total Earned" card. */
  function TotalEarned(rs: seq<Referral>, txs: seq<DownlineTx>): real {
    TotalCommission(rs) + TransactionCommission(txs)
  }

  /** The "Total" column of one referral's row. */
  function RowTotal(r: Referral): real {
    TradingOf(r) + ClaimOf(r)
  }

  /** The "Total" column summed down the table. */
  function SumRowTotals(rs: seq<Referral>): real {
    if rs == [] then 0.0 else SumRowTotals(rs[..|rs| - 1]) + RowTotal(rs[|rs| - 1])
  }

  /** The row totals add up to the combined total of the two cards. */
  lemma {:induction false} RowTotalsMatchCards(rs: seq<Referral>)
    ensures SumRowTotals(rs) == TotalCommission(rs)
    ensures TotalEarned(rs, []) == SumRowTotals(rs)
    decreases |rs|
  {
    if rs != [] {
      RowTotalsMatchCards(rs[..|rs| - 1]);
    }
  }

  /** The totals split over any split of the referral list. */
  lemma {:induction false} TotalsAppend(a: seq<Referral>, b: seq<Referral>)
    ensures TotalTrading(a + b) == TotalTrading(a) + TotalTrading(b)
    ensures TotalClaim(a + b) == TotalClaim(a) + TotalClaim(b)
    ensures TotalCommission(a + b) == TotalCommission(a) + TotalCommission(b)
    decreases |b|
  {
    if b == [] {
      assert a + b == a;
    } else {
      var b' := b[..|b| - 1];
      assert (a + b)[..|a + b| - 1] == a + b';
      assert (a + b)[|a + b| - 1] == b[|b| - 1];
      TotalsAppend(a, b');
    }
  }

  /** A referral whose commissions are both missing adds nothing to any total. */
  lemma MissingCommissionsAddNothing(rs: seq<Referral>, r: Referral)
    requires r.totalTradingCommission.None? && r.totalClaimCommission.None?
    ensures TotalCommission(rs + [r]) == TotalCommission(rs)
    ensures RowTotal(r) == 0.0
  {
    TotalsAppend(rs, [r]);
    assert [r][..0] == [];
  }

  /** With no negative commission stored, every total and row total is non-negative. */
  lemma {:induction false} TotalsNonNegative(rs: seq<Referral>, txs: seq<DownlineTx>)
    requires forall r :: r in rs ==> TradingOf(r) >= 0.0 && ClaimOf(r) >= 0.0
    requires forall t :: t in txs ==> OrZero(t.commissionEarned) >= 0.0
    ensures TotalTrading(rs) >= 0.0 && TotalClaim(rs) >= 0.0
    ensures TransactionCommission(txs) >= 0.0
    ensures TotalEarned(rs, txs) >= TotalCommission(rs) >= 0.0
    decreases |rs| + |txs|
  {
    if rs != [] {
      assert rs[|rs| - 1] in rs;
      TotalsNonNegative(rs[..|rs| - 1], txs);
    } else if txs != [] {
      assert txs[|txs| - 1] in txs;
      TotalsNonNegative(rs, txs[..|txs| - 1]);
    }
  }

  /** `referredUsers.find((u) => u.id === referredId)`: the first profile with that id. */
  function FindUser(users: seq<ReferredUser>, referredId: UserId): (r: Option<ReferredUser>)
    ensures r.None? <==> forall u :: u in users ==> u.id != referredId
    ensures r.Some? ==>
      exists i :: 0 <= i < |users| && users[i] == r.value && r.value.id == referredId &&
        forall j :: 0 <= j < i ==> users[j].id != referredId
  {
    if users == [] then None
    else if users[0].id == referredId then Some(users[0])
    else
      var r := FindUser(users[1..], referredId);
      assert forall u :: u in users[1..] ==> u in users;
      assert forall j :: 1 <= j < |users| ==> users[j] == users[1..][j - 1];
      r
  }

  /** `value || fallback` for a nullable string: null and "" give the fallback. */
  function OrText(value: Option<string>, fallback: string): (r: string)
    ensures value.Some? && value.value != "" ==> r == value.value
    ensures value.None? || value.value == "" ==> r == fallback
  {
    if value.Some? && value.value != "" then value.value else fallback
  }

  /** `referredUser?.username || "Unknown"`. */
  function DisplayName(found: Option<ReferredUser>): string {
    OrText(if found.Some? then found.value.username else None, "Unknown")
  }

  /** `referredUser?.email || "-"`. */
  function DisplayEmail(found: Option<ReferredUser>): string {
    OrText(if found.Some? then found.value.email else None, "-")
  }

  /** The name and email shown for a referral: those of the first profile with its id, "Unknown" and "-" otherwise. */
  lemma ShownReferredUser(users: seq<ReferredUser>, r: Referral)
    ensures (forall u :: u in users ==> u.id != r.referredId) ==>
      DisplayName(FindUser(users, r.referredId)) == "Unknown" && DisplayEmail(FindUser(users, r.referredId)) == "-"
    ensures forall i :: 0 <= i < |users| && users[i].id == r.referredId && (forall j :: 0 <= j < i ==> users[j].id != r.referredId) ==>
      && (users[i].username.Some? && users[i].username.value != "" ==> DisplayName(FindUser(users, r.referredId)) == users[i].username.value)
      && (users[i].email.Some? && users[i].email.value != "" ==> DisplayEmail(FindUser(users, r.referredId)) == users[i].email.value)
  {
    var found := FindUser(users, r.referredId);
    if found.Some? {
      var k :| 0 <= k < |users| && users[k] == found.value && found.value.id == r.referredId &&
        forall j :: 0 <= j < k ==> users[j].id != r.referredId;
      forall i | 0 <= i < |users| && users[i].id == r.referredId && (forall j :: 0 <= j < i ==> users[j].id != r.referredId)
        ensures i == k
      {
      }
    } else {
      forall i | 0 <= i < |users|
        ensures users[i].id != r.referredId
      {
        assert users[i] in users;
      }
    }
  }

  /** What a template literal prints for `profile?.referral_code`. */
  datatype CodeValue = Undefined | Null | Code(text: string)

  function CodeText(c: CodeValue): string {
    match c
    case Undefined => "undefined"
    case Null => "null"
    case Code(t) => t
  }

  const SignUpPath: string := "/auth/sign-up?ref="

  /** The referral link; `origin` is `None` where there is no `window` and prints as "". */
  function ReferralLink(origin: Option<string>, code: CodeValue): string {
    OrText(origin, "") + SignUpPath + CodeText(code)
  }

  /** The link is the origin, then the sign-up path, then the printed code, so both parts can be read back. */
  lemma ReferralLinkParts(origin: string, code: CodeValue)
    ensures var link := ReferralLink(Some(origin), code);
      && |link| == |origin| + |SignUpPath| + |CodeText(code)|
      && link[..|origin|] == origin
      && link[|origin|..|origin| + |SignUpPath|] == SignUpPath
      && link[|origin| + |SignUpPath|..] == CodeText(code)
  {
    var t := CodeText(code);
    var head := OrText(Some(origin), "");
    assert head == origin;
    var link := head + SignUpPath + t;
    assert link == origin + (SignUpPath + t);
  }

  /** Without a window the link is relative; a missing profile prints its code as "undefined". */
  lemma ReferralLinkExamples()
    ensures ReferralLink(None, Code("abc")) == "/auth/sign-up?ref=abc"
    ensures ReferralLink(Some("https://x.io"), Undefined) == "https://x.io/auth/sign-up?ref=undefined"
  {
    assert OrText(Some("https://x.io"), "") == "https://x.io";
    assert CodeText(Undefined) == "undefined";
  }
}
