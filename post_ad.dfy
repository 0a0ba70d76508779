/**
 * Submitting the "post an ad" form: the amount and price checks against a
 * reference price (±4%), the sign-in check, the list of accepted payment
 * methods, and the single write the handler then issues: the escrow call
 * for a sell ad or a row insert for a buy ad. Form fields are the numbers
 * `parseFloat` returns.
 */
module PostAd {
  import opened Common

  const MinPostAmount: real := 50.0
  /** Used until the price feed has answered, and kept when it fails. */
  const DefaultReferencePrice: real := 16.0

  datatype AdType = Buy | Sell

  datatype AdForm = AdForm(
    afxAmount: real,
    pricePerAfx: real,
    minAmount: real,
    maxAmount: real,
    accountNumber: string,
    termsOfTrade: string)

  datatype PaymentSelection = PaymentSelection(mpesa: bool, bankTransfer: bool, paybill: bool, airtelMoney: bool)

  /** The arguments of the `post_sell_ad_with_escrow` call. */
  datatype SellAdCall = SellAdCall(
    userId: UserId,
    afxAmount: real,
    pricePerAfx: real,
    minAmount: real,
    maxAmount: real,
    accountNumber: Option<string>,
    mpesaNumber: Option<string>,
    paybillNumber: Option<string>,
    airtelMoney: Option<string>,
    termsOfTrade: Option<string>)

  /** The `p2p_ads` row inserted for a buy ad. */
  datatype BuyAdRow = BuyAdRow(
    userId: UserId,
    adType: AdType,
    afxAmount: real,
    remainingAmount: real,
    pricePerAfx: real,
    minAmount: real,
    maxAmount: real,
    accountNumber: Option<string>,
    mpesaNumber: Option<string>,
    paybillNumber: Option<string>,
    airtelMoney: Option<string>,
    termsOfTrade: Option<string>)

  datatype Rejection = AmountBelowMinimum | PriceOutOfBand(minAllowed: real, maxAllowed: real) | NotSignedIn

  /** What one submission does: stop with a message, or issue exactly one write. */
  datatype Submission = Rejected(reason: Rejection) | PostSell(call: SellAdCall) | InsertBuy(row: BuyAdRow)

  /** The reference price: the feed's value when the read succeeded, otherwise the initial 16. */
  function ReferencePrice(feed: Option<real>): (p: real)
    ensures feed.Some? ==> p == feed.value
    ensures feed.None? ==> p == 16.0
  {
    feed.GetOr(DefaultReferencePrice)
  }

  /** `Number.parseFloat(x.toFixed(2))`: rounded to two decimals, halves upward. */
  function Round2(x: real): (r: real)
    ensures x - 0.005 < r <= x + 0.005
    // The result is a whole number of cents.
    ensures (r * 100.0).Floor as real == r * 100.0
  {
    (x * 100.0 + 0.5).Floor as real / 100.0
  }

  function MinAllowedPrice(reference: real): real {
    Round2(reference * 0.96)
  }

  function MaxAllowedPrice(reference: real): real {
    Round2(reference * 1.04)
  }

  /** The price test of the handler: neither below the lower nor above the upper bound. */
  predicate PriceInBand(price: real, reference: real) {
    !(price < MinAllowedPrice(reference) || price > MaxAllowedPrice(reference))
  }

  /** The band is inclusive at both ends, its ends are whole cents, and each lies within half a cent of ±4% of the reference. */
  lemma BandBounds(price: real, reference: real)
    ensures PriceInBand(price, reference) <==> MinAllowedPrice(reference) <= price <= MaxAllowedPrice(reference)
    ensures (MinAllowedPrice(reference) * 100.0).Floor as real == MinAllowedPrice(reference) * 100.0
    ensures (MaxAllowedPrice(reference) * 100.0).Floor as real == MaxAllowedPrice(reference) * 100.0
    ensures reference * 0.96 - 0.005 < MinAllowedPrice(reference) <= reference * 0.96 + 0.005
    ensures reference * 1.04 - 0.005 < MaxAllowedPrice(reference) <= reference * 1.04 + 0.005
  {
  }

  /** If the price feed cannot be read, the band is [15.36, 16.64]: 15.0 and 17.0 are refused, 15.36 and 16.64 accepted. */
  lemma DefaultBand()
    ensures MinAllowedPrice(ReferencePrice(None)) == 15.36
    ensures MaxAllowedPrice(ReferencePrice(None)) == 16.64
    ensures !PriceInBand(15.0, ReferencePrice(None)) && !PriceInBand(17.0, ReferencePrice(None))
    ensures PriceInBand(15.36, ReferencePrice(None)) && PriceInBand(16.64, ReferencePrice(None))
  {
    assert (16.0 * 0.96 * 100.0 + 0.5).Floor == 1536;
    assert (16.0 * 1.04 * 100.0 + 0.5).Floor == 1664;
  }

  /** The checkbox labels, in the order the handler tests them. */
  const MethodOrder: seq<string> := ["M-Pesa", "Bank Transfer", "M-Pesa Paybill", "Airtel Money"]

  function Flags(sel: PaymentSelection): seq<bool> {
    [sel.mpesa, sel.bankTransfer, sel.paybill, sel.airtelMoney]
  }

  /** The entries of `names` whose flag is set, in their original order. */
  function Keep(names: seq<string>, flags: seq<bool>): (r: seq<string>)
    requires |names| == |flags|
    ensures |r| <= |names|
    ensures forall x :: x in r ==> x in names
    decreases |names|
  {
    if names == [] then [] else (if flags[0] then [names[0]] else []) + Keep(names[1..], flags[1..])
  }

  /** The names of the selected methods, in the fixed order. */
  function SelectedMethods(sel: PaymentSelection): seq<string> {
    Keep(MethodOrder, Flags(sel))
  }

  /** Filtering keeps an entry exactly when its flag is set, provided the entries are distinct. */
  lemma {:induction false} KeepMember(names: seq<string>, flags: seq<bool>, k: nat)
    requires |names| == |flags| && k < |names|
    requires forall i, j :: 0 <= i < j < |names| ==> names[i] != names[j]
    ensures names[k] in Keep(names, flags) <==> flags[k]
    decreases |names|
  {
    if k == 0 {
      assert names[0] !in names[1..];
    } else {
      KeepMember(names[1..], flags[1..], k - 1);
      assert names[k] == names[1..][k - 1];
    }
  }

  /** Filtering a list whose ranks increase gives a list whose ranks increase. */
  lemma {:induction false} KeepOrdered(names: seq<string>, flags: seq<bool>)
    requires |names| == |flags|
    requires forall i, j :: 0 <= i < j < |names| ==> Rank(names[i]) < Rank(names[j])
    ensures forall i, j :: 0 <= i < j < |Keep(names, flags)| ==> Rank(Keep(names, flags)[i]) < Rank(Keep(names, flags)[j])
    decreases |names|
  {
    if names != [] {
      var tail := Keep(names[1..], flags[1..]);
      KeepOrdered(names[1..], flags[1..]);
      forall x | x in tail ensures Rank(names[0]) < Rank(x) {
        var j :| 0 <= j < |names[1..]| && names[1..][j] == x;
        assert names[j + 1] == x;
      }
    }
  }

  /** A name is listed exactly when its box is ticked, and the list keeps the fixed order. */
  lemma SelectedMethodsSpec(sel: PaymentSelection)
    ensures forall k :: 0 <= k < 4 ==> (MethodOrder[k] in SelectedMethods(sel) <==> Flags(sel)[k])
    ensures forall i, j :: 0 <= i < j < |SelectedMethods(sel)| ==>
      Rank(SelectedMethods(sel)[i]) < Rank(SelectedMethods(sel)[j])
    ensures SelectedMethods(sel) == [] <==> !sel.mpesa && !sel.bankTransfer && !sel.paybill && !sel.airtelMoney
  {
    assert |MethodOrder[0]| == 6 && |MethodOrder[1]| == 13 && |MethodOrder[2]| == 14 && |MethodOrder[3]| == 12;
    assert Rank(MethodOrder[0]) == 0 && Rank(MethodOrder[1]) == 1;
    assert Rank(MethodOrder[2]) == 2 && Rank(MethodOrder[3]) == 3;
    forall k | 0 <= k < 4 ensures MethodOrder[k] in SelectedMethods(sel) <==> Flags(sel)[k] {
      KeepMember(MethodOrder, Flags(sel), k);
    }
    KeepOrdered(MethodOrder, Flags(sel));
    if SelectedMethods(sel) == [] {
      forall k | 0 <= k < 4 ensures !Flags(sel)[k] {
        KeepMember(MethodOrder, Flags(sel), k);
      }
    }
  }

  /** The position of a name in the fixed order (4 for any other string). */
  function Rank(name: string): nat {
    if name == MethodOrder[0] then 0
    else if name == MethodOrder[1] then 1
    else if name == MethodOrder[2] then 2
    else if name == MethodOrder[3] then 3
    else 4
  }

  /** The successive `push` calls that build `selectedPaymentMethods`. */
  method CollectPaymentMethods(sel: PaymentSelection) returns (names: seq<string>)
    ensures names == SelectedMethods(sel)
  {
    names := [];
    if sel.mpesa { names := names + ["M-Pesa"]; }
    if sel.bankTransfer { names := names + ["Bank Transfer"]; }
    if sel.paybill { names := names + ["M-Pesa Paybill"]; }
    if sel.airtelMoney { names := names + ["Airtel Money"]; }
  }

  /** `Array.prototype.join(sep)`. */
  function Join(xs: seq<string>, sep: string): string
    decreases |xs|
  {
    if xs == [] then "" else if |xs| == 1 then xs[0] else xs[0] + sep + Join(xs[1..], sep)
  }

  /** Joining non-empty names gives the empty string only for no names. */
  lemma JoinEmpty(xs: seq<string>, sep: string)
    requires forall x :: x in xs ==> x != ""
    ensures Join(xs, sep) == "" <==> xs == []
  {
    if xs != [] {
      assert xs[0] in xs;
      assert |Join(xs, sep)| >= |xs[0]|;
    }
  }

  /** The accepted-methods column of a buy ad: `null` exactly when no box is ticked. */
  lemma PaymentColumnNull(sel: PaymentSelection)
    ensures OrNull(Join(SelectedMethods(sel), ", ")).None? <==>
      !sel.mpesa && !sel.bankTransfer && !sel.paybill && !sel.airtelMoney
  {
    SelectedMethodsSpec(sel);
    JoinEmpty(SelectedMethods(sel), ", ");
  }

  /** The checks that decide whether anything is written; none of them looks at `minAmount` or `maxAmount`. */
  predicate Accepted(form: AdForm, reference: real, user: Option<UserId>) {
    form.afxAmount >= MinPostAmount && PriceInBand(form.pricePerAfx, reference) && user.Some?
  }

  /**
   * `handleSubmit` with the ad type, the form, the ticked methods, the
   * reference price and the signed-in user.
   */
  method HandleSubmit(adType: AdType, form: AdForm, sel: PaymentSelection, reference: real, user: Option<UserId>)
    returns (s: Submission)
    // The checks, in order: amount first (exactly 50 passes), then the price band, then sign-in.
    ensures form.afxAmount < 50.0 ==> s == Rejected(AmountBelowMinimum)
    ensures form.afxAmount >= 50.0 && !PriceInBand(form.pricePerAfx, reference) ==>
      s == Rejected(PriceOutOfBand(MinAllowedPrice(reference), MaxAllowedPrice(reference)))
    ensures form.afxAmount >= 50.0 && PriceInBand(form.pricePerAfx, reference) && user.None? ==>
      s == Rejected(NotSignedIn)
    // A write is issued exactly when every check passes, whatever minAmount and maxAmount are.
    ensures !s.Rejected? <==> Accepted(form, reference, user)
    ensures s.PostSell? <==> adType == Sell && Accepted(form, reference, user)
    ensures s.InsertBuy? <==> adType == Buy && Accepted(form, reference, user)
    // The sell ad goes to the escrow call with the parsed numbers and the account-number field.
    ensures s.PostSell? ==>
      s.call == SellAdCall(user.value, form.afxAmount, form.pricePerAfx, form.minAmount, form.maxAmount,
                           OrNull(form.accountNumber), None, None, None, OrNull(form.termsOfTrade))
    // The buy ad starts with its whole amount remaining and records the ticked methods.
    ensures s.InsertBuy? ==>
      && s.row.adType == Buy && s.row.userId == user.value
      && s.row.afxAmount == form.afxAmount && s.row.remainingAmount == form.afxAmount
      && s.row.pricePerAfx == form.pricePerAfx
      && s.row.minAmount == form.minAmount && s.row.maxAmount == form.maxAmount
      && s.row.accountNumber == OrNull(Join(SelectedMethods(sel), ", "))
      && s.row.mpesaNumber == None && s.row.paybillNumber == None && s.row.airtelMoney == None
      && s.row.termsOfTrade == OrNull(form.termsOfTrade)
  {
    if form.afxAmount < MinPostAmount {
      return Rejected(AmountBelowMinimum);
    }
    var minAllowed := MinAllowedPrice(reference);
    var maxAllowed := MaxAllowedPrice(reference);
    if form.pricePerAfx < minAllowed || form.pricePerAfx > maxAllowed {
      return Rejected(PriceOutOfBand(minAllowed, maxAllowed));
    }
    if user.None? {
      return Rejected(NotSignedIn);
    }
    var names := CollectPaymentMethods(sel);
    var paymentMethodsString := Join(names, ", ");
    if adType == Sell {
      s := PostSell(SellAdCall(user.value, form.afxAmount, form.pricePerAfx, form.minAmount, form.maxAmount,
                               OrNull(form.accountNumber), None, None, None, OrNull(form.termsOfTrade)));
    } else {
      s := InsertBuy(BuyAdRow(user.value, Buy, form.afxAmount, form.afxAmount, form.pricePerAfx,
                              form.minAmount, form.maxAmount, OrNull(paymentMethodsString),
                              None, None, None, OrNull(form.termsOfTrade)));
    }
  }
}
