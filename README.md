# Dale: a model of the balance ledger's read and claim paths

Dale is a peer-to-peer app for a virtual coin (AFX). Users earn coins by
"mining", a reward of 0.73 AFX they can claim once every three hours. They
hold the coins as rows of a `coins` table. They see their balance on several
pages, and they post buy and sell ads priced within ±4% of a reference
price. This project models the parts of the app that touch those coins and
proves properties of them:

- the server's claim and status actions;
- the client hook that mirrors the claim cooldown, and the countdown ring that shows it;
- the three readers of the available balance;
- the ad-posting handler and the payment-details form;
- the referral dashboard's commission totals.

There is one Dafny module per source file, plus two shared ones:

- `Common`: an `Option` type and the `|| 0` idiom.
- `Coins`: the coin row, plus the "select one user's rows of one status, then
  sum" formula that every balance reader applies. Its append, insert,
  remove, empty and non-negativity lemmas are proved once here.

How the source's form is kept:

- State the source updates in place is a class with `modifies` clauses: the
  store the claim writes (`Mining.MiningStore`), the hook's React state
  (`UseMining.MiningHook`) and the form's state (`PaymentMethodForm.FormState`).
- Computations built from expressions are functions.
- Store calls, the clock, the signed-in user and thrown exceptions are
  parameters. Each store write the claim makes can fail on its own, as in
  the source.
- A callback-only reader returns the sequence of setter calls it makes.

Three facts about the code that the model states as written:

- `claimMining`'s three writes (profile update, coin insert, transaction
  log) are separate store calls with no transaction and no undo
  (lib/actions/mining.ts:50-80). `Mining.MiningStore.ClaimMining` states
  each partial outcome: cooldown consumed, no coin; coin inserted, "unexpected
  error" reported.
- The ad handler checks only the amount, the price band and sign-in
  (app/p2p/post-ad/page.tsx:63-84). It compares neither `min_amount` with 2
  nor `min_amount` with `max_amount`, and `PostAd.HandleSubmit` states that a
  write happens whatever those two numbers are.
- A sell ad's escrow is one stored procedure call,
  `post_sell_ad_with_escrow` (app/p2p/post-ad/page.tsx:94-106). The model
  shows that the call is made and with which arguments; the procedure's body
  is not part of this model.

Numbers are Dafny `real`s and instants are integer milliseconds. JavaScript's
truncating `%` is written out as `Countdown.JsRem`.

## Model

| member | source | states |
|---|---|---|
| Coins.Select | components/balance-panel.tsx:20-24 | no more rows than the table; every selected row is a table row of that user with that status, and every such table row is selected |
| Coins.SelectMultiplicity | components/balance-panel.tsx:20-26 | each matching row is selected as often as the table holds it, and no other row at all, so identical coins are summed once each |
| Coins.SumAppend | components/balance-panel.tsx:26 | the reduce-sum of a concatenation is the sum of the parts |
| Coins.SelectAppend | components/balance-panel.tsx:20-24 | filtering commutes with concatenation |
| Coins.BalanceAppend | components/balance-panel.tsx:20-27 | the balance of a split table is the sum of the two balances |
| Coins.BalanceAfterInsert | components/balance-panel.tsx:24-26 | inserting a matching row adds its amount (null counted as 0); inserting any other row changes nothing |
| Coins.BalanceAfterRemove | components/balance-panel.tsx:24-26 | deleting a row of another user or status leaves the balance unchanged |
| Coins.BalanceWithoutMatches | components/balance-panel.tsx:26 | with no matching row the query is empty and the balance is the initial 0 |
| Coins.SumNonNegative | components/balance-panel.tsx:26 | non-negative amounts give a non-negative sum |
| Coins.BalanceNonNegative | components/balance-panel.tsx:20-27 | non-negative amounts give a non-negative balance, for any user and status |
| Mining.Rescheduled | lib/actions/mining.ts:48-58 | the update sets last_mine and updated_at to now and next_mine to now plus 3 hours |
| Mining.MiningCoin | lib/actions/mining.ts:66-73 | the inserted row belongs to the user, has amount 0.73, type "mining", status "available", created now |
| Mining.DeriveStatus | lib/actions/mining.ts:124-133 | canMine holds iff next_mine is missing or reached; the time remaining is 0 then, and otherwise positive and exactly the wait until next_mine |
| Mining.StatusAgreesWithClaim | lib/actions/mining.ts:37-39 | the status reports canMine exactly when a claim would pass the cooldown check, and while cooling down it reports the exact wait |
| Mining.CooldownAfterClaim | lib/actions/mining.ts:39-48 | after a claim at now, every instant before now plus 3 hours is refused and reported as not minable |
| Mining.MiningStore.ClaimMining | lib/actions/mining.ts:9-98 | error for no user and for a failed profile read, with no write; "not available yet", carrying the stored next_mine, iff next_mine is set and now is earlier; a failed update writes nothing; after a successful update the cooldown is consumed even if the coin insert fails; a success is reported only with exactly one new 0.73 available coin; a throwing transaction log reports the unexpected error although the coin stays; the log entry is written only when the log call succeeds |
| Mining.MiningStore.GetMiningStatus | lib/actions/mining.ts:100-134 | fails without a user or profile; otherwise the status derived from the stored profile: canMine iff not cooling down, with time remaining 0 or the exact positive wait |
| Mining.MiningStore.ClaimTwice | lib/actions/mining.ts:36-63 | once a first claim has written its profile update, a second claim by the same user within 3 hours never succeeds; if its profile read succeeds, it is refused as not available yet. At most one coin row is added in all |
| UseMining.CountdownMatchesServerInterval | lib/hooks/use-mining.ts:57 | the hook's hard-coded restart of the countdown equals the server's 3-hour interval |
| UseMining.MiningHook.constructor | lib/hooks/use-mining.ts:7-11 | the initial state: cannot mine, 0 remaining, no next instant, not claiming, loading |
| UseMining.MiningHook.FetchMiningStatus | lib/hooks/use-mining.ts:13-21 | a successful status overwrites canMine, nextMine and timeRemaining; a failed one keeps them; loading ends on both paths; a rejected call changes nothing, so loading stays set |
| UseMining.MiningHook.Tick | lib/hooks/use-mining.ts:31-45 | the timer runs only while not minable with time left; a tick subtracts 1000 ms, or, at 1000 ms or less, sets 0 and enables mining; the countdown never increases and never goes negative |
| UseMining.MiningHook.BeginClaim | lib/hooks/use-mining.ts:47-50 | the server call starts iff mining is possible and no claim is in flight, and then isClaiming is set |
| UseMining.MiningHook.CompleteClaim | lib/hooks/use-mining.ts:51-64 | a success disables mining, stores the new next instant and restarts the countdown at 3 hours; a failure keeps the state; isClaiming is cleared after either answer, and a rejected call changes nothing, so isClaiming stays set |
| UseMining.MiningHook.HandleClaim | lib/hooks/use-mining.ts:47-66 | a no-op returning nothing unless claimable and idle; otherwise it passes on the server's answer or rejection, applied as the two steps above; after a rejection the claim stays in flight |
| UseMining.MiningHook.ClaimAfterRejection | lib/hooks/use-mining.ts:47-51 | once a claim's server call has rejected, a further claim returns early without calling the server |
| Countdown.JsRem | components/circular-mining-countdown.tsx:28-29 | JavaScript's `%`: the Euclidean remainder for a non-negative dividend; for a negative one the value a − b·trunc(a/b), in (−b, 0] |
| Countdown.PadStart | components/circular-mining-countdown.tsx:31 | the result has length max(width, original), ends with the original and is filled before it |
| Countdown.DefaultTotalIsClaimInterval | components/circular-mining-countdown.tsx:14 | the default total equals the server's claim interval, so the ring is full when the hook restarts the countdown after a claim |
| Countdown.ClockFields | components/circular-mining-countdown.tsx:26-29 | for ms >= 0, minutes and seconds are below 60 and hours·3600 + minutes·60 + seconds is the whole seconds in ms |
| Countdown.FormatLength | components/circular-mining-countdown.tsx:31 | every printed field has at least two characters, so the text has at least 8 |
| Countdown.FormatTimeRoundTrip | components/circular-mining-countdown.tsx:25-32 | below 100 hours the text is exactly `HH:MM:SS`, and parsing it back yields the hours, minutes and seconds |
| Countdown.NegativeInputExample | components/circular-mining-countdown.tsx:26-31 | a negative input such as -500 ms prints as `-1:-1:-1` |
| Countdown.Percentage | components/circular-mining-countdown.tsx:20-23 | the fill lies in [0, 100]; it is 100 at or above the total, 0 at or below 0, and proportional in between |
| Countdown.PercentageMonotone | components/circular-mining-countdown.tsx:21 | more time remaining never shows a smaller fill |
| PostAd.ReferencePrice | app/p2p/post-ad/page.tsx:22-51 | the reference price is the feed's price when it was read, and otherwise the initial 16 |
| PostAd.Round2 | app/p2p/post-ad/page.tsx:53-54 | the result is a whole number of cents, and rounding moves the value by at most half a cent |
| PostAd.BandBounds | app/p2p/post-ad/page.tsx:53-70 | the accepted price band is inclusive, its ends are whole cents, and each is within half a cent of ±4% of the reference |
| PostAd.DefaultBand | app/p2p/post-ad/page.tsx:22-54 | at the default reference price the band is [15.36, 16.64] |
| PostAd.SelectedMethodsSpec | app/p2p/post-ad/page.tsx:86-90 | a method name is listed iff its box is ticked, the list keeps the fixed order, and it is empty iff no box is ticked |
| PostAd.CollectPaymentMethods | app/p2p/post-ad/page.tsx:86-90 | the successive pushes build exactly the selected-method list |
| PostAd.PaymentColumnNull | app/p2p/post-ad/page.tsx:127 | the buy ad's methods column is null exactly when no method is ticked |
| PostAd.HandleSubmit | app/p2p/post-ad/page.tsx:56-134 | checks amount (50 passes), then the price band, then sign-in, in that order; a write is issued iff all three pass, whatever min and max are; a sell ad calls the escrow procedure with the form's amounts, the account number or null, and null for the three phone fields; a buy ad inserts a row whose remaining amount equals its amount and whose account column holds the ticked methods or null |
| PaymentMethodForm.PhoneNumberShape | components/payment-method-form.tsx:32-35 | a phone number is accepted iff, with whitespace removed, it is `07` or `+2547` followed by exactly eight digits |
| PaymentMethodForm.FormatIgnoresWhitespace | components/payment-method-form.tsx:32-39 | inserting a whitespace character anywhere changes neither the phone nor the account verdict |
| PaymentMethodForm.BlankMeansWhitespace | components/payment-method-form.tsx:45-46 | a field counts as missing iff it is absent or consists only of whitespace |
| PaymentMethodForm.ErrorsBelongToMethod | components/payment-method-form.tsx:41-78 | only fields of the chosen method get errors, and a blank required field always gets its required message |
| PaymentMethodForm.FormValidIff | components/payment-method-form.tsx:41-81 | the error map is empty iff every field the method requires is present and well formed, method by method |
| PaymentMethodForm.PaybillHasNoFormat | components/payment-method-form.tsx:54 | a present paybill number is never rejected for its format |
| PaymentMethodForm.PersonalErrors | components/payment-method-form.tsx:44-51 | the personal M-Pesa branch yields the rule-table error map |
| PaymentMethodForm.PaybillErrors | components/payment-method-form.tsx:53-60 | the paybill branch yields the rule-table error map |
| PaymentMethodForm.BankErrors | components/payment-method-form.tsx:62-69 | the bank-transfer branch yields the rule-table error map |
| PaymentMethodForm.AirtelErrors | components/payment-method-form.tsx:71-77 | the Airtel Money branch yields the rule-table error map |
| PaymentMethodForm.FormState.constructor | components/payment-method-form.tsx:28-30 | the form starts on personal M-Pesa with no details and no errors |
| PaymentMethodForm.FormState.SetDetail | components/payment-method-form.tsx:150-269 | typing into a field replaces that field only |
| PaymentMethodForm.FormState.ValidateForm | components/payment-method-form.tsx:41-81 | stores the error map of the current method and details, and reports valid iff it is empty |
| PaymentMethodForm.FormState.HandleMethodChange | components/payment-method-form.tsx:83-87 | switching method clears details and errors |
| PaymentMethodForm.FormState.HandleSubmit | components/payment-method-form.tsx:89-103 | nothing is sent unless the form is complete, and the errors are then shown; otherwise the method and details are sent; on success the form is cleared and closed, and on an exception the details are kept |
| BalancePanel.NumberOrZero | components/balance-panel.tsx:37-38 | a numeric profile value is kept; a missing or non-numeric value shows as 0 |
| BalancePanel.LoadUserData | components/balance-panel.tsx:8-40 | without a user the initial zeros stay; a null coins answer leaves the balance 0; without a profile the rating and trades stay 0 |
| BalancePanel.PanelShowsAvailableBalance | components/balance-panel.tsx:19-27 | the shown balance is the sum over exactly the user's rows whose status is "available" |
| BalancePanel.PanelStatsDefault | components/balance-panel.tsx:36-39 | rating and trade count are the profile's numbers, 0 when missing or non-numeric |
| BalancePanel.PanelIgnoresOtherRows | components/balance-panel.tsx:24 | adding or removing a row that is not the user's available row leaves the panel unchanged |
| BalancePanel.PanelEmpty | components/balance-panel.tsx:8-26 | without an available row of the user the balance is 0 |
| BalancePanel.PanelNonNegative | components/balance-panel.tsx:26 | with no negative amount stored the balance is never negative |
| BalancePanel.PanelAfterMining | components/balance-panel.tsx:26 | one successful claim raises the balance by exactly 0.73 |
| AvailableBalance.FetchAvailableBalance | lib/supabase/utils.ts:7-42 | without a user only loading is cleared; the procedure's value is set when it is non-null; an error falls back to the sum of available rows; a null answer or a null fallback sets nothing; loading is cleared last, exactly once |
| AvailableBalance.BalanceSources | lib/supabase/utils.ts:22-39 | a balance is set only for a signed-in user, and only to the procedure's value or the available sum |
| UseBalance.FetchBalanceWith | lib/hooks/use-balance.ts:15-51 | a non-null answer is stored, null stores 0, an error stores the fallback sum, any exception stores 0, a null fallback stores nothing; loading is cleared last on every path, twice when there is no user |
| UseBalance.NullBecomesZero | lib/hooks/use-balance.ts:36-44 | a null answer and a zero fallback sum both store 0 |
| UseBalance.MinedCoinInvisibleToFallback | lib/hooks/use-balance.ts:34 | the written fallback's total is unchanged by a mined coin |
| UseBalance.ActiveFallbackMissesMinedCoin | lib/hooks/use-balance.ts:34 | for a table holding one mined coin, the other reader stores 0.73 and this hook stores 0 |
| UseBalance.FixedAgreesWithAvailableBalance | lib/supabase/utils.ts:22-39 | with the "available" filter, whenever the other reader stores a balance this hook stores the same one |
| UseBalance.FixedFallbackCountsMinedCoin | lib/hooks/use-balance.ts:30-39 | with the "available" filter, a claim raises the fallback balance by exactly 0.73 |
| Referrals.RowTotalsMatchCards | app/referrals/page.tsx:133-135 | the row totals add up to the trading plus claim total, which is the total earned when there are no transactions |
| Referrals.TotalsAppend | app/referrals/page.tsx:133-135 | the trading, claim and combined totals are additive over any split of the referral list |
| Referrals.MissingCommissionsAddNothing | app/referrals/page.tsx:332 | a referral with both commissions missing adds nothing, and its row total is 0 |
| Referrals.TotalsNonNegative | app/referrals/page.tsx:133-140 | with no negative commission every total is non-negative, and the total earned is at least the referral commission |
| Referrals.FindUser | app/referrals/page.tsx:331 | none iff no profile has the id; otherwise the first profile with that id |
| Referrals.OrText | app/referrals/page.tsx:335-336 | a present, non-empty string is shown; null or empty shows the fallback |
| Referrals.ShownReferredUser | app/referrals/page.tsx:331-336 | without a matching profile the row shows "Unknown" and "-"; otherwise it shows the first match's non-empty username and email |
| Referrals.ReferralLinkParts | app/referrals/page.tsx:103 | the link is the origin, then `/auth/sign-up?ref=`, then the printed code, and each part reads back |
| Referrals.ReferralLinkExamples | app/referrals/page.tsx:103 | without a window the link is relative, and a missing profile prints its code as "undefined" |

## Left out

- Network, database and authentication calls are not executed. They are
  parameters: the signed-in user is an `Option`, and each query's or call's
  outcome is passed in. The readers' outcomes are an answer, null or an
  error, and a thrown exception where the code catches one; the hook's two
  server calls may also reject.
- Mining.MiningStore.ClaimMining: a rejection of `createClient` or
  `getUser`, which run outside the action's `try`, is not an outcome of this
  member. The hook's side of it is the `Threw` outcome of
  `UseMining.MiningHook.FetchMiningStatus` and `UseMining.MiningHook.HandleClaim`.
- Concurrency: two claims running between one read and its write are not
  modelled. The claim reads and then writes with no compare-and-swap.
  `ClaimTwice` covers only two claims in sequence.
- Timers: the `setInterval`/`setTimeout` polling and refresh are left out.
  One countdown tick is `UseMining.MiningHook.Tick`.
- Mining.MiningStore.ClaimMining: `createTransaction`'s body is not part of
  this model. Its three outcomes (logged, silently failed, thrown) are a
  parameter.
- Mining.MiningStore.GetMiningStatus: the exception branch ("An unexpected
  error occurred") is left out, because nothing in the modelled reads throws.
  The `|| false`, `|| null` and `|| 0` defaults the hook applies to the
  status are identities on the typed values.
- Floating point is not modelled. `real` has no NaN, no Infinity and no
  binary rounding.
  - PostAd.HandleSubmit: an empty amount field parses to NaN, and NaN passes
    `< 50`. The model does not capture that. The inputs' `min`, `max`,
    `step` and `required` attributes (app/p2p/post-ad/page.tsx:195-234) are
    enforced by the browser before the handler runs, and are not modelled.
  - PostAd.Round2: rounds the exact decimal value. `toFixed(2)` rounds the
    binary double.
- Countdown.Percentage requires a positive total. A total of 0 gives
  Infinity or NaN in JavaScript, and the component only ever uses the
  3-hour default.
- The ring's SVG geometry and all markup are left out. So are alerts,
  router navigation and the `loading` and `copied` flags of the pages.
- The ad handler's handling of the results of the escrow procedure and of
  the buy-row insert is left out (an alert, then navigation). Posting,
  matching and cancelling offers inside the procedure are not part of this
  model.
- The referral page's data fetching is left out. So are the share messages
  and the copy-to-clipboard action. The commission rates appear only as
  text and are not modelled.
- The two balance readers call the same procedure with different argument
  names (`p_user_id` and `user_id`). Which one the procedure accepts is not
  part of this model.
- Thrown exceptions in `fetchAvailableBalance` are left out: it has no
  `try` and lets them reach its caller.
- The balance panel's display format (`toFixed(2)`) is left out.

## Findings

| source | as written | input that shows it | evidently intended | confidence | as-written member | corrected member |
|---|---|---|---|---|---|---|
| lib/hooks/use-balance.ts:34 | the fallback after a failed procedure call sums coins with status "active"; mining inserts "available", and no modelled writer produces "active" | the procedure errors and the table holds one mined coin of the user: `fetchAvailableBalance` shows 0.73, `useBalance` shows 0 | sum the user's "available" coins, as lib/supabase/utils.ts:31 and components/balance-panel.tsx:24 do | medium, not executed | UseBalance.ActiveFallbackMissesMinedCoin | UseBalance.FixedAgreesWithAvailableBalance |
