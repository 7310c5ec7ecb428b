# Zoom licence bot: conversation state machine

This project models the core of a Telegram bot that sells Zoom Pro licences
for "Zoom Coins". The bot is the single file `bot.js`. Customers talk to it
in a private chat:

- `/start` shows the main menu.
- **Buying coins:** Buy, then a plan, then a payment method, then a photo of
  the payment. The photo creates one pending order and posts it to a staff
  group with Accept and Decline buttons.
- **Redeeming coins:** `/zoom`, then an e-mail address, then a licence plan,
  then Confirm. Confirm spends the plan's coins and records a pending licence.
- Back buttons step back through both flows.

Administrators of the staff group press Accept, which credits the customer's
coins and marks the order accepted. They can also press Decline, Finish
licence or Decline licence. Who counts as an administrator comes from a
five-minute cache of the group's administrator list.

The model is a pure step function over the bot's whole state:

- `Bot.World` holds the `users` rows (stage, `temp_data` draft, `coin_balance`),
  the `orders` and `licenses` tables with their id counters, the administrator
  cache, and the settings that route messages to the staff group.
- `Bot.Step(w, from, event, env)` is what one Telegram update does to that
  state. An update is a recognised command, a text, a photo, a button
  press in a private chat or in a group, or any other message, for which
  only `getUser` runs.
- `Bot.Env` supplies the outcomes of the calls the model cannot see: the
  clock, the result of fetching the group's administrators, and whether the
  order insert succeeded.

Modules, in dependency order:

- `Common`: `Option`.
- `JsString`: the JavaScript string and number behaviour the handlers rely on.
  This covers `trim`, `startsWith`, `split` (which keeps empty pieces),
  ``${n}`` rendering and `parseInt` (NaN is `None`).
- `Catalog`: the `plans` and `paymentDetails` constants.
- `Email`: the address regex as a predicate, and an independent description of
  what it accepts.
- `Ledger`: the coin balance as a natural number, with credit and debit.
- `AdminCache`: `isChatAdmin` with its 300000 ms cache.
- `Payloads`: the button payloads. These are the staff payloads
  `admin_accept_order:u:o:c` and `admin_decline_order:u:o`, and the customer
  payloads (`buy_coin:K`, `pay:M`, `select_license:K` and the fixed buttons).
- `Session`: stages, the draft (`temp_data`), and the user row.
- `Bot`: the world, events and handlers.
- `Invariant`: a state invariant that every step keeps.
- `Flows`: per-handler properties of the customer flows.
- `Staff`: the admin gate and the staff actions.
- `Books`: how balances can move over one step.
- `Scenarios`: whole conversations.

## Model

| member | source | states |
|---|---|---|
| Catalog.PlansWellFormed | bot.js:22-27 | The catalogue has exactly four plans. Each plan's name equals its key, its days, coins and price are positive, and no key contains `:`, so a key survives a `buy_coin:`/`select_license:` payload. |
| Catalog.PaymentMethodsHaveNoColon | bot.js:29-34 | There are exactly four payment methods. None contains `:` and each has non-empty payee details. |
| Session.StageNameRoundTrip | bot.js:271-282 | Every stage is stored under its own string, and reading that string back gives the same stage. |
| Session.CoinDraftCopiesPlan | bot.js:596-599 | The draft written by `buy_coin` holds the plan's name, days, coins and price, has no e-mail, and is a coin draft. |
| Session.MergeKeepsAddress | bot.js:696-699 | Spreading a plan over an e-mail draft keeps the address and yields a licence draft whose coins are truthy. |
| JsString.Trim | bot.js:364 | Definition of `trim`: `TrimEnd` of `TrimStart`; what it keeps and drops is stated by the two rows below and by `JsString.TrimOfSpaceless`. |
| JsString.TrimStart | bot.js:364 | The result is a suffix of the input that does not start with whitespace, and everything dropped is whitespace. |
| JsString.TrimEnd | bot.js:364 | The result is a prefix of the input that does not end with whitespace, and everything dropped is whitespace. |
| JsString.TrimOfSpaceless | bot.js:364 | `trim` leaves a string without whitespace unchanged. |
| JsString.Split | bot.js:410 | `split` yields at least one piece, and no piece contains the separator. |
| JsString.JoinSplit | bot.js:410 | Joining the pieces of a split with the separator gives back the original string. |
| JsString.SplitJoin | bot.js:335-336 | Splitting a join of separator-free pieces gives back exactly those pieces. |
| JsString.NatToString | bot.js:335 | A natural number renders as a non-empty string of decimal digits with no leading zero. |
| JsString.IntToString | bot.js:335 | An integer renders as a non-empty string of digits and `-`. |
| JsString.DigitsOfNatToString | bot.js:411 | The digits of a rendered natural number have that number's value. |
| JsString.ParseInt | bot.js:411-413 | Definition of `parseInt`: leading whitespace, an optional sign, then the longest run of digits (radix 16 after `0x`, else 10); no digit gives NaN (`None`). Its partner is `JsString.ParseIntOfIntToString`. |
| JsString.ParseIntOfIntToString | bot.js:411-412 | `parseInt` of a rendered integer gives back that integer. |
| JsString.IntToStringInjective | bot.js:335 | Different integers render as different strings. |
| Email.MatchesEmailPattern | bot.js:360 | Definition of the address regex: an `@` and a later `.` split the text into three non-empty runs without whitespace or `@`. Its independent partner is the shape of `Email.PatternIsShape`. |
| Email.PatternIsShape | bot.js:360 | The regex `^[^\s@]+@[^\s@]+\.[^\s@]+$` accepts exactly the strings with one `@`, no whitespace, and a `.` after the `@` that has a character on each side. Both directions are proved. |
| Email.PatternGivesShape | bot.js:360 | Every string the regex accepts has that shape. |
| Email.ShapeGivesPattern | bot.js:360 | Every string with that shape is accepted by the regex. |
| Email.AcceptedAddressIsTrimmed | bot.js:360-364 | An accepted address is non-empty, has exactly one `@` and no whitespace, and `trim` leaves it unchanged. |
| Ledger.DebitRefusedIffShort | bot.js:732-735 | A debit is refused exactly when the balance is below the amount. When it goes through, the new balance plus the amount equals the old balance. |
| Ledger.CreditTimesAddsProduct | bot.js:419 | Crediting `c` coins `n` times adds `n * c`. |
| AdminCache.NeedsReload | bot.js:100 | Definition of the reload test: more than 300000 ms since the load, or a different chat. |
| AdminCache.IsChatAdmin | bot.js:97-110 | A fresh cache for the same chat answers from the cached list and is kept. A reload whose fetch fails answers false and keeps the cache. A reload whose fetch succeeds answers membership in the fetched list and replaces the cache by that list, stamped with the time and this chat. |
| AdminCache.ReloadStoresFetched | bot.js:100-109 | When a reload is due, the answer is membership in the fetched list and the cache becomes `{now, fetched, chatId}`. |
| AdminCache.AnsweredFromCacheWithinTtl | bot.js:100-109 | Within 300000 ms of a load for the same chat, the answer comes from the cache and does not depend on what a fetch would return. |
| Payloads.DecodeAdmin | bot.js:410-416 | Definition of the staff payload reading: split on `:`, the action name, then `parseInt` of the next fields. Its partners are the round trips `Payloads.AcceptPayloadRoundTrip` and `Payloads.DeclinePayloadRoundTrip`. |
| Payloads.ClassifyPress | bot.js:533-815 | Definition of the customer button dispatch, in the source's order of tests. Its partner is `Payloads.PressRoundTrip`. |
| Payloads.NoColonInRendered | bot.js:335-336 | A rendered payload field never contains `:`. |
| Payloads.AcceptPayloadSplits | bot.js:335-410 | Splitting an accept payload on `:` gives its four fields. |
| Payloads.DecodeAcceptFields | bot.js:410-416 | An accept payload decodes to `parseInt` of its user, order and coins fields. |
| Payloads.DecodeDeclineFields | bot.js:410-460 | A decline payload decodes to `parseInt` of its user and order fields. |
| Payloads.ParseRenderedNumber | bot.js:335-416 | Reading back a rendered field gives the number, and a missing coins value (rendered `undefined`) reads back as NaN. |
| Payloads.AcceptPayloadRoundTrip | bot.js:335-416 | Decoding the Accept button of an order gives back its user id, order id and coins. |
| Payloads.DeclinePayloadRoundTrip | bot.js:336-412 | Decoding the Decline button of an order gives back its user id and order id. |
| Payloads.BuyCoinRoundTrip | bot.js:590-591 | `buy_coin:K` is recognised as a plan choice with key K when K has no `:`. |
| Payloads.PayRoundTrip | bot.js:632-633 | `pay:M` is recognised as a payment choice with method M when M has no `:`. |
| Payloads.SelectLicenseRoundTrip | bot.js:679-680 | `select_license:K` is recognised as a licence plan choice with key K when K has no `:`. |
| Payloads.FixedPressRoundTrip | bot.js:673-755 | The fixed payloads `buy_license_prompt`, `confirm_license_purchase`, `back_to_start` and `back_to_plans` are recognised as themselves. |
| Payloads.PressRoundTrip | bot.js:533-817 | Every customer button whose key has no `:` is recognised as the button that produced it. |
| Bot.Touch | bot.js:39-60 | After `getUser` the customer has a row: the stored one, or the row the store's defaults give a new customer (stage `start`, `{}`, 0 coins). The user ids become the old ones plus this one, every other row is kept, and the orders, licences, counters, cache and settings are unchanged. |
| Bot.OnCommand | bot.js:197-257 | A command changes at most the sender's row, which it may create, keeps that row's balance, and leaves orders, licences, the cache and the settings alone. |
| Bot.OnText | bot.js:357-385 | A text changes at most the sender's row and keeps its balance and every table. It changes the stage only from `prompt_email`, and only for a text the address regex accepts. |
| Bot.OnPhoto | bot.js:274-354 | A photo changes at most the sender's row and keeps its balance and the licences. It either leaves the orders as they were or adds exactly one pending order of the sender at the next id and nothing else. |
| Bot.OnPress | bot.js:531-824 | A customer button changes at most the presser's row and no order. It either leaves the licences as they were or adds exactly one pending licence of the presser at the next id. It can change the presser's balance only by Confirm, and only together with that licence. |
| Bot.CreditUser | bot.js:419 | `increment_coin_balance` changes only the named customer's row, only its balance, never lowers it, and adds exactly the coins when they are a non-negative number. Every table but `users` and every key set is kept. |
| Bot.ApplyAdminAction | bot.js:414-522 | An administrator's action adds and removes no row. Only Accept touches users and orders, and only Finish touches licences. |
| Bot.OnStaffButton | bot.js:398-522 | A group button creates the presser's row if needed. Unless it is pressed in the staff group by someone the administrator test accepts, it changes no order, licence or balance: the users are what `getUser` leaves. No group button adds or removes an order or a licence. |
| Bot.Step | bot.js:113-824 | One update creates at most the sender's row, at most one order (at the next order id) and at most one licence (at the next licence id), deletes nothing, and never changes the settings. |
| Invariant.InitialIsValid | bot.js:22-34 | The empty deployment satisfies the invariant. |
| Invariant.TouchValid | bot.js:39-60 | Creating a row on first contact keeps the invariant. |
| Invariant.OnCommandValid | bot.js:113-257 | `/start`, `/zoom`, `/setphoto` and `/balance` keep the invariant. |
| Invariant.OnTextValid | bot.js:263-385 | A text message keeps the invariant. |
| Invariant.OnPhotoValid | bot.js:274-353 | A photo keeps the invariant, and an order it creates carries one catalogue entry's fields. |
| Invariant.BuyCoinValid | bot.js:590-599 | `buy_coin` keeps the invariant. |
| Invariant.PayValid | bot.js:632-642 | `pay` keeps the invariant. |
| Invariant.SelectLicenseValid | bot.js:679-699 | `select_license` keeps the invariant. |
| Invariant.ConfirmValid | bot.js:725-744 | Confirm keeps the invariant. |
| Invariant.BuyZoomPromptValid | bot.js:533-534 | The Buy button keeps the invariant. |
| Invariant.BuyLicensePromptValid | bot.js:673-674 | The licence button keeps the invariant. |
| Invariant.BackToStartValid | bot.js:750-752 | `back_to_start` keeps the invariant. |
| Invariant.BackToPlansValid | bot.js:755-757 | `back_to_plans` keeps the invariant. |
| Invariant.BackToLicensePlanSelectionValid | bot.js:785-806 | `back_to_license_plan_selection` keeps the invariant. |
| Invariant.BackToEmailPromptValid | bot.js:815-817 | `back_to_email_prompt` keeps the invariant. |
| Invariant.OnPressValid | bot.js:531-824 | Every customer button keeps the invariant. |
| Invariant.StaffActionValid | bot.js:414-522 | Every staff action keeps the invariant. |
| Invariant.OnStaffButtonValid | bot.js:401-522 | Every group button keeps the invariant. |
| Invariant.DraftCoinsFromCatalog | bot.js:596-699 | In a reachable state, a draft's coins are absent or equal to the coins of some catalogue plan, and so positive. |
| Invariant.StepPreservesValid | bot.js:113-824 | Every update keeps the invariant. Each draft has one of the shapes the handlers write and fits its stage, every order carries a catalogue plan's fields, and ids stay below the counters. |
| Flows.StartCommandResets | bot.js:113-235 | `/start` creates the row if needed and sets `stage_1` with `{}`. Nothing else changes. |
| Flows.ZoomCommandPrompts | bot.js:253-257 | `/zoom` sets `prompt_email` with `{}` for a known customer. It changes nothing for an unknown one, because it does not call `getUser`. |
| Flows.SetPhotoOwnerOnly | bot.js:197-201 | `/setphoto` moves only the owner's row, to `awaiting_photo`. Anyone else's `/setphoto` changes nothing. |
| Flows.BalanceCommandReads | bot.js:238-250 | `/balance` only reads: the state is what `getUser` leaves. |
| Flows.PromoPhotoOwnerOnly | bot.js:274-281 | In `awaiting_photo`, the owner's photo returns the owner to `start`. Anyone else's photo changes nothing. |
| Flows.BuyZoomPromptShowsPlans | bot.js:533-534 | Buy sets `stage_2_plans` and keeps the draft. Nothing else changes. |
| Flows.BuyLicensePromptClears | bot.js:673-674 | The licence button sets `prompt_email` with `{}`. |
| Flows.BuyCoinCopiesCatalog | bot.js:590-599 | `buy_coin:K` with a known K sets `stage_3_payment`, and the draft is exactly the catalogue entry's plan, days, coins and price. The balance and every other row are unchanged. |
| Flows.BuyCoinUnknownKeyIsNoop | bot.js:592-593 | `buy_coin:K` with an unknown K changes nothing. |
| Flows.PayChoosesMethod | bot.js:632-642 | With a known method and a plan in the draft, `pay` moves to `awaiting_payment_proof` and keeps the draft. Otherwise it changes nothing. |
| Flows.ProofCreatesOneOrder | bot.js:282-353 | A photo in `awaiting_payment_proof` inserts exactly one pending order at the next id, with the draft's plan, days, coins and price. The balance does not move. The customer is back at `start` with `{}` when order routing is configured, and keeps the draft otherwise. |
| Flows.ProofAddsOneRow | bot.js:294-303 | From a reachable state, a payment proof with a successful insert adds exactly one row to `orders`. |
| Flows.ProofWithoutPlanIsNoop | bot.js:283-309 | Without a plan in the draft, or when the insert fails, a proof inserts nothing and changes nothing. |
| Flows.PhotoElsewhereIsNoop | bot.js:274-283 | A photo in any other stage changes nothing. |
| Flows.EmailStep | bot.js:358-383 | In `prompt_email`, a text the regex accepts moves to `selecting_license_plan` with exactly `{email}`. A text it rejects changes nothing. |
| Flows.SlashTextIgnored | bot.js:266 | A text starting with `/` is ignored by the message handler. |
| Flows.SelectLicensePlan | bot.js:679-699 | `select_license:K` changes nothing if K is unknown, there is no e-mail, or the balance is below the plan's coins. Otherwise it moves to `confirming_license` with the plan merged over the draft, keeping the e-mail. |
| Flows.ConfirmPurchase | bot.js:725-744 | With no e-mail, no coins, or too few coins, Confirm changes nothing. Otherwise the balance drops by exactly the draft's coins, one pending licence is added at the next id, the customer returns to `start` with `{}`, and orders and other customers are untouched. |
| Flows.ConfirmWholeBalance | bot.js:732-735 | Confirming with exactly the plan's coins leaves a balance of 0. |
| Flows.ConfirmDecidedByBalance | bot.js:686-732 | In a reachable `confirming_license` state, the draft holds a plan's coins, and Confirm goes through exactly when the balance covers them. |
| Flows.BackToPlansKeepsDraft | bot.js:755-757 | `back_to_plans` sets `stage_2_plans` and keeps the draft. |
| Flows.BackToLicensePlansKeepsDraft | bot.js:785-806 | `back_to_license_plan_selection` sets `selecting_license_plan` and keeps the draft. |
| Flows.BackToEmailPromptClears | bot.js:815-817 | `back_to_email_prompt` sets `prompt_email` with `{}`. |
| Flows.BackToStartClears | bot.js:750-752 | `back_to_start` goes through the start menu: `stage_1` with `{}`. |
| Flows.BackFromPaymentKeepsPlan | bot.js:755-757 | A plan followed by Back leaves the customer at the plan list with the plan still in the draft. |
| Flows.BackFromConfirmKeepsMergedPlan | bot.js:679-806 | A licence plan followed by Back keeps the merged plan fields in the draft. |
| Staff.TouchKeepsBalances | bot.js:39-60 | `getUser` moves no balance. |
| Staff.OtherGroupIgnored | bot.js:401-403 | A button in a group other than the configured one changes nothing beyond `getUser`. |
| Staff.NonAdminIgnored | bot.js:405-408 | A non-administrator's button in the staff group changes no balance, order or licence. |
| Staff.AdminPressApplies | bot.js:401-416 | Once the gate passes, the button applies the decoded action to the state with the refreshed cache. |
| Staff.GatePersists | bot.js:100-109 | After an administrator's press, the cache holds the staff group and a second press at the same time passes the gate without a reload. |
| Staff.InertActions | bot.js:460-522 | Order decline, licence decline and unknown actions change nothing. |
| Staff.DeclineChangesNothing | bot.js:460-522 | A decline or an unknown action changes no balance, order or licence. |
| Staff.BooksChangeOnlyForAdmins | bot.js:401-408 | If a group button changes balances, orders or licences, it came from the staff group, and its presser is in that group's cached administrator list, loaded within 300000 ms. |
| Staff.DeclineButtonKeepsOrder | bot.js:336-470 | The Decline button of an order leaves the order and every balance unchanged. |
| Staff.AcceptAction | bot.js:415-422 | Accept adds exactly `c` coins to the customer's row and no other, and marks the order `accepted` if it exists. Nothing else changes. |
| Staff.AcceptCredits | bot.js:401-422 | An administrator's Accept credits exactly `c` coins to the customer and nobody else, and marks the order accepted. |
| Staff.AcceptIsNotGuarded | bot.js:415-422 | Accepting an already accepted order credits its coins again. |
| Staff.AcceptButtonOfOrder | bot.js:335-422 | Pressing an order's Accept button credits that order's coins to its customer and marks it accepted. |
| Staff.FinishAction | bot.js:471-475 | Finish sets the licence to `active` if it exists, and leaves orders and users alone. |
| Staff.FinishActivates | bot.js:401-475 | An administrator's Finish activates the licence and moves no coins. |
| Staff.AcceptStep | bot.js:415-419 | One Accept press credits `c` and keeps the gate open for a press at the same moment. |
| Staff.RunPrefix | bot.js:415-422 | A run of presses, each with its own clock and administrator list, without its last press is still a run, and still gated if the whole run was. |
| Staff.LastAccept | bot.js:415-419 | The last press of a run of Accepts, if it passes the gate at its own moment, credits `c` once more. |
| Staff.RepeatedAcceptCredits | bot.js:415-422 | `n` presses of the same Accept, made at any times and each passing the gate when it is made, credit `c` coins `n` times. |
| Staff.RepeatedAcceptAddsProduct | bot.js:415-422 | `n` presses of the same Accept, made at any times and each passing the gate when it is made, add `n * c` coins. |
| Staff.OneInstantRunIsGated | bot.js:100-109 | Presses made at one moment, the first of which passes the gate, all pass it: the first press fills the cache that answers the rest. |
| Books.TouchSame | bot.js:39-60 | `getUser` moves no balance. |
| Books.SetStageSame | bot.js:63-70 | A stage update moves no balance. |
| Books.SetStageDraftSame | bot.js:63-70 | A stage and draft update moves no balance. |
| Books.CommandKeepsBalances | bot.js:197-257 | No command moves a balance. |
| Books.TextKeepsBalances | bot.js:358-385 | No text message moves a balance. |
| Books.PhotoKeepsBalances | bot.js:274-353 | A payment proof creates an order but credits nothing. |
| Books.OtherPressKeepsBalances | bot.js:531-824 | Every customer button except Confirm leaves every balance unchanged. |
| Books.ConfirmKeepsOthers | bot.js:725-744 | Confirm moves no balance but the presser's own. |
| Books.ConfirmNeverRaises | bot.js:732-735 | In a reachable state, Confirm never raises the presser's balance. |
| Books.CustomerPressNeverRaises | bot.js:531-824 | In a reachable state, no customer button raises any balance. |
| Books.CustomerPressLowersOnlyOwn | bot.js:725-744 | A customer button that lowers a balance is the presser's own Confirm. |
| Books.BalanceRisesOnlyByAccept | bot.js:401-422 | Over any step from a reachable state, a balance that rises belongs to the customer named in an Accept. That Accept was pressed by a gate-passing administrator, and the balance rises by exactly its coins. |
| Books.StaffRise | bot.js:401-422 | The staff-group half of the above. |
| Books.NoCreditWithoutFullAccept | bot.js:415-522 | An action that is not an Accept with a customer and non-negative coins credits nobody. |
| Books.BalanceFallsOnlyByConfirm | bot.js:725-735 | Over any step, a balance that falls is the presser's own, lowered by Confirm in a private chat. |
| Books.StaffNeverLowers | bot.js:401-522 | No staff button lowers a balance. Licence decline neither refunds nor debits. |
| Books.NoCreditLeavesBalances | bot.js:460-522 | Such an action leaves every balance unchanged. |
| Scenarios.SampleAddressAccepted | bot.js:360 | `a@b.co` passes the address check and is not a command. |
| Scenarios.PurchaseUpToProof | bot.js:113-642 | `/start`, Buy, a plan and a method run through `stage_1`, `stage_2_plans`, `stage_3_payment` and `awaiting_payment_proof`. The draft holds the plan and no coins move. |
| Scenarios.PayForPlan | bot.js:632-642 | A payment method chosen with a plan in the draft moves to `awaiting_payment_proof`, keeps the draft, and moves no coins or orders. |
| Scenarios.PurchaseScenario | bot.js:113-642 | The whole purchase ends at `start` with `{}`. It adds exactly one pending order with the plan's fields at the next id, and moves no coins. |
| Scenarios.PurchaseAddsOneOrder | bot.js:294-303 | From a reachable state, the purchase adds exactly one row to `orders`. |
| Scenarios.PurchaseBackKeepsPlan | bot.js:755-757 | Back on the payment keyboard returns to the plan list with the plan kept. |
| Scenarios.RedeemAddress | bot.js:253-383 | `/zoom` then an address leaves the customer choosing a plan with exactly that address. |
| Scenarios.RedeemPlan | bot.js:679-699 | The one-month plan is accepted exactly when the balance covers its 2 coins. |
| Scenarios.RedeemWithFive | bot.js:253-744 | A balance of 5 redeeming the 2-coin plan leaves 3 and one new pending licence. |
| Scenarios.ConfirmTwoOfFive | bot.js:725-744 | Confirm of a 2-coin draft with an address and a balance of 5 leaves 3, returns to `start`, and adds one pending licence at the next id. |
| Scenarios.FinishKeepsBalance | bot.js:471-522 | Finish and licence decline move no coins, whoever presses them. |
| Scenarios.RedeemWithOneRejected | bot.js:686-733 | A balance of 1 is turned away at the plan choice. A Confirm pressed anyway spends nothing. |

## Left out

- Telegram I/O is not modelled. This covers sending, editing, forwarding and deleting messages, answering callbacks, and captions and message texts. The model keeps only the state changes.
- Supabase is modelled as maps. `users`, `orders`, `licenses` and settings are maps or fields. The `increment_coin_balance` and `decrement_coin_balance` procedures are taken to add and subtract on a natural number.
- The `payment_message_id` write after posting an order is not modelled, and neither is the `isNew` alert on `/start`.
- Dates are not modelled: `moment-timezone`, `formatMyanmarTime` and the `expires_at` computation. A licence is its owner and status.
- The licence insert at bot.js:737 is elided in the source. It is modelled as one pending licence for the customer.
- The owner commands that set the group and topic ids (bot.js:154-194) are not modelled. Neither is the stored value of the promo photo: the photo branch only returns the owner to `start`. The settings are fields of `Bot.Config`.
- A failed `getUser` or `updateUser` is not modelled: both are taken to succeed. Only the order insert's success (`Env.insertOk`) and the administrator fetch (`Env.fetchedAdmins`) can fail.
- Commands arrive already recognised. The `onText` patterns match anywhere in the text, and that substring routing is not modelled.
- Bot.OnPress: recognises keys in `plans` and `paymentDetails` as own keys only. Inherited object keys such as `toString` are not modelled.
- Bot.CreditUser: models a call to `increment_coin_balance` with NaN or negative coins, or for a customer without a row, as no change, because the procedure's body is not part of this model. `Staff.AcceptCredits` and `Books.BalanceRisesOnlyByAccept` therefore speak of non-negative coins only.
- The concurrency between the balance check and the debit (bot.js:732-735) is not modelled. Each update runs alone.
- Bot.Touch: assumes the `users` column defaults stage `start`, `temp_data` `{}` and `coin_balance` 0, because bot.js:47-51 inserts only `tg_id`, `first_name` and `username`. Without those defaults, a null `temp_data` would make the `user.temp_data.email` read at bot.js:787 throw; the error is caught at bot.js:826 and the stage stays as it was.
- Staff.FinishAction: models the "License not found" answer (bot.js:473) as no change.
- The expiry sweep (bot.js:834-840) is not modelled, because its body is an empty stub.
- Broadcast is not modelled, because `bot.js` has no broadcast logic.
- JavaScript numbers are modelled as unbounded integers. Float precision and exponent rendering of very large ids are not modelled.

Behaviour of `bot.js` worth knowing:

- Accept has no status guard, so a second Accept of the same order credits again (`Staff.AcceptIsNotGuarded`, `Staff.RepeatedAcceptAddsProduct`).
- Order decline writes nothing: the order keeps its status (`Staff.DeclineButtonKeepsOrder`).
- After a payment proof the code resets the customer to `start` only when the group and topic ids are set. When they are missing it returns early and the draft stays (`Flows.ProofCreatesOneOrder`).
- Button handlers do not check the current stage. Only text and photo handling depends on it.
