/** The customer-facing flows of bot.js, one step at a time: the coin
    purchase (plan, payment method, proof), the licence redemption (address,
    plan, confirm) and the back buttons. */
module Flows {
  import opened Common
  import opened JsString
  import opened Catalog
  import opened Email
  import opened Ledger
  import opened Payloads
  import opened Session
  import opened Bot
  import opened Invariant

  /** The balance the ledger holds for a user (a user without a row has none). */
  function Balance(w: World, id: int): nat {
    UserOf(w, id).balance
  }

  /** Every balance is as it was. */
  ghost predicate SameBalances(w: World, w': World) {
    forall x :: Balance(w', x) == Balance(w, x)
  }

  /** Nothing but the customer's own row changes: orders, licences, the cache
      and every other row stay as they were. */
  predicate OnlyRowChanged(w: World, w': World, id: int) {
    && w'.orders == w.orders && w'.nextOrderId == w.nextOrderId
    && w'.licenses == w.licenses && w'.nextLicenseId == w.nextLicenseId
    && w'.cache == w.cache && w'.config == w.config
    && id in w'.users
    && (forall x :: x in w.users && x != id ==> x in w'.users && w'.users[x] == w.users[x])
    && (forall x :: x in w'.users && x != id ==> x in w.users)
  }

  /** A handler that keeps every other row, adds at most the customer's and
      leaves the other tables alone changes only the customer's row. */
  lemma OnlyRowFromFrame(w: World, w': World, id: int)
    requires w'.users - {id} == w.users - {id}
    requires w.users.Keys <= w'.users.Keys <= w.users.Keys + {id} && id in w'.users
    requires w'.orders == w.orders && w'.nextOrderId == w.nextOrderId
    requires w'.licenses == w.licenses && w'.nextLicenseId == w.nextLicenseId
    requires w'.cache == w.cache && w'.config == w.config
    ensures OnlyRowChanged(w, w', id)
  {
    forall x | x in w.users && x != id
      ensures x in w'.users && w'.users[x] == w.users[x]
    {
      assert x in (w.users - {id}).Keys;
      assert (w'.users - {id})[x] == (w.users - {id})[x];
    }
  }

  function PressButton(w: World, from: int, p: Press, env: Env): World {
    Step(w, from, Button(OtherChat, PressData(p)), env)
  }

  // ---------------------------------------------------------------------
  // Commands

  /** `/start` creates the row on first contact and shows the start menu:
      `stage_1` with `{}`, the balance kept. */
  lemma StartCommandResets(w: World, from: int, env: Env)
    ensures var w' := Step(w, from, Command(StartCmd), env);
      OnlyRowChanged(w, w', from) && w'.users[from] == UserOf(w, from).(stage := Stage1, draft := EmptyDraft)
  {
  }

  /** `/zoom` opens the e-mail prompt with `{}` for a known user; it does not
      call `getUser`, so for an unknown user nothing at all happens. */
  lemma ZoomCommandPrompts(w: World, from: int, env: Env)
    ensures var w' := Step(w, from, Command(ZoomCmd), env);
      && (from in w.users ==>
            OnlyRowChanged(w, w', from) && w'.users[from] == w.users[from].(stage := PromptEmail, draft := EmptyDraft))
      && (from !in w.users ==> w' == w)
  {
  }

  /** `/setphoto` moves the bot's owner, if known, to `awaiting_photo`; from
      anyone else it changes nothing. */
  lemma SetPhotoOwnerOnly(w: World, from: int, env: Env)
    ensures var w' := Step(w, from, Command(SetPhotoCmd), env);
      && (w.config.ownerId == Some(from) && from in w.users ==>
            OnlyRowChanged(w, w', from) && w'.users[from] == w.users[from].(stage := AwaitingPhoto))
      && (w.config.ownerId != Some(from) || from !in w.users ==> w' == w)
  {
  }

  /** `/balance` only reads (after the `getUser` insert). */
  lemma BalanceCommandReads(w: World, from: int, env: Env)
    ensures Step(w, from, Command(BalanceCmd), env) == Touch(w, from)
  {
  }

  /** A photo at `awaiting_photo` from the owner returns them to `start`;
      from anyone else it changes nothing. */
  lemma PromoPhotoOwnerOnly(w: World, from: int, env: Env)
    requires UserOf(w, from).stage == AwaitingPhoto
    ensures var w' := Step(w, from, Photo, env);
      && (w.config.ownerId == Some(from) ==>
            OnlyRowChanged(w, w', from) && w'.users[from] == UserOf(w, from).(stage := Start))
      && (w.config.ownerId != Some(from) ==> w' == Touch(w, from))
  {
  }

  // ---------------------------------------------------------------------
  // Coin purchase

  /** The Buy button of the start menu shows the plan list; the draft stays. */
  lemma BuyZoomPromptShowsPlans(w: World, from: int, env: Env)
    ensures var w' := PressButton(w, from, BuyZoomPrompt, env);
      OnlyRowChanged(w, w', from) && w'.users[from] == UserOf(w, from).(stage := Stage2Plans)
  {
    PressRoundTrip(BuyZoomPrompt);
  }

  /** The licence button opens the e-mail prompt with `{}`. */
  lemma BuyLicensePromptClears(w: World, from: int, env: Env)
    ensures var w' := PressButton(w, from, BuyLicensePrompt, env);
      OnlyRowChanged(w, w', from) && w'.users[from] == UserOf(w, from).(stage := PromptEmail, draft := EmptyDraft)
  {
    FixedPressRoundTrip(BuyLicensePrompt);
  }

  /** `buy_coin:K` for a catalogue key: stage `stage_3_payment` and a draft
      that is exactly the entry's plan, days, coins and price; the balance
      and everything else stay. */
  lemma BuyCoinCopiesCatalog(w: World, from: int, k: string, env: Env)
    requires k in Plans
    ensures var w' := PressButton(w, from, BuyCoin(k), env);
      && OnlyRowChanged(w, w', from)
      && w'.users[from].stage == Stage3Payment
      && w'.users[from].draft.plan == Some(Plans[k].name)
      && w'.users[from].draft.days == Some(Plans[k].days)
      && w'.users[from].draft.coins == Some(Plans[k].coins)
      && w'.users[from].draft.price == Some(Plans[k].price)
      && w'.users[from].draft.name.None? && w'.users[from].draft.email.None?
      && w'.users[from].balance == Balance(w, from)
  {
    BuyCoinRoundTrip(k);
    var w' := OnPress(w, from, BuyCoin(k));
    assert PressButton(w, from, BuyCoin(k), env) == w';
    OnlyRowFromFrame(w, w', from);
    CoinDraftCopiesPlan(k);
  }

  /** `buy_coin:K` for any other key changes nothing but the `getUser` insert. */
  lemma BuyCoinUnknownKeyIsNoop(w: World, from: int, k: string, env: Env)
    requires k !in Plans && ':' !in k
    ensures PressButton(w, from, BuyCoin(k), env) == Touch(w, from)
  {
    BuyCoinRoundTrip(k);
  }

  /** `pay:M`: with a known method and a plan in the draft the customer moves
      to `awaiting_payment_proof` with the draft untouched; otherwise nothing
      changes. */
  lemma PayChoosesMethod(w: World, from: int, m: string, env: Env)
    requires ':' !in m
    ensures var w' := PressButton(w, from, Pay(m), env);
      var u := UserOf(w, from);
      && OnlyRowChanged(w, w', from)
      && w'.users[from].draft == u.draft
      && w'.users[from].balance == u.balance
      && (m in PaymentDetails && TruthyText(u.draft.plan) ==> w'.users[from].stage == AwaitingPaymentProof)
      && (!(m in PaymentDetails && TruthyText(u.draft.plan)) ==> w' == Touch(w, from))
  {
    PayRoundTrip(m);
  }

  /** A photo while awaiting the proof, with a plan in the draft and a
      successful insert, adds exactly one pending order at the next id whose
      plan, days, coins and price are the draft's; the customer returns to
      `start` with `{}` unless the order topic is unset. No row's balance
      changes. */
  lemma ProofCreatesOneOrder(w: World, from: int, env: Env)
    requires UserOf(w, from).stage == AwaitingPaymentProof
    requires TruthyText(UserOf(w, from).draft.plan) && env.insertOk
    ensures var w' := Step(w, from, Photo, env);
      var d := UserOf(w, from).draft;
      && w'.orders == w.orders[w.nextOrderId := Order(from, d.plan, d.days, d.coins, d.price, Pending)]
      && w'.nextOrderId == w.nextOrderId + 1
      && w'.licenses == w.licenses
      && w'.users[from].balance == Balance(w, from)
      && (OrderRoutingSet(w.config) ==> w'.users[from].stage == Start && w'.users[from].draft == EmptyDraft)
      && (!OrderRoutingSet(w.config) ==> w'.users[from] == UserOf(w, from))
  {
  }

  /** In a valid state the new order is a fresh row, so the table grows by one. */
  lemma ProofAddsOneRow(w: World, from: int, env: Env)
    requires Valid(w)
    requires UserOf(w, from).stage == AwaitingPaymentProof && env.insertOk
    ensures |Step(w, from, Photo, env).orders| == |w.orders| + 1
  {
    TouchValid(w, from);
    assert TruthyText(UserOf(w, from).draft.plan);
    ProofCreatesOneOrder(w, from, env);
    assert w.nextOrderId !in w.orders;
  }

  /** Without a plan in the draft, or when the insert fails, a proof creates
      no order and changes nothing. */
  lemma ProofWithoutPlanIsNoop(w: World, from: int, env: Env)
    requires UserOf(w, from).stage == AwaitingPaymentProof
    requires !TruthyText(UserOf(w, from).draft.plan) || !env.insertOk
    ensures Step(w, from, Photo, env) == Touch(w, from)
  {
  }

  /** A photo in any stage but the two photo stages changes nothing. */
  lemma PhotoElsewhereIsNoop(w: World, from: int, env: Env)
    requires UserOf(w, from).stage != AwaitingPaymentProof && UserOf(w, from).stage != AwaitingPhoto
    ensures Step(w, from, Photo, env) == Touch(w, from)
  {
  }

  // ---------------------------------------------------------------------
  // Licence redemption

  /** Text at the e-mail prompt: an address the pattern rejects leaves stage
      and draft as they were; an accepted one moves to
      `selecting_license_plan` with exactly `{ email }`, the text itself,
      because trimming an accepted address changes nothing. */
  lemma EmailStep(w: World, from: int, text: string, env: Env)
    requires UserOf(w, from).stage == PromptEmail
    requires !StartsWith(text, "/")
    ensures var w' := Step(w, from, Text(text), env);
      && OnlyRowChanged(w, w', from)
      && w'.users[from].balance == Balance(w, from)
      && (MatchesEmailPattern(text) ==>
            w'.users[from].stage == SelectingLicensePlan && w'.users[from].draft == EmailDraft(text))
      && (!MatchesEmailPattern(text) ==> w' == Touch(w, from))
  {
    if MatchesEmailPattern(text) {
      AcceptedAddressIsTrimmed(text);
    }
  }

  /** A text starting with `/` never reaches the message handler's logic. */
  lemma SlashTextIgnored(w: World, from: int, text: string, env: Env)
    requires StartsWith(text, "/")
    ensures Step(w, from, Text(text), env) == w
  {
  }

  /** The conditions under which `select_license:K` goes ahead. */
  predicate SelectAllowed(u: User, k: string) {
    k in Plans && TruthyText(u.draft.email) && u.balance >= Plans[k].coins
  }

  /** `select_license:K` changes nothing when the plan is unknown, the
      address is missing or the balance is below the plan's coins; otherwise
      it moves to `confirming_license` with the plan's fields merged over the
      draft, the address kept, and no coins spent. */
  lemma SelectLicensePlan(w: World, from: int, k: string, env: Env)
    requires ':' !in k
    ensures var w' := PressButton(w, from, SelectLicense(k), env);
      var u := UserOf(w, from);
      && OnlyRowChanged(w, w', from)
      && w'.users[from].balance == u.balance
      && (!SelectAllowed(u, k) ==> w' == Touch(w, from))
      && (SelectAllowed(u, k) ==>
            && w'.users[from].stage == ConfirmingLicense
            && w'.users[from].draft == MergePlan(u.draft, Plans[k])
            && w'.users[from].draft.email == u.draft.email
            && w'.users[from].draft.coins == Some(Plans[k].coins))
  {
    SelectLicenseRoundTrip(k);
  }

  /** The conditions under which Confirm goes ahead. */
  predicate ConfirmAllowed(u: User) {
    TruthyText(u.draft.email) && TruthyNumber(u.draft.coins) && u.balance >= u.draft.coins.value
  }

  /** Confirm: with the address or coins missing, or the balance short, no
      debit and no change at all; otherwise the balance drops by exactly the
      draft's coins, one licence row is added, and the customer is back at
      `start` with `{}`. */
  lemma ConfirmPurchase(w: World, from: int, env: Env)
    ensures var w' := PressButton(w, from, ConfirmLicensePurchase, env);
      var u := UserOf(w, from);
      && (!ConfirmAllowed(u) ==> w' == Touch(w, from))
      && (ConfirmAllowed(u) ==>
            && UserOf(w', from).balance + u.draft.coins.value == u.balance
            && UserOf(w', from).stage == Start && UserOf(w', from).draft == EmptyDraft
            && w'.licenses == w.licenses[w.nextLicenseId := License(from, LicensePending)]
            && w'.nextLicenseId == w.nextLicenseId + 1
            && w'.orders == w.orders
            && (forall x :: x in w.users && x != from ==> x in w'.users && w'.users[x] == w.users[x]))
  {
    FixedPressRoundTrip(ConfirmLicensePurchase);
  }

  /** Spending exactly the balance is allowed and leaves zero. */
  lemma ConfirmWholeBalance(w: World, from: int, env: Env)
    requires var u := UserOf(w, from);
      TruthyText(u.draft.email) && TruthyNumber(u.draft.coins) && u.balance == u.draft.coins.value
    ensures Balance(PressButton(w, from, ConfirmLicensePurchase, env), from) == 0
  {
    ConfirmPurchase(w, from, env);
  }

  /** In a valid state a customer at `confirming_license` always has an
      address and a plan's coins in the draft, so Confirm goes ahead exactly
      when the balance covers those coins. */
  lemma ConfirmDecidedByBalance(w: World, from: int)
    requires Valid(w) && UserOf(w, from).stage == ConfirmingLicense
    ensures var u := UserOf(w, from);
      && u.draft.name.Some? && u.draft.name.value in Plans
      && u.draft.coins == Some(Plans[u.draft.name.value].coins)
      && (ConfirmAllowed(u) <==> u.balance >= Plans[u.draft.name.value].coins)
  {
    var u := UserOf(w, from);
    assert from in w.users;
    assert Consistent(u);
    var d := u.draft;
    assert IsLicenseDraft(d);
    var e := d.email.value;
    var k := d.name.value;
    AcceptedAddressIsTrimmed(e);
    PlansWellFormed();
    assert d.coins == Some(Plans[k].coins);
    assert TruthyText(d.email) && TruthyNumber(d.coins);
  }

  // ---------------------------------------------------------------------
  // Back buttons

  /** `back_to_plans` changes only the stage and keeps the draft. */
  lemma BackToPlansKeepsDraft(w: World, from: int, env: Env)
    ensures var w' := PressButton(w, from, BackToPlans, env);
      OnlyRowChanged(w, w', from) && w'.users[from] == UserOf(w, from).(stage := Stage2Plans)
  {
    FixedPressRoundTrip(BackToPlans);
  }

  /** `back_to_license_plan_selection` changes only the stage and keeps the
      draft, merged plan fields included. */
  lemma BackToLicensePlansKeepsDraft(w: World, from: int, env: Env)
    ensures var w' := PressButton(w, from, BackToLicensePlanSelection, env);
      OnlyRowChanged(w, w', from) && w'.users[from] == UserOf(w, from).(stage := SelectingLicensePlan)
  {
    FixedPressRoundTrip(BackToLicensePlanSelection);
  }

  /** `back_to_email_prompt` returns to the e-mail prompt with `{}`. */
  lemma BackToEmailPromptClears(w: World, from: int, env: Env)
    ensures var w' := PressButton(w, from, BackToEmailPrompt, env);
      OnlyRowChanged(w, w', from) && w'.users[from] == UserOf(w, from).(stage := PromptEmail, draft := EmptyDraft)
  {
    FixedPressRoundTrip(BackToEmailPrompt);
  }

  /** `back_to_start` goes through the start menu: `stage_1` with `{}`. */
  lemma BackToStartClears(w: World, from: int, env: Env)
    ensures var w' := PressButton(w, from, BackToStart, env);
      OnlyRowChanged(w, w', from) && w'.users[from] == UserOf(w, from).(stage := Stage1, draft := EmptyDraft)
  {
    FixedPressRoundTrip(BackToStart);
  }

  /** Choosing a plan and pressing Back on the payment-method keyboard returns
      to the plan list with the chosen plan's fields still in the draft. */
  lemma BackFromPaymentKeepsPlan(w: World, from: int, k: string, env: Env)
    requires k in Plans
    ensures var u' := UserOf(PressButton(PressButton(w, from, BuyCoin(k), env), from, BackToPlans, env), from);
      u'.stage == Stage2Plans && u'.draft == CoinDraft(Plans[k])
  {
    var w1 := PressButton(w, from, BuyCoin(k), env);
    BuyCoinCopiesCatalog(w, from, k, env);
    PlansWellFormed();
    assert w1.users[from].draft == CoinDraft(Plans[k]);
    BackToPlansKeepsDraft(w1, from, env);
  }

  /** Choosing a licence plan and pressing Back on the Confirm keyboard returns
      to the plan list with the merged plan fields still in the draft (they
      are not dropped). */
  lemma BackFromConfirmKeepsMergedPlan(w: World, from: int, k: string, env: Env)
    requires SelectAllowed(UserOf(w, from), k) && ':' !in k
    ensures var u' := UserOf(PressButton(PressButton(w, from, SelectLicense(k), env), from, BackToLicensePlanSelection, env), from);
      u'.stage == SelectingLicensePlan && u'.draft == MergePlan(UserOf(w, from).draft, Plans[k])
  {
    var w1 := PressButton(w, from, SelectLicense(k), env);
    SelectLicensePlan(w, from, k, env);
    BackToLicensePlansKeepsDraft(w1, from, env);
  }
}
