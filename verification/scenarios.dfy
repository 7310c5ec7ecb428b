/** Whole conversations run through the step function: a coin purchase from
    the start menu to the payment proof, and licence redemptions with enough
    and with too few coins. */
module Scenarios {
  import opened Common
  import opened JsString
  import opened Catalog
  import opened Email
  import opened Payloads
  import opened Session
  import opened Bot
  import opened Invariant
  import opened Flows
  import opened Staff
  import opened Books

  /** An address the pattern accepts. */
  const SampleAddress: string := "a@b.co"

  lemma SampleAddressAccepted()
    ensures MatchesEmailPattern(SampleAddress) && !StartsWith(SampleAddress, "/")
  {
    var s := SampleAddress;
    assert s[..1] == "a" && s[2..3] == "b" && s[4..] == "co";
    assert IsAtom(s[..1]) && IsAtom(s[2..3]) && IsAtom(s[4..]);
    assert s[1] == '@' && s[3] == '.';
  }

  // ---------------------------------------------------------------------
  // Coin purchase

  /** `/start`, Buy, a plan and a payment method: the stages run `stage_1`,
      `stage_2_plans`, `stage_3_payment` and `awaiting_payment_proof`, the
      draft holds the chosen plan, and the books are untouched. */
  lemma PurchaseUpToProof(w: World, w1: World, w2: World, w3: World, w4: World,
                          from: int, k: string, m: string, env: Env)
    requires k in Plans && m in PaymentDetails
    requires w1 == Step(w, from, Command(StartCmd), env)
    requires w2 == PressButton(w1, from, BuyZoomPrompt, env)
    requires w3 == PressButton(w2, from, BuyCoin(k), env)
    requires w4 == PressButton(w3, from, Pay(m), env)
    ensures UserOf(w1, from).stage == Stage1
    ensures UserOf(w2, from).stage == Stage2Plans
    ensures UserOf(w3, from).stage == Stage3Payment
    ensures UserOf(w4, from).stage == AwaitingPaymentProof
    ensures UserOf(w4, from).draft == CoinDraft(Plans[k])
    ensures Balance(w4, from) == Balance(w, from)
    ensures w4.orders == w.orders && w4.nextOrderId == w.nextOrderId && w4.config == w.config
  {
    StartCommandResets(w, from, env);
    BuyZoomPromptShowsPlans(w1, from, env);
    BuyCoinCopiesCatalog(w2, from, k, env);
    PayForPlan(w3, w4, from, k, m, env);
  }

  /** The payment method chosen with a plan's draft moves to
      `awaiting_payment_proof` and keeps the draft and the books. */
  lemma PayForPlan(w3: World, w4: World, from: int, k: string, m: string, env: Env)
    requires k in Plans && m in PaymentDetails
    requires UserOf(w3, from).draft.plan == Some(Plans[k].name)
    requires w4 == PressButton(w3, from, Pay(m), env)
    ensures UserOf(w4, from).stage == AwaitingPaymentProof
    ensures UserOf(w4, from).draft == UserOf(w3, from).draft
    ensures Balance(w4, from) == Balance(w3, from)
    ensures w4.orders == w3.orders && w4.nextOrderId == w3.nextOrderId && w4.config == w3.config
  {
    PlansWellFormed();
    PaymentMethodsHaveNoColon();
    PayChoosesMethod(w3, from, m, env);
  }

  /** The whole purchase, ending with the photo: exactly one pending order
      with the plan's fields is added at the next id, the customer is back at
      `start` with `{}` once the order is posted, and no coins move. */
  lemma PurchaseScenario(w: World, w1: World, w2: World, w3: World, w4: World, w5: World,
                         from: int, k: string, m: string, env: Env)
    requires k in Plans && m in PaymentDetails && env.insertOk && OrderRoutingSet(w.config)
    requires w1 == Step(w, from, Command(StartCmd), env)
    requires w2 == PressButton(w1, from, BuyZoomPrompt, env)
    requires w3 == PressButton(w2, from, BuyCoin(k), env)
    requires w4 == PressButton(w3, from, Pay(m), env)
    requires w5 == Step(w4, from, Photo, env)
    ensures UserOf(w5, from).stage == Start && UserOf(w5, from).draft == EmptyDraft
    ensures var p := Plans[k];
      w5.orders == w.orders[w.nextOrderId := Order(from, Some(p.name), Some(p.days), Some(p.coins), Some(p.price), Pending)]
    ensures w5.nextOrderId == w.nextOrderId + 1
    ensures Balance(w5, from) == Balance(w, from)
  {
    PurchaseUpToProof(w, w1, w2, w3, w4, from, k, m, env);
    ProofCreatesOneOrder(w4, from, env);
  }

  /** From a valid state the purchase adds exactly one row to `orders`. */
  lemma PurchaseAddsOneOrder(w: World, w1: World, w2: World, w3: World, w4: World, w5: World,
                             from: int, k: string, m: string, env: Env)
    requires Valid(w)
    requires k in Plans && m in PaymentDetails && env.insertOk && OrderRoutingSet(w.config)
    requires w1 == Step(w, from, Command(StartCmd), env)
    requires w2 == PressButton(w1, from, BuyZoomPrompt, env)
    requires w3 == PressButton(w2, from, BuyCoin(k), env)
    requires w4 == PressButton(w3, from, Pay(m), env)
    requires w5 == Step(w4, from, Photo, env)
    ensures |w5.orders| == |w.orders| + 1
  {
    PurchaseScenario(w, w1, w2, w3, w4, w5, from, k, m, env);
    assert w.nextOrderId !in w.orders;
  }

  /** Pressing Back on the payment-method keyboard after choosing a plan from
      the menu returns to the plan list with the plan still in the draft. */
  lemma PurchaseBackKeepsPlan(w: World, w1: World, w2: World, w3: World, w4: World,
                              from: int, k: string, env: Env)
    requires k in Plans
    requires w1 == Step(w, from, Command(StartCmd), env)
    requires w2 == PressButton(w1, from, BuyZoomPrompt, env)
    requires w3 == PressButton(w2, from, BuyCoin(k), env)
    requires w4 == PressButton(w3, from, BackToPlans, env)
    ensures UserOf(w4, from).stage == Stage2Plans && UserOf(w4, from).draft == CoinDraft(Plans[k])
  {
    BackFromPaymentKeepsPlan(w2, from, k, env);
  }

  // ---------------------------------------------------------------------
  // Licence redemption

  /** `/zoom` and an address the pattern accepts: the customer is choosing a
      licence plan with exactly the address in the draft. */
  lemma RedeemAddress(w: World, w1: World, w2: World, from: int, env: Env)
    requires from in w.users
    requires w1 == Step(w, from, Command(ZoomCmd), env)
    requires w2 == Step(w1, from, Text(SampleAddress), env)
    ensures UserOf(w2, from).stage == SelectingLicensePlan
    ensures UserOf(w2, from).draft == EmailDraft(SampleAddress)
    ensures Balance(w2, from) == Balance(w, from)
    ensures w2.licenses == w.licenses && w2.nextLicenseId == w.nextLicenseId
  {
    ZoomCommandPrompts(w, from, env);
    SampleAddressAccepted();
    EmailStep(w1, from, SampleAddress, env);
  }

  /** Then the one-month plan: the customer reaches `confirming_license`,
      with no coins spent yet, exactly when the balance covers the plan's 2
      coins. */
  lemma RedeemPlan(w2: World, w3: World, from: int, env: Env)
    requires UserOf(w2, from).draft == EmailDraft(SampleAddress)
    requires w3 == PressButton(w2, from, SelectLicense("1Month"), env)
    ensures Balance(w3, from) == Balance(w2, from)
    ensures w3.licenses == w2.licenses && w3.nextLicenseId == w2.nextLicenseId
    ensures Balance(w2, from) >= 2 ==>
      UserOf(w3, from).stage == ConfirmingLicense && UserOf(w3, from).draft.coins == Some(2)
      && UserOf(w3, from).draft.email == Some(SampleAddress)
    ensures Balance(w2, from) < 2 ==> UserOf(w3, from) == UserOf(w2, from)
  {
    PlansWellFormed();
    assert Plans["1Month"].coins == 2;
    SelectLicensePlan(w2, from, "1Month", env);
  }

  /** A balance of 5 redeeming the 2-coin plan: Confirm leaves 3, adds one
      pending licence, and returns the customer to `start`. */
  lemma RedeemWithFive(w: World, w1: World, w2: World, w3: World, w4: World, from: int, env: Env)
    requires from in w.users && w.users[from].balance == 5
    requires w1 == Step(w, from, Command(ZoomCmd), env)
    requires w2 == Step(w1, from, Text(SampleAddress), env)
    requires w3 == PressButton(w2, from, SelectLicense("1Month"), env)
    requires w4 == PressButton(w3, from, ConfirmLicensePurchase, env)
    ensures Balance(w4, from) == 3
    ensures UserOf(w4, from).stage == Start
    ensures w4.licenses == w.licenses[w.nextLicenseId := License(from, LicensePending)]
  {
    RedeemAddress(w, w1, w2, from, env);
    RedeemPlan(w2, w3, from, env);
    ConfirmTwoOfFive(w3, w4, from, env);
  }

  /** The last step of the above: Confirm of a 2-coin draft with an address
      and a balance of 5. */
  lemma ConfirmTwoOfFive(w3: World, w4: World, from: int, env: Env)
    requires Balance(w3, from) == 5
    requires UserOf(w3, from).draft.coins == Some(2) && UserOf(w3, from).draft.email == Some(SampleAddress)
    requires w4 == PressButton(w3, from, ConfirmLicensePurchase, env)
    ensures Balance(w4, from) == 3
    ensures UserOf(w4, from).stage == Start
    ensures w4.licenses == w3.licenses[w3.nextLicenseId := License(from, LicensePending)]
  {
    SampleAddressAccepted();
    assert ConfirmAllowed(UserOf(w3, from));
    ConfirmPurchase(w3, from, env);
  }

  /** A press in the staff group that is a licence action moves no coins,
      whoever presses it: after the redemption above, finishing the licence
      leaves the balance at 3. */
  lemma FinishKeepsBalance(w: World, from: int, chatId: int, data: string, env: Env, x: int)
    requires DecodeAdmin(data).FinishLicense? || DecodeAdmin(data).DeclineLicense?
    ensures Balance(StaffPress(w, from, chatId, data, env), x) == Balance(w, x)
  {
    StaffRise(w, from, chatId, data, env, x);
    StaffNeverLowers(w, from, chatId, data, env, x);
  }

  /** A balance of 1 asking for the 2-coin plan is turned away at the plan
      choice, and a Confirm pressed anyway spends nothing: the balance stays
      1 throughout. */
  lemma RedeemWithOneRejected(w: World, w1: World, w2: World, w3: World, w4: World, from: int, env: Env)
    requires from in w.users && w.users[from].balance == 1
    requires w1 == Step(w, from, Command(ZoomCmd), env)
    requires w2 == Step(w1, from, Text(SampleAddress), env)
    requires w3 == PressButton(w2, from, SelectLicense("1Month"), env)
    requires w4 == PressButton(w3, from, ConfirmLicensePurchase, env)
    ensures UserOf(w3, from).stage == SelectingLicensePlan && Balance(w3, from) == 1
    ensures w4 == Touch(w3, from) && Balance(w4, from) == 1
  {
    RedeemAddress(w, w1, w2, from, env);
    RedeemPlan(w2, w3, from, env);
    assert !ConfirmAllowed(UserOf(w3, from));
    ConfirmPurchase(w3, from, env);
  }
}
