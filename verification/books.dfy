/** How coins move. Over any single step, a balance goes up only when an
    administrator of the staff group presses Accept for that customer, and
    goes down only when the customer confirms a licence purchase; every other
    handler leaves every balance as it was. */
module Books {
  import opened Common
  import opened JsString
  import opened Catalog
  import opened Payloads
  import opened Session
  import opened Bot
  import opened Flows
  import opened Invariant
  import opened Staff

  lemma TouchSame(w: World, from: int)
    ensures SameBalances(w, Touch(w, from))
  {
    TouchKeepsBalances(w, from);
  }

  lemma SetStageSame(w: World, id: int, st: Stage)
    ensures SameBalances(w, SetStage(w, id, st))
  {
    assert forall x :: Balance(SetStage(w, id, st), x) == Balance(w, x);
  }

  lemma SetStageDraftSame(w: World, id: int, st: Stage, d: Draft)
    ensures SameBalances(w, SetStageDraft(w, id, st, d))
  {
    assert forall x :: Balance(SetStageDraft(w, id, st, d), x) == Balance(w, x);
  }

  /** The commands never move coins; `/balance` only reads. */
  lemma CommandKeepsBalances(w: World, from: int, c: Cmd)
    ensures SameBalances(w, OnCommand(w, from, c))
  {
    match c {
      case StartCmd =>
        TouchSame(w, from);
        SetStageDraftSame(Touch(w, from), from, Stage1, EmptyDraft);
      case ZoomCmd => SetStageDraftSame(w, from, PromptEmail, EmptyDraft);
      case SetPhotoCmd => SetStageSame(w, from, AwaitingPhoto);
      case BalanceCmd => TouchSame(w, from);
    }
  }

  /** Text messages never move coins. */
  lemma TextKeepsBalances(w: World, from: int, text: string)
    ensures SameBalances(w, OnText(w, from, text))
  {
    TouchSame(w, from);
    var w1 := Touch(w, from);
    SetStageDraftSame(w1, from, SelectingLicensePlan, EmailDraft(Trim(text)));
  }

  /** A payment proof creates an order but credits nothing: coins arrive only
      when an administrator accepts it. */
  lemma PhotoKeepsBalances(w: World, from: int, env: Env)
    ensures SameBalances(w, OnPhoto(w, from, env))
  {
    TouchSame(w, from);
    var w1 := Touch(w, from);
    var u := w1.users[from];
    SetStageSame(w1, from, Start);
    if u.stage == AwaitingPaymentProof && TruthyText(u.draft.plan) && env.insertOk {
      var d := u.draft;
      var w2 := InsertOrder(w1, Order(from, d.plan, d.days, d.coins, d.price, Pending));
      assert SameBalances(w1, w2);
      SetStageDraftSame(w2, from, Start, EmptyDraft);
    }
  }

  /** Every customer button except Confirm leaves every balance as it was. */
  lemma OtherPressKeepsBalances(w: World, from: int, p: Press)
    requires !p.ConfirmLicensePurchase?
    ensures SameBalances(w, OnPress(w, from, p))
  {
    TouchSame(w, from);
    var w1 := Touch(w, from);
    var u := w1.users[from];
    match p {
      case BuyZoomPrompt => SetStageSame(w1, from, Stage2Plans);
      case BuyCoin(k) =>
        if k in Plans {
          SetStageDraftSame(w1, from, Stage3Payment, CoinDraft(Plans[k]));
        }
      case Pay(_) => SetStageSame(w1, from, AwaitingPaymentProof);
      case BuyLicensePrompt => SetStageDraftSame(w1, from, PromptEmail, EmptyDraft);
      case SelectLicense(k) =>
        if k in Plans {
          SetStageDraftSame(w1, from, ConfirmingLicense, MergePlan(u.draft, Plans[k]));
        }
      case BackToStart => SetStageDraftSame(w1, from, Stage1, EmptyDraft);
      case BackToPlans => SetStageSame(w1, from, Stage2Plans);
      case BackToLicensePlanSelection => SetStageSame(w1, from, SelectingLicensePlan);
      case BackToEmailPrompt => SetStageDraftSame(w1, from, PromptEmail, EmptyDraft);
      case Unhandled =>
    }
  }

  /** Confirm moves no balance but the presser's own. */
  lemma ConfirmKeepsOthers(w: World, from: int, p: Press)
    requires p.ConfirmLicensePurchase?
    ensures var w' := OnPress(w, from, p);
      forall x :: x != from ==> Balance(w', x) == Balance(w, x)
  {
    TouchSame(w, from);
  }

  /** Confirm never raises the presser's balance: the coins in a reachable
      draft are a plan's, never negative. */
  lemma ConfirmNeverRaises(w: World, from: int, p: Press)
    requires Valid(w) && p.ConfirmLicensePurchase?
    ensures Balance(OnPress(w, from, p), from) <= Balance(w, from)
  {
    DraftCoinsFromCatalog(w, from);
  }

  /** A customer button never raises a balance. */
  lemma CustomerPressNeverRaises(w: World, from: int, p: Press, x: int)
    requires Valid(w)
    ensures Balance(OnPress(w, from, p), x) <= Balance(w, x)
  {
    if p.ConfirmLicensePurchase? {
      ConfirmKeepsOthers(w, from, p);
      ConfirmNeverRaises(w, from, p);
    } else {
      OtherPressKeepsBalances(w, from, p);
    }
  }

  /** A customer button lowers no balance but the presser's own, and only by Confirm. */
  lemma CustomerPressLowersOnlyOwn(w: World, from: int, p: Press, x: int)
    ensures Balance(OnPress(w, from, p), x) < Balance(w, x) ==>
      x == from && p.ConfirmLicensePurchase?
  {
    if p.ConfirmLicensePurchase? {
      ConfirmKeepsOthers(w, from, p);
    } else {
      OtherPressKeepsBalances(w, from, p);
    }
  }

  /** Over any one step from a reachable state, a balance that rises belongs
      to the customer of an Accept pressed by an administrator in the staff
      group, and rises by exactly that Accept's coins. */
  lemma BalanceRisesOnlyByAccept(w: World, from: int, e: Event, env: Env, x: int)
    requires Valid(w)
    ensures var w' := Step(w, from, e, env);
      Balance(w', x) > Balance(w, x) ==>
        && e.Button? && e.chat.Group?
        && GatePasses(w, from, e.chat.id, env)
        && DecodeAdmin(e.data).AcceptOrder?
        && DecodeAdmin(e.data).userId == Some(x)
        && DecodeAdmin(e.data).coins.Some?
        && Balance(w', x) == Balance(w, x) + DecodeAdmin(e.data).coins.value
  {
    match e {
      case Command(c) => CommandKeepsBalances(w, from, c);
      case Text(t) => TextKeepsBalances(w, from, t);
      case Photo => PhotoKeepsBalances(w, from, env);
      case Button(OtherChat, data) => CustomerPressNeverRaises(w, from, ClassifyPress(data), x);
      case Button(Group(chatId), data) => StaffRise(w, from, chatId, data, env, x);
      case OtherMessage => TouchSame(w, from);
    }
  }

  /** The staff half of the above. */
  lemma StaffRise(w: World, from: int, chatId: int, data: string, env: Env, x: int)
    ensures var w' := StaffPress(w, from, chatId, data, env);
      Balance(w', x) > Balance(w, x) ==>
        && GatePasses(w, from, chatId, env)
        && DecodeAdmin(data).AcceptOrder?
        && DecodeAdmin(data).userId == Some(x)
        && DecodeAdmin(data).coins.Some?
        && Balance(w', x) == Balance(w, x) + DecodeAdmin(data).coins.value
  {
    var a := DecodeAdmin(data);
    if !GatePasses(w, from, chatId, env) {
      if IsStaffGroup(w.config, chatId) {
        NonAdminIgnored(w, from, chatId, data, env);
      } else {
        OtherGroupIgnored(w, from, chatId, data, env);
        TouchSame(w, from);
      }
    } else if a.AcceptOrder? && a.userId.Some? && a.coins.Some? && a.coins.value >= 0 {
      AcceptCredits(w, from, chatId, data, env, a.userId.value, a.orderId, a.coins.value);
    } else {
      AdminPressApplies(w, from, chatId, data, env);
      var g := Gated(w, from, chatId, env);
      TouchSame(w, from);
      assert SameBalances(w, g) by {
        forall y ensures Balance(g, y) == Balance(Touch(w, from), y) { }
      }
      NoCreditWithoutFullAccept(g, a);
    }
  }

  /** An action that is not an Accept with a customer and a non-negative
      number of coins credits nobody. */
  lemma NoCreditWithoutFullAccept(w: World, a: AdminAction)
    requires !(a.AcceptOrder? && a.userId.Some? && a.coins.Some? && a.coins.value >= 0)
    ensures forall y :: Balance(ApplyAdminAction(w, a), y) <= Balance(w, y)
  {
  }

  /** Over any one step, a balance that falls is the presser's own, lowered
      by Confirm. */
  lemma BalanceFallsOnlyByConfirm(w: World, from: int, e: Event, env: Env, x: int)
    ensures var w' := Step(w, from, e, env);
      Balance(w', x) < Balance(w, x) ==>
        && x == from
        && e.Button? && e.chat.OtherChat?
        && ClassifyPress(e.data).ConfirmLicensePurchase?
  {
    match e {
      case Command(c) => CommandKeepsBalances(w, from, c);
      case Text(t) => TextKeepsBalances(w, from, t);
      case Photo => PhotoKeepsBalances(w, from, env);
      case Button(OtherChat, data) => CustomerPressLowersOnlyOwn(w, from, ClassifyPress(data), x);
      case Button(Group(chatId), data) => StaffNeverLowers(w, from, chatId, data, env, x);
      case OtherMessage => TouchSame(w, from);
    }
  }

  /** No staff press lowers a balance: licence decline refunds nothing and
      debits nothing. */
  lemma StaffNeverLowers(w: World, from: int, chatId: int, data: string, env: Env, x: int)
    ensures Balance(StaffPress(w, from, chatId, data, env), x) >= Balance(w, x)
  {
    var a := DecodeAdmin(data);
    if !GatePasses(w, from, chatId, env) {
      if IsStaffGroup(w.config, chatId) {
        NonAdminIgnored(w, from, chatId, data, env);
      } else {
        OtherGroupIgnored(w, from, chatId, data, env);
        TouchSame(w, from);
      }
    } else if a.AcceptOrder? && a.userId.Some? && a.coins.Some? && a.coins.value >= 0 {
      AcceptCredits(w, from, chatId, data, env, a.userId.value, a.orderId, a.coins.value);
    } else {
      AdminPressApplies(w, from, chatId, data, env);
      var g := Gated(w, from, chatId, env);
      TouchSame(w, from);
      assert Balance(g, x) == Balance(Touch(w, from), x);
      NoCreditLeavesBalances(g, a);
    }
  }

  /** Such an action in fact leaves every balance as it was. */
  lemma NoCreditLeavesBalances(w: World, a: AdminAction)
    requires !(a.AcceptOrder? && a.userId.Some? && a.coins.Some? && a.coins.value >= 0)
    ensures SameBalances(w, ApplyAdminAction(w, a))
  {
  }
}
