/** What every reachable state satisfies: each customer's draft has one of
    the four shapes the handlers write and fits the stage, every order
    carries the fields of a catalogue plan, and ids stay below the counters. */
module Invariant {
  import opened Common
  import opened JsString
  import opened Catalog
  import opened Email
  import opened AdminCache
  import opened Payloads
  import opened Session
  import opened Bot

  /** The order's plan, days, coins and price are those of one catalogue entry. */
  predicate OrderFromCatalog(o: Order) {
    && o.planName.Some? && o.planName.value in Plans
    && o.days == Some(Plans[o.planName.value].days)
    && o.coins == Some(Plans[o.planName.value].coins)
    && o.price == Some(Plans[o.planName.value].price)
  }

  predicate Valid(w: World) {
    && (forall id :: id in w.users ==> Consistent(w.users[id]))
    && (forall id :: id in w.orders ==> id < w.nextOrderId && OrderFromCatalog(w.orders[id]))
    && (forall id :: id in w.licenses ==> id < w.nextLicenseId)
  }

  /** The state of a fresh deployment: empty tables and the process's initial cache. */
  function InitialWorld(config: Config): World {
    World(map[], map[], 1, map[], 1, Initial, config)
  }

  lemma InitialIsValid(config: Config)
    ensures Valid(InitialWorld(config))
  {
  }

  /** Replacing one user's row by a consistent row keeps the state valid. */
  lemma PutUser(w: World, id: int, u: User)
    requires Valid(w) && Consistent(u)
    ensures Valid(w.(users := w.users[id := u]))
  {
  }

  lemma TouchValid(w: World, id: int)
    requires Valid(w)
    ensures Valid(Touch(w, id))
    ensures Consistent(Touch(w, id).users[id])
  {
    PutUser(w, id, UserOf(w, id));
  }

  lemma OnCommandValid(w: World, from: int, c: Cmd)
    requires Valid(w)
    ensures Valid(OnCommand(w, from, c))
  {
    match c {
      case StartCmd =>
        TouchValid(w, from);
        var w1 := Touch(w, from);
        PutUser(w1, from, w1.users[from].(stage := Stage1, draft := EmptyDraft));
      case ZoomCmd =>
        if from in w.users {
          PutUser(w, from, w.users[from].(stage := PromptEmail, draft := EmptyDraft));
        }
      case SetPhotoCmd =>
        if w.config.ownerId == Some(from) && from in w.users {
          PutUser(w, from, w.users[from].(stage := AwaitingPhoto));
        }
      case BalanceCmd =>
        TouchValid(w, from);
    }
  }

  lemma OnTextValid(w: World, from: int, text: string)
    requires Valid(w)
    ensures Valid(OnText(w, from, text))
  {
    if !StartsWith(text, "/") {
      TouchValid(w, from);
      var w1 := Touch(w, from);
      if w1.users[from].stage == PromptEmail && MatchesEmailPattern(text) {
        AcceptedAddressIsTrimmed(text);
        PutUser(w1, from, w1.users[from].(stage := SelectingLicensePlan, draft := EmailDraft(text)));
      }
    }
  }

  lemma OnPhotoValid(w: World, from: int, env: Env)
    requires Valid(w)
    ensures Valid(OnPhoto(w, from, env))
  {
    TouchValid(w, from);
    var w1 := Touch(w, from);
    var u := w1.users[from];
    if u.stage == AwaitingPhoto {
      if w.config.ownerId == Some(from) {
        PutUser(w1, from, u.(stage := Start));
      }
    } else if u.stage == AwaitingPaymentProof {
      var d := u.draft;
      if TruthyText(d.plan) && env.insertOk {
        var o := Order(from, d.plan, d.days, d.coins, d.price, Pending);
        assert OrderFromCatalog(o);
        var w2 := InsertOrder(w1, o);
        assert Valid(w2);
        if OrderRoutingSet(w.config) {
          PutUser(w2, from, u.(stage := Start, draft := EmptyDraft));
        }
      }
    }
  }

  /** The Buy button only moves the stage. */
  lemma BuyZoomPromptValid(w: World, from: int, p: Press)
    requires Valid(w) && p.BuyZoomPrompt?
    ensures Valid(OnPress(w, from, p))
  {
    TouchValid(w, from);
    var w1 := Touch(w, from);
    var u := w1.users[from];
    PutUser(w1, from, u.(stage := Stage2Plans));
  }

  /** `back_to_plans` only moves the stage. */
  lemma BackToPlansValid(w: World, from: int, p: Press)
    requires Valid(w) && p.BackToPlans?
    ensures Valid(OnPress(w, from, p))
  {
    TouchValid(w, from);
    var w1 := Touch(w, from);
    var u := w1.users[from];
    PutUser(w1, from, u.(stage := Stage2Plans));
  }

  /** `back_to_license_plan_selection` only moves the stage. */
  lemma BackToLicensePlanSelectionValid(w: World, from: int, p: Press)
    requires Valid(w) && p.BackToLicensePlanSelection?
    ensures Valid(OnPress(w, from, p))
  {
    TouchValid(w, from);
    var w1 := Touch(w, from);
    var u := w1.users[from];
    PutUser(w1, from, u.(stage := SelectingLicensePlan));
  }

  /** The licence button moves the stage and clears the draft. */
  lemma BuyLicensePromptValid(w: World, from: int, p: Press)
    requires Valid(w) && p.BuyLicensePrompt?
    ensures Valid(OnPress(w, from, p))
  {
    TouchValid(w, from);
    var w1 := Touch(w, from);
    var u := w1.users[from];
    PutUser(w1, from, u.(stage := PromptEmail, draft := EmptyDraft));
  }

  /** `back_to_start` moves the stage and clears the draft. */
  lemma BackToStartValid(w: World, from: int, p: Press)
    requires Valid(w) && p.BackToStart?
    ensures Valid(OnPress(w, from, p))
  {
    TouchValid(w, from);
    var w1 := Touch(w, from);
    var u := w1.users[from];
    PutUser(w1, from, u.(stage := Stage1, draft := EmptyDraft));
  }

  /** `back_to_email_prompt` moves the stage and clears the draft. */
  lemma BackToEmailPromptValid(w: World, from: int, p: Press)
    requires Valid(w) && p.BackToEmailPrompt?
    ensures Valid(OnPress(w, from, p))
  {
    TouchValid(w, from);
    var w1 := Touch(w, from);
    var u := w1.users[from];
    PutUser(w1, from, u.(stage := PromptEmail, draft := EmptyDraft));
  }

  lemma BuyCoinValid(w: World, from: int, p: Press)
    requires Valid(w) && p.BuyCoin?
    ensures Valid(OnPress(w, from, p))
  {
    TouchValid(w, from);
    var w1 := Touch(w, from);
    var k := p.planKey;
    if k in Plans {
      CoinDraftCopiesPlan(k);
      PutUser(w1, from, w1.users[from].(stage := Stage3Payment, draft := CoinDraft(Plans[k])));
    }
  }

  lemma PayValid(w: World, from: int, p: Press)
    requires Valid(w) && p.Pay?
    ensures Valid(OnPress(w, from, p))
  {
    TouchValid(w, from);
    var w1 := Touch(w, from);
    var u := w1.users[from];
    if p.methodKey in PaymentDetails && TruthyText(u.draft.plan) {
      PutUser(w1, from, u.(stage := AwaitingPaymentProof));
    }
  }

  lemma SelectLicenseValid(w: World, from: int, p: Press)
    requires Valid(w) && p.SelectLicense?
    ensures Valid(OnPress(w, from, p))
  {
    TouchValid(w, from);
    var w1 := Touch(w, from);
    var u := w1.users[from];
    var k := p.planKey;
    if k in Plans && TruthyText(u.draft.email) && u.balance >= Plans[k].coins {
      MergeKeepsAddress(u.draft, k);
      PutUser(w1, from, u.(stage := ConfirmingLicense, draft := MergePlan(u.draft, Plans[k])));
    }
  }

  lemma ConfirmValid(w: World, from: int, p: Press)
    requires Valid(w) && p.ConfirmLicensePurchase?
    ensures Valid(OnPress(w, from, p))
  {
    TouchValid(w, from);
    var w1 := Touch(w, from);
    var u := w1.users[from];
    if TruthyText(u.draft.email) && TruthyNumber(u.draft.coins) && u.balance >= u.draft.coins.value {
      var b: nat := u.balance - u.draft.coins.value;
      PutUser(w1, from, u.(balance := b));
      var w2 := InsertLicense(SetBalance(w1, from, b), License(from, LicensePending));
      PutUser(w2, from, u.(balance := b, stage := Start, draft := EmptyDraft));
    }
  }

  lemma OnPressValid(w: World, from: int, p: Press)
    requires Valid(w)
    ensures Valid(OnPress(w, from, p))
  {
    match p {
      case BuyCoin(_) => BuyCoinValid(w, from, p);
      case Pay(_) => PayValid(w, from, p);
      case SelectLicense(_) => SelectLicenseValid(w, from, p);
      case ConfirmLicensePurchase => ConfirmValid(w, from, p);
      case BuyZoomPrompt => BuyZoomPromptValid(w, from, p);
      case BackToPlans => BackToPlansValid(w, from, p);
      case BackToLicensePlanSelection => BackToLicensePlanSelectionValid(w, from, p);
      case BuyLicensePrompt => BuyLicensePromptValid(w, from, p);
      case BackToStart => BackToStartValid(w, from, p);
      case BackToEmailPrompt => BackToEmailPromptValid(w, from, p);
      case Unhandled => TouchValid(w, from);
    }
  }

  /** A staff press changes balances, order and licence statuses and the
      cache, none of which the invariant constrains beyond what they keep. */
  lemma StaffActionValid(w: World, action: AdminAction)
    requires Valid(w)
    ensures Valid(ApplyAdminAction(w, action))
  {
  }

  lemma OnStaffButtonValid(w: World, from: int, chatId: int, data: string, env: Env)
    requires Valid(w)
    ensures Valid(OnStaffButton(w, from, chatId, data, env))
  {
    TouchValid(w, from);
    var w1 := Touch(w, from);
    if IsStaffGroup(w.config, chatId) {
      var (isAdmin, cache') := IsChatAdmin(w1.cache, chatId, from, env.now, env.fetchedAdmins);
      var w2 := w1.(cache := cache');
      assert Valid(w2);
      if isAdmin {
        StaffActionValid(w2, DecodeAdmin(data));
      }
    }
  }

  /** In a valid state a draft holds either no coins or the coins of a
      catalogue plan, which are positive. */
  lemma DraftCoinsFromCatalog(w: World, id: int)
    requires Valid(w)
    ensures UserOf(w, id).draft.coins.Some? ==>
      exists k :: k in Plans && UserOf(w, id).draft.coins.value == Plans[k].coins
    ensures UserOf(w, id).draft.coins.Some? ==> UserOf(w, id).draft.coins.value > 0
  {
    PlansWellFormed();
    var d := UserOf(w, id).draft;
    if id in w.users {
      assert Consistent(w.users[id]);
    }
    if d.coins.Some? {
      if IsCoinDraft(d) {
        assert d.coins.value == Plans[d.plan.value].coins;
      } else {
        assert IsLicenseDraft(d);
        assert d.coins.value == Plans[d.name.value].coins;
      }
    }
  }

  /** Every step keeps the state valid. */
  lemma StepPreservesValid(w: World, from: int, e: Event, env: Env)
    requires Valid(w)
    ensures Valid(Step(w, from, e, env))
  {
    match e {
      case Command(c) => OnCommandValid(w, from, c);
      case Text(t) => OnTextValid(w, from, t);
      case Photo => OnPhotoValid(w, from, env);
      case Button(OtherChat, data) => OnPressValid(w, from, ClassifyPress(data));
      case Button(Group(chatId), data) => OnStaffButtonValid(w, from, chatId, data, env);
      case OtherMessage => TouchValid(w, from);
    }
  }
}
