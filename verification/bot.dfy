/** The event handlers of bot.js as one pure step over the bot's whole
    state: the `users`, `orders` and `licenses` tables, the admin cache and
    the settings the handlers read. Messages the bot sends are not part of
    the state. */
module Bot {
  import opened Common
  import opened JsString
  import opened Catalog
  import opened Email
  import opened Ledger
  import opened AdminCache
  import opened Payloads
  import opened Session

  datatype OrderStatus = Pending | Accepted

  /** A row of `orders`; the plan fields are copied from the customer's draft. */
  datatype Order = Order(
    userId: int,
    planName: Option<string>,
    days: Option<int>,
    coins: Option<int>,
    price: Option<int>,
    status: OrderStatus)

  datatype LicenseStatus = LicensePending | Active

  /** A row of `licenses`, reduced to its owner and status. */
  datatype License = License(userId: int, status: LicenseStatus)

  /** `BOT_OWNER_ID` (`None` when it does not parse) and the settings rows
      `group_id` and `order_topic_id` (`None` when unset). */
  datatype Config = Config(ownerId: Option<int>, groupId: Option<string>, orderTopicId: Option<string>)

  /** Everything the handlers read and write. Order and licence ids are
      assigned by the store; here they come from counters. */
  datatype World = World(
    users: map<int, User>,
    orders: map<int, Order>,
    nextOrderId: int,
    licenses: map<int, License>,
    nextLicenseId: int,
    cache: Cache,
    config: Config)

  /** The commands whose handlers touch the state. */
  datatype Cmd = StartCmd | ZoomCmd | SetPhotoCmd | BalanceCmd

  /** Where a button was pressed: a group or supergroup with its id, or any
      other chat. */
  datatype Chat = OtherChat | Group(id: int)

  /** An inbound update from user `from`. */
  datatype Event =
    | Command(cmd: Cmd)
    | Text(text: string)
    | Photo
    | Button(chat: Chat, data: string)
    // any other message (a sticker, a document, ...): only `getUser` runs
    | OtherMessage

  /** What the foreign calls made while handling one event return: the clock,
      `getChatAdministrators` (`None` if it throws) and whether the order
      insert succeeds. */
  datatype Env = Env(now: int, fetchedAdmins: Option<seq<int>>, insertOk: bool)

  // ---------------------------------------------------------------------
  // Store primitives

  /** The user's row, or the row `getUser` would create. */
  function UserOf(w: World, id: int): User {
    if id in w.users then w.users[id] else NewUser
  }

  /** `getUser`: reads the row and creates it on first contact. */
  function Touch(w: World, id: int): (w': World)
    ensures id in w'.users && w'.users[id] == UserOf(w, id)
    // every other row, every other table and the settings are kept
    ensures w'.users - {id} == w.users - {id}
    ensures w'.users.Keys == w.users.Keys + {id}
    ensures w' == w.(users := w'.users)
  {
    w.(users := w.users[id := UserOf(w, id)])
  }

  /** The stage update of `updateUser`: changes an existing row only. */
  function SetStage(w: World, id: int, st: Stage): World {
    if id in w.users then w.(users := w.users[id := w.users[id].(stage := st)]) else w
  }

  /** The stage and draft update of `updateUser`: changes an existing row only. */
  function SetStageDraft(w: World, id: int, st: Stage, d: Draft): World {
    if id in w.users then w.(users := w.users[id := w.users[id].(stage := st, draft := d)]) else w
  }

  /** The balance of an existing row after a ledger operation. */
  function SetBalance(w: World, id: int, b: nat): World {
    if id in w.users then w.(users := w.users[id := w.users[id].(balance := b)]) else w
  }

  function InsertOrder(w: World, o: Order): World {
    w.(orders := w.orders[w.nextOrderId := o], nextOrderId := w.nextOrderId + 1)
  }

  function InsertLicense(w: World, l: License): World {
    w.(licenses := w.licenses[w.nextLicenseId := l], nextLicenseId := w.nextLicenseId + 1)
  }

  // ---------------------------------------------------------------------
  // Commands

  /** `/start`, `/zoom`, `/setphoto` and `/balance`. A command changes no
      table but `users`, and there only the sender's stage and draft. */
  function OnCommand(w: World, from: int, c: Cmd): (r: World)
    ensures r.users - {from} == w.users - {from}
    ensures w.users.Keys <= r.users.Keys <= w.users.Keys + {from}
    ensures r.orders == w.orders && r.nextOrderId == w.nextOrderId
    ensures r.licenses == w.licenses && r.nextLicenseId == w.nextLicenseId
    ensures r.cache == w.cache && r.config == w.config
    ensures UserOf(r, from).balance == UserOf(w, from).balance
  {
    match c
    // getUser, then showStartMenu
    case StartCmd => SetStageDraft(Touch(w, from), from, Stage1, EmptyDraft)
    // no getUser: an unknown user is not created
    case ZoomCmd => SetStageDraft(w, from, PromptEmail, EmptyDraft)
    case SetPhotoCmd => if w.config.ownerId == Some(from) then SetStage(w, from, AwaitingPhoto) else w
    case BalanceCmd => Touch(w, from)
  }

  // ---------------------------------------------------------------------
  // The `message` handler

  /** Text: ignored if it starts with `/`; otherwise only the e-mail prompt
      reacts, and only to a text the address pattern accepts. Like a
      command, a text changes only the sender's stage and draft. */
  function OnText(w: World, from: int, text: string): (r: World)
    ensures r.users - {from} == w.users - {from}
    ensures w.users.Keys <= r.users.Keys <= w.users.Keys + {from}
    ensures r.orders == w.orders && r.nextOrderId == w.nextOrderId
    ensures r.licenses == w.licenses && r.nextLicenseId == w.nextLicenseId
    ensures r.cache == w.cache && r.config == w.config
    ensures UserOf(r, from).balance == UserOf(w, from).balance
    ensures UserOf(r, from).stage != UserOf(w, from).stage ==>
      UserOf(w, from).stage == PromptEmail && MatchesEmailPattern(text)
  {
    if StartsWith(text, "/") then w
    else
      var w1 := Touch(w, from);
      if w1.users[from].stage == PromptEmail && MatchesEmailPattern(text) then
        SetStageDraft(w1, from, SelectingLicensePlan, EmailDraft(Trim(text)))
      else w1
  }

  /** Both settings the order post needs are present and non-empty. */
  predicate OrderRoutingSet(c: Config) {
    TruthyText(c.groupId) && TruthyText(c.orderTopicId)
  }

  /** A photo: the owner's promo photo, or a customer's payment proof. It
      adds at most one order, a pending one of the sender's at the next id,
      and moves no coins. */
  function OnPhoto(w: World, from: int, env: Env): (r: World)
    ensures r.users - {from} == w.users - {from}
    ensures w.users.Keys <= r.users.Keys <= w.users.Keys + {from}
    ensures r.licenses == w.licenses && r.nextLicenseId == w.nextLicenseId
    ensures r.cache == w.cache && r.config == w.config
    ensures UserOf(r, from).balance == UserOf(w, from).balance
    ensures r.nextOrderId == w.nextOrderId ==> r.orders == w.orders
    ensures r.nextOrderId != w.nextOrderId ==>
      && r.nextOrderId == w.nextOrderId + 1
      && w.nextOrderId in r.orders
      && r.orders == w.orders[w.nextOrderId := r.orders[w.nextOrderId]]
      && r.orders[w.nextOrderId].userId == from
      && r.orders[w.nextOrderId].status == Pending
  {
    var w1 := Touch(w, from);
    var u := w1.users[from];
    if u.stage == AwaitingPhoto then
      if w.config.ownerId == Some(from) then SetStage(w1, from, Start) else w1
    else if u.stage == AwaitingPaymentProof then
      var d := u.draft;
      if !TruthyText(d.plan) || !env.insertOk then w1
      else
        var w2 := InsertOrder(w1, Order(from, d.plan, d.days, d.coins, d.price, Pending));
        // the handler returns before the stage reset when the order topic is unset
        if !OrderRoutingSet(w.config) then w2
        else SetStageDraft(w2, from, Start, EmptyDraft)
    else w1
  }

  // ---------------------------------------------------------------------
  // The `callback_query` handler, customer branch

  /** A customer button, read from its payload. */
  function OnCustomerButton(w: World, from: int, data: string): World {
    OnPress(w, from, ClassifyPress(data))
  }

  /** What each customer button does. None of them looks at the stage. A
      button changes only the presser's row, and the presser's balance only
      together with recording one pending licence for them. */
  function OnPress(w: World, from: int, p: Press): (r: World)
    ensures r.users - {from} == w.users - {from}
    ensures w.users.Keys <= r.users.Keys <= w.users.Keys + {from}
    ensures r.orders == w.orders && r.nextOrderId == w.nextOrderId
    ensures r.cache == w.cache && r.config == w.config
    ensures r.nextLicenseId == w.nextLicenseId ==> r.licenses == w.licenses
    ensures r.nextLicenseId != w.nextLicenseId ==>
      && r.nextLicenseId == w.nextLicenseId + 1
      && r.licenses == w.licenses[w.nextLicenseId := License(from, LicensePending)]
    ensures UserOf(r, from).balance != UserOf(w, from).balance ==>
      p.ConfirmLicensePurchase? && r.nextLicenseId == w.nextLicenseId + 1
  {
    var w1 := Touch(w, from);
    var u := w1.users[from];
    match p
    case BuyZoomPrompt => SetStage(w1, from, Stage2Plans)
    case BuyCoin(k) =>
      if k in Plans then SetStageDraft(w1, from, Stage3Payment, CoinDraft(Plans[k])) else w1
    case Pay(m) =>
      if m in PaymentDetails && TruthyText(u.draft.plan) then SetStage(w1, from, AwaitingPaymentProof) else w1
    case BuyLicensePrompt => SetStageDraft(w1, from, PromptEmail, EmptyDraft)
    case SelectLicense(k) =>
      if k !in Plans || !TruthyText(u.draft.email) then w1
      else if u.balance < Plans[k].coins then w1
      else SetStageDraft(w1, from, ConfirmingLicense, MergePlan(u.draft, Plans[k]))
    case ConfirmLicensePurchase =>
      if !TruthyText(u.draft.email) || !TruthyNumber(u.draft.coins) then w1
      else
        (match Debit(u.balance, u.draft.coins.value)
         case None => w1
         case Some(b) =>
           var w2 := InsertLicense(SetBalance(w1, from, b), License(from, LicensePending));
           SetStageDraft(w2, from, Start, EmptyDraft))
    case BackToStart => SetStageDraft(w1, from, Stage1, EmptyDraft)
    case BackToPlans => SetStage(w1, from, Stage2Plans)
    case BackToLicensePlanSelection => SetStage(w1, from, SelectingLicensePlan)
    case BackToEmailPrompt => SetStageDraft(w1, from, PromptEmail, EmptyDraft)
    case Unhandled => w1
  }

  // ---------------------------------------------------------------------
  // The `callback_query` handler, staff branch

  /** The `increment_coin_balance` procedure: a row that exists gains a
      non-negative amount; anything else changes nothing. Only that row's
      balance moves, and it never goes down. */
  function CreditUser(w: World, userId: Option<int>, coins: Option<int>): (r: World)
    ensures r.orders == w.orders && r.licenses == w.licenses && r.cache == w.cache && r.config == w.config
    ensures r.nextOrderId == w.nextOrderId && r.nextLicenseId == w.nextLicenseId
    ensures r.users.Keys == w.users.Keys
    ensures userId.None? ==> r.users == w.users
    ensures userId.Some? ==> r.users - {userId.value} == w.users - {userId.value}
    ensures userId.Some? && userId.value in w.users ==>
      && r.users[userId.value].stage == w.users[userId.value].stage
      && r.users[userId.value].draft == w.users[userId.value].draft
      && r.users[userId.value].balance >= w.users[userId.value].balance
    ensures userId.Some? && userId.value in w.users && coins.Some? && coins.value >= 0 ==>
      r.users[userId.value].balance == w.users[userId.value].balance + coins.value
  {
    if userId.Some? && userId.value in w.users && coins.Some? && coins.value >= 0 then
      SetBalance(w, userId.value, Credit(w.users[userId.value].balance, coins.value))
    else w
  }

  /** Marks the order with this id accepted, whatever its status was; no
      row matches when the id is missing or unknown. */
  function MarkOrderAccepted(w: World, orderId: Option<int>): World {
    if orderId.Some? && orderId.value in w.orders then
      w.(orders := w.orders[orderId.value := w.orders[orderId.value].(status := Accepted)])
    else w
  }

  /** Marks the licence with this id active, whatever its status was; no
      row matches when the id is missing or unknown. */
  function ActivateLicense(w: World, licenseId: Option<int>): World {
    if licenseId.Some? && licenseId.value in w.licenses then
      w.(licenses := w.licenses[licenseId.value := w.licenses[licenseId.value].(status := Active)])
    else w
  }

  /** The chat is the configured staff group: the chat id, rendered in
      decimal, is exactly the stored `group_id` setting. */
  predicate IsStaffGroup(c: Config, chatId: int) {
    c.groupId == Some(IntToString(chatId))
  }

  /** What an administrator's press does to the books. Decline only sends
      messages, and licence decline does nothing at all. No action creates
      or deletes a row; only Accept touches users and orders, and only
      Finish touches licences. */
  function ApplyAdminAction(w: World, a: AdminAction): (r: World)
    ensures r.cache == w.cache && r.config == w.config
    ensures r.nextOrderId == w.nextOrderId && r.nextLicenseId == w.nextLicenseId
    ensures r.users.Keys == w.users.Keys && r.orders.Keys == w.orders.Keys && r.licenses.Keys == w.licenses.Keys
    ensures !a.AcceptOrder? ==> r.users == w.users && r.orders == w.orders
    ensures !a.FinishLicense? ==> r.licenses == w.licenses
  {
    match a
    case AcceptOrder(userId, orderId, coins) => MarkOrderAccepted(CreditUser(w, userId, coins), orderId)
    case DeclineOrder(_, _) => w
    case FinishLicense(_, licenseId) => ActivateLicense(w, licenseId)
    case DeclineLicense => w
    case NoAdminAction => w
  }

  /** A press in a group: the staff-group test, the admin test, then the
      action. Unless both tests pass, only `getUser` and the cache act. */
  function OnStaffButton(w: World, from: int, chatId: int, data: string, env: Env): (r: World)
    ensures r.config == w.config
    ensures r.nextOrderId == w.nextOrderId && r.nextLicenseId == w.nextLicenseId
    ensures r.users.Keys == w.users.Keys + {from}
    ensures r.orders.Keys == w.orders.Keys && r.licenses.Keys == w.licenses.Keys
    ensures !(IsStaffGroup(w.config, chatId) && IsChatAdmin(w.cache, chatId, from, env.now, env.fetchedAdmins).0) ==>
      r.orders == w.orders && r.licenses == w.licenses && r.users == Touch(w, from).users
  {
    var w1 := Touch(w, from);
    if !IsStaffGroup(w.config, chatId) then w1
    else
      var (isAdmin, cache') := IsChatAdmin(w1.cache, chatId, from, env.now, env.fetchedAdmins);
      var w2 := w1.(cache := cache');
      if !isAdmin then w2 else ApplyAdminAction(w2, DecodeAdmin(data))
  }

  // ---------------------------------------------------------------------
  // The step

  /** The state after user `from` causes event `e`. A step creates at most
      the sender's row, at most one order and at most one licence, deletes
      nothing, and never changes the settings. */
  function Step(w: World, from: int, e: Event, env: Env): (r: World)
    ensures r.config == w.config
    ensures w.users.Keys <= r.users.Keys <= w.users.Keys + {from}
    ensures w.nextOrderId <= r.nextOrderId <= w.nextOrderId + 1
    ensures w.nextLicenseId <= r.nextLicenseId <= w.nextLicenseId + 1
    ensures w.orders.Keys <= r.orders.Keys <= w.orders.Keys + {w.nextOrderId}
    ensures w.licenses.Keys <= r.licenses.Keys <= w.licenses.Keys + {w.nextLicenseId}
  {
    match e
    case Command(c) => OnCommand(w, from, c)
    case Text(t) => OnText(w, from, t)
    case Photo => OnPhoto(w, from, env)
    case Button(OtherChat, data) => OnCustomerButton(w, from, data)
    case Button(Group(chatId), data) => OnStaffButton(w, from, chatId, data, env)
    case OtherMessage => Touch(w, from)
  }
}
