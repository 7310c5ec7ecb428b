/** The `callback_data` strings carried by the bot's inline buttons: the ones
    it builds for the staff group (`admin_accept_order:u:o:c` and friends)
    and the ones of the customer keyboards, with the decoding the
    `callback_query` handler applies to each. */
module Payloads {
  import opened Common
  import opened JsString

  // ---------------------------------------------------------------------
  // Staff-group buttons

  /** A staff action as the handler reads it: the action word and the numbers
      `parseInt` yields for the following fields (`None` for NaN). */
  datatype AdminAction =
    | AcceptOrder(userId: Option<int>, orderId: Option<int>, coins: Option<int>)
    | DeclineOrder(userId: Option<int>, orderId: Option<int>)
    | FinishLicense(userId: Option<int>, licenseId: Option<int>)
    | DeclineLicense
    | NoAdminAction

  /** A number as a template literal renders it; a missing one renders as
      `undefined`. */
  function RenderNumber(v: Option<int>): string {
    match v
    case Some(n) => IntToString(n)
    case None => "undefined"
  }

  /** The Accept button under a new order: customer, order id, coins to credit. */
  function AcceptPayload(userId: int, orderId: int, coins: Option<int>): string {
    "admin_accept_order:" + IntToString(userId) + ":" + IntToString(orderId) + ":" + RenderNumber(coins)
  }

  /** The Decline button under a new order. */
  function DeclinePayload(userId: int, orderId: int): string {
    "admin_decline_order:" + IntToString(userId) + ":" + IntToString(orderId)
  }

  /** The staff payload read back: the payload is cut at every `:`, the
      first piece names the action, and the next pieces are read as numbers
      with `parseInt`, a missing piece giving NaN. */
  function DecodeAdmin(data: string): AdminAction {
    var parts := Split(data, ':');
    var userId := ParseInt(At(parts, 1));
    var secondId := ParseInt(At(parts, 2));
    var action := parts[0];
    if action == "admin_accept_order" then AcceptOrder(userId, secondId, ParseInt(At(parts, 3)))
    else if action == "admin_decline_order" then DeclineOrder(userId, secondId)
    else if action == "admin_finish_license" then FinishLicense(userId, secondId)
    else if action == "admin_decline_license" then DeclineLicense
    else NoAdminAction
  }

  lemma NoColonInNumber(n: int)
    ensures ':' !in IntToString(n)
  {
  }

  lemma NoColonInRendered(v: Option<int>)
    ensures ':' !in RenderNumber(v)
  {
    if v.Some? {
      NoColonInNumber(v.value);
    }
  }

  /** Joining a list of two, three or four pieces writes the separator between neighbours. */
  lemma JoinSmall(a: string, b: string, c: string, d: string, sep: char)
    ensures Join([a, b], sep) == a + [sep] + b
    ensures Join([a, b, c], sep) == a + [sep] + b + [sep] + c
    ensures Join([a, b, c, d], sep) == a + [sep] + b + [sep] + c + [sep] + d
  {
    assert [a, b][1..] == [b];
    assert [b, c][1..] == [c];
    assert [c, d][1..] == [d];
    assert Join([b, c], sep) == b + [sep] + c;
    assert Join([c, d], sep) == c + [sep] + d;
    assert [a, b, c][1..] == [b, c];
    assert Join([a, b, c], sep) == a + [sep] + Join([b, c], sep);
    assert [b, c, d][1..] == [c, d];
    assert Join([b, c, d], sep) == b + [sep] + Join([c, d], sep);
    assert [a, b, c, d][1..] == [b, c, d];
    assert Join([a, b, c, d], sep) == a + [sep] + Join([b, c, d], sep);
  }

  /** How the handler reads a four-field Accept payload. */
  lemma DecodeAcceptFields(data: string, u: string, o: string, c: string)
    requires Split(data, ':') == ["admin_accept_order", u, o, c]
    ensures DecodeAdmin(data) == AcceptOrder(ParseInt(u), ParseInt(o), ParseInt(c))
  {
  }

  /** How the handler reads a three-field Decline payload. */
  lemma DecodeDeclineFields(data: string, u: string, o: string)
    requires Split(data, ':') == ["admin_decline_order", u, o]
    ensures DecodeAdmin(data) == DeclineOrder(ParseInt(u), ParseInt(o))
  {
  }

  /** The Accept payload splits back into its four fields. */
  lemma AcceptPayloadSplits(userId: int, orderId: int, coins: Option<int>)
    ensures Split(AcceptPayload(userId, orderId, coins), ':')
         == ["admin_accept_order", IntToString(userId), IntToString(orderId), RenderNumber(coins)]
  {
    var u, o, c := IntToString(userId), IntToString(orderId), RenderNumber(coins);
    NoColonInNumber(userId);
    NoColonInNumber(orderId);
    NoColonInRendered(coins);
    JoinSmall("admin_accept_order", u, o, c, ':');
    assert "admin_accept_order:" == "admin_accept_order" + [':'];
    SplitJoin(["admin_accept_order", u, o, c], ':');
  }

  /** How the handler reads the Accept payload, field by field. */
  lemma DecodeAcceptPayload(userId: int, orderId: int, coins: Option<int>)
    ensures DecodeAdmin(AcceptPayload(userId, orderId, coins))
         == AcceptOrder(ParseInt(IntToString(userId)), ParseInt(IntToString(orderId)), ParseInt(RenderNumber(coins)))
  {
    AcceptPayloadSplits(userId, orderId, coins);
  }

  lemma ParseUndefined()
    ensures ParseInt("undefined") == None
  {
    assert TrimStart("undefined") == "undefined";
    assert DigitValue('u') == 30;
  }

  /** `parseInt` reads back a rendered number, and NaN from `undefined`. */
  lemma ParseRenderedNumber(v: Option<int>)
    ensures ParseInt(RenderNumber(v)) == v
  {
    match v {
      case Some(n) => ParseIntOfIntToString(n);
      case None => ParseUndefined();
    }
  }

  /** Decoding the Accept payload gives back the customer, the order and the
      coins it was built from; coins that were missing come back as NaN. */
  lemma AcceptPayloadRoundTrip(userId: int, orderId: int, coins: Option<int>)
    ensures DecodeAdmin(AcceptPayload(userId, orderId, coins)) == AcceptOrder(Some(userId), Some(orderId), coins)
  {
    DecodeAcceptPayload(userId, orderId, coins);
    ParseIntOfIntToString(userId);
    ParseIntOfIntToString(orderId);
    ParseRenderedNumber(coins);
  }

  /** Decoding the Decline payload gives back the customer and the order. */
  lemma DeclinePayloadRoundTrip(userId: int, orderId: int)
    ensures DecodeAdmin(DeclinePayload(userId, orderId)) == DeclineOrder(Some(userId), Some(orderId))
  {
    var u, o := IntToString(userId), IntToString(orderId);
    var parts := ["admin_decline_order", u, o];
    NoColonInNumber(userId);
    NoColonInNumber(orderId);
    JoinSmall("admin_decline_order", u, o, "", ':');
    assert "admin_decline_order:" == "admin_decline_order" + [':'];
    assert DeclinePayload(userId, orderId) == Join(parts, ':');
    SplitJoin(parts, ':');
    DecodeDeclineFields(DeclinePayload(userId, orderId), u, o);
    ParseIntOfIntToString(userId);
    ParseIntOfIntToString(orderId);
  }

  // ---------------------------------------------------------------------
  // Customer buttons

  /** A customer button press as the handler's `if` chain classifies it. */
  datatype Press =
    | BuyZoomPrompt
    | BuyCoin(planKey: string)
    | Pay(methodKey: string)
    | BuyLicensePrompt
    | SelectLicense(planKey: string)
    | ConfirmLicensePurchase
    | BackToStart
    | BackToPlans
    | BackToLicensePlanSelection
    | BackToEmailPrompt
    | Unhandled

  /** The second field of a payload cut at every `:`; with none, the missing
      element, which as an object key reads as the text `undefined`. */
  function SecondField(data: string): string {
    At(Split(data, ':'), 1)
  }

  /** The `if` chain of the customer branch, in its order. */
  function ClassifyPress(data: string): Press {
    if data == "buy_zoom_prompt" then BuyZoomPrompt
    else if StartsWith(data, "buy_coin:") then BuyCoin(SecondField(data))
    else if StartsWith(data, "pay:") then Pay(SecondField(data))
    else if data == "buy_license_prompt" then BuyLicensePrompt
    else if StartsWith(data, "select_license:") then SelectLicense(SecondField(data))
    else if data == "confirm_license_purchase" then ConfirmLicensePurchase
    else if data == "back_to_start" then BackToStart
    else if data == "back_to_plans" then BackToPlans
    else if data == "back_to_license_plan_selection" then BackToLicensePlanSelection
    else if data == "back_to_email_prompt" then BackToEmailPrompt
    else Unhandled
  }

  /** The `callback_data` the bot's keyboards attach to each press. */
  function PressData(p: Press): string {
    match p
    case BuyZoomPrompt => "buy_zoom_prompt"
    case BuyCoin(k) => "buy_coin:" + k
    case Pay(m) => "pay:" + m
    case BuyLicensePrompt => "buy_license_prompt"
    case SelectLicense(k) => "select_license:" + k
    case ConfirmLicensePurchase => "confirm_license_purchase"
    case BackToStart => "back_to_start"
    case BackToPlans => "back_to_plans"
    case BackToLicensePlanSelection => "back_to_license_plan_selection"
    case BackToEmailPrompt => "back_to_email_prompt"
    case Unhandled => ""
  }

  /** The field after a `:`-free prefix and one `:` is the rest, when the
      rest holds no `:`. */
  lemma SecondFieldOf(prefix: string, rest: string)
    requires ':' !in prefix && ':' !in rest
    ensures SecondField(prefix + ":" + rest) == rest
  {
    JoinSmall(prefix, rest, "", "", ':');
    SplitJoin([prefix, rest], ':');
  }

  predicate KeyIsPlain(p: Press) {
    match p
    case BuyCoin(k) => ':' !in k
    case Pay(m) => ':' !in m
    case SelectLicense(k) => ':' !in k
    case Unhandled => false
    case _ => true
  }

  lemma BuyCoinRoundTrip(k: string)
    requires ':' !in k
    ensures ClassifyPress(PressData(BuyCoin(k))) == BuyCoin(k)
  {
    var data := PressData(BuyCoin(k));
    assert data == "buy_coin" + ":" + k;
    SecondFieldOf("buy_coin", k);
    assert data[..9] == "buy_coin:" && data[4] == 'c';
  }

  lemma PayRoundTrip(m: string)
    requires ':' !in m
    ensures ClassifyPress(PressData(Pay(m))) == Pay(m)
  {
    var data := PressData(Pay(m));
    assert data == "pay" + ":" + m;
    SecondFieldOf("pay", m);
    assert data[0] == 'p' && data[..4] == "pay:";
  }

  lemma SelectLicenseRoundTrip(k: string)
    requires ':' !in k
    ensures ClassifyPress(PressData(SelectLicense(k))) == SelectLicense(k)
  {
    var data := PressData(SelectLicense(k));
    assert data == "select_license" + ":" + k;
    SecondFieldOf("select_license", k);
    assert data[0] == 's' && data[..15] == "select_license:";
  }

  /** A fixed payload starts with none of the prefixes that carry a key. */
  lemma FixedPressRoundTrip(p: Press)
    requires p.BuyLicensePrompt? || p.ConfirmLicensePurchase? || p.BackToStart? || p.BackToPlans?
          || p.BackToLicensePlanSelection? || p.BackToEmailPrompt?
    ensures ClassifyPress(PressData(p)) == p
  {
    var data := PressData(p);
    NotStartsWith(data, "buy_coin:", if data[0] == 'b' then 4 else 0);
    NotStartsWith(data, "pay:", 0);
    NotStartsWith(data, "select_license:", 0);
  }

  /** Every button the bot draws is classified as the press it stands for. */
  lemma PressRoundTrip(p: Press)
    requires KeyIsPlain(p)
    ensures ClassifyPress(PressData(p)) == p
  {
    match p {
      case BuyCoin(k) => BuyCoinRoundTrip(k);
      case Pay(m) => PayRoundTrip(m);
      case SelectLicense(k) => SelectLicenseRoundTrip(k);
      case BuyZoomPrompt =>
      case BuyLicensePrompt => FixedPressRoundTrip(p);
      case ConfirmLicensePurchase => FixedPressRoundTrip(p);
      case BackToStart => FixedPressRoundTrip(p);
      case BackToPlans => FixedPressRoundTrip(p);
      case BackToLicensePlanSelection => FixedPressRoundTrip(p);
      case BackToEmailPrompt => FixedPressRoundTrip(p);
    }
  }
}
