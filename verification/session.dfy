/** A customer's conversation state as bot.js keeps it in the `users` row:
    the `stage` string, the `temp_data` object and the `coin_balance`. */
module Session {
  import opened Common
  import opened Catalog
  import opened Email

  /** The stages the handlers write. */
  datatype Stage =
    | Stage1                 // start menu shown
    | Stage2Plans            // coin plans shown
    | Stage3Payment          // plan chosen, payment methods shown
    | AwaitingPaymentProof   // payee shown, waiting for the screenshot
    | Start                  // idle
    | PromptEmail            // licence flow: waiting for the e-mail
    | SelectingLicensePlan   // licence flow: plans shown
    | ConfirmingLicense      // licence flow: waiting for Confirm
    | AwaitingPhoto          // owner: waiting for the promo photo
  {
    /** The string stored in `users.stage`. */
    function Name(): string {
      match this
      case Stage1 => "stage_1"
      case Stage2Plans => "stage_2_plans"
      case Stage3Payment => "stage_3_payment"
      case AwaitingPaymentProof => "awaiting_payment_proof"
      case Start => "start"
      case PromptEmail => "prompt_email"
      case SelectingLicensePlan => "selecting_license_plan"
      case ConfirmingLicense => "confirming_license"
      case AwaitingPhoto => "awaiting_photo"
    }
  }

  /** The stored string read back as a stage; `None` for any other string. */
  function ParseStage(s: string): Option<Stage> {
    if s == "stage_1" then Some(Stage1)
    else if s == "stage_2_plans" then Some(Stage2Plans)
    else if s == "stage_3_payment" then Some(Stage3Payment)
    else if s == "awaiting_payment_proof" then Some(AwaitingPaymentProof)
    else if s == "start" then Some(Start)
    else if s == "prompt_email" then Some(PromptEmail)
    else if s == "selecting_license_plan" then Some(SelectingLicensePlan)
    else if s == "confirming_license" then Some(ConfirmingLicense)
    else if s == "awaiting_photo" then Some(AwaitingPhoto)
    else None
  }

  /** Every stage is stored as a string that reads back as that stage, so no
      two stages share a string. */
  lemma StageNameRoundTrip(st: Stage)
    ensures ParseStage(st.Name()) == Some(st)
  {
  }

  /** `temp_data`: the only keys any handler writes, each possibly absent. */
  datatype Draft = Draft(
    plan: Option<string>,
    name: Option<string>,
    days: Option<int>,
    coins: Option<int>,
    price: Option<int>,
    email: Option<string>)

  /** The empty draft. */
  const EmptyDraft: Draft := Draft(None, None, None, None, None, None)

  /** JavaScript truthiness of a string field: present and non-empty. */
  predicate TruthyText(v: Option<string>) {
    v.Some? && v.value != ""
  }

  /** JavaScript truthiness of a number field: present and non-zero. */
  predicate TruthyNumber(v: Option<int>) {
    v.Some? && v.value != 0
  }

  /** The draft of a coin purchase: the plan's name, days, coins and price,
      and nothing else. */
  function CoinDraft(p: Plan): Draft {
    Draft(Some(p.name), None, Some(p.days), Some(p.coins), Some(p.price), None)
  }

  /** The draft after a valid address: that address and nothing else. */
  function EmailDraft(e: string): Draft {
    Draft(None, None, None, None, None, Some(e))
  }

  /** A plan spread over the draft: the plan's own fields `name`, `days`,
      `coins` and `price` replace the draft's, and the rest is kept. */
  function MergePlan(d: Draft, p: Plan): Draft {
    d.(name := Some(p.name), days := Some(p.days), coins := Some(p.coins), price := Some(p.price))
  }

  /** A row of `users`. */
  datatype User = User(stage: Stage, draft: Draft, balance: nat)

  /** The row `getUser` inserts on first contact. */
  const NewUser: User := User(Start, EmptyDraft, 0)

  // ---------------------------------------------------------------------
  // The shapes a draft takes

  /** A coin-purchase draft, copied from a catalogue entry. */
  predicate IsCoinDraft(d: Draft) {
    d.plan.Some? && d.plan.value in Plans && d == CoinDraft(Plans[d.plan.value])
  }

  /** A licence draft holding an accepted address only. */
  predicate IsEmailDraft(d: Draft) {
    d.email.Some? && MatchesEmailPattern(d.email.value) && d == EmailDraft(d.email.value)
  }

  /** A licence draft holding an accepted address and a catalogue plan. */
  predicate IsLicenseDraft(d: Draft) {
    && d.email.Some? && MatchesEmailPattern(d.email.value)
    && d.name.Some? && d.name.value in Plans
    && d == MergePlan(EmailDraft(d.email.value), Plans[d.name.value])
  }

  predicate WellShaped(d: Draft) {
    d == EmptyDraft || IsCoinDraft(d) || IsEmailDraft(d) || IsLicenseDraft(d)
  }

  /** The draft fits the stage: a coin draft while paying, a full licence
      draft while confirming, nothing on the start menu or at the e-mail
      prompt. Other stages are reachable with any well-shaped draft, because
      button handlers do not look at the stage. */
  predicate Consistent(u: User) {
    && WellShaped(u.draft)
    && (u.stage == Stage3Payment || u.stage == AwaitingPaymentProof ==> IsCoinDraft(u.draft))
    && (u.stage == ConfirmingLicense ==> IsLicenseDraft(u.draft))
    && (u.stage == Stage1 || u.stage == PromptEmail ==> u.draft == EmptyDraft)
  }

  /** A coin draft copies the catalogue entry field for field and holds
      nothing else. */
  lemma CoinDraftCopiesPlan(k: string)
    requires k in Plans
    ensures var d := CoinDraft(Plans[k]);
      && d.plan == Some(k) && d.days == Some(Plans[k].days)
      && d.coins == Some(Plans[k].coins) && d.price == Some(Plans[k].price)
      && d.name.None? && d.email.None?
      && IsCoinDraft(d)
  {
    PlansWellFormed();
  }

  /** Merging a catalogue plan into a draft that carries an accepted address
      keeps the address and yields a full licence draft. */
  lemma MergeKeepsAddress(d: Draft, k: string)
    requires IsEmailDraft(d) || IsLicenseDraft(d)
    requires k in Plans
    ensures MergePlan(d, Plans[k]).email == d.email
    ensures IsLicenseDraft(MergePlan(d, Plans[k]))
    ensures TruthyNumber(MergePlan(d, Plans[k]).coins)
  {
    PlansWellFormed();
  }
}
