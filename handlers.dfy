/**
 * The order conversation, one handler per state, each written as a pure step
 * from (session data, store snapshot, current time, user text, gateway
 * results) to (next state, next data, next table, effects). Effects list the
 * calls out of the conversation in the order the handler makes them: replies,
 * gateway requests, store writes, and an uncaught exception that aborts the
 * handler.
 */
module Handlers {

  import opened Wrappers
  import opened States
  import opened Localization
  import opened Catalog
  import opened Database

  /** The per-user session data: keys set by `update_data`, `None` for a key never set. */
  datatype Bag = Bag(subscriptionId: Option<string>, target: Option<string>, invoiceId: Option<string>)

  const EMPTY_BAG: Bag := Bag(None, None, None)

  /** The reply kinds; texts, emoji and keyboards are not modelled. */
  datatype Reply =
    | Welcome
    | Profile(view: View)
    | EnterTargetPrompt
    | NeedSubscription
    | PlanList
    | ServiceInfo
    | LanguagePicker
    | InvalidInput
    | ActionCanceled
    | PlanSelected(planId: string)
    | SelectValidPlan
    | TargetConfirmation(target: string)
    | ConfirmOrCancel
    | InvoiceCreated(payUrl: string)
    | InvoiceError
    | OrderError
    | OrderAccepted
    | CheckOrCancel
    | PaymentConfirmed(planId: string)
    | PaymentPending
    | PaymentCheckError

  datatype Effect =
    | Say(reply: Reply)
    | RequestInvoice(planId: string)
    | QueryInvoice(invoiceId: string)
    | Upsert(user: UserId, planId: string, language: string)
    | Aborted

  /**
   * What invoice creation comes to inside the handler's `try`: an invoice, the
   * gateway's `None`, or an exception raised in the block.
   */
  datatype InvoiceResult = Created(invoiceId: string, payUrl: string) | NotCreated | Raised

  /** The gateway's status pair; every gateway failure arrives as `(None, None)`. */
  datatype InvoiceStatus = InvoiceStatus(status: Option<string>, payUrl: Option<string>)

  /**
   * The results the outside world gives one event: the gateway's answers, a
   * store write that raises, and a reply inside a handler's `try` whose
   * sending raises.
   */
  datatype Oracles = Oracles(invoice: InvoiceResult, status: InvoiceStatus, saveFails: bool, replyFails: bool)

  datatype Config = Config(translations: Translations, defaultLanguage: string, plans: seq<Plan>)

  /** The configuration every handler relies on: the default table exists and plan ids are keys. */
  predicate ValidConfig(cfg: Config)
  {
    cfg.defaultLanguage in cfg.translations && DistinctIds(cfg.plans)
  }

  /** The result of one handled event. */
  datatype Step = Step(state: State, data: Bag, table: Table, effects: seq<Effect>)

  const CANCEL_BUTTON := "cancel_button"
  const CONFIRM_BUTTON := "confirm_button"
  const CHECK_PAYMENT_BUTTON := "check_payment_button"
  const PROFILE_BUTTON := "profile_button"
  const REMOVE_ACCOUNT_BUTTON := "remove_account_button"
  const BUY_SUBSCRIPTION_BUTTON := "buy_subscription_button"
  const INFO_BUTTON := "info_button"
  const CHANGE_LANGUAGE_BUTTON := "change_language_button"

  const PAID := "paid"

  /** Python truthiness of an optional string: present and non-empty. */
  predicate Truthy(s: Option<string>)
  {
    s.Some? && s.value != ""
  }

  /** The label of a button in a language. */
  function Label(cfg: Config, key: string, language: string): string
    requires ValidConfig(cfg)
  {
    Localize(cfg.translations, cfg.defaultLanguage, key, language)
  }

  /** The language every handler first reads from the store. */
  function Language(table: Table, user: UserId, now: int): string
  {
    GetSubscription(table, user, now).language
  }

  /** The step that clears state and data. */
  function Cleared(table: Table, effects: seq<Effect>): Step
  {
    Step(Idle, EMPTY_BAG, table, effects)
  }

  /**
   * The index of the first plan, in catalogue order, whose name is a prefix
   * of `text`, or the catalogue's length when there is none.
   */
  function FirstMatch(plans: seq<Plan>, text: string): (k: nat)
    ensures k <= |plans|
    ensures k < |plans| ==> plans[k].name <= text
    ensures forall j :: 0 <= j < k ==> !(plans[j].name <= text)
  {
    if |plans| == 0 then 0
    else if plans[0].name <= text then 0
    else
      var k := FirstMatch(plans[1..], text);
      assert forall j :: 1 <= j < k + 1 ==> plans[j] == plans[1..][j - 1];
      1 + k
  }

  /** The plan id the selection loop settles on. */
  function PlanFor(plans: seq<Plan>, text: string): (r: Option<string>)
    ensures r.Some? ==> r.value in Ids(plans)
    ensures r.Some? ==> exists k :: 0 <= k < |plans| && plans[k].id == r.value && plans[k].name <= text &&
                                    forall j :: 0 <= j < k ==> !(plans[j].name <= text)
    ensures r.None? <==> forall p :: p in plans ==> !(p.name <= text)
  {
    var k := FirstMatch(plans, text);
    if k < |plans| then
      assert plans[k] in plans;
      Some(plans[k].id)
    else None
  }

  /** The selection loop: scan the catalogue in order and stop at the first matching plan. */
  method FindPlan(plans: seq<Plan>, text: string) returns (selected: Option<string>)
    ensures selected == PlanFor(plans, text)
  {
    selected := None;
    var i := 0;
    while i < |plans|
      invariant 0 <= i <= |plans|
      invariant forall j :: 0 <= j < i ==> !(plans[j].name <= text)
    {
      if plans[i].name <= text {
        selected := Some(plans[i].id);
        break;
      }
      i := i + 1;
    }
  }

  /** `/start`: greet and clear the session, in any state. */
  function StartStep(table: Table): Step
  {
    Cleared(table, [Say(Welcome)])
  }

  /** The menu, in the state with no state set: labels are tried in order and only two change the state. */
  function MenuStep(cfg: Config, table: Table, user: UserId, now: int, data: Bag, text: string): Step
    requires ValidConfig(cfg)
  {
    var v := GetSubscription(table, user, now);
    var lang := v.language;
    if text == Label(cfg, PROFILE_BUTTON, lang) then
      if Truthy(v.subscriptionId) && Find(cfg.plans, v.subscriptionId.value).None? then
        Step(Idle, data, table, [Aborted])
      else
        Step(Idle, data, table, [Say(Profile(v))])
    else if text == Label(cfg, REMOVE_ACCOUNT_BUTTON, lang) then
      if Truthy(v.subscriptionId) then
        Step(EnterTarget, data, table, [Say(EnterTargetPrompt)])
      else
        Step(Idle, data, table, [Say(NeedSubscription)])
    else if text == Label(cfg, BUY_SUBSCRIPTION_BUTTON, lang) then
      Step(SelectSubscription, data, table, [Say(PlanList)])
    else if text == Label(cfg, INFO_BUTTON, lang) then
      Step(Idle, data, table, [Say(ServiceInfo)])
    else if text == Label(cfg, CHANGE_LANGUAGE_BUTTON, lang) then
      Step(Idle, data, table, [Say(LanguagePicker)])
    else
      Step(Idle, data, table, [Say(InvalidInput)])
  }

  /** Plan selection: cancel first, then the first plan whose name prefixes the text. */
  function SelectStep(cfg: Config, table: Table, user: UserId, now: int, data: Bag, text: string): Step
    requires ValidConfig(cfg)
  {
    var lang := Language(table, user, now);
    if text == Label(cfg, CANCEL_BUTTON, lang) then
      Cleared(table, [Say(ActionCanceled)])
    else
      var selected := PlanFor(cfg.plans, text);
      if Truthy(selected) then
        Step(ConfirmOrder, data.(subscriptionId := selected), table, [Say(PlanSelected(selected.value))])
      else
        Step(SelectSubscription, data, table, [Say(SelectValidPlan)])
  }

  /** Target entry: cancel first, then any other text is the target, verbatim. */
  function TargetStep(cfg: Config, table: Table, user: UserId, now: int, data: Bag, text: string): Step
    requires ValidConfig(cfg)
  {
    var lang := Language(table, user, now);
    if text == Label(cfg, CANCEL_BUTTON, lang) then
      Cleared(table, [Say(ActionCanceled)])
    else
      Step(ConfirmOrder, data.(target := Some(text)), table, [Say(TargetConfirmation(text))])
  }

  /**
   * Order confirmation: cancel first, then only the confirm label acts. A
   * purchase asks the gateway for an invoice; a removal order is accepted
   * without the gateway or the store, and a failing acceptance reply inside
   * its `try` is answered with the order error instead, still clearing.
   */
  function ConfirmStep(cfg: Config, table: Table, user: UserId, now: int, data: Bag, text: string,
                       invoice: InvoiceResult, replyFails: bool): Step
    requires ValidConfig(cfg)
  {
    var lang := Language(table, user, now);
    if text == Label(cfg, CANCEL_BUTTON, lang) then
      Cleared(table, [Say(ActionCanceled)])
    else if text != Label(cfg, CONFIRM_BUTTON, lang) then
      Step(ConfirmOrder, data, table, [Say(ConfirmOrCancel)])
    else if Truthy(data.subscriptionId) then
      var sub := data.subscriptionId.value;
      if Find(cfg.plans, sub).None? then
        Step(ConfirmOrder, data, table, [Aborted])
      else
        match invoice
        case Created(invoiceId, payUrl) =>
          Step(CheckPayment, data.(invoiceId := Some(invoiceId)), table, [RequestInvoice(sub), Say(InvoiceCreated(payUrl))])
        case NotCreated =>
          Cleared(table, [RequestInvoice(sub), Say(InvoiceError)])
        case Raised =>
          Cleared(table, [RequestInvoice(sub), Say(OrderError)])
    else if Truthy(data.target) then
      if replyFails then Cleared(table, [Say(OrderError)]) else Cleared(table, [Say(OrderAccepted)])
    else
      Step(ConfirmOrder, data, table, [])
  }

  /**
   * Payment check: cancel first, then only the check label acts. "paid"
   * writes the store and then replies; another non-empty status keeps
   * polling; an empty status reports an error and keeps polling. Only an
   * exception inside the `try` clears the session: a failing write, or a
   * reply whose sending fails (after a successful write the row stays
   * written); the handler then answers with the payment-check error.
   */
  function PaymentStep(cfg: Config, table: Table, user: UserId, now: int, data: Bag, text: string,
                       status: InvoiceStatus, saveFails: bool, replyFails: bool): Step
    requires ValidConfig(cfg)
  {
    var lang := Language(table, user, now);
    if text == Label(cfg, CANCEL_BUTTON, lang) then
      Cleared(table, [Say(ActionCanceled)])
    else if text != Label(cfg, CHECK_PAYMENT_BUTTON, lang) then
      Step(CheckPayment, data, table, [Say(CheckOrCancel)])
    else if data.invoiceId.None? || data.subscriptionId.None? then
      Step(CheckPayment, data, table, [Aborted])
    else
      var invoiceId := data.invoiceId.value;
      var sub := data.subscriptionId.value;
      if status.status == Some(PAID) then
        if saveFails || Find(cfg.plans, sub).None? then
          Cleared(table, [QueryInvoice(invoiceId), Say(PaymentCheckError)])
        else if replyFails then
          Cleared(Upserted(table, cfg.plans, user, sub, lang, now),
                  [QueryInvoice(invoiceId), Upsert(user, sub, lang), Say(PaymentCheckError)])
        else
          Cleared(Upserted(table, cfg.plans, user, sub, lang, now),
                  [QueryInvoice(invoiceId), Upsert(user, sub, lang), Say(PaymentConfirmed(sub))])
      else if replyFails then
        Cleared(table, [QueryInvoice(invoiceId), Say(PaymentCheckError)])
      else if Truthy(status.status) then
        Step(CheckPayment, data, table, [QueryInvoice(invoiceId), Say(PaymentPending)])
      else
        Step(CheckPayment, data, table, [QueryInvoice(invoiceId), Say(PaymentCheckError)])
  }

  /**
   * Routing of one event: the `/start` command first (`isStart` is the
   * transport's command filter), then the handler registered for the state.
   */
  function Dispatch(cfg: Config, table: Table, user: UserId, now: int, state: State, data: Bag,
                    isStart: bool, text: string, oracles: Oracles): Step
    requires ValidConfig(cfg)
  {
    if isStart then StartStep(table)
    else
      match state
      case Idle => MenuStep(cfg, table, user, now, data, text)
      case SelectSubscription => SelectStep(cfg, table, user, now, data, text)
      case EnterTarget => TargetStep(cfg, table, user, now, data, text)
      case ConfirmOrder => ConfirmStep(cfg, table, user, now, data, text, oracles.invoice, oracles.replyFails)
      case CheckPayment => PaymentStep(cfg, table, user, now, data, text, oracles.status, oracles.saveFails, oracles.replyFails)
  }

}
