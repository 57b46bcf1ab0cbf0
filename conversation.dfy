/**
 * The per-user conversation context as an object: the handlers set its
 * state, update its data and clear it in place, in the order the bot's
 * handlers do, and write the store object on a confirmed payment. Each method
 * is proved to produce exactly the step the corresponding pure handler
 * describes, so every property proved about `Dispatch` holds of it.
 */
module Conversation {

  import opened Wrappers
  import States
  import opened Catalog
  import opened Database
  import opened Handlers
  import opened Protocol

  class Session {

    var state: States.State
    var data: Bag

    /** A fresh context: no state set, no data. */
    constructor ()
      ensures state == States.Idle && data == EMPTY_BAG
      ensures forall plans :: Inv(plans, state, data)
    {
      state := States.Idle;
      data := EMPTY_BAG;
    }

    /** `state.clear()`: drops the state and all data. */
    method Clear()
      modifies this
      ensures state == States.Idle && data == EMPTY_BAG
    {
      state := States.Idle;
      data := EMPTY_BAG;
    }

    method StartCommand(store: SubscriptionStore) returns (effects: seq<Effect>)
      modifies this
      ensures Step(state, data, store.table, effects) == StartStep(store.table)
    {
      effects := [Say(Welcome)];
      Clear();
    }

    method HandleMenu(cfg: Config, store: SubscriptionStore, user: UserId, now: int, text: string) returns (effects: seq<Effect>)
      requires ValidConfig(cfg)
      requires state == States.Idle
      modifies this
      ensures Step(state, data, store.table, effects) == MenuStep(cfg, store.table, user, now, old(data), text)
    {
      var v := GetSubscription(store.table, user, now);
      var lang := v.language;
      if text == Label(cfg, PROFILE_BUTTON, lang) {
        if Truthy(v.subscriptionId) && Find(cfg.plans, v.subscriptionId.value).None? {
          effects := [Aborted];
        } else {
          effects := [Say(Profile(v))];
        }
      } else if text == Label(cfg, REMOVE_ACCOUNT_BUTTON, lang) {
        if Truthy(v.subscriptionId) {
          effects := [Say(EnterTargetPrompt)];
          state := States.EnterTarget;
        } else {
          effects := [Say(NeedSubscription)];
        }
      } else if text == Label(cfg, BUY_SUBSCRIPTION_BUTTON, lang) {
        effects := [Say(PlanList)];
        state := States.SelectSubscription;
      } else if text == Label(cfg, INFO_BUTTON, lang) {
        effects := [Say(ServiceInfo)];
      } else if text == Label(cfg, CHANGE_LANGUAGE_BUTTON, lang) {
        effects := [Say(LanguagePicker)];
      } else {
        effects := [Say(InvalidInput)];
      }
    }

    method SelectSubscription(cfg: Config, store: SubscriptionStore, user: UserId, now: int, text: string) returns (effects: seq<Effect>)
      requires ValidConfig(cfg)
      requires state == States.SelectSubscription
      modifies this
      ensures Step(state, data, store.table, effects) == SelectStep(cfg, store.table, user, now, old(data), text)
    {
      var lang := Language(store.table, user, now);
      if text == Label(cfg, CANCEL_BUTTON, lang) {
        effects := [Say(ActionCanceled)];
        Clear();
        return;
      }
      var selected := FindPlan(cfg.plans, text);
      if Truthy(selected) {
        data := data.(subscriptionId := selected);
        effects := [Say(PlanSelected(selected.value))];
        state := States.ConfirmOrder;
      } else {
        effects := [Say(SelectValidPlan)];
      }
    }

    method EnterTarget(cfg: Config, store: SubscriptionStore, user: UserId, now: int, text: string) returns (effects: seq<Effect>)
      requires ValidConfig(cfg)
      requires state == States.EnterTarget
      modifies this
      ensures Step(state, data, store.table, effects) == TargetStep(cfg, store.table, user, now, old(data), text)
    {
      var lang := Language(store.table, user, now);
      if text == Label(cfg, CANCEL_BUTTON, lang) {
        effects := [Say(ActionCanceled)];
        Clear();
        return;
      }
      data := data.(target := Some(text));
      effects := [Say(TargetConfirmation(text))];
      state := States.ConfirmOrder;
    }

    method ConfirmOrder(cfg: Config, store: SubscriptionStore, user: UserId, now: int, text: string,
                        invoice: InvoiceResult, replyFails: bool) returns (effects: seq<Effect>)
      requires ValidConfig(cfg)
      requires state == States.ConfirmOrder
      modifies this
      ensures Step(state, data, store.table, effects) == ConfirmStep(cfg, store.table, user, now, old(data), text, invoice, replyFails)
    {
      var lang := Language(store.table, user, now);
      if text == Label(cfg, CANCEL_BUTTON, lang) {
        effects := [Say(ActionCanceled)];
        Clear();
        return;
      }
      if text != Label(cfg, CONFIRM_BUTTON, lang) {
        effects := [Say(ConfirmOrCancel)];
        return;
      }
      if Truthy(data.subscriptionId) {
        var sub := data.subscriptionId.value;
        if Find(cfg.plans, sub).None? {
          effects := [Aborted];
          return;
        }
        effects := [RequestInvoice(sub)];
        match invoice
        case Created(invoiceId, payUrl) =>
          data := data.(invoiceId := Some(invoiceId));
          effects := effects + [Say(InvoiceCreated(payUrl))];
          state := States.CheckPayment;
        case NotCreated =>
          effects := effects + [Say(InvoiceError)];
          Clear();
        case Raised =>
          effects := effects + [Say(OrderError)];
          Clear();
      } else if Truthy(data.target) {
        if replyFails {
          effects := [Say(OrderError)];
        } else {
          effects := [Say(OrderAccepted)];
        }
        Clear();
      } else {
        effects := [];
      }
    }

    method CheckPayment(cfg: Config, store: SubscriptionStore, user: UserId, now: int, text: string,
                        status: InvoiceStatus, saveFails: bool, replyFails: bool) returns (effects: seq<Effect>)
      requires ValidConfig(cfg)
      requires state == States.CheckPayment
      modifies this, store
      ensures Step(state, data, store.table, effects) ==
              PaymentStep(cfg, old(store.table), user, now, old(data), text, status, saveFails, replyFails)
    {
      var lang := Language(store.table, user, now);
      if text == Label(cfg, CANCEL_BUTTON, lang) {
        effects := [Say(ActionCanceled)];
        Clear();
        return;
      }
      if text != Label(cfg, CHECK_PAYMENT_BUTTON, lang) {
        effects := [Say(CheckOrCancel)];
        return;
      }
      if data.invoiceId.None? || data.subscriptionId.None? {
        effects := [Aborted];
        return;
      }
      var invoiceId := data.invoiceId.value;
      var sub := data.subscriptionId.value;
      effects := [QueryInvoice(invoiceId)];
      if status.status == Some(PAID) {
        var ok := store.Save(cfg.plans, user, sub, lang, now, saveFails);
        if !ok {
          effects := effects + [Say(PaymentCheckError)];
          Clear();
          return;
        }
        effects := effects + [Upsert(user, sub, lang)];
        if replyFails {
          effects := effects + [Say(PaymentCheckError)];
        } else {
          effects := effects + [Say(PaymentConfirmed(sub))];
        }
        Clear();
      } else if replyFails {
        effects := effects + [Say(PaymentCheckError)];
        Clear();
      } else if Truthy(status.status) {
        effects := effects + [Say(PaymentPending)];
      } else {
        effects := effects + [Say(PaymentCheckError)];
      }
    }

    /**
     * One inbound event: `/start` first, then the handler registered for the
     * current state. The session invariant is kept.
     */
    method Handle(cfg: Config, store: SubscriptionStore, user: UserId, now: int, isStart: bool, text: string,
                  oracles: Oracles) returns (effects: seq<Effect>)
      requires ValidConfig(cfg)
      modifies this, store
      ensures Step(state, data, store.table, effects) ==
              Dispatch(cfg, old(store.table), user, now, old(state), old(data), isStart, text, oracles)
      ensures Inv(cfg.plans, old(state), old(data)) ==> Inv(cfg.plans, state, data)
    {
      ghost var wasValid := Inv(cfg.plans, state, data);
      if wasValid {
        InvariantKept(cfg, store.table, user, now, state, data, isStart, text, oracles);
      }
      if isStart {
        effects := StartCommand(store);
        return;
      }
      match state
      case Idle => effects := HandleMenu(cfg, store, user, now, text);
      case SelectSubscription => effects := SelectSubscription(cfg, store, user, now, text);
      case EnterTarget => effects := EnterTarget(cfg, store, user, now, text);
      case ConfirmOrder => effects := ConfirmOrder(cfg, store, user, now, text, oracles.invoice, oracles.replyFails);
      case CheckPayment => effects := CheckPayment(cfg, store, user, now, text, oracles.status, oracles.saveFails, oracles.replyFails);
    }
  }

}
