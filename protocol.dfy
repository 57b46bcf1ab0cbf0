/**
 * Properties of the order conversation, stated over `Dispatch`: what each
 * state does with each input, the session invariant every handler keeps, the
 * forward-only shape of the state graph, and how the conversation touches the
 * subscription store.
 */
module Protocol {

  import opened Wrappers
  import opened States
  import opened Catalog
  import opened Database
  import opened Handlers

  /** `text` is the label of `key` in the language the handlers read for `user` at `now`. */
  predicate IsLabel(cfg: Config, table: Table, user: UserId, now: int, key: string, text: string)
    requires ValidConfig(cfg)
  {
    text == Label(cfg, key, Language(table, user, now))
  }

  /**
   * The session invariant: no data outside the confirm and payment states; at
   * confirmation exactly one of a catalogue plan and a target, and no invoice;
   * while polling a catalogue plan and an invoice, and no target.
   */
  predicate Inv(plans: seq<Plan>, state: State, data: Bag)
  {
    match state
    case Idle => data == EMPTY_BAG
    case SelectSubscription => data == EMPTY_BAG
    case EnterTarget => data == EMPTY_BAG
    case ConfirmOrder =>
      data.invoiceId.None? &&
      ((data.subscriptionId.Some? && data.subscriptionId.value in Ids(plans) && data.target.None?) ||
       (data.subscriptionId.None? && data.target.Some?))
    case CheckPayment =>
      data.subscriptionId.Some? && data.subscriptionId.value in Ids(plans) &&
      data.target.None? && data.invoiceId.Some?
  }

  /** The allowed moves: stay, fall back to the menu, or take one step forward. */
  predicate Forward(from: State, to: State)
  {
    to == from || to == Idle ||
    (from == Idle && (to == SelectSubscription || to == EnterTarget)) ||
    (from == SelectSubscription && to == ConfirmOrder) ||
    (from == EnterTarget && to == ConfirmOrder) ||
    (from == ConfirmOrder && to == CheckPayment)
  }

  /** In every state but the menu, the cancel label wins over every other reading of the text and clears the session. */
  lemma CancelClearsSession(cfg: Config, table: Table, user: UserId, now: int, state: State, data: Bag,
                            text: string, oracles: Oracles)
    requires ValidConfig(cfg)
    requires state != Idle
    requires IsLabel(cfg, table, user, now, CANCEL_BUTTON, text)
    ensures Dispatch(cfg, table, user, now, state, data, false, text, oracles) ==
            Step(Idle, EMPTY_BAG, table, [Say(ActionCanceled)])
  {
  }

  /** `/start` clears the session in every state. */
  lemma StartClearsSession(cfg: Config, table: Table, user: UserId, now: int, state: State, data: Bag,
                           text: string, oracles: Oracles)
    requires ValidConfig(cfg)
    ensures Dispatch(cfg, table, user, now, state, data, true, text, oracles) ==
            Step(Idle, EMPTY_BAG, table, [Say(Welcome)])
  {
  }

  /**
   * The menu never touches data or store; it moves only on the buy label (to
   * plan selection) and on the remove label with an active plan (to target
   * entry); every other text, the cancel label included, keeps the menu.
   */
  lemma MenuMoves(cfg: Config, table: Table, user: UserId, now: int, data: Bag, text: string, oracles: Oracles)
    requires ValidConfig(cfg)
    ensures var r := Dispatch(cfg, table, user, now, Idle, data, false, text, oracles);
            var v := GetSubscription(table, user, now);
            && r.data == data && r.table == table
            && (r.state == SelectSubscription <==>
                  IsLabel(cfg, table, user, now, BUY_SUBSCRIPTION_BUTTON, text) &&
                  !IsLabel(cfg, table, user, now, PROFILE_BUTTON, text) &&
                  !IsLabel(cfg, table, user, now, REMOVE_ACCOUNT_BUTTON, text))
            && (r.state == EnterTarget <==>
                  IsLabel(cfg, table, user, now, REMOVE_ACCOUNT_BUTTON, text) &&
                  !IsLabel(cfg, table, user, now, PROFILE_BUTTON, text) &&
                  Truthy(v.subscriptionId))
            && (r.state == Idle || r.state == SelectSubscription || r.state == EnterTarget)
  {
  }

  /** Removal needs a plan id: when the read reports none, or an empty one, the menu answers so and stays put. */
  lemma RemovalNeedsSubscription(cfg: Config, table: Table, user: UserId, now: int, data: Bag, text: string, oracles: Oracles)
    requires ValidConfig(cfg)
    requires !Truthy(GetSubscription(table, user, now).subscriptionId)
    requires IsLabel(cfg, table, user, now, REMOVE_ACCOUNT_BUTTON, text)
    requires !IsLabel(cfg, table, user, now, PROFILE_BUTTON, text)
    ensures Dispatch(cfg, table, user, now, Idle, data, false, text, oracles) ==
            Step(Idle, data, table, [Say(NeedSubscription)])
  {
  }

  /**
   * Plan selection takes the first plan in catalogue order whose name is a
   * prefix of the text, stores its id and moves to confirmation; with no such
   * plan (or one whose id is empty) nothing changes.
   */
  lemma SelectTakesFirstMatch(cfg: Config, table: Table, user: UserId, now: int, data: Bag, text: string, oracles: Oracles)
    requires ValidConfig(cfg)
    requires !IsLabel(cfg, table, user, now, CANCEL_BUTTON, text)
    ensures var r := Dispatch(cfg, table, user, now, SelectSubscription, data, false, text, oracles);
            var k := FirstMatch(cfg.plans, text);
            if k < |cfg.plans| && cfg.plans[k].id != "" then
              r == Step(ConfirmOrder, data.(subscriptionId := Some(cfg.plans[k].id)), table,
                        [Say(PlanSelected(cfg.plans[k].id))]) &&
              cfg.plans[k].name <= text &&
              forall j :: 0 <= j < k ==> !(cfg.plans[j].name <= text)
            else
              r == Step(SelectSubscription, data, table, [Say(SelectValidPlan)])
  {
  }

  /** Target entry stores any text but the cancel label verbatim and moves to confirmation. */
  lemma TargetStoredVerbatim(cfg: Config, table: Table, user: UserId, now: int, data: Bag, text: string, oracles: Oracles)
    requires ValidConfig(cfg)
    requires !IsLabel(cfg, table, user, now, CANCEL_BUTTON, text)
    ensures var r := Dispatch(cfg, table, user, now, EnterTarget, data, false, text, oracles);
            r.state == ConfirmOrder && r.data == data.(target := Some(text)) && r.table == table
  {
  }

  /** At confirmation, a text that is neither label changes nothing. */
  lemma ConfirmIgnoresOtherText(cfg: Config, table: Table, user: UserId, now: int, data: Bag, text: string, oracles: Oracles)
    requires ValidConfig(cfg)
    requires !IsLabel(cfg, table, user, now, CANCEL_BUTTON, text)
    requires !IsLabel(cfg, table, user, now, CONFIRM_BUTTON, text)
    ensures Dispatch(cfg, table, user, now, ConfirmOrder, data, false, text, oracles) ==
            Step(ConfirmOrder, data, table, [Say(ConfirmOrCancel)])
  {
  }

  /**
   * Confirming a purchase asks the gateway for an invoice: an invoice is
   * stored and polling starts; no invoice, or an exception, clears the session.
   * The store is never written here.
   */
  lemma ConfirmPurchase(cfg: Config, table: Table, user: UserId, now: int, data: Bag, text: string, oracles: Oracles)
    requires ValidConfig(cfg)
    requires Inv(cfg.plans, ConfirmOrder, data)
    requires !IsLabel(cfg, table, user, now, CANCEL_BUTTON, text)
    requires IsLabel(cfg, table, user, now, CONFIRM_BUTTON, text)
    requires Truthy(data.subscriptionId)
    ensures var r := Dispatch(cfg, table, user, now, ConfirmOrder, data, false, text, oracles);
            && r.table == table
            && |r.effects| == 2 && r.effects[0] == RequestInvoice(data.subscriptionId.value)
            && (oracles.invoice.Created? ==>
                  r.state == CheckPayment && r.data == data.(invoiceId := Some(oracles.invoice.invoiceId)) &&
                  r.effects[1] == Say(InvoiceCreated(oracles.invoice.payUrl)))
            && (!oracles.invoice.Created? ==> r.state == Idle && r.data == EMPTY_BAG)
            && (oracles.invoice.NotCreated? ==> r.effects[1] == Say(InvoiceError))
            && (oracles.invoice.Raised? ==> r.effects[1] == Say(OrderError))
  {
  }

  /**
   * Confirming a removal order clears the session without asking the gateway
   * or writing the store; the reply is the acceptance, or the order error when
   * sending the acceptance fails.
   */
  lemma ConfirmRemoval(cfg: Config, table: Table, user: UserId, now: int, data: Bag, text: string, oracles: Oracles)
    requires ValidConfig(cfg)
    requires !IsLabel(cfg, table, user, now, CANCEL_BUTTON, text)
    requires IsLabel(cfg, table, user, now, CONFIRM_BUTTON, text)
    requires !Truthy(data.subscriptionId) && Truthy(data.target)
    ensures var r := Dispatch(cfg, table, user, now, ConfirmOrder, data, false, text, oracles);
            r == Step(Idle, EMPTY_BAG, table, [Say(if oracles.replyFails then OrderError else OrderAccepted)]) &&
            forall e :: e in r.effects ==> !e.RequestInvoice? && !e.Upsert?
  {
  }

  /** While polling, a text that is neither the cancel nor the check label changes nothing. */
  lemma CheckIgnoresOtherText(cfg: Config, table: Table, user: UserId, now: int, data: Bag, text: string, oracles: Oracles)
    requires ValidConfig(cfg)
    requires !IsLabel(cfg, table, user, now, CANCEL_BUTTON, text)
    requires !IsLabel(cfg, table, user, now, CHECK_PAYMENT_BUTTON, text)
    ensures Dispatch(cfg, table, user, now, CheckPayment, data, false, text, oracles) ==
            Step(CheckPayment, data, table, [Say(CheckOrCancel)])
  {
  }

  /**
   * Checking payment: "paid" with a successful write stores the plan and then
   * confirms; "paid" with a failing write clears the session and writes
   * nothing; another non-empty status keeps polling; an empty status reports
   * an error and also keeps polling. A reply whose sending fails clears the
   * session with the payment-check error, after the write when there was one.
   */
  lemma CheckPaymentOutcomes(cfg: Config, table: Table, user: UserId, now: int, data: Bag, text: string, oracles: Oracles)
    requires ValidConfig(cfg)
    requires Inv(cfg.plans, CheckPayment, data)
    requires !IsLabel(cfg, table, user, now, CANCEL_BUTTON, text)
    requires IsLabel(cfg, table, user, now, CHECK_PAYMENT_BUTTON, text)
    ensures var r := Dispatch(cfg, table, user, now, CheckPayment, data, false, text, oracles);
            var sub := data.subscriptionId.value;
            var lang := Language(table, user, now);
            var query := QueryInvoice(data.invoiceId.value);
            && (oracles.status.status == Some(PAID) && !oracles.saveFails ==>
                  r == Step(Idle, EMPTY_BAG, Upserted(table, cfg.plans, user, sub, lang, now),
                            [query, Upsert(user, sub, lang),
                             Say(if oracles.replyFails then PaymentCheckError else PaymentConfirmed(sub))]))
            && (oracles.status.status == Some(PAID) && oracles.saveFails ==>
                  r == Step(Idle, EMPTY_BAG, table, [query, Say(PaymentCheckError)]))
            && (oracles.status.status != Some(PAID) && oracles.replyFails ==>
                  r == Step(Idle, EMPTY_BAG, table, [query, Say(PaymentCheckError)]))
            && (oracles.status.status != Some(PAID) && Truthy(oracles.status.status) && !oracles.replyFails ==>
                  r == Step(CheckPayment, data, table, [query, Say(PaymentPending)]))
            && (!Truthy(oracles.status.status) && !oracles.replyFails ==>
                  r == Step(CheckPayment, data, table, [query, Say(PaymentCheckError)]))
  {
    assert data.subscriptionId.value in Ids(cfg.plans);
  }

  /** Every handler keeps the session invariant, so the data never holds both a plan and a target. */
  lemma InvariantKept(cfg: Config, table: Table, user: UserId, now: int, state: State, data: Bag,
                      isStart: bool, text: string, oracles: Oracles)
    requires ValidConfig(cfg)
    requires Inv(cfg.plans, state, data)
    ensures var r := Dispatch(cfg, table, user, now, state, data, isStart, text, oracles);
            Inv(cfg.plans, r.state, r.data) && !(r.data.subscriptionId.Some? && r.data.target.Some?)
  {
  }

  /** No handler moves backwards: each event stays, falls back to the menu, or takes one forward step. */
  lemma NoBacktracking(cfg: Config, table: Table, user: UserId, now: int, state: State, data: Bag,
                       isStart: bool, text: string, oracles: Oracles)
    requires ValidConfig(cfg)
    ensures Forward(state, Dispatch(cfg, table, user, now, state, data, isStart, text, oracles).state)
  {
  }

  /**
   * The store changes only on a successful "paid" check, and then only by the
   * upsert of this user's row with the plan of the session and the language
   * read at the start of the handler.
   */
  lemma StoreWrittenOnlyWhenPaid(cfg: Config, table: Table, user: UserId, now: int, state: State, data: Bag,
                                 isStart: bool, text: string, oracles: Oracles)
    requires ValidConfig(cfg)
    ensures var r := Dispatch(cfg, table, user, now, state, data, isStart, text, oracles);
            r.table != table ==>
              && state == CheckPayment && !isStart
              && IsLabel(cfg, table, user, now, CHECK_PAYMENT_BUTTON, text)
              && oracles.status.status == Some(PAID) && !oracles.saveFails
              && data.subscriptionId.Some? && Find(cfg.plans, data.subscriptionId.value).Some?
              && r.table == Upserted(table, cfg.plans, user, data.subscriptionId.value, Language(table, user, now), now)
  {
  }

  /** Write-then-notify: a payment confirmation is only ever sent after the store write, in the same event. */
  lemma ConfirmationFollowsWrite(cfg: Config, table: Table, user: UserId, now: int, state: State, data: Bag,
                                 isStart: bool, text: string, oracles: Oracles)
    requires ValidConfig(cfg)
    ensures var r := Dispatch(cfg, table, user, now, state, data, isStart, text, oracles);
            forall j :: 0 <= j < |r.effects| && r.effects[j].Say? && r.effects[j].reply.PaymentConfirmed? ==>
              exists i :: 0 <= i < j && r.effects[i].Upsert?
  {
    var r := Dispatch(cfg, table, user, now, state, data, isStart, text, oracles);
    forall j | 0 <= j < |r.effects| && r.effects[j].Say? && r.effects[j].reply.PaymentConfirmed?
      ensures exists i :: 0 <= i < j && r.effects[i].Upsert?
    {
      assert r.effects[1].Upsert?;
    }
  }

  /**
   * The language written is the one read, and a read without an active row
   * gives the default: starting from a table where every row holds the
   * default language, every event keeps it so.
   */
  lemma LanguageStaysDefault(cfg: Config, table: Table, user: UserId, now: int, state: State, data: Bag,
                             isStart: bool, text: string, oracles: Oracles)
    requires ValidConfig(cfg)
    requires AllDefaultLanguage(table)
    ensures AllDefaultLanguage(Dispatch(cfg, table, user, now, state, data, isStart, text, oracles).table)
  {
    var r := Dispatch(cfg, table, user, now, state, data, isStart, text, oracles);
    ReadLanguageIsDefault(table, user, now);
    if r.table != table {
      StoreWrittenOnlyWhenPaid(cfg, table, user, now, state, data, isStart, text, oracles);
    }
  }

  /**
   * The whole purchase, for a user with no row: the buy label, a text whose
   * first matching plan is `k`, the confirm label with an invoice, and the
   * check label with "paid". The session ends cleared and the store holds
   * plan `k` with the default language until the payment time plus the plan's
   * duration; every read before that end returns the plan.
   */
  lemma PurchaseFlow(cfg: Config, table: Table, user: UserId, t1: int, t2: int, t3: int, t4: int,
                     buy: string, choice: string, confirm: string, check: string, k: int,
                     invoiceId: string, payUrl: string, o1: Oracles, o2: Oracles)
    requires ValidConfig(cfg)
    requires user !in table
    requires IsLabel(cfg, table, user, t1, BUY_SUBSCRIPTION_BUTTON, buy)
    requires !IsLabel(cfg, table, user, t1, PROFILE_BUTTON, buy) && !IsLabel(cfg, table, user, t1, REMOVE_ACCOUNT_BUTTON, buy)
    requires 0 <= k < |cfg.plans| && cfg.plans[k].id != "" && cfg.plans[k].name <= choice
    requires forall j :: 0 <= j < k ==> !(cfg.plans[j].name <= choice)
    requires !IsLabel(cfg, table, user, t2, CANCEL_BUTTON, choice)
    requires IsLabel(cfg, table, user, t3, CONFIRM_BUTTON, confirm) && !IsLabel(cfg, table, user, t3, CANCEL_BUTTON, confirm)
    requires IsLabel(cfg, table, user, t4, CHECK_PAYMENT_BUTTON, check) && !IsLabel(cfg, table, user, t4, CANCEL_BUTTON, check)
    ensures var s1 := Dispatch(cfg, table, user, t1, Idle, EMPTY_BAG, false, buy, o1);
            var s2 := Dispatch(cfg, s1.table, user, t2, s1.state, s1.data, false, choice, o1);
            var s3 := Dispatch(cfg, s2.table, user, t3, s2.state, s2.data, false, confirm,
                               o1.(invoice := Created(invoiceId, payUrl)));
            var s4 := Dispatch(cfg, s3.table, user, t4, s3.state, s3.data, false, check,
                               o2.(status := InvoiceStatus(Some(PAID), o2.status.payUrl), saveFails := false));
            var end := t4 + cfg.plans[k].durationDays * DAY_SECONDS;
            && s3.state == CheckPayment && s3.data == Bag(Some(cfg.plans[k].id), None, Some(invoiceId))
            && s4.state == Idle && s4.data == EMPTY_BAG
            && s4.table == table[user := Record(cfg.plans[k].id, end, DEFAULT_LANGUAGE)]
            && (forall t :: t < end ==> GetSubscription(s4.table, user, t).subscriptionId == Some(cfg.plans[k].id))
  {
    var s1 := Dispatch(cfg, table, user, t1, Idle, EMPTY_BAG, false, buy, o1);
    assert s1 == Step(SelectSubscription, EMPTY_BAG, table, [Say(PlanList)]);
    assert FirstMatch(cfg.plans, choice) == k;
    var id := cfg.plans[k].id;
    var s2 := Dispatch(cfg, s1.table, user, t2, s1.state, s1.data, false, choice, o1);
    assert s2 == Step(ConfirmOrder, Bag(Some(id), None, None), table, [Say(PlanSelected(id))]);
    FindEntry(cfg.plans, k);
    var s3 := Dispatch(cfg, s2.table, user, t3, s2.state, s2.data, false, confirm, o1.(invoice := Created(invoiceId, payUrl)));
    assert s3.state == CheckPayment && s3.data == Bag(Some(id), None, Some(invoiceId)) && s3.table == table;
    var o4 := o2.(status := InvoiceStatus(Some(PAID), o2.status.payUrl), saveFails := false);
    var s4 := Dispatch(cfg, s3.table, user, t4, s3.state, s3.data, false, check, o4);
    assert Language(table, user, t4) == DEFAULT_LANGUAGE;
    assert s4.table == Upserted(table, cfg.plans, user, id, DEFAULT_LANGUAGE, t4);
    var end := t4 + cfg.plans[k].durationDays * DAY_SECONDS;
    forall t | t < end
      ensures GetSubscription(s4.table, user, t).subscriptionId == Some(id)
    {
      ReadAfterSave(table, cfg.plans, user, id, DEFAULT_LANGUAGE, t4, t);
    }
  }

}
