/**
 * The conversation states of the order flow. The four named states are the
 * members of `OrderStates`; `Idle` stands for "no state set", the state in
 * which only the menu handler is registered.
 */
module States {

  datatype State = Idle | SelectSubscription | EnterTarget | ConfirmOrder | CheckPayment

}
