# Subscription bot: order conversation and subscription store

A Dafny model of the core of a Telegram shop bot that sells subscription
plans for cryptocurrency. Each user talks to a small finite-state
conversation: from the menu (no state set) they either buy a plan
(select plan → confirm → poll the payment) or order an account removal
(enter a target → confirm). A cancel label leaves every non-menu state. On a
payment reported as `paid` the bot upserts the user's row in the
subscription store, whose reads apply a strict expiry rule and a
three-day warning.

Files and modules:

- `wrappers.dfy` (`Wrappers`): `Option`.
- `states.dfy` (`States`): the four named states plus `Idle`, the state with no state set.
- `localization.dfy` (`Localization`): the text lookup with its two fallbacks.
- `catalog.dfy` (`Catalog`): the plan catalogue as an ordered sequence with distinct ids, and lookup by id.
- `database.dfy` (`Database`): the store. `GetSubscription` is a pure read of a table snapshot at time `now`; `SubscriptionStore.Save` is the in-place upsert on the store object.
- `handlers.dfy` (`Handlers`): one pure step function per handler (`MenuStep`, `SelectStep`, `TargetStep`, `ConfirmStep`, `PaymentStep`, `StartStep`) and the routing `Dispatch`. A step maps the session data, the table, the time, the text and the gateway's results to the next state, data and table, and to the list of effects in the order the handler makes them: replies, gateway requests, store writes, and `Aborted` for an exception nothing catches. It also holds the plan-selection loop `FindPlan`.
- `protocol.dfy` (`Protocol`): the properties of `Dispatch`. The step functions carry no contracts of their own; what each does is stated by these lemmas: `StartStep` (handlers.py:22-31) by `StartClearsSession`; `MenuStep` (handlers.py:33-87) by `MenuMoves` and `RemovalNeedsSubscription`; `SelectStep` (handlers.py:89-113) by `SelectTakesFirstMatch`; `TargetStep` (handlers.py:219-234) by `TargetStoredVerbatim`; `ConfirmStep` (handlers.py:115-167) by `ConfirmIgnoresOtherText`, `ConfirmPurchase` and `ConfirmRemoval`; `PaymentStep` (handlers.py:169-209) by `CheckIgnoresOtherText` and `CheckPaymentOutcomes`; `Dispatch` (handlers.py:211-217) by `CancelClearsSession`, `InvariantKept` and `NoBacktracking`.
- `conversation.dfy` (`Conversation`): the per-user context as a class `Session`. Its methods set the state, update the data and clear them in place, as the handlers do. Each method is proved to produce exactly its step function's result, so every property in `Protocol` holds of the class.

Modelling choices:

- Time is an integer count of seconds. A day is 86400 seconds.
- Python truthiness is explicit. `Truthy(s)` means present and non-empty. It is what `if subscription_id:`, `elif target:`, `if selected_sub:` and `elif status:` test.
- The payment gateway is an oracle. Invoice creation inside the handler's `try` gives `Created(id, url)`, `NotCreated` (the client's `None`) or `Raised` (an exception in the block). A status check gives the client's pair `(status, url)`. Every client failure arrives as `(None, None)`, because the client catches everything.
- A failing store write is the oracle `saveFails`. A plan id outside the catalogue also makes `Save` fail, since the lookup raises a key error before anything is written.
- An exception nothing catches becomes the effect `Aborted`, with state and data left as they were. This covers the catalogue lookup outside the `try` in `confirm_order`, the missing `invoice_id` or `subscription_id` key in `check_payment`, and the plan-name lookup for the profile. The session invariant `Protocol.Inv` rules out the first two.
- The `/start` command filter belongs to the transport library. It is the parameter `isStart` of `Dispatch`.
- Three consequences of the code that are easy to overlook:
  - A `(None, None)` status in the payment state replies with an error and keeps polling (handlers.py:203-205). Only an exception inside the `try` clears the session (handlers.py:206-209): a failing store write, or a reply whose sending fails (when the status was paid, this happens after the row is written).
  - The warning holds exactly when `0 < end − now < 4 days`. The row must be strictly unexpired (database.py:47), and `.days` rounds down before the comparison with 3 (database.py:48-49).
  - Handlers read the language from the store, and the store reports `"ru"` for a missing or expired row (database.py:52). On payment the handler writes back the language it read (handlers.py:189). So every stored row keeps the default language (`Protocol.LanguageStaysDefault`).

## Model

| member | source | states |
|---|---|---|
| `Localization.Localize` | handlers.py:236-238 | the text is the language's entry for the key; for an unknown language the default language's entry; the key itself when the chosen table lacks it; the default table must exist |
| `Localization.UnknownLanguageReadsAsDefault` | handlers.py:238 | an unknown language yields exactly what the default language yields, for every key |
| `Localization.ResultIsTextOrKey` | handlers.py:238 | every lookup returns the key itself or an entry stored under that key in some language's table |
| `Catalog.Find` | database.py:30 | indexing the catalogue by id gives a plan carrying that id, and fails (key error) exactly when the id is not in the catalogue |
| `Catalog.FindEntry` | handlers.py:98-100 | with distinct ids, looking up the id of any catalogue entry yields that entry |
| `Database.GetSubscription` | database.py:39-52 | an active row (end strictly after now) reads as stored; a missing or expired row reads as no plan, no end, language "ru" and the absent-or-expired notice; for an active row the warning is given exactly when fewer than four days remain, carrying the floor of the days left (0 to 3) |
| `Database.Upserted` | database.py:31-32 | after an upsert the user's row is exactly (plan, write time + duration, language); no earlier time is carried over; the key set gains only the user; every other row is kept |
| `Database.SubscriptionStore.constructor` | database.py:8-19 | a new store has an empty table |
| `Database.SubscriptionStore.Save` | database.py:26-37 | succeeds exactly when the plan is in the catalogue and the database does not fail; on success the table is the upsert of the old one, otherwise unchanged |
| `Database.ReadAfterSave` | database.py:26-51 | after a save at t, every read at a time before t plus the duration returns the saved plan, language and end date |
| `Database.SaveLeavesOthers` | database.py:31-32 | a save for one user leaves every other user's read unchanged |
| `Database.EndingNowIsExpired` | database.py:47 | a row whose end equals now reads as absent, with language "ru" whatever it stores |
| `Database.WarningIffFewDaysLeft` | database.py:48-50 | for an active row, the warning is given exactly when the floor of the days left is at most three |
| `Database.ReadLanguageIsDefault` | database.py:45-52 | when every row holds "ru", every read reports "ru" |
| `Handlers.FirstMatch` | handlers.py:98-101 | the index is the first position in catalogue order whose plan name is a prefix of the text, or the catalogue length when no name is |
| `Handlers.PlanFor` | handlers.py:97-102 | the selected id is that of a plan whose name prefixes the text and before which no plan name does, and there is none exactly when no plan name is a prefix of the text |
| `Handlers.FindPlan` | handlers.py:97-101 | the scanning loop with its early exit returns the id of the first matching plan, or none |
| `Protocol.CancelClearsSession` | handlers.py:92-96 | in every non-menu state the cancel label is tested first: whatever else the text would match, the result is the menu state with empty data, the store untouched, one cancellation reply |
| `Protocol.StartClearsSession` | handlers.py:22-30 | `/start` in any state greets and clears state and data, the store untouched |
| `Protocol.MenuMoves` | handlers.py:33-87 | the menu never changes data or store; it moves to plan selection exactly on the buy label (not shadowed by the profile or remove labels), to target entry exactly on the remove label with an active plan, and otherwise stays, the cancel label included |
| `Protocol.RemovalNeedsSubscription` | handlers.py:45-58 | when the read reports no plan id, or an empty one, the remove label answers "subscription required" and changes nothing |
| `Protocol.SelectTakesFirstMatch` | handlers.py:97-113 | for a non-cancel text, the first plan in catalogue order whose name prefixes the text (with a non-empty id) is stored and the state becomes confirmation; without one, state, data and store stay as they were |
| `Protocol.TargetStoredVerbatim` | handlers.py:219-233 | any non-cancel text becomes the target verbatim and the state becomes confirmation, other data and store unchanged |
| `Protocol.ConfirmIgnoresOtherText` | handlers.py:123-126 | at confirmation, a text that is neither cancel nor confirm changes neither state, data nor store |
| `Protocol.CheckIgnoresOtherText` | handlers.py:177-180 | while polling, a text that is neither cancel nor the check label answers "check or cancel" and changes neither state, data nor store |
| `Protocol.ConfirmPurchase` | handlers.py:132-154 | confirming a purchase requests one invoice; with an invoice its id is stored and polling starts; with none the invoice error is replied and with an exception the order error, and the session is cleared; the store is never written |
| `Protocol.ConfirmRemoval` | handlers.py:155-167 | confirming a removal order clears the session with no gateway request and no store write; the reply is the acceptance, or the order error when sending the acceptance raises |
| `Protocol.CheckPaymentOutcomes` | handlers.py:186-209 | "paid" with a successful write upserts the row and then confirms and clears; "paid" with a failing write clears without writing; another non-empty status keeps state and data and reports pending; an empty status reports an error and keeps state and data; a reply whose sending raises clears the session with the payment-check error, after the write when the write succeeded |
| `Protocol.InvariantKept` | handlers.py:89-233 | every event keeps the session invariant (no data outside confirmation and polling; exactly one of plan or target at confirmation; plan and invoice while polling), so data never holds both a plan and a target |
| `Protocol.NoBacktracking` | handlers.py:211-217 | every event keeps the state, returns to the menu, or takes one forward step of the flow |
| `Protocol.StoreWrittenOnlyWhenPaid` | handlers.py:186-195 | the store changes only on the check label in the polling state with status "paid" and a working write, and then only by the upsert of this user with the session's plan and the language just read |
| `Protocol.ConfirmationFollowsWrite` | handlers.py:188-193 | within an event, a payment confirmation reply is always preceded by the store write |
| `Protocol.LanguageStaysDefault` | handlers.py:171-189 | if every stored row has language "ru", every event keeps it so |
| `Protocol.PurchaseFlow` | handlers.py:59-209 | buy label, a text first matching plan k, confirm with an invoice, check with "paid", for a user with no row yet: the session ends cleared and the store holds plan k with "ru" until payment time plus k's duration, readable as plan k before then |
| `Conversation.Session.constructor` | handlers.py:211-217 | a new context has no state and no data, which satisfies the invariant for every catalogue |
| `Conversation.Session.Clear` | handlers.py:94 | clearing resets state and data |
| `Conversation.Session.StartCommand` | handlers.py:22-31 | the in-place command handler produces the start step |
| `Conversation.Session.HandleMenu` | handlers.py:33-87 | the in-place menu handler produces exactly the menu step |
| `Conversation.Session.SelectSubscription` | handlers.py:89-113 | the in-place selection handler, with its loop, produces exactly the selection step |
| `Conversation.Session.EnterTarget` | handlers.py:219-234 | the in-place target handler produces exactly the target step |
| `Conversation.Session.ConfirmOrder` | handlers.py:115-167 | the in-place confirmation handler produces exactly the confirmation step |
| `Conversation.Session.CheckPayment` | handlers.py:169-209 | the in-place payment handler, writing the store object, produces exactly the payment step, including the new table |
| `Conversation.Session.Handle` | handlers.py:211-217 | routing one event through the in-place handlers produces exactly `Dispatch` and keeps the session invariant |

## Left out

- Chat transport: message delivery, inline keyboards and their callback data, reply texts, emoji and formatting. Replies are an enumeration of kinds. A reply that raises inside the `try` blocks of `confirm_order` and `check_payment` is modelled (`Raised` for the invoice branch, `replyFails` for the removal branch and for payment checking); a failure of the error reply sent from an `except` block, and of any reply outside those `try` blocks, is not.
- Non-text messages, whose `message.text` is `None`. Text is always a string here.
- The `/start` command filter's parsing (command prefix, `@botname` mention, arguments). It is the boolean `isStart`.
- `notify_admin`: a fire-and-forget send whose failures are swallowed. It does not appear among the effects and never raises into the handlers' `try` blocks.
- Logging throughout.
- The gateway client's HTTP, JSON and token header. Both calls are oracle results, and prices and currencies are not modelled.
- sqlite connection handling, commits, and ISO-8601 formatting and parsing. A failing read in `get_subscription` is not modelled; a failing write is the boolean `saveFails`.
- The wall clock. `get_subscription` calls `datetime.now()` twice and `save_subscription` once more; here all reads and writes of one event share one integer `now`. Sub-second precision is dropped.
- The asyncio machinery and per-user serialisation. One event is handled at a time, and the routing of several users is not modelled.
- The configuration module, the localisation tables and the catalogue contents. They are the parameters `Config` and `seq<Plan>`.
- `init_db` beyond an empty table (the `Database.SubscriptionStore` constructor).
