# Subscription and payment reconciliation core, in Dafny

This project models the paid-access core of a Telegram mirror bot. Users buy
a time-limited subscription with a QRIS payment through the BTZPay gateway,
then bind the subscription to one group of their own. The model has four
parts, one module per source file:

- `Subscriptions` (subscriptions.dfy). This is the plan catalogue `PLANS` and
  the subscription fields of the shared `user_data` table: `SUB_END`,
  `SUB_PLAN`, `SUB_GROUP` and at most one pending transaction `SUB_TX`. The
  table is a `map<int, Record>`. Each getter and setter has a pure
  specification function over that map. The class `Store` holds the table, and
  its methods update it in place step by step, as the Python setters do
  (`setdefault`, then the field assignments). Each method is proved equal to
  its specification function.
- `Reconcile` (reconcile.dfy). These are the handlers of subscription.py: the
  `sub buy <plan>`, `sub check` and `sub cancel` callbacks, including how the
  callback data is split into tokens; `/bind` in a group; `/unbind` in a
  private chat; the `/myplan` read; and `_fmt_time_left`. Pure functions
  (`Buy`, `Check`, `Cancel`, `Callback`, `Bind`, `Unbind`) state what each
  handler replies and what the table becomes. The methods
  `SubscriptionCallback`, `BindInGroup` and `UnbindPm` run the source's
  sequence of store calls on a `Store`, and are proved to agree with those
  functions.
- `Gateway` (gateway.dfy). This is the BTZPay client. It covers base-URL
  normalisation, the request sent by `create_qris`, `get_transaction` and
  `cancel_transaction`, and how `_post`/`_get` classify a response. A call
  returns the decoded body or raises `BTZPayError`, or lets a Python error
  escape: `AttributeError` when the body is not a JSON object, and
  `KeyError("data")` when an accepted body has no `data`.
- `Filters` (filters.dfy). These are `owner_filter`, `authorized_user`,
  `sudo_user` and `subscriber_user`. They are pure functions over the sender,
  the chat, the configuration and the tables `user_data`, `sudo_users` and
  `auth_chats`. Being functions, they cannot change any state.

Three support modules sit beside these. `Wrappers` defines `Option`. `Json`
defines decoded JSON values, with Python truthiness and `dict.get`. `PyStr`
defines the Python string built-ins the code relies on: `split()`,
`rstrip()`, `lower()` and `s[:n]`.

External inputs are parameters:
- The clock is `now`, in epoch seconds.
- The gateway's answer to a handler's single call is a `Response`. It is
  either a transport failure, or a status code with the body text and the
  body's JSON decoding (absent when the body does not parse).

Each handler's outcome is stated for every response:
- `BTZPayError` is the only error the handlers catch.
- A `KeyError` or `AttributeError` that escapes the handler is modelled too.
  It happens when `data["data"]` is missing, when a body is not a JSON
  object, or when `PLANS[plan]` does not exist. The handler stops at that
  point. All of these happen before any store write.

The model follows the code at these points, where a payment system might be
expected to behave otherwise:
- A successful payment sets `SUB_END = now + days * 86400`. Renewal restarts
  the window; it does not extend it from the previous end
  (`RenewalRestartsWindow`).
- `sub buy` does not refuse while a transaction is pending. It replaces the
  pending transaction.
- The stored transaction's status is whatever the gateway returned. It is
  `"pending"` only when the gateway sent no `status`.
- The terminal statuses are the Indonesian words. `sukses` activates the
  plan. `expired`, `gagal` and `cancel` close the transaction. Anything else,
  including an empty or missing status, leaves the transaction pending.
- There is a single gateway error, `BTZPayError`. It is not split into
  unavailable, rejected and protocol errors.
- The subscription period starts at the time of the successful check, not
  at the time of purchase (`PurchaseScenario`).
- The BTZPay client is a datatype, not a class: its fields are set once, in
  the constructor, and never change.

## Model

| member | source | states |
|---|---|---|
| `Subscriptions.PlanCatalogue` | bot/helper/ext_utils/subscription_utils.py:8-12 | the catalogue has exactly the plans 7d, 14d and 30d, lasting 7, 14 and 30 days and costing 12000, 20000 and 25000 |
| `Subscriptions.ActiveIffEndAfterNow` | bot/helper/ext_utils/subscription_utils.py:19-21 | a user is active iff their stored `SUB_END` is strictly after `now`; a user with no record is inactive |
| `Subscriptions.IsSubActive` | bot/helper/ext_utils/subscription_utils.py:19-21 | active iff the stored end is strictly after `now`; a user without a record counts as ending at 0 |
| `Subscriptions.GetSubEnd` | bot/helper/ext_utils/subscription_utils.py:24-25 | the stored `SUB_END`, or 0 for a user without a record |
| `Subscriptions.GetSubPlan` | bot/helper/ext_utils/subscription_utils.py:28-29 | the stored `SUB_PLAN`, or "" for a user without a record |
| `Subscriptions.GetPendingTx` | bot/helper/ext_utils/subscription_utils.py:52-53 | the stored `SUB_TX` of a user with a record; a transaction is returned only when one is stored |
| `Subscriptions.GetBoundGroup` | bot/helper/ext_utils/subscription_utils.py:32-34 | a bound group reads back only when the stored value is non-zero; a stored 0 or None reads as None |
| `Subscriptions.WithSubscription` | bot/helper/ext_utils/subscription_utils.py:37-43 | sets the plan and sets the end to `now + days*86400` whatever it was before, so the user is active; the group, the pending transaction, the other flags and every other user are unchanged |
| `Subscriptions.RenewalRestartsWindow` | bot/helper/ext_utils/subscription_utils.py:39 | renewing an active subscription ends before old end + duration; when more than a full period was left, the new end is earlier than the old one |
| `Subscriptions.WithPendingTx` | bot/helper/ext_utils/subscription_utils.py:46-53 | after the write the pending transaction reads back as exactly the one written, whatever was pending before; the other fields and the other users are unchanged |
| `Subscriptions.WithoutPendingTx` | bot/helper/ext_utils/subscription_utils.py:52-59 | afterwards nothing is pending; with nothing pending before, the table is unchanged; no key is added; end, plan, group, flags and other users are unchanged |
| `Subscriptions.WithGroup` | bot/helper/ext_utils/subscription_utils.py:62-65 | stores the chat id whatever was bound; it reads back as that id when non-zero, and as None for 0; the other fields and the other users are unchanged |
| `Subscriptions.WithoutGroup` | bot/helper/ext_utils/subscription_utils.py:68-71 | the stored `SUB_GROUP` becomes None, so no group reads back; the other fields and the other users are unchanged |
| `Subscriptions.Store.SetDefault` | bot/helper/ext_utils/subscription_utils.py:40 | creates an empty entry for a user who has none, and changes nothing else |
| `Subscriptions.Store.SetSubscription` | bot/helper/ext_utils/subscription_utils.py:37-43 | the in-place update leaves the table equal to `WithSubscription` of the old table |
| `Subscriptions.Store.SetPendingTx` | bot/helper/ext_utils/subscription_utils.py:46-49 | the in-place update leaves the table equal to `WithPendingTx` of the old table |
| `Subscriptions.Store.ClearPendingTx` | bot/helper/ext_utils/subscription_utils.py:56-59 | the in-place update leaves the table equal to `WithoutPendingTx` of the old table |
| `Subscriptions.Store.BindGroup` | bot/helper/ext_utils/subscription_utils.py:62-65 | the in-place update leaves the table equal to `WithGroup` of the old table |
| `Subscriptions.Store.UnbindGroup` | bot/helper/ext_utils/subscription_utils.py:68-71 | the in-place update leaves the table equal to `WithoutGroup` of the old table |
| `Reconcile.FmtTimeLeft` | bot/modules/subscription.py:45-50 | with `left = max(0, end - now)`: hours < 24, minutes < 60, and days·86400 + hours·3600 + minutes·60 ≤ left < that + 60; an end in the past gives 0/0/0 |
| `Reconcile.MyPlan` | bot/modules/subscription.py:85-102 | there is a view iff the user is active; it shows the stored plan, the bound group, and a time left within a minute of the stored end, normalised as `_fmt_time_left` does (hours below 24, minutes below 60), which fixes it uniquely |
| `PyStr.Split` | bot/modules/subscription.py:144 | every token of the callback data is non-empty and free of whitespace |
| `PyStr.SplitSkipsSpace` | bot/modules/subscription.py:144 | any leading run of whitespace, of any length and kind, is dropped by `split()` |
| `PyStr.SplitThreeWords` | bot/modules/subscription.py:144-145 | three words with any whitespace runs before, between and after them split into exactly those three words |
| `PyStr.SplitCallbackWithStrayWhitespace` | bot/modules/subscription.py:144-152 | "\tsub  buy 7d\n" splits into sub, buy, 7d, so a doubled space or a stray tab or newline does not stop `sub buy` |
| `PyStr.SplitUnsplit` | bot/modules/subscription.py:144-145 | splitting words joined by single spaces gives the words back, so "sub buy 7d" has the tokens sub, buy, 7d |
| `Reconcile.Callback` | bot/modules/subscription.py:141-268 | with fewer than two tokens, or an action other than buy, check or cancel, the table is unchanged; otherwise the named action runs |
| `Reconcile.Buy` | bot/modules/subscription.py:152-212 | a missing or unknown plan is rejected with the table unchanged; a gateway error also leaves the table unchanged, and a created `data` that is not an object lets `AttributeError` escape with the table unchanged; on success, the stored pending transaction replaces any earlier one and carries the plan, the plan's amount, the gateway's ids, URL and expiry, `createdAt = now`, and the gateway status (default "pending") |
| `Reconcile.StatusVerdict` | bot/modules/subscription.py:227-242 | the status is paid iff it lower-cases to "sukses"; it is closed iff it lower-cases to one of expired, gagal or cancel; every other value, including empty, counts as still open |
| `Reconcile.Check` | bot/modules/subscription.py:214-252 | with nothing pending, nothing changes; on a gateway error, nothing changes; a transaction `info` that is not an object lets `AttributeError` escape with the table unchanged; paid sets the end to `now + days*86400` and the plan, clears pending, keeps the group and the other users; closed clears pending and keeps end, plan and group; the new table is exactly `WithoutPendingTx(WithSubscription(…))` when paid and `WithoutPendingTx(…)` when closed, so the AUTH, SUDO and thread flags never change; any other status changes nothing |
| `Reconcile.CheckAppliesOnce` | bot/modules/subscription.py:215-230 | after a successful check, a second check finds nothing pending and changes nothing, so the payment is applied once |
| `Reconcile.Cancel` | bot/modules/subscription.py:254-266 | with a pending transaction, it is cleared whether the gateway cancel succeeds or raises `BTZPayError`; with nothing pending, nothing changes; end, plan, group and other users never change |
| `Reconcile.Bind` | bot/modules/subscription.py:105-128 | the table is unchanged for an inactive user, in the public mirror group, or when a different group is bound, and that last case replies `BoundElsewhere` with the bound group; otherwise the group becomes `chatId`, and binding the bound group again leaves the table as it was |
| `Reconcile.BindTwice` | bot/modules/subscription.py:118-127 | binding the same group twice leaves the table as binding it once |
| `Reconcile.Unbind` | bot/modules/subscription.py:131-138 | the table is unchanged for an inactive user; otherwise no group is bound afterwards and nothing else changes |
| `Reconcile.PurchaseScenario` | bot/modules/subscription.py:182-230 | a user with no record buys 7d with the gateway creating T1; T1 is then pending; a later check reading "SUKSES" activates 7d from the time of the check and leaves nothing pending |
| `Reconcile.ExpiredScenario` | bot/modules/subscription.py:182-249 | buying 30d and then checking a transaction the gateway reports expired clears pending and leaves `SUB_END` and `SUB_PLAN` as they were before the purchase |
| `Reconcile.SubscriptionCallback` | bot/modules/subscription.py:141-268 | the handler's store calls give the reply and the new table that `Callback` specifies |
| `Reconcile.BindInGroup` | bot/modules/subscription.py:105-128 | the handler's store calls give the reply and the new table that `Bind` specifies |
| `Reconcile.UnbindPm` | bot/modules/subscription.py:131-138 | the handler's store calls give the reply and the new table that `Unbind` specifies |
| `PyStr.RStrip` | bot/helper/ext_utils/btzpay_client.py:19 | the result is a prefix of the input, does not end in the stripped character, and only that character was removed |
| `Gateway.NewClient` | bot/helper/ext_utils/btzpay_client.py:18-21 | the base URL loses exactly its trailing '/' characters; the API key and timeout are kept |
| `Gateway.Classify` | bot/helper/ext_utils/btzpay_client.py:23-59 | checks a response in this order: a transport failure, then status ≥ 400, then an unparsable body, each giving `BTZPayError`; a body that is not an object raises `AttributeError`; a reply below 400 whose object has a falsy `success` gives exactly `BTZPayError` with the truthy `message`, or none; otherwise the decoded body comes back unchanged |
| `Gateway.ClassifyAcceptsEnvelope` | bot/helper/ext_utils/btzpay_client.py:37-40 | a reply below 400 whose object has a truthy `success` comes back as exactly that object |
| `Gateway.DataField` | bot/helper/ext_utils/btzpay_client.py:82-83 | an accepted body with a `data` key returns its value; without one it raises `KeyError("data")`; classification errors pass through |
| `Gateway.CancelData` | bot/helper/ext_utils/btzpay_client.py:91-92 | an accepted body returns a truthy `data` as is, and `{}` in its place otherwise; classification errors pass through |
| `Gateway.CreatePayload` | bot/helper/ext_utils/btzpay_client.py:69-80 | apikey, amount and timeout are always present; callback_url iff non-empty; notes iff non-empty; metadata iff given; no other keys |
| `Gateway.CreateQris` | bot/helper/ext_utils/btzpay_client.py:61-83 | posts that payload to base URL + /api/qris/create with the client timeout, and returns `data["data"]` |
| `Gateway.GetTransaction` | bot/helper/ext_utils/btzpay_client.py:85-87 | requests base URL + /api/qris/transaction/{id}?key={key} and returns `data["data"]` |
| `Gateway.TransactionPathInjective` | bot/helper/ext_utils/btzpay_client.py:86 | for ids without '?', distinct id/key pairs give distinct transaction paths |
| `Gateway.CancelTransaction` | bot/helper/ext_utils/btzpay_client.py:89-92 | posts exactly {apikey, reason} to base URL + /api/qris/cancel/{id} and returns `data.get("data") or {}` |
| `Filters.AuthorizedUser` | bot/helper/telegram_helper/filters.py:15-63 | any user is authorised in the configured public mirror group; an active subscriber is authorised in a private chat and in their bound group or supergroup; otherwise the result is exactly the disjunction of owner, AUTH/SUDO flag, authorised chat (thread check), sudo_users, user in auth_chats, chat in auth_chats (empty list, or a set thread listed) |
| `Filters.SubscriberOnlyInBoundGroup` | bot/helper/telegram_helper/filters.py:29-36 | in a group that is not the public mirror and has no AUTH flag or `auth_chats` entry, a user with no staff rights is authorised iff active and bound to that group |
| `Filters.SubscriberUser` | bot/helper/telegram_helper/filters.py:79-94 | true iff `sudo_user` holds or the user's subscription is active; without staff rights it equals `is_sub_active` |
| `Filters.SudoIsAuthorized` | bot/helper/telegram_helper/filters.py:67-75 | whoever passes `sudo_user` (owner, truthy SUDO flag, or in `sudo_users`) is authorised in every chat |
| `Filters.OwnerFilter` | bot/helper/telegram_helper/filters.py:9-11 | passes exactly the sender whose id is `OWNER_ID`, and whoever passes also passes `sudo_user` whatever the tables hold |
| `Filters.SudoUser` | bot/helper/telegram_helper/filters.py:67-75 | passes iff the sender is the owner, has a truthy SUDO flag in `user_data`, or is in `sudo_users`; a sender without an entry has no SUDO flag |
| `Filters.OwnerPassesAll` | bot/helper/telegram_helper/filters.py:9-11 | the sender whose id is `OWNER_ID` passes `sudo_user`, `subscriber_user` and `authorized_user` in every chat |
| `Filters.SubscriberAuthorizedInPrivate` | bot/helper/telegram_helper/filters.py:30-32 | whoever passes `subscriber_user` is authorised in a private chat |

## Left out

- HTTP and JSON decoding by `requests`: a response is an abstract value. JSON numbers are integers; floats are not modelled.
- The text of error messages: a `BTZPayError` carries the status code and the first 300 characters of the body, or the gateway's `message`. It does not carry the "BTZPay POST/GET …" prefix, the transport exception's text, or the `str(data)` rendering used when there is no message.
- The request each handler sends. The handlers take the gateway's response as a parameter. They do not build the request: the `_btz()` configuration with its default base URL and `BTZPAY_TIMEOUT_MS` default of 900000, the amount sent, the order id, notes and metadata, and the "User cancelled" reason `sub cancel` passes. The client's request construction is modelled on its own in `Gateway`.
- The Telegram user interface: `_send_photo` with its FloodWait retry, `send_subscribe_menu`, `_plans_markup`, every caption, alert and message text, and the `query.answer` calls. Plan labels are kept as data only.
- Reconcile.FmtTimeLeft: returns the days, hours and minutes; the text "… hari … jam … menit" built from them is not modelled.
- Persistence: `DbManager().update_user_data` is an external write and is treated as doing nothing.
- Asynchronous execution and `@new_task`: the handlers run one at a time, with no interleaving.
- Randomness and the clock: `secrets.token_hex` is not needed; `time.time()` is the parameter `now`.
- How the user, chat, chat type and thread are extracted from a Message or a CallbackQuery: the filters take them already extracted. The chat type is compared as a string, as the code writes it; what the transport's chat-type value compares equal to is outside the model.
- `int(…)` coercions of configuration values: the configuration is integers, and an unset public mirror group is 0.
- PyStr.Lower: lower-cases only 'A'..'Z' and U+212A KELVIN SIGN. These are the only characters whose lower-case form is ASCII, so comparing with the ASCII status words is exact, but other characters are not lower-cased.
- Keyword defaults of the client: `timeout_s=20` of the constructor, `notes=""`, `metadata=None` and `callback_url=""` of `create_qris`, and `reason="User cancelled"` of `cancel_transaction`. `NewClient`, `CreatePayload`/`CreateQris` and `CancelTransaction` take each as an ordinary parameter. Every handler in the core passes these values explicitly, so nothing the handlers do depends on a default.
- Unicode whitespace in `split()` covers the characters Python's `str.isspace` accepts; no other normalisation is modelled.
