# biblioteca_myiq client core, modelled in Dafny

This project models the core of `biblioteca_myiq`, an asynchronous Python
client for a trading platform's WebSocket API, and proves properties of
that model. The core has two parts:

* the **dispatcher** (`myiq/core/dispatcher.py`). It keeps pending futures
  keyed by `request_id` and listener lists keyed by event name. Each
  incoming message fulfils the future of its request id and calls every
  listener of its name. It also unwraps `sendMessage` envelopes and
  dispatches their payload again;
* the **client** object `IQOption` (`myiq/core/client.py`), which has:
  * the push handlers that fill its session state: the asset cache,
    profile, features, user settings and clock offset;
  * the queries on the asset cache (`get_active`, `check_active`,
    `get_profit_percent`, `is_active_open`);
  * the request flows that drive the dispatcher (`_authenticate`,
    `_send_with_retry`, `buy_blitz`).

Modules:

* `PyJson` (pyjson.dfy): Python values as decoded from JSON. Dicts are
  association lists in insertion order; exceptions are `Result.Raise`.
  It also defines the Python operations the client uses: truthiness,
  `get`, item assignment, `str()`, `in`, `int()`, `==` on numbers and `-`.
* `Constants` (constants.dfy): operation and event names.
* `Dispatch` (dispatcher.dfy):
  * `DispatchSpec`, the effect of one dispatch as a function on values;
  * reference definitions of the callbacks reached (`Invocations`), the
    request ids consumed (`TouchedKeys`) and when an exception escapes
    (`Escapes`), and lemmas tying `DispatchSpec` to them;
  * the `Dispatcher` class, whose methods are proved against these
    functions.
* `Actives` (actives.dfy): the asset cache. It gives the effect of the two
  handlers that fill it and the three queries that read it.
* `Session` (session.dfy): profile, features, settings, the clock offset,
  the authentication verdict, and the result of a request sent with
  retries.
* `Trade` (trade.dfy): the decisions inside `buy_blitz`, namely:
  * the expiry it asks for;
  * the acknowledgement check;
  * which pushes settle the order;
  * the profit or loss it reports;
  * the timeout result;
  * the whole trade as one reference function, `BlitzSpec`.
* `Client` (client.dfy): the `IQOption` class. Its handler loops and
  request flows are methods proved against the functions above. It keeps:
  * the frames written to the socket, as a sequence field `sent`;
  * the request-id counter;
  * the dispatcher object.

Three things the source gets from the outside become parameters:

* the clock, as milliseconds;
* what the server answers and when, as an environment value;
* whether a send raises, as a flag.

## Model

| member | source | states |
|---|---|---|
| PyJson.Truthy | myiq/core/dispatcher.py:38 | Python truthiness: `None`, `False`, zero, and the empty string, list and dict are falsy |
| PyJson.GetOr | myiq/core/dispatcher.py:41 | `d.get(k, default)`: the value of the first binding of the key, else the default |
| PyJson.ListItems | myiq/core/client.py:126 | the items of a list value under the key, none otherwise |
| PyJson.NumEq | myiq/core/client.py:735 | Python `==` against an integer: true for an int, float or bool of that value, false for every other value |
| PyJson.ParseInt | myiq/core/client.py:630 | `int()` on a string: an optional sign and decimal digits; `None` for every string Python rejects, and also for the whitespace and underscore forms it accepts (see `PyJson.PyInt` under Left out) |
| PyJson.Find | myiq/core/dispatcher.py:31 | the first binding of a key; absent exactly when no field carries the key |
| PyJson.Lookup | myiq/core/dispatcher.py:31 | `d.get(k)` is present exactly when the key is, and then it is a value bound to `k` |
| PyJson.Put | myiq/core/client.py:105 | item assignment: an existing key keeps its position and takes the new value, a new key goes last |
| PyJson.PutLookup | myiq/core/client.py:105 | after `d[k] = v`, reading `k` gives `v` and every other key reads as before |
| PyJson.PyStr | myiq/core/dispatcher.py:41 | `str()` spells a string as itself, an int as its decimal form and `None` as `"None"` |
| PyJson.PyStrEmptyOnlyForEmptyString | myiq/core/client.py:101-102 | `str(x)` is falsy exactly when `x` is the empty string |
| PyJson.IntToStringInjective | myiq/core/client.py:588 | distinct integer ids give distinct `str(active_id)` cache keys |
| PyJson.IntToStringIsNotNone | myiq/core/client.py:101 | no integer prints as `"None"`, the key an item without `active_id` gets |
| PyJson.IntToStringFirstChar | myiq/core/client.py:588 | `str(i)` is non-empty and starts with `-` exactly for negatives, a digit otherwise |
| PyJson.ParseIntOfIntToString | myiq/core/client.py:630 | `int(str(i)) == i` for every integer |
| PyJson.ContainsMeansOccurs | myiq/core/client.py:84-91 | the string `in` test holds exactly when the needle occurs at some position |
| PyJson.PyIn | myiq/core/client.py:84-91 | `in` raises on numbers, booleans and `None`; on a dict it tests the keys |
| PyJson.AsNumber | myiq/core/client.py:271 | only ints, floats and booleans have a numeric value |
| PyJson.PySub | myiq/core/client.py:797 | `a - b` is defined exactly on two numbers, and its value is the difference |
| PyJson.PyInt | myiq/core/client.py:630 | `int()` keeps an int and raises on `None`, lists and dicts |
| PyJson.Trunc | myiq/core/client.py:274 | `int()` on a float truncates toward zero, within one unit of the value |
| PyJson.Lower | myiq/core/client.py:682 | `lower()` keeps the length, changes exactly the upper-case letters, and maps each to its lower-case letter |
| PyJson.LowerIdempotent | myiq/core/client.py:707 | lower-casing twice is lower-casing once |
| Dispatch.IndexOf | myiq/core/dispatcher.py:27 | the first position of `x`, with no earlier copy |
| Dispatch.RemoveFirst | myiq/core/dispatcher.py:26-27 | `list.remove` drops exactly the first occurrence, and the list is unchanged when `x` is absent |
| Dispatch.RemoveFirstCount | myiq/core/dispatcher.py:27 | removal takes exactly one copy out of the multiset of callbacks |
| Dispatch.RemoveAppended | myiq/core/dispatcher.py:19-27 | removing a callback just appended, and not registered before, restores the list |
| Dispatch.RemoveEarlierCopy | myiq/core/dispatcher.py:27 | with an earlier copy present, that copy is removed and later appends stay |
| Dispatch.Calls | myiq/core/dispatcher.py:51-58 | one invocation per listener, in registration order, each logging whether it raised |
| Dispatch.EnvelopeAt | myiq/core/dispatcher.py:62-64 | present exactly for a `sendMessage` message whose `msg` is a dict, and it points at that `msg` |
| Dispatch.ResolveStep | myiq/core/dispatcher.py:41-47 | reference definition of step 1: the entry under `str(request_id)` is popped, and its handle is resolved with the message only when still pending |
| Dispatch.Deliver | myiq/core/dispatcher.py:41-58 | reference definition of steps 1 and 2: `ResolveStep`, then one logged call per listener of a string name |
| Dispatch.Invocations | myiq/core/dispatcher.py:50-66 | reference definition, free of pending state, of the callbacks a message reaches: its own name's, then its `sendMessage` payload's; `DispatchLog` ties it to `DispatchSpec` |
| Dispatch.TouchedKeys | myiq/core/dispatcher.py:41-66 | reference definition of the request ids a message consumes: its own, then its payload's; `DispatchFutures` ties it to `DispatchSpec` |
| Dispatch.Escapes | myiq/core/dispatcher.py:31-66 | reference definition of when an exception escapes: a non-dict message, or a truthy unhashable name, at any depth of unwrapping; `ListenerErrorsContained` ties it to `DispatchSpec` |
| Dispatch.DispatchSpec | myiq/core/dispatcher.py:29-66 | reference definition of one dispatch on the tables: the early return, the pop of the request id, the listener calls and the re-dispatch of a `sendMessage` payload; its properties are the lemmas below |
| Dispatch.NamelessChangesNothing | myiq/core/dispatcher.py:38-39 | a message with a falsy name changes nothing, even when its request id is pending |
| Dispatch.DispatchLog | myiq/core/dispatcher.py:50-66 | the listener calls of a dispatch are exactly `Invocations`: own name first, then the unwrapped payload |
| Dispatch.ListenerErrorsContained | myiq/core/dispatcher.py:52-58 | an exception escapes exactly when `Escapes` holds (a non-dict or unhashable-named message), whatever the listeners raise |
| Dispatch.PlainMessage | myiq/core/dispatcher.py:44-58 | any name but `sendMessage` returns normally, reaches only its own listeners and consumes only its own request id |
| Dispatch.DispatchFutures | myiq/core/dispatcher.py:44-45 | dispatch removes exactly the pending ids in `TouchedKeys` and adds none |
| Dispatch.DoneHandlesKept | myiq/core/dispatcher.py:46 | no handle is forgotten, and a done future keeps its state |
| Dispatch.DispatchFulfils | myiq/core/dispatcher.py:44-47 | a message whose `str(request_id)` is pending resolves that future with the whole message and pops the entry |
| Dispatch.FulfilledAtMostOnce | myiq/core/dispatcher.py:44-47 | a second message with the same id neither finds it pending nor changes the first result |
| Dispatch.DispatchKeepsFuturesValid | myiq/core/dispatcher.py:44-47 | every pending entry still points at an existing, unresolved handle after any dispatch |
| Dispatch.Dispatcher.constructor | myiq/core/dispatcher.py:9-11 | both tables start empty |
| Dispatch.Dispatcher.CreateFuture | myiq/core/dispatcher.py:13-17 | a fresh pending handle is stored under the id, replacing any earlier one |
| Dispatch.Dispatcher.Cancel | myiq/core/client.py:303 | cancelling marks a pending future cancelled and leaves its table entry |
| Dispatch.Dispatcher.NewClosure | myiq/core/client.py:697 | a new function object differs from every registered callback |
| Dispatch.Dispatcher.AddListener | myiq/core/dispatcher.py:19-22 | the callback is appended to its event's list, creating the list if needed; duplicates are kept |
| Dispatch.Dispatcher.RemoveListener | myiq/core/dispatcher.py:24-27 | the first copy is removed; an unknown name or absent callback changes nothing |
| Dispatch.Dispatcher.ResolvePending | myiq/core/dispatcher.py:44-47 | step 1 of dispatch: pop the id and resolve its handle if still pending |
| Dispatch.Dispatcher.CallListeners | myiq/core/dispatcher.py:51-58 | the log grows by exactly `Calls` over the listener list |
| Dispatch.Dispatcher.Dispatch | myiq/core/dispatcher.py:29-66 | the new tables and the outcome are exactly `DispatchSpec` of the old ones |
| Actives.Store | myiq/core/client.py:104 | the defaultdict write sets one entry, keeps every other one and lists a new category last |
| Actives.FirstMatch | myiq/core/client.py:84-91 | the first type name the `in` test finds, with no earlier type found |
| Actives.UnderlyingCategory | myiq/core/client.py:81-91 | `None` exactly where `in` raises; else the first matching type name, or `unknown` exactly when none matches |
| Actives.Tagged | myiq/core/client.py:105 | the stored record has `active_type` set to the category and every other key as in the item |
| Actives.ItemKey | myiq/core/client.py:101-102 | the cache key of an item is `str(item.get("active_id"))`, so a missing id gives `"None"` |
| Actives.StoreItems | myiq/core/client.py:100-106 | reference definition of the loop over `underlying`: dict items with a non-empty key are stored tagged, and the first non-dict item ends the loop; proved about in the `StoreItems` lemmas |
| Actives.UnderlyingSpec | myiq/core/client.py:78-110 | reference definition of `_on_underlying_list_changed`: a non-dict push or `msg`, or a name `in` cannot test, leaves the cache; otherwise the items are stored under the inferred category |
| Actives.StoreItemsWellFormed | myiq/core/client.py:100-106 | the handler's loop keeps the cache well formed |
| Actives.StoreItemsFrame | myiq/core/client.py:100-106 | other categories, and ids the list does not name, keep their records |
| Actives.StoreItemsStores | myiq/core/client.py:100-106 | each item reached, with a non-empty key and no later duplicate, is cached tagged under `str(active_id)` |
| Actives.MissingIdStoredUnderNone | myiq/core/client.py:101-104 | an item without `active_id` is stored under the key `"None"` |
| Actives.ContainsNotShorter | myiq/core/client.py:84-91 | a string contains one at least as long only by being it |
| Actives.DigitalTestedFirst | myiq/core/client.py:84-85 | a name holding `digital-option` is digital whatever else it holds |
| Actives.TurboName | myiq/core/client.py:86-87 | the bare name `turbo-option` files under itself |
| Actives.NamelessIsUnknown | myiq/core/client.py:81-82 | a missing name files as `unknown`; a numeric name makes the handler raise |
| Actives.InitEntry | myiq/core/client.py:170-176 | a dict entry is kept when it has `active_type`, else tagged with the category; non-dicts raise unless `in` finds the key |
| Actives.InitActives | myiq/core/client.py:170-176 | reference definition of the inner loop over one category's `actives`, stopping at the first entry that raises |
| Actives.ActivesOf | myiq/core/client.py:164-167 | the `actives` dict of a category whose value is a dict, absent otherwise, so the category is skipped |
| Actives.InitCategories | myiq/core/client.py:163-177 | reference definition of the outer loop: categories whose value has no dict `actives` are skipped, and an inner loop that raises ends the handler |
| Actives.InitSpec | myiq/core/client.py:154-183 | reference definition of `_on_initialization_data`: the outer loop over the categories of a dict `msg`, else the cache unchanged |
| Actives.InitActivesWellFormed | myiq/core/client.py:170-176 | the inner loop keeps the cache well formed |
| Actives.InitCategoriesWellFormed | myiq/core/client.py:163-177 | the outer loop keeps the cache well formed |
| Actives.InitActivesFrame | myiq/core/client.py:170-176 | the inner loop writes only its own category |
| Actives.InitCategoriesFrame | myiq/core/client.py:163-177 | categories the message does not name keep their records |
| Actives.InitActivesStores | myiq/core/client.py:170-176 | when the loop completes, every entry is cached under its id, tagged only where `active_type` was missing |
| Actives.InitActivesKeepsUnlisted | myiq/core/client.py:170-176 | ids the category does not list keep their records |
| Actives.InitCategoriesStores | myiq/core/client.py:163-177 | when the handler completes, every entry of every category with a dict `actives` is cached under that category and its id, so the same id in two categories keeps two records |
| Actives.FirstHit | myiq/core/client.py:593-596 | the first category with a truthy record for the id, and none before it |
| Actives.GetActive | myiq/core/client.py:583-605 | the first truthy record among the priority categories, else the first in insertion order, else `{}`; the result is `{}` or truthy |
| Actives.NoneKeyInvisible | myiq/core/client.py:588-605 | a record stored under `"None"` never changes what `get_active` returns |
| Actives.HitsAgree | myiq/core/client.py:593-603 | the scan depends only on which categories hold a truthy record |
| Actives.FirstHitSkipsLast | myiq/core/client.py:599-603 | a category appended without a hit does not change the generic scan |
| Actives.ProfitPercent | myiq/core/client.py:614-634 | `profit_percent` whenever present; raises exactly on a non-dict where `in` raises (numbers, booleans, `None`) or finds the key; otherwise the int `CommissionPercent` computes, which is 0 for a non-dict such as a string record without the key |
| Actives.ProfitFromCommission | myiq/core/client.py:627-630 | for any dict record without `profit_percent` whose `option.profit.commission` is set and accepted by `int()`, the payout is `100 - int(commission)` |
| Actives.CommissionPercent | myiq/core/client.py:625-634 | reference definition of the guarded commission path: `100 - int(commission)`, or 0 wherever a level is missing, not a dict, `None` or rejected by `int()` |
| Actives.ProfitDefault | myiq/core/client.py:625-634 | a dict record with neither `profit_percent` nor a usable commission pays 0 |
| Actives.CommissionConverted | myiq/core/client.py:630 | a float commission `13.9` or a string `"13"` is converted by `int()` and pays 87 |
| Actives.CommissionExample | myiq/core/client.py:628-630 | a commission of 13 pays 87 |
| Actives.ProfitWithoutRecord | myiq/core/client.py:634 | an empty record pays 0 |
| Actives.IsActiveOpen | myiq/core/client.py:636-639 | raises exactly on a non-dict; truthy exactly when `enabled` is truthy and `is_suspended` is present and falsy |
| Actives.MissingSuspendedIsClosed | myiq/core/client.py:639 | a record without `is_suspended` is closed even when enabled |
| Actives.StrategyAccessExample | myiq/core/client.py:583-639 | id 76 open in `blitz` and suspended in `binary` is found in `blitz` and reported open |
| Actives.RecordOpen | myiq/core/client.py:639 | an enabled, unsuspended record is open |
| Actives.SameIdTwoCategories | myiq/core/client.py:154-177 | one `initialization-data` push with the same id in two categories keeps both records apart, tagged, in push order |
| Actives.TwoStores | myiq/core/client.py:176 | two stores into distinct categories keep both values and record the category order |
| Actives.TwoCategories | myiq/core/client.py:163-177 | two one-record categories run the outer loop to its end with both records stored |
| Actives.CategoryPair | myiq/core/client.py:163-177 | the outer loop over two categories whose inner loops complete ends normally with the second cache |
| Actives.SingleCategory | myiq/core/client.py:164-176 | a one-record category stores the record tagged and completes |
| Session.NamedKeepsKeys | myiq/core/client.py:128-132 | the features and settings loops only add or overwrite entries |
| Session.NamedFrame | myiq/core/client.py:128-132 | a name no item carries keeps its entry or its absence |
| Session.NamedSets | myiq/core/client.py:128-132 | a reached item with a truthy, hashable name sets its value unless a later item repeats the name |
| Session.NamelessItemSkipped | myiq/core/client.py:146-148 | an item with a falsy name is skipped and the loop goes on |
| Session.Named | myiq/core/client.py:128-132 | reference definition of the loop of `_on_features` and `_on_user_settings`: truthy hashable names set their entry, and a non-dict item or unhashable name ends the loop |
| Session.NamedSpec | myiq/core/client.py:125-126 | reference definition of the handlers' reading of `message.msg[key]`: a non-dict `msg` leaves the table unchanged, and a missing or non-list key gives no items (any other value sets no entry: it raises at its first element or on iteration, and an empty dict or string yields nothing) |
| Session.FeaturesSpec | myiq/core/client.py:122-135 | reference definition of `_on_features`: the `features` list, each name set to its `status` |
| Session.SettingsSpec | myiq/core/client.py:137-151 | reference definition of `_on_user_settings`: the `configs` list, each name set to its `config` |
| Session.ProfileSpec | myiq/core/client.py:112-120 | the profile becomes `msg` exactly when `msg` is truthy, else it is kept |
| Session.TimeSyncOffset | myiq/core/client.py:267-271 | a `timeSync` push with a numeric server time always sets the offset to server minus local time; any other name keeps it; raises exactly on a non-dict push or a non-numeric server time |
| Session.ServerTimestamp | myiq/core/client.py:273-274 | whole seconds of the corrected clock, truncated toward zero |
| Session.TruncMonotone | myiq/core/client.py:274 | truncation keeps order |
| Session.ServerTimestampMonotone | myiq/core/client.py:273-274 | the server timestamp never runs backwards while the offset stands |
| Session.SyncedTimestamp | myiq/core/client.py:267-274 | after a sync, the timestamp is the server time plus the elapsed local time, in whole seconds |
| Session.AuthRejected | myiq/core/client.py:312 | the rejection test on the first answer: named `error`, or a truthy `msg` equal to `unauthenticated` |
| Session.AuthRejectedMeans | myiq/core/client.py:312 | rejected exactly when named `error` or when `msg` is `unauthenticated` |
| Session.AuthVerdict | myiq/core/client.py:305-318 | `False` exactly on silence; `ConnectionError` exactly on a rejection; `True` otherwise |
| Session.AuthExamples | myiq/core/client.py:312-318 | an authenticated answer passes; `unauthenticated` and `error` answers raise |
| Session.AuthOutcome | myiq/core/client.py:297-318 | silence gives `False`; a dict answer gives `True` or `ConnectionError` by the rejection test |
| Session.Msg | myiq/core/client.py:289-293 | the wire `msg` of a request carries its name, version and body; the auth frame carries `ssid` and protocol 3 |
| Session.FirstAnswered | myiq/core/client.py:450-457 | the first answered attempt, with none answered before it |
| Session.RetrySpec | myiq/core/client.py:448-466 | `{}` exactly when no attempt is allowed; a response comes from an allowed attempt; otherwise the last attempt's error |
| Session.RetryFrames | myiq/core/client.py:450-456 | the attempts write at most one frame each |
| Session.AttemptFrame | myiq/core/client.py:453-456 | an attempt writes its frame unless its send fails |
| Session.RetryFramesStep | myiq/core/client.py:450-456 | the frames of `n` attempts are those of `n - 1` followed by the last attempt's own |
| Session.AttemptsMade | myiq/core/client.py:450-464 | between one and `retries` attempts are made, none when `retries < 1` |
| Session.LaterAttemptsIrrelevant | myiq/core/client.py:457 | attempts after the first response never matter |
| Session.NoAttempts | myiq/core/client.py:466 | with no attempt allowed, nothing is sent and the result is `{}` |
| Session.RetryStops | myiq/core/client.py:457-464 | the loop stops at the first answered attempt or at the last allowed one, with the matching result |
| Trade.TradeTime | myiq/core/client.py:668-669 | the server time used for the expiry: the synchronised timestamp, or the local clock in whole seconds when that is 0 |
| Trade.Expiry | myiq/core/client.py:676 | the expiry is a whole minute, more than 60 and at most 120 seconds after the server time |
| Trade.OrderBody | myiq/core/client.py:678-689 | the order body carries the expiry and the blitz option type 12 |
| Trade.OrderFrame | myiq/core/client.py:720-728 | the open-option request frame, version 2.0, carrying the order body |
| Trade.SubscribeFrame | myiq/core/client.py:757-765 | the subscribe-positions request frame, version 1.0, asking frequent updates of exactly the order id |
| Trade.OrderFrameWire | myiq/core/client.py:720-728 | the order frame is a `sendMessage` naming the open-option operation, version 2.0, with the order body |
| Trade.SubscribeFrameWire | myiq/core/client.py:757-765 | the subscription asks for frequent updates of exactly the order id |
| Trade.CheckAck | myiq/core/client.py:734-738 | accepted exactly when `status` equals 0 or 2000; the error detail is `msg`, or `msg.message` for a dict |
| Trade.OrderIdOf | myiq/core/client.py:742 | raises exactly when `msg` is not a dict; otherwise the result is `msg.id` when present and `None` when missing |
| Trade.ResultJson | myiq/core/client.py:802-808 | the returned dict has `status` `closed` for a settlement and `error` for the timeout |
| Trade.SameOrder | myiq/core/client.py:774-777 | a push belongs to the order exactly when `str(id)` or `str(external_id)` equals `str(order_id)` |
| Trade.InnerEvent | myiq/core/client.py:781 | the inner event `raw_event.binary_options_option_changed1`, absent where a `.get` on the way raises |
| Trade.Pnl | myiq/core/client.py:794-798 | the push's `pnl`, replaced by `profit_amount - amount` only when it equals 0 and `profit_amount` is present |
| Trade.Settlement | myiq/core/client.py:769-809 | a settlement only for a `position-changed` push of this order that is closed or has a final result, with the computed `pnl` |
| Trade.WaitTime | myiq/core/client.py:814 | the wait is `max(duration, 60) + 30`: 90 seconds, or the duration plus 30 when that is longer |
| Trade.Replies | myiq/core/client.py:817 | each push counts only when it arrives within the wait |
| Trade.FirstSome | myiq/core/client.py:790 | the first present entry, with none before it |
| Trade.Outcome | myiq/core/client.py:811-822 | a settlement within the wait, or the timeout exactly when no push within the wait settles |
| Trade.FirstSettlementWins | myiq/core/client.py:790 | the first settling push decides; later pushes change nothing |
| Trade.PushParts | myiq/core/client.py:770-771 | proof helper for the example lemmas: a `position-changed` push exposes its name and payload |
| Trade.OpenedDoesNotSettle | myiq/core/client.py:786-789 | a push that only reports the position opened settles nothing |
| Trade.OpenParts | myiq/core/client.py:780-781 | proof helper for `OpenedDoesNotSettle`: an opened payload exposes its status and inner event |
| Trade.IntAndStringIdsMatch | myiq/core/client.py:777 | an int id in the push matches its decimal string in the order id, and back |
| Trade.MissingOrderIdMatchesIdless | myiq/core/client.py:774-777 | with no order id, any push without `id` and `external_id` passes as the order |
| Trade.PnlFallback | myiq/core/client.py:794-798 | a zero `pnl` falls back to `profit_amount - amount`; a non-zero one is kept |
| Trade.WinSettles | myiq/core/client.py:779-809 | a closed win push with `pnl` 0.86 settles as a win with that `pnl` |
| Trade.PayloadParts | myiq/core/client.py:774-794 | proof helper for the example lemmas: a payload exposes its id, status, `pnl` and inner event |
| Trade.PayloadTail | myiq/core/client.py:781-794 | proof helper for `PayloadParts`: a payload exposes its `pnl` and inner event |
| Trade.ClosedSettles | myiq/core/client.py:786-809 | a closed push of the order with a truthy result settles with that result and `pnl` |
| Trade.PushSettles | myiq/core/client.py:786-799 | a push of the order with a readable inner event and computable `pnl` settles exactly when its status is `closed` or its inner result is final, whatever the status; the outcome is the inner result when truthy, else `close_reason` |
| Trade.OpenWinSettles | myiq/core/client.py:786-789 | a `win` result settles the order while the push's status is still `open` |
| Trade.ClosedWithoutResult | myiq/core/client.py:799 | a closed push without an inner result reports its `close_reason` as the outcome |
| Trade.WinExample | myiq/core/client.py:769-818 | a win within the wait returns the closed result dict |
| Trade.OnlySettlement | myiq/core/client.py:817 | a lone settling push within the wait decides the outcome |
| Trade.TimeoutResult | myiq/core/client.py:820-822 | no settlement within the wait gives the fixed timeout dict |
| Trade.BlitzSpec | myiq/core/client.py:644-830 | `ValueError` without a balance; the payout's exception; `Timeout` on a missing ack; a `RuntimeError` carrying `msg` or `msg.message` on a rejected ack; after an accepted, subscribed order, exactly `Outcome` of the pushes (the first settlement within the wait, or `Timeout`); a closed result only for an accepted order settled within the wait |
| Trade.OrderStage | myiq/core/client.py:718-731 | a failed send raises; a missing acknowledgement gives the timeout result |
| Trade.AckStage | myiq/core/client.py:733-818 | the trade returns a result exactly when the ack leads to a subscription whose send succeeds; a rejected ack raises with `CheckAck`'s detail |
| Trade.SubscribeFrames | myiq/core/client.py:757-765 | exactly one subscription frame, under the given id, exactly when the ack subscribes and the send succeeds |
| Trade.BlitzFrames | myiq/core/client.py:667-765 | no frame when the order send fails; otherwise the order frame with its expiry under `str(base)`, then the subscription when it is sent |
| Trade.FramesAfter | myiq/core/client.py:720-765 | the order frame comes first unless its send fails, followed by the subscription when it is sent |
| Trade.BlitzRequests | myiq/core/client.py:667-759 | one request id for the order, and a second one exactly when the subscription is reached |
| Trade.AcceptedWin | myiq/core/client.py:644-818 | an accepted order with id `n` followed by a win within the wait returns the closed result for `n` |
| Trade.RejectedAckDetail | myiq/core/client.py:734-738 | an ack with status 4000 and a dict `msg` raises a `RuntimeError` carrying `msg.message`, the text callers search |
| Client.AddThenRemove | myiq/core/client.py:828 | adding an absent callback and removing it restores every listener list |
| Client.AddKeeps | myiq/core/dispatcher.py:19-22 | `add_listener` changes only its own event's list |
| Client.RemoveKeeps | myiq/core/dispatcher.py:24-27 | `remove_listener` changes only its own event's list |
| Client.RegisteredAll | myiq/core/client.py:196-203 | the five registrations append each handler to its own event's list only |
| Client.AddedOf | myiq/core/client.py:196-203 | one registration appends to its own event's list only |
| Client.Awaited | myiq/core/client.py:451-461 | the tables after one awaited request: popped when answered, cancelled but kept after a timeout (`wait_for` never pops), pending after a failed send |
| Client.RetryTables | myiq/core/client.py:450-464 | the tables after the first `n` attempts, attempt `k` under id `str(base + k)` and a fresh handle |
| Client.RetryTablesStep | myiq/core/client.py:450-457 | one more attempt turns the tables of `n` attempts into those of `n + 1` |
| Client.AwaitedLeaves | myiq/core/client.py:451-461 | an awaited request leaves no entry when answered, a cancelled entry after a timeout and a pending one after a failed send |
| Client.AwaitedKeepsLeft | myiq/core/client.py:450-452 | a later request under another id and handle keeps what an earlier one left |
| Client.RetryTablesAt | myiq/core/client.py:450-461 | after the attempts, attempt `k`'s id is gone when answered, and otherwise still maps to its own handle, cancelled after a timeout and pending after a failed send |
| Client.AttemptIdsDiffer | myiq/core/client.py:451 | distinct attempts draw distinct request ids |
| Client.RetryTablesFrame | myiq/core/client.py:450-464 | ids no attempt used keep their entry, older handles keep their state, the log is untouched and the only new handles are the attempts' own |
| Client.AuthAttempt | myiq/core/client.py:289-303 | the auth future is left pending by a failed send, popped by a reply, and cancelled otherwise |
| Client.AckAttempt | myiq/core/client.py:720-731 | the ack future is left pending by a failed send, cancelled by the 10 s timeout, and popped by the ack |
| Client.ApplyNamed | myiq/core/client.py:128-132 | the features and settings loop computes `Named` |
| Client.IQOption.constructor | myiq/core/client.py:16-28 | no balance, zero offset, empty cache, profile, features and settings, and a fresh empty dispatcher; its `ssid` parameter stands for the token `start` obtains (client.py:186), where `__init__` itself sets `None` |
| Client.IQOption.RegisterHandlers | myiq/core/client.py:196-203 | every event's list gains exactly its handler, after what it held |
| Client.IQOption.NextRequestId | myiq/core/client.py:667 | request ids are successive decimal numbers |
| Client.IQOption.OnUnderlyingListChanged | myiq/core/client.py:78-110 | the cache becomes `UnderlyingSpec` of the old cache and the push |
| Client.IQOption.StoreActives | myiq/core/client.py:170-177 | the inner loop leaves the cache and completion flag `InitActives` gives |
| Client.IQOption.OnInitializationData | myiq/core/client.py:154-183 | the cache becomes `InitSpec` of the old cache and the push |
| Client.IQOption.OnProfile | myiq/core/client.py:112-120 | the profile becomes `ProfileSpec` of the old profile and the push |
| Client.IQOption.OnFeatures | myiq/core/client.py:122-135 | the features become `FeaturesSpec` of the old features and the push |
| Client.IQOption.OnUserSettings | myiq/core/client.py:137-151 | the user settings become `SettingsSpec` of the old ones and the push |
| Client.IQOption.OnWsMessage | myiq/core/client.py:267-271 | the offset is `TimeSyncOffset`'s, or unchanged when that raises |
| Client.IQOption.ChangeBalance | myiq/core/client.py:488-490 | the selected balance is the one given |
| Client.IQOption.Authenticate | myiq/core/client.py:276-320 | the result is `AuthOutcome`; the auth frame is written unless the send fails; listeners are restored unless the send raises; the future is popped only by a reply |
| Client.IQOption.AuthExchange | myiq/core/client.py:289-318 | the auth frame is written and the first answer decides; only a reply pops the future |
| Client.IQOption.WaitReply | myiq/core/client.py:457 | a response pops and fulfils the future; a timeout cancels it and leaves its entry |
| Client.IQOption.SendAttempt | myiq/core/client.py:451-461 | one attempt draws a request id and a fresh future, writes its frame unless the send fails, and leaves the tables `Awaited` says |
| Client.IQOption.SendWithRetry | myiq/core/client.py:448-466 | the result is `RetrySpec`, with `AttemptsMade` ids drawn, exactly those attempts' frames written and the tables `RetryTables` gives: timed-out entries stay |
| Client.IQOption.RunAttempts | myiq/core/client.py:450-464 | the loop makes `AttemptsMade` attempts, stopping at the first answer or the last allowed attempt, with frames `RetryFrames` and tables `RetryTables` |
| Client.IQOption.NextAttempt | myiq/core/client.py:450-461 | one turn of the loop extends the frames and tables of `n` attempts to those of `n + 1` |
| Client.IQOption.BuyBlitz | myiq/core/client.py:644-830 | the result is `BlitzSpec`; the listener lists end as they began; the frames are `BlitzFrames` and the ack future ends as `AckAttempt` says, or nothing changes when the balance or payout fails |
| Client.IQOption.PlaceOrder | myiq/core/client.py:667-830 | from the request id on: `OrderStage`, `BlitzFrames` and `BlitzRequests`, the ack future as `AckAttempt` says, and every listener list restored |
| Client.IQOption.AwaitOrder | myiq/core/client.py:692-714 | the ack future is pending under the id, and `on_order_created` is appended to `position-changed` only |
| Client.IQOption.RemoveOrderListeners | myiq/core/client.py:826-830 | the `finally` clause restores the `position-changed` list in every case of the `try` |
| Client.IQOption.SendOrder | myiq/core/client.py:718-825 | the result is `OrderStage`, the frames are `FramesAfter`, the ack future is popped, cancelled or left pending as `AckAttempt` says, and the listener state is as `finally` expects |
| Client.IQOption.AfterAck | myiq/core/client.py:733-818 | the result is `AckStage`, with a rejected ack's detail, and the frames are `SubscribeFrames`; the futures are not touched |
| Client.IQOption.Subscribe | myiq/core/client.py:751-818 | `on_order_created` is removed, the subscription frame written unless its send fails, and `on_result` registered |

## Left out

- I/O, timing and concurrency. The socket, `asyncio` scheduling, `wait_for`
  timeouts and `sleep` are not modelled. What arrives, and when, is an
  input: an `AuthArrival`, a sequence of `Attempt`s, or a `BlitzEnv`
  holding the acknowledgement and the timestamped pushes. Coroutine
  listeners, which the dispatcher starts with `create_task`, are treated
  like synchronous calls.
- Listener bodies. A callback is an opaque `Callback`, and the dispatcher
  logs its call. Which calls raise is an input set. The closures
  `on_auth_msg`, `on_order_created` and `on_result` are not executed
  inside the dispatcher. `on_result`'s effect is what `Trade.Settlement`
  and `Trade.Outcome` compute, and `on_order_created` only sets its own
  future, which `buy_blitz` never reads.
- `_authenticate` races two futures. The model takes the answer that
  arrives first as an input, and does not model the dispatcher delivering
  both.
- Two modules are not part of this model:
  - `myiq/core/utils.py`. Its `get_req_id` is modelled as a counter rendered in
    decimal.
  - The `WsRequest` serialisation in `myiq/models/base.py`. The frame
    layout is `Session.Outbound` and `Session.Msg`.
- The exception a failing `send` raises is one named placeholder,
  `TransportError`.
- The HTTP login, reconnection, heartbeat, candles, balances, financial
  information, portfolio subscription, `get_actives` and
  `subscribe_actives` are outside the modelled core.
- Floats are exact reals. Rounding, `inf` and `nan` are not modelled.
- `str()` of floats, lists and dicts is represented by the value itself
  (`ReprOf`), not by its text. So a float, list or dict id never equals a
  string id in the model, although Python's `str()` can make them equal
  (`str(5.0) == "5.0"`). This affects `Trade.SameOrder`, the request-id
  lookup of `Dispatch.DispatchSpec` and `Actives.ItemKey`: a float
  `active_id` 5.0 and a string `"5.0"` share one cache entry in Python but
  are two in the model.
- PyJson.PyInt: does not accept surrounding whitespace or underscores in
  a string, which Python's `int()` allows.
- PyJson.Lower: folds ASCII letters only, where Python's `lower()` covers
  all of Unicode.
- Aliasing. The cached record in `_on_underlying_list_changed` is the same
  dict object as the pushed item. The model stores its tagged copy, which
  has the same contents, because JSON values are not shared.
- Client.IQOption.Authenticate: when the send raises, the model promises
  only that the `authenticated` list grew by one. It does not state which
  callback was added.
- Session.Named: the features and settings tables are keyed by JSON
  values, so `1`, `True` and `1.0` are three keys, where Python's dict
  treats them as one.
- The dispatcher's listener log is outside the frames of the client's
  request flows. Those flows never dispatch a message themselves.
