# Shopping chatbot core, modelled in Dafny

This project models the deterministic core of a shopping chatbot for WhatsApp and Discord:

- the per-user cart store (`CartState`, `CartItem`);
- the cart façade that prices items from the catalog and reports totals (`ShoppingCart`);
- the checkout sessions and their payment states (`CheckoutHandler`);
- the keyword fallback of the intent detector and the reading of the language model's reply;
- the per-user conversation context with its thirty-minute expiry (`ContextManager`);
- the in-memory metric counters (`MetricsCollector` and the counter effects of `AnalyticsManager`).

Stateful objects are Dafny classes whose fields are the source's dictionaries. Each method's
`ensures` gives the new state as a function of the old one. The properties the code promises are
proved as lemmas about those functions.

Files and modules:

- `wrappers.dfy` (`Wrappers`): `Option` and `Result`.
- `decimals.dfy` (`Decimals`): the exact arithmetic of Python's `Decimal` as used by the cart.
  A value is a coefficient and a number of decimal places. Addition keeps the larger number of
  places; multiplying by an integer keeps the places. `str()` and the decimal parser read each
  other back.
- `cart_state.dfy` (`CartStore`): `src/cart/cart_state.py`. A cart dictionary is an ordered list
  of items with distinct product ids, so iteration order is insertion order, as in Python.
- `cart.dfy` (`Cart`): `src/cart/cart.py`. The catalog lookup is a function parameter.
- `checkout.dfy` (`Checkout`): `src/checkout/checkout_handler.py` and the `PaymentStatus` enum
  of `src/checkout/payment_gateway.py`. The gateway's answers, the fresh order id and the clock
  are parameters.
- `intent_detector.dfy` (`Intents`): `src/orchestrator/intent_detector.py`. The model's answer
  is a parameter (`Completion`), with `Unavailable` standing for the exception that triggers the
  fallback.
- `context_manager.dfy` (`Contexts`): `src/orchestrator/context_manager.py`. Time is an integer
  count of microseconds.
- `analytics.dfy` (`Analytics`): the counters of `src/logs/analytics.py`. The four categories
  are never added or removed, so the metrics dictionary is a record with one category map per
  field.

## Model

| member | source | states |
|---|---|---|
| Decimals.Add | src/cart/cart_state.py:89 | the sum of two decimals is exact, with the larger of the two numbers of decimal places |
| Decimals.MulInt | src/cart/cart_state.py:89 | price times quantity is exact and keeps the price's decimal places |
| Decimals.NatToDigits | src/cart/cart_state.py:19 | the decimal digits of a natural number are a non-empty string of digits |
| Decimals.DigitsRoundTrip | src/cart/cart_state.py:19-29 | reading back the digits written for a natural number gives that number |
| Decimals.ParseToString | src/cart/cart_state.py:19-29 | parsing `str(d)` gives back exactly `d`, value and number of places |
| CartStore.ToDict | src/cart/cart_state.py:15-22 | `to_dict` keeps id, name, quantity and image, and writes the price as its decimal text |
| CartStore.FromDict | src/cart/cart_state.py:24-32 | `from_dict` succeeds exactly when the price text is a plain-notation decimal the model reads |
| CartStore.FromDictToDict | src/cart/cart_state.py:15-32 | `from_dict(item.to_dict())` reproduces the item |
| CartStore.Find | src/cart/cart_state.py:53 | the lookup finds nothing exactly when no item has the id, and otherwise an item of the cart with that id |
| CartStore.Added | src/cart/cart_state.py:52-56 | adding an item keeps product ids distinct |
| CartStore.AddedFind | src/cart/cart_state.py:52-56 | a known product gets the sum of the quantities with its stored name, price and image; a new product is stored as given; every other product is unchanged |
| CartStore.Removed | src/cart/cart_state.py:63-65 | removing keeps product ids distinct |
| CartStore.RemovedFind | src/cart/cart_state.py:63-68 | after removal the product is absent, every other product is unchanged, and the cart is one item shorter exactly when the product was there |
| CartStore.Updated | src/cart/cart_state.py:70-82 | an update keeps product ids distinct, leaves a cart without the product as it was, and with a positive quantity keeps the cart's length |
| CartStore.UpdatedFind | src/cart/cart_state.py:74-82 | a positive quantity replaces the stored one; a quantity of zero or less is the same as removal; other products are unchanged |
| CartStore.Total | src/cart/cart_state.py:84-89 | the total's value is the sum of price times quantity over the items |
| CartStore.CartState.constructor | src/cart/cart_state.py:35-37 | a new store has no carts and no time stamps |
| CartStore.CartState.GetCart | src/cart/cart_state.py:39-46 | an unknown user gets an empty cart and a time stamp; a known user changes nothing; the cart and time-stamp maps keep the same keys |
| CartStore.CartState.AddItem | src/cart/cart_state.py:48-57 | the user's cart becomes `Added` of the old cart, the user is stamped, other users are untouched |
| CartStore.CartState.RemoveItem | src/cart/cart_state.py:59-68 | returns true exactly when the product was in the cart; the cart becomes `Removed` of the old one; the stamp changes only on removal or cart creation |
| CartStore.CartState.UpdateQuantity | src/cart/cart_state.py:70-82 | returns true exactly when the product was in the cart; the cart becomes `Updated` of the old one; the stamp changes only on change or cart creation |
| CartStore.CartState.GetTotal | src/cart/cart_state.py:84-89 | the total of the user's cart, empty for an unknown user, who gets a cart created |
| CartStore.CartState.ClearCart | src/cart/cart_state.py:91-97 | the user leaves both the cart map and the time-stamp map; nothing changes for an unknown user |
| Cart.ItemsOf | src/cart/cart.py:71-76 | one dictionary per cart item, in cart order, each the `to_dict` of that item |
| Cart.ItemsRoundTrip | src/cart/cart.py:71-76 | every dictionary of the summary reads back through `from_dict` as the item it came from |
| Cart.QuantitySum | src/cart/cart.py:89 | the sum of the quantities is never negative when no quantity is, and is the one quantity for a single item; what it sums is stated by `ItemsQuantity` below |
| Cart.ItemsQuantity | src/cart/cart.py:78-90 | the summed quantities of the item dictionaries are the sum of the quantities of the cart's items |
| Cart.SummaryOf | src/cart/cart.py:78-90 | one dictionary per item that reads back as that item, an item count equal to the number of items, a total text that reads back as the cart's exact total, and the sum of the cart's quantities |
| Cart.SummaryMeaning | src/cart/cart.py:78-90 | the item count is the number of distinct products in the cart |
| Cart.AddedExampleTotal | tests/unit/test_cart.py:7-16 | two units at 99.99 added to an empty cart give the total "199.98" |
| Cart.RemoveOnlyItemTotal | tests/unit/test_cart.py:43-56 | adding any item to an empty cart and removing it leaves an empty cart with total "0" |
| Cart.SummaryOfOneItem | tests/unit/test_cart.py:26-40 | two units at 10.00 summarise as total "20.00", one item, quantity 2 |
| Cart.ShoppingCart.constructor | src/cart/cart.py:7-9 | a new cart façade has an empty store |
| Cart.ShoppingCart.AddToCart | src/cart/cart.py:11-38 | an unknown product fails and changes nothing; otherwise the catalog's name, price and image are added with the quantity, and the reply carries the new total |
| Cart.ShoppingCart.RemoveFromCart | src/cart/cart.py:40-53 | succeeds exactly when the product was in the cart, replying with the total after removal; fails with "item not found" otherwise |
| Cart.ShoppingCart.UpdateQuantity | src/cart/cart.py:55-69 | succeeds exactly when the product was in the cart, replying with the total after the change; fails otherwise |
| Cart.ShoppingCart.GetCartItems | src/cart/cart.py:71-76 | the item dictionaries of the user's cart, in cart order |
| Cart.ShoppingCart.GetCartSummary | src/cart/cart.py:78-90 | the summary of the user's cart as it was before the call |
| Cart.ShoppingCart.ClearCart | src/cart/cart.py:92-97 | the user's cart is gone and its summary is empty with total "0" |
| Checkout.ParsePaymentStatus | src/checkout/payment_gateway.py:8-12 | only the four status values are accepted, each as the status with that value |
| Checkout.ParseStatusValue | src/checkout/payment_gateway.py:8-12 | every status reads back from its value |
| Checkout.NewSession | src/checkout/checkout_handler.py:31-41 | a new session is "created", holds the summary's items and total, and has no payment and no error |
| Checkout.RequestChargesCartTotal | src/checkout/checkout_handler.py:31-41 | a session made from a cart keeps the session invariant, and the payment request built from it charges exactly the cart's total, in the session's currency, for the session's order, user and payment method, described as "Pedido" and the order id |
| Checkout.AfterPayment | src/checkout/checkout_handler.py:70-87 | after a payment attempt a session is never "created"; it is "processing" with the gateway's id and url exactly when the gateway returned an id, and "error" with the error text otherwise |
| Checkout.AfterPaymentInvariant | src/checkout/checkout_handler.py:55-87 | a payment attempt keeps the session invariant, and a session left without a payment id is in "error" |
| Checkout.PolledStatus | src/checkout/payment_gateway.py:65-68 | a poll yields a status exactly when the gateway's body holds one of the four status values, and a failed request yields its error text |
| Checkout.CheckoutHandler.constructor | src/checkout/checkout_handler.py:9-12 | a new handler has no sessions |
| Checkout.CheckoutHandler.CreateCheckoutSession | src/checkout/checkout_handler.py:14-45 | an empty cart fails and adds no session; otherwise a "created" session with the summary's items and total is stored under the fresh id, and other sessions are untouched |
| Checkout.CheckoutHandler.ProcessPayment | src/checkout/checkout_handler.py:47-87 | unknown orders and sessions not "created" fail unchanged; otherwise the session takes `AfterPayment`, and a gateway failure is stored and raised |
| Checkout.CheckoutHandler.VerifyPaymentStatus | src/checkout/checkout_handler.py:89-116 | unknown orders and sessions without a payment id fail; a failed or unreadable poll fails with nothing changed; otherwise the session takes the polled status, and "approved" removes the user's cart |
| Checkout.ProcessTwice | src/checkout/checkout_handler.py:51-56 | a second payment attempt on a known order always fails as already processed |
| Checkout.FailedPaymentNotVerifiable | src/checkout/checkout_handler.py:93-98 | a session whose payment could not be created can never have its status checked |
| Checkout.OpenSession | tests/e2e/test_checkout_flow.py:4-29 | after one unit of a catalog product is added, the session is stored "created" for that user with no payment yet |
| Checkout.CheckoutFlow | tests/e2e/test_checkout_flow.py:4-38 | adding a product, creating the session, paying and an approved poll end with the order "approved" and the user's cart gone |
| Intents.Lower | src/orchestrator/intent_detector.py:111 | lower-casing keeps the length and maps each character |
| Intents.Upper | src/orchestrator/intent_detector.py:100 | upper-casing keeps the length and maps each character |
| Intents.Occurs | src/orchestrator/intent_detector.py:69 | the empty word is in every text, and a word longer than the text is in none |
| Intents.OccursIsSubstring | src/orchestrator/intent_detector.py:69 | the left-to-right scan finds `w` in `s` exactly when `w` is a slice of `s` |
| Intents.AnyOccurs | src/orchestrator/intent_detector.py:115 | `any(word in s ...)` holds exactly when some word of the list is a slice of `s` |
| Intents.SimpleDetection | src/orchestrator/intent_detector.py:109-123 | product search exactly when a product keyword occurs; FAQ exactly when none does and a FAQ keyword does; general otherwise |
| Intents.KeywordsIgnoreCase | src/orchestrator/intent_detector.py:62-64 | detection and extraction give the same answers for a message and its lower-cased form |
| Intents.FirstOccurring | src/orchestrator/intent_detector.py:67-71 | the answer is the first word of the list that occurs, and nothing when none occurs |
| Intents.SimpleExtract | src/orchestrator/intent_detector.py:62-79 | the first brand in list order that occurs wins; without a brand, "celular" only when it occurs and "perfume" does not, else "perfume"; always a non-empty member of a fixed list |
| Intents.Strip | src/orchestrator/intent_detector.py:100 | the stripped text is a slice of the text with only white space before and after it, and neither begins nor ends with white space |
| Intents.LeadingSpaces | src/orchestrator/intent_detector.py:100 | the maximal run of white space at the start |
| Intents.TrailingStart | src/orchestrator/intent_detector.py:100 | the maximal run of white space at the end |
| Intents.ReplyToIntent | src/orchestrator/intent_detector.py:100-107 | the reply means product search exactly when the upper-cased reply contains "PRODUCT_SEARCH", FAQ exactly when it does not but contains "FAQ", and general exactly when it contains neither; stripping first never changes this |
| Intents.StripKeepsWord | src/orchestrator/intent_detector.py:100 | a word without white space occurs in the stripped text exactly when it occurs in the text |
| Intents.DetectIntent | src/orchestrator/intent_detector.py:15-23 | the model's reply decides when it answers; the keyword fallback decides when the call fails |
| Intents.ExtractSearchTerm | src/orchestrator/intent_detector.py:25-32 | the model's stripped, lower-cased reply when it answers; the keyword extraction, one of the fixed terms, when the call fails |
| Contexts.LiveData | src/orchestrator/context_manager.py:32-40 | a read finds data exactly when the user has an entry at most thirty minutes old, and then it is that entry's data |
| Contexts.Merged | src/orchestrator/context_manager.py:50-51 | the merge has the keys of both maps, the update's value where it has one, the old value elsewhere |
| Contexts.AfterRead | src/orchestrator/context_manager.py:32-38 | a read deletes the user's entry exactly when it has expired and keeps every other entry |
| Contexts.UpdatedEntry | src/orchestrator/context_manager.py:42-52 | the entry written by an update is stamped with the current time and holds every updated key with its new value |
| Contexts.UpdatedEntryMeaning | src/orchestrator/context_manager.py:42-52 | the entry holds exactly the updated keys and the keys of the live data, keeps the live value of every key the update does not name, and holds only the updates when the old entry is absent or expired |
| Contexts.ExpiryBoundary | src/orchestrator/context_manager.py:7-38 | an entry is still read exactly thirty minutes after it was written, and is deleted on a read one microsecond later |
| Contexts.UpdateThenRead | src/orchestrator/context_manager.py:42-52 | after an update the merged data is what a read returns for the next thirty minutes |
| Contexts.ContextManager.constructor | src/orchestrator/context_manager.py:5-7 | a new store is empty |
| Contexts.ContextManager.SetContext | src/orchestrator/context_manager.py:9-20 | the user's entry becomes the data with the current time; nothing else changes |
| Contexts.ContextManager.GetContext | src/orchestrator/context_manager.py:22-40 | returns `LiveData` and leaves `AfterRead` |
| Contexts.ContextManager.UpdateContext | src/orchestrator/context_manager.py:42-52 | the user's entry becomes the merged, freshly stamped entry; other users are untouched |
| Contexts.ContextManager.ClearContext | src/orchestrator/context_manager.py:54-62 | removes the user's entry, does nothing for an unknown user, keeps every other entry |
| Analytics.WithCategoryLookup | src/logs/analytics.py:105-111 | writing one category map leaves the other categories as they were |
| Analytics.InitialWellShaped | src/logs/analytics.py:88-93 | a fresh collector has its named counters and two nested dictionaries, and every counter is 0 |
| Analytics.Incremented | src/logs/analytics.py:95-111 | an increment can fail only in one of the four categories, and only with `TypeError` or `KeyError` of the metric |
| Analytics.IncrementUnknownCategory | src/logs/analytics.py:105 | an unknown category changes nothing and raises nothing |
| Analytics.IncrementedCounts | src/logs/analytics.py:105-111 | a successful increment adds the value to the target counter (created at 0 if missing) in the category map itself, and every other entry, nested dictionaries included, is unchanged |
| Analytics.IncrementFailures | src/logs/analytics.py:106-111 | an increment fails exactly when the target is a nested dictionary (`TypeError`) or, without a subcategory, is missing (`KeyError`) |
| Analytics.IncrementKeepsShape | src/logs/analytics.py:95-111 | every increment keeps the named counters and the two nested dictionaries |
| Analytics.NamedCounterStep | src/logs/analytics.py:110-111 | adding to a named counter always succeeds, adds exactly the value to it and nothing else |
| Analytics.Tracked | src/logs/analytics.py:146-151 | the counters after `track_message` (and, with "errors" and "by_type", after `track_error`, lines 249-254): left as they were when the first increment raises, and keeping their shape whatever the name |
| Analytics.TrackedOutcome | src/logs/analytics.py:146-151 | the exception raised is the first increment's when it raises, and otherwise, on well-shaped counters, the second increment's |
| Analytics.TrackMessageCounts | src/logs/analytics.py:146-151 | an ordinary channel adds one to the message total and one to a counter named after the channel beside it; `by_channel` and all other counters are unchanged |
| Analytics.TrackMessageTotalChannel | src/logs/analytics.py:146-151 | as written, the channel "total" adds two to the message total |
| Analytics.TrackMessageRejects | src/logs/analytics.py:146-151 | as written, the channels "" and "by_channel" raise `TypeError` after the total was already counted |
| Analytics.MessageCountedByChannel | src/logs/analytics.py:89 | the corrected count keeps the shape and adds one to the total and one to the channel inside `by_channel`, for every channel name, and nothing else |
| Analytics.TrackErrorCounts | src/logs/analytics.py:248-254 | an ordinary error type adds one to the error total and one to a counter named after the type beside it; `by_type` and all other counters are unchanged |
| Analytics.TrackErrorTotalType | src/logs/analytics.py:248-254 | as written, the error type "total" adds two to the error total |
| Analytics.TrackErrorRejects | src/logs/analytics.py:248-254 | as written, the types "" and "by_type" raise `TypeError` after the total was already counted |
| Analytics.ErrorCountedByType | src/logs/analytics.py:92 | the corrected count keeps the shape and adds one to the total and one to the type inside `by_type`, for every type name, and nothing else |
| Analytics.ItemCount | src/logs/analytics.py:190 | the item count is zero exactly when the cart data has no items or an empty list |
| Analytics.MetricsCollector.constructor | src/logs/analytics.py:87-93 | a new collector holds the initial counters |
| Analytics.MetricsCollector.IncrementMetric | src/logs/analytics.py:95-111 | the counters become `Incremented` of the old ones, or stay as they were when it raises, and the raised error is reported |
| Analytics.MetricsCollector.GetMetrics | src/logs/analytics.py:113-117 | the counters as they stand |
| Analytics.AnalyticsManager.constructor | src/logs/analytics.py:120-122 | a new manager has a fresh collector with the initial counters |
| Analytics.AnalyticsManager.TrackMessage | src/logs/analytics.py:124-151 | the counters become `Tracked` of the old ones and the outcome is `TrackedOutcome`: the message total, then the channel as a subcategory, stopping at the first exception, which is passed on |
| Analytics.AnalyticsManager.TrackProductView | src/logs/analytics.py:153-169 | the counters become `Step` of the old ones and the exception of `products.viewed`'s increment is passed on; on well-shaped counters it never raises, the counters stay well shaped, and `viewed` grows by exactly one |
| Analytics.AnalyticsManager.TrackCartUpdate | src/logs/analytics.py:171-191 | the counters become `Step` of the old ones and the increment's exception is passed on; on well-shaped counters it never raises, the counters stay well shaped, and `added_to_cart` grows by exactly the number of items in the cart data, 0 when it has none |
| Analytics.AnalyticsManager.TrackCheckout | src/logs/analytics.py:193-213 | the counters become `Step` of the old ones and the increment's exception is passed on; on well-shaped counters it never raises, the counters stay well shaped, and `started` grows by exactly one |
| Analytics.AnalyticsManager.TrackOrderCompletion | src/logs/analytics.py:215-235 | the counters become `Step` of the old ones and the increment's exception is passed on; on well-shaped counters it never raises, the counters stay well shaped, and `completed` grows by exactly one |
| Analytics.AnalyticsManager.TrackError | src/logs/analytics.py:237-254 | the counters become `Tracked` of the old ones and the outcome is `TrackedOutcome`: the error total, then the error type as a subcategory, stopping at the first exception, which is passed on |
| Analytics.AnalyticsManager.GetMetrics | src/logs/analytics.py:256-260 | the collector's counters |

## Left out

- Decimals.ToString: Python writes a decimal in exponent notation when it has six or more zeros between the point and its first significant digit (`0.0000001` is written `1E-7`), and writes zero with seven or more places as `0E-7` and the like. The model always writes plain notation. Cart prices never need that many places.
- Decimals.Parse: accepts only an optional minus sign, ASCII digits, and an optional point with digits on both sides. Python's `Decimal()` also accepts a plus sign, exponents, surrounding white space, a point with no digits on one side (`"5."`, `".5"`), underscores between digits (`"1_000"`), non-ASCII digits, and "Infinity", "NaN" and "sNaN" in any case.
- CartStore.FromDict: succeeds exactly when the price text is one the model's `Parse` reads, so it agrees with Python's `from_dict` only on the plain-notation decimals above.
- Decimal context precision (28 significant digits), rounding and signed zero are not modelled. The arithmetic is exact.
- Intents.Lower and Intents.Upper: only ASCII letters change case. Python's `lower()` and `upper()` also map other Unicode letters, and some of them to several characters.
- Aliasing is not modelled. Python returns the stored dictionaries and items themselves, so a caller could change them afterwards. The model returns values.
- Cart.ShoppingCart.AddToCart: the catalog product is a `Product` whose price is already a decimal. A price that `Decimal(str(...))` rejects, and a catalog answer that is an empty dictionary, are not modelled.
- The catalog client, the payment gateway client and their HTTP calls are not part of this model. Their answers are parameters.
- Checkout.CheckoutHandler.CreateCheckoutSession: `uuid4()` is replaced by a caller-supplied id that is not yet in use. The creation time is an integer parameter, not an ISO text.
- Checkout.PolledStatus: the rejection text quotes the status with single quotes, which is Python's `repr` only for text without quotes, backslashes or unprintable characters (for `it's` Python writes `"it's"`). A `null` or numeric `status` in the gateway's body cannot be expressed: `StatusReply` holds an optional string, and `null` is read as a missing status.
- Checkout.CheckoutHandler.ProcessPayment: a gateway body whose `payment_id` is `null` is read as a present id. The model's `Option` cannot tell `null` from a string.
- Contexts.ContextManager.UpdateContext: Python reads the clock twice (once in `get_context`, once in `set_context`). The model uses one `now` for both.
- Logging, the event and error log files, JSON output and `print` calls are left out. The `Analytics` class (src/logs/analytics.py:18-84) is therefore not modelled.
- `async`/`await` and concurrency are left out. The model is sequential.
- The calls to the language model in `_detect_with_openai` and `_extract_with_openai` are left out. Their outcome is the `Completion` parameter, and the prompts are not modelled.
- The orchestrator, the FAQ vector store, the HTTP routes and the chat transports are not part of this model.

## Findings

| source | as written | input that shows it | evidently intended | confidence | as-written member | corrected member |
|---|---|---|---|---|---|---|
| src/logs/analytics.py:146-151 | `increment_metric("messages", "by_channel", subcategory=channel)` adds the channel's counter directly to the `messages` map, beside `total`. The `by_channel` dictionary is never written. | `track_message(..., channel="total", ...)` adds 2 to `messages.total`. `channel=""` or `channel="by_channel"` raises `TypeError`. | count the channel inside `messages.by_channel`, so each message adds exactly 1 to the total and 1 to its channel | high (derived from the code, not executed) | Analytics.TrackMessageTotalChannel | Analytics.MessageCountedByChannel |
| src/logs/analytics.py:248-254 | `increment_metric("errors", "by_type", subcategory=error_type)` adds the type's counter directly to the `errors` map, beside `total`. The `by_type` dictionary is never written. | `track_error("total", ...)` adds 2 to `errors.total`. `error_type=""` or `error_type="by_type"` raises `TypeError`. | count the type inside `errors.by_type`, so each error adds exactly 1 to the total and 1 to its type | high (derived from the code, not executed) | Analytics.TrackErrorTotalType | Analytics.ErrorCountedByType |

`AnalyticsManager.TrackMessage` and `AnalyticsManager.TrackError` keep the behaviour as written.
`MessageCountedByChannel` and `ErrorCountedByType` are the corrected counts, and their contracts
state the intended property for every channel or type name.
