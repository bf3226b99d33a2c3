# Billing façade: request layer, status store and active-subscription predicate

This project is a Dafny model of the client-side billing façade in `src/index.js`. The façade has three parts:

- **Request layer** (`createBillingClient`, module `BillingClient`). `buildUrl` joins the API base URL and a path with one slash. `buildHeaders` always sends a JSON content type, and sends a bearer token when the token accessor yields a non-empty token. `request` merges the caller's headers over these defaults, sends the request through the transport, and turns a response that is not `ok` into the generic "Billing request failed." error. There are two endpoints: `getBillingStatus` (GET `/system/billing`) and `cancelSubscription` (POST `/system/billing/cancel`). The transport is a function parameter. The token is the value the accessor returned.
- **Billing store** (`createBillingStore`, module `BillingStore`). It holds a one-slot cache of the status payload, the fetch in flight, and an insertion-ordered set of subscriber callbacks.
  - `load(force)` answers in one of three ways: with the cache, by joining the fetch in flight, or by starting a new fetch.
  - When a fetch settles, the store updates the cache (on success only), invokes every subscriber, and clears `inflight`.
  - The pure functions `AfterLoad`, `AfterSuccess`, `AfterFailure`, `AfterSubscribe` and `AfterUnsubscribe` define each step on a `StoreState` value.
  - The `Store` class performs the same steps in place, and each of its methods is specified by the matching function.
  - Asynchrony is explicit. Every call of `fetchStatus()` gets a fetch id. Its settlement is a separate event (`SettleSuccess` or `SettleFailure`) that may arrive in any order. Callback invocations are recorded in `calls` instead of being run.
- **`isSubscriptionActive`** (module `Subscription`). It is true exactly for a present object payload whose `status` field is the string `"active"`.

Parsed JSON is the datatype `Json.Value`. `Json.Truthy` gives JavaScript truthiness, so `load` treats a falsy cached payload (`null`, `false`, `0`, `""`) as no cache, as the test `if (!force && cached)` does.

The model follows the code in the places where one might expect an idealised single-flight cache:

- A forced load (`refresh()`) starts a new fetch even while one is in flight. The new fetch replaces `inflight` (`ForcedLoadStarts`).
- Every fetch's clean-up clears `inflight` unconditionally. When an older fetch settles after a forced one started, `inflight` is cleared while the newer fetch is still running. The next unforced load with no truthy cache then starts yet another fetch (`StaleSettlementClearsInflight`). So "at most one fetch outstanding" holds only for unforced loads started from idle (`ConcurrentLoadsShareOneFetch`).
- Settlements take effect in the order they arrive, not the order their fetches started. An older fetch that succeeds after a newer one overwrites the newer payload in the cache (`StaleSuccessOverwrites`). A failed fetch leaves the cache as it is at the failure, which may hold a payload from a fetch that succeeded in between (`FailureAfterInterveningSuccess`).
- A missing base URL is not detected when the client is created. `buildUrl` throws inside `request`, so the error surfaces as the failed result of each request.

## Model

| member | source | states |
|---|---|---|
| BillingClient.NormalizeBase | src/index.js:5 | the base is the result followed by "/" when it ends in a slash, and the result itself otherwise: at most one slash is removed |
| BillingClient.NormalizePath | src/index.js:6 | the result always starts with a slash; a path that already starts with one is kept, any other gets one slash in front |
| BillingClient.BuildUrl | src/index.js:1-8 | fails with "apiBaseUrl is required." exactly when the base URL is absent or empty; otherwise the URL is the base without its trailing slash, one slash, and the path without its leading slash |
| BillingClient.BuildUrlSplits | src/index.js:5-7 | the built URL splits back into the normalised base, one joining slash, and the path without one leading slash; a path that starts with a slash appears unchanged after the base |
| BillingClient.BuildUrlSingleSlashAtJoin | src/index.js:5-7 | when the base does not end in two slashes and the path does not start with two, there is no double slash at the join |
| BillingClient.BuildUrlExample | src/index.js:1-8 | "https://api.example.com/" with "/system/billing" gives "https://api.example.com/system/billing" |
| BillingClient.BuildHeaders | src/index.js:11-18 | Content-Type is always application/json; Authorization is present exactly when the token is non-empty, with value "Bearer " + token; there are no other headers |
| BillingClient.MergeHeaders | src/index.js:23-26 | the keys are those of both maps; every caller header keeps the caller's value; every default the caller did not supply keeps its default value; no caller headers leaves the defaults |
| BillingClient.PrepareRequest | src/index.js:20-27 | the request handed to the transport has the built URL, the caller's method and the merged headers; an absent or empty base URL fails before anything is sent |
| BillingClient.RequestHeaders | src/index.js:11-26 | in the headers sent, the caller's headers win; the JSON content type and the bearer token survive unless the caller set that header; there is no Authorization without a token unless the caller set one |
| BillingClient.CheckResponse | src/index.js:29-33 | a response that is not ok always gives "Billing request failed.", whatever its body; an ok response gives its body |
| BillingClient.Request | src/index.js:20-34 | a URL error or a transport rejection is propagated unchanged; a response that is not ok is the generic failure; an ok response gives its body |
| BillingClient.EndpointRequests | src/index.js:36-39 | the status request goes to base + "/system/billing" with no explicit method; the cancel request goes to base + "/system/billing/cancel" as POST; both carry exactly the default headers |
| BillingClient.EndpointOutcomes | src/index.js:36-39 | both endpoints return the ok-check of whatever the transport answered for their request |
| BillingClient.GetBillingStatus | src/index.js:37 | fails with "apiBaseUrl is required." when the base URL is absent or empty; otherwise sends base + "/system/billing" with no explicit method and the default headers, propagates a transport rejection unchanged, and otherwise returns the ok-check of the response |
| BillingClient.CancelSubscription | src/index.js:38 | fails with "apiBaseUrl is required." when the base URL is absent or empty; otherwise POSTs to base + "/system/billing/cancel" with the default headers, propagates a transport rejection unchanged, and otherwise returns the ok-check of the response |
| Subscription.IsSubscriptionActive | src/index.js:84 | true exactly for a present object payload whose status field is the string "active"; false for an absent payload, a non-object and any other status value |
| Subscription.OnlyStatusMatters | src/index.js:84 | adding or changing any field other than status never changes the verdict |
| Subscription.ActiveExamples | src/index.js:84 | {status: "active"} is active; {status: "Active"}, null, an absent payload and {} are not |
| BillingStore.Deliveries | src/index.js:50-52 | notify invokes one callback per subscriber, in subscription order, each with the notified value |
| BillingStore.Without | src/index.js:79 | the callback is gone; every other subscriber stays; a callback that was not there changes nothing; subscribers stay duplicate-free |
| BillingStore.WithoutKeepsOrder | src/index.js:79 | unsubscribing cuts out the callback's one entry and the other subscribers keep their order, so later notifications follow the original subscription order |
| BillingStore.AfterLoad | src/index.js:54-71 | a load keeps the store invariant: subscribers duplicate-free, only started fetches pending, and inflight, when set, is the newest pending fetch |
| BillingStore.AfterSuccess | src/index.js:58-69 | a successful settlement keeps the store invariant |
| BillingStore.AfterFailure | src/index.js:63-69 | a failed settlement never changes the cache, clears inflight, retires the fetch, and keeps the store invariant |
| BillingStore.AfterSubscribe | src/index.js:77-78 | subscribing keeps the store invariant (set semantics) |
| BillingStore.AfterUnsubscribe | src/index.js:79 | unsubscribing keeps the store invariant |
| BillingStore.LoadAll | src/index.js:54-74 | n unforced loads in a row give n answers and call fetchStatus at most once in total, not at all when a truthy payload is cached or a fetch is in flight; they never touch the cache, subscribers or calls |
| BillingStore.LoadsJoinInflight | src/index.js:55-56 | with a fetch in flight and no truthy cache, every unforced load joins that fetch and changes nothing |
| BillingStore.ConcurrentLoadsShareOneFetch | src/index.js:54-70 | of n unforced loads issued from idle with no cache, the first starts the one fetch and all others join it; fetchStatus is called exactly once |
| BillingStore.LoadsAnswerCache | src/index.js:55 | with a truthy cache, every unforced load answers the cached payload and starts no fetch |
| BillingStore.SuccessIsServedFromCache | src/index.js:55-62 | after a fetch succeeds with a truthy payload, unforced loads answer that payload and call fetchStatus no more |
| BillingStore.ForcedLoadStarts | src/index.js:56-76 | a forced load always starts a new fetch, replacing any fetch in flight, and leaves the cache alone |
| BillingStore.FailureKeepsCache | src/index.js:63-66 | a failed settlement never changes the cache; a fetch that fails right after the load that started it leaves the cache as it was before that load |
| BillingStore.FailureAfterInterveningSuccess | src/index.js:56-66 | fetch A starts, a forced fetch B starts and succeeds with a payload, then A fails: the cache holds B's payload, not the value it had when A started |
| BillingStore.StaleSuccessOverwrites | src/index.js:56-62 | when an older fetch succeeds after a newer one, the older payload overwrites the newer one in the cache |
| BillingStore.StaleSettlementClearsInflight | src/index.js:56-69 | after a forced load overlaps a fetch, the older fetch's clean-up clears inflight while the newer is pending, and the next unforced load starts a third fetch |
| BillingStore.ReceivedAppend | src/index.js:51 | callback invocations recorded one after another are received in that order |
| BillingStore.NotifiedOnce | src/index.js:50-52 | notify invokes every subscriber exactly once with the value, and invokes no callback that is not subscribed |
| BillingStore.SuccessNotifiesSubscribers | src/index.js:58-62 | a successful settlement invokes each current subscriber once with the new payload, and nothing else |
| BillingStore.FailureNotifiesSubscribers | src/index.js:63-66 | a failed settlement invokes each current subscriber once with the unchanged cache, and nothing else |
| BillingStore.WithoutLast | src/index.js:78-79 | removing a callback that was just appended gives back the earlier subscribers |
| BillingStore.SubscribeThenUnsubscribe | src/index.js:77-80 | subscribing a new callback and then calling its unsubscribe function restores the store |
| BillingStore.SubscriptionIdempotent | src/index.js:77-80 | subscribing twice is subscribing once; a second unsubscribe is a no-op; subscribe adds the callback and unsubscribe removes it |
| BillingStore.Store.constructor | src/index.js:46-48 | a new store has no cache, no fetch in flight, no subscribers and no fetches |
| BillingStore.Store.GetCachedStatus | src/index.js:75 | returns the cache, starting no fetch and changing nothing |
| BillingStore.Store.Load | src/index.js:54-71 | unforced with a truthy cache: answers it, nothing changes; unforced with no cache and a fetch in flight: joins it, nothing changes; otherwise: starts fetch number `started`, records it as inflight, and leaves cache, subscribers and calls alone |
| BillingStore.Store.GetStatus | src/index.js:74 | a load with the given force flag |
| BillingStore.Store.Refresh | src/index.js:76 | always starts a new fetch and records it as inflight |
| BillingStore.Store.Notify | src/index.js:50-52 | appends one invocation per current subscriber, in order, with the value |
| BillingStore.Store.SettleSuccess | src/index.js:58-69 | caches the payload, invokes each subscriber with it, clears inflight and resolves with the payload |
| BillingStore.Store.SettleFailure | src/index.js:63-69 | keeps the cache, invokes each subscriber with it, clears inflight and rejects with the same reason |
| BillingStore.Store.Subscribe | src/index.js:77-78 | the callback is subscribed afterwards; no other callback is added or removed |
| BillingStore.Store.Unsubscribe | src/index.js:79 | removes exactly that callback, by identity; reports whether it was still there; a second call right after is a no-op, but after the callback is subscribed again, an earlier unsubscribe removes it again |
| BillingStore.CreateBillingStore | src/index.js:42-48 | fails with "fetchStatus is required." exactly when fetchStatus is missing; otherwise returns a fresh, empty store |

## Left out

- The transport (`fetchImpl`, which defaults to the global `fetch`) is a function parameter. The model does not parse the body with `response.json()`: a response carries its body already parsed, and a `json()` rejection is not modelled.
- Promise and `async` machinery is reduced to explicit settle events keyed by fetch id. Callers that hold a fetch id receive that fetch's outcome, which the settle methods return. A cached answer is modelled as immediate, although the source wraps it in a resolved promise.
- Subscriber callbacks are opaque ids. Their invocations are recorded, not run. Callbacks run while `inflight` is still set and may call back into the store, for example subscribing, unsubscribing or loading during `notify`. `Set.forEach` also visits callbacks added during iteration. Re-entrant calls and live iteration are not modelled: a settlement notifies exactly the subscribers present when it settles.
- BillingStore.Store.SettleSuccess: assumes subscriber callbacks return normally. In the source, `.catch` is chained after `.then`. A callback that throws inside the success-path `notify` therefore sends control to the failure handler: the subscribers before it are invoked a second time, with the new payload; the ones after it are skipped; and the fetch's callers receive the callback's error instead of the payload. `SuccessNotifiesSubscribers` ("exactly once") holds only for callbacks that return normally.
- BillingStore.Store.SettleFailure: assumes subscriber callbacks return normally. A callback that throws inside the failure-path `notify` stops the iteration, so later subscribers are skipped. The handler then rethrows the callback's error instead of the fetch's reason, so callers do not receive the same reason. `FailureNotifiesSubscribers` ("each current subscriber once") holds only for callbacks that return normally.
- BillingStore.Store.Load: assumes `fetchStatus` does not throw synchronously. If it does, the source's `load` rejects without setting `inflight`, whereas `Load` always returns `Started` and records the fetch.
- `getAccessToken` is not modelled as a function. Its result is a parameter, and a non-string token is not modelled.
- Request options other than the method and the headers (a body, for example) are passed through to the transport by the source but are not part of the model. Non-string base URLs and paths are not modelled.
- JSON numbers are integers. Fractions and `NaN` (which is falsy) are not modelled.
- Calling `createBillingStore()` with no argument at all throws a `TypeError` from destructuring in the source. This is not modelled: the model takes the `fetchStatus` option directly.
