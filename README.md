# Betfair lay-betting backend: rate limiter and request shaping

This project models the two self-contained parts of the lay-betting backend's
Betfair Exchange proxy (`backend/main.py`):

- **The rate limiter** (`RateLimiting`). The sliding-window limiter is keyed
  by market id and admits at most `max_requests` calls per `window`. The
  configuration sets 5 calls per 1.0 s. `RateLimiter` is a class whose
  `requests` field is a `map<string, seq<int>>` from key to the timestamps of
  admitted calls. `Acquire` creates the key's list if needed, prunes it, then
  refuses or records `now`, all in place. `Prune` is the pruning
  comprehension written as a loop. It is proved equal to the function
  `Recent`. `Acquire` and `WaitAndAcquire` are proved against the
  state-transition functions `Admit` and `Wait`. The lemmas about those
  functions prove four things: the count bound, the pruning, the refusal,
  and the acceptance with its frame.
- **Request shaping and pre-trade guards** (`BetfairClient`). These cover the
  HTTP headers and the JSON-RPC 2.0 envelope with its reply unwrapping. They
  also cover the lay-order stake guard and order body, the
  `PlaceOrderRequest` field bounds, the cancel and current-orders parameters,
  and the market-book rate key. All of these are pure functions. The envelope
  and the order body each have a reader (`ReadPayload`, `ReadPlaceParams`)
  that plays the exchange's side, and round-trip lemmas connect each builder
  to its reader. The headers and the cancel, current-orders and market-book
  parameters have no reader. Their contracts state each member instead:
  which members are present, exactly when, and with what value.
  `Json` holds the JSON value type and `Wrappers` holds `Option`/`Result`.

Units:

- Timestamps are integer microseconds, the resolution of the clock the
  limiter reads. The window of 1.0 s is `1_000_000`.
- Stakes are integer pence and odds are integer hundredths. The guard
  "stake < 1 and stake × odds < 10" becomes `stake < 100 && stake * odds <
  100_000`.
- The two-decimal rounding of size and price is the identity on this domain.
  Those numbers are carried as `JDecimal(hundredths)`.

The clock and the network are parameters:

- `Acquire` takes `now`.
- `WaitAndAcquire` takes the start time and the sequence of clock readings
  taken at each poll.
- A call to the exchange takes the `Reply` it would have read. It also takes
  whether waiting for a rate-limit slot succeeded, or the limiter itself in
  the case of the `ApiRequest` method.

Edge cases of the code that the model keeps:

- A refused `acquire` still stores the pruned list, and it creates the key
  if the key was absent.
- `if rate_limit_key:` skips the limiter for an empty key (`""`), so the
  market-book key `""` or an empty `market_id` is not rate-limited at all.
- `if session_token:` omits `X-Authentication` for an empty token.
- A reply body that is not an object raises outside the
  `httpx.RequestError` handler, and so does an `error` member that is not an
  object:
  - A number, `null` or a boolean fails at the `"error" in result` test
    itself (a `TypeError`).
  - A string or list that contains `"error"` passes that test and fails at
    `result["error"]` (a `TypeError`).
  - Any other string or list fails at `result.get(...)` (an
    `AttributeError`).
  - An `error` member that is not an object fails at `error.get(...)`.

  The general handler answers each of these with a 500, modelled as
  `InternalError`.
- A body that is not JSON also ends in a 500. A transport failure answers
  with a 503.

## Model

| member | source | states |
|---|---|---|
| `RateLimiting.Recent` | backend/main.py:112-116 | pruning never lengthens the list and keeps only timestamps with `now - ts < window` |
| `RateLimiting.RecentIsSubsequence` | backend/main.py:113-116 | the pruned list is a subsequence of the old one: the kept timestamps keep their relative order |
| `RateLimiting.RecentCount` | backend/main.py:113-116 | pruning keeps every occurrence of each in-window timestamp and drops every occurrence of an expired one |
| `RateLimiting.RecentOfInWindow` | backend/main.py:113-116 | a list whose timestamps are all in the window is left unchanged |
| `RateLimiting.RecentIdempotent` | backend/main.py:113-116 | pruning twice at the same time equals pruning once |
| `RateLimiting.Prune` | backend/main.py:113-116 | the loop over the list returns exactly the pruned list `Recent(ts, now, window)` |
| `RateLimiting.Admit` | backend/main.py:104-122 | one acquire on the table: afterwards the key is present and the keys are the old keys plus it, and every other key's entry is unchanged (its other properties are the lemmas below) |
| `RateLimiting.Wait` | backend/main.py:124-131 | polling until a slot is granted or a reading is past the timeout: no key disappears, only `key` can be added, and every other key's entry is unchanged (success and the count bound are `WaitGrantedByAcquire` and `WaitKeepsLimit`) |
| `RateLimiting.AdmitKeepsLimit` | backend/main.py:109-122 | count bound: if every key holds at most `max_requests` timestamps before an acquire, the same holds after it, on both branches |
| `RateLimiting.AdmitRefusal` | backend/main.py:118-119 | the slot is refused exactly when the pruned list has `max_requests` or more entries, and then the key's list is the pruned list without `now` |
| `RateLimiting.AdmitAcceptanceAndFrame` | backend/main.py:109-122 | on success the key's list is the pruned list followed by `now`; the key is present afterwards (an absent key acts as an empty list); every other key's entry is unchanged |
| `RateLimiting.AdmitPrunes` | backend/main.py:112-116 | after acquire, every timestamp kept for the key from before is inside the window, in its original relative order |
| `RateLimiting.WaitKeepsLimit` | backend/main.py:124-131 | polling until granted or timed out keeps every key within `max_requests` |
| `RateLimiting.WaitGrantedByAcquire` | backend/main.py:124-131 | waiting reports success only when some acquire at a reading before the timeout granted the slot; a present key stays present on failure |
| `RateLimiting.RateLimiter.constructor` | backend/main.py:98-101 | a new limiter has the given limits and no recorded requests |
| `RateLimiting.RateLimiter.Acquire` | backend/main.py:104-122 | the in-place update of `requests` and the returned flag are exactly those of `Admit` on the old table; the count bound is preserved |
| `RateLimiting.RateLimiter.WaitAndAcquire` | backend/main.py:124-131 | the polling loop's result and final table are those of `Wait` on the old table and the clock readings |
| `BetfairClient.Headers` | backend/main.py:160-170 | `X-Application` (the app key), `Content-Type`, `Accept` and `Accept-Encoding` are always present; `X-Authentication` is present exactly when the token is non-empty, and then equals it |
| `BetfairClient.Payload` | backend/main.py:277-282 | the envelope has exactly the members `jsonrpc` = "2.0", `method` = `"SportsAPING/v1.0/" + method`, `params` and `id` = 1 (its read-back is `PayloadRoundTrip`) |
| `BetfairClient.PayloadRoundTrip` | backend/main.py:277-282 | the envelope reads back as a 2.0 request with id 1 for the operation and parameters it was built from |
| `BetfairClient.Unwrap` | backend/main.py:291-301 | a reply succeeds exactly when it is an object without `error`, yielding `result` or `{}`; an object `error` always gives a 400 whose detail is its `message`, or the error itself if it has none; anything else is an internal error |
| `BetfairClient.UnwrapReplies` | backend/main.py:293-301 | a successful exchange reply unwraps to its result; an error reply unwraps to a 400 with its message |
| `BetfairClient.Outcome` | backend/main.py:284-308 | a sent request succeeds only on a received body; an unreachable exchange gives a 503 with the transport error, an unparsable body a 500; every failure is a 400, 500 or 503 (the body's own case is `Unwrap`) |
| `BetfairClient.ApiCall` | backend/main.py:259-308 | nothing is sent exactly when a non-empty rate key is given and no slot was granted (then 429); otherwise the envelope for the operation is sent with the session headers, and the outcome is the unwrapped reply, a 503 on transport failure or a 500 on an unparsable body |
| `BetfairClient.UnlimitedCallAlwaysSent` | backend/main.py:270-275 | without a (non-empty) rate key the limiter's answer is irrelevant and the request is always sent |
| `BetfairClient.ApiRequest` | backend/main.py:259-308 | with a rate key the shared limiter is polled as `Wait` and its table updated; without one the limiter is untouched; the call is `ApiCall` with that answer |
| `BetfairClient.ValidatePlaceOrder` | backend/main.py:77-83 | a request is accepted exactly when 1.01 < odds ≤ 1000 and stake > 0, and is then passed on unchanged; otherwise 422 |
| `BetfairClient.PlaceOrdersGuard` | backend/main.py:381-387 | a stake below £1 with payout below £10 is refused with a 400 before anything is sent; every other stake is sent unless the market's slot is refused (then 429) |
| `BetfairClient.PlaceOrders` | backend/main.py:373-410 | a stake the guard refuses gives the 400 with nothing sent; any other order is the `placeOrders` call with the order body, rate-limited by the request's `market_id` (its consequences are `PlaceOrdersGuard` and `PlaceOrdersSendsOneLay`) |
| `BetfairClient.PlaceOrdersVia` | backend/main.py:373-410 | a refused stake leaves the shared limiter untouched; any other order waits on the limiter under the key `market_id` (the limiter is untouched for an empty id), and the call is `PlaceOrders` with that answer |
| `BetfairClient.PoundStakesPass` | backend/main.py:382-383 | every stake of £1 or more passes the stake guard |
| `BetfairClient.RefusedStakesDownwardClosed` | backend/main.py:382-383 | at given valid odds, if a stake is refused then so is every smaller positive stake |
| `BetfairClient.SubPoundStakeNeedsLongOdds` | backend/main.py:382-383 | a valid sub-£1 stake passes the guard only at odds above 10.10 |
| `BetfairClient.PlaceOrdersParams` | backend/main.py:389-403 | the order body has exactly the members `marketId` (the request's market) and `instructions`, a list of one instruction (its fields are `PlaceOrdersParamsRoundTrip`) |
| `BetfairClient.PlaceOrdersParamsRoundTrip` | backend/main.py:389-403 | the order body reads back as the request's market and exactly one instruction: LAY, LIMIT, the selection, size = stake, price = odds, the persistence type |
| `BetfairClient.PlaceOrdersSendsOneLay` | backend/main.py:389-410 | whatever `place_orders` sends is a `placeOrders` envelope with the session headers whose params hold exactly that one lay instruction |
| `BetfairClient.CancelParams` | backend/main.py:419-421 | the params always name the market; a cancel instruction for the bet is present exactly when a non-empty bet id is given; no other member |
| `BetfairClient.CancelOrders` | backend/main.py:412-423 | cancelling is never rate-limited: the `cancelOrders` envelope with those params is always sent |
| `BetfairClient.CurrentOrdersParams` | backend/main.py:431-433 | `marketIds` is present exactly when a non-empty list is given, and then lists those ids in order; no other member |
| `BetfairClient.ListCurrentOrders` | backend/main.py:425-435 | listing orders is never rate-limited: the `listCurrentOrders` envelope with those params is always sent |
| `BetfairClient.MarketBookParams` | backend/main.py:355-361 | the parameters have exactly `marketIds` (the requested ids in order) and `priceProjection`, which has exactly `priceData` (the projection) and `virtualise` (the flag) |
| `BetfairClient.ListMarketBook` | backend/main.py:346-371 | whatever is sent is the `listMarketBook` envelope with those parameters; a refused slot gives a 429 with nothing sent (the key is `MarketBookRateKeyIsFirstMarket`) |
| `BetfairClient.ListMarketBookVia` | backend/main.py:346-371 | the call waits on the shared limiter under the first market id, or "default" when there is none (the limiter is untouched for an empty key), and is `ListMarketBook` with that answer |
| `BetfairClient.MarketBookRateKeyIsFirstMarket` | backend/main.py:363-371 | the market-book rate key is the first market id, or `"default"` for none; a validated request (1 to 40 ids) is keyed by one of its markets; nothing is sent exactly when the slot is refused and the key is non-empty |

## Left out

- HTTP and I/O: the `httpx` client and its lifecycle, the hard-coded URLs,
  login, keep-alive and logout (backend/main.py:142-258). These are network
  calls. The reply a call reads is a parameter.
- `list_market_catalogue` (backend/main.py:310-344). Its parameters depend on
  the wall clock. It is not rate-limited and is not part of this model.
- The FastAPI application: endpoints, CORS, the session-token dependency, the
  comma splitting of `market_ids`, the exception handlers that format errors
  as JSON, and `uvicorn` startup (backend/main.py:441-602). Errors are
  modelled as `HttpError` values with their status codes.
- The `asyncio.Lock` around `acquire` (backend/main.py:102, 106). Each
  acquire is modelled as one atomic step.
- Environment configuration: the `os.getenv` default of the application key
  (backend/main.py:33). The key is a parameter `appKey`.
- Floating point: stakes, odds and timestamps are floats in the source and
  are integers here (pence, hundredths, microseconds). Odds or stakes with
  more than two decimal places cannot be expressed. Float error exactly at
  the £10 payout boundary is not modelled.
- `RateLimiting.RateLimiter.WaitAndAcquire`: one limiter object is shared by
  every concurrent endpoint call. While one call sleeps between polls, other
  calls may acquire on the same key and prune or append its timestamps. The
  model covers a single waiter with no other acquire between its polls, so
  under interleaving the final table and answer are not always those of
  `Wait` on the old table. The count bound still holds under any
  interleaving, because every `Acquire` preserves it.
- `RateLimiting.RateLimiter.WaitAndAcquire`: the source reads the clock twice
  per iteration, once for the loop test and once inside `acquire`. The model
  uses one reading per poll for both. The 0.1 s sleep between polls is not
  modelled; it only shows up as the spacing of the readings. The readings
  must end with one past the timeout, as a real clock eventually does.
- `RateLimiting.AdmitKeepsLimit`: the count bound holds only when
  `max_requests` is non-negative. With a negative limit, the empty list
  created for a new key already exceeds it. The configuration uses 5.
- `BetfairClient.Unwrap`: when an error object has no `message`, the source
  uses `str(error)` as the detail. The model keeps the error value itself
  and does not render it as text.
- Response bodies that are not objects: a number, `null` or a boolean fails
  at the `"error" in result` test (backend/main.py:293). A string or list
  containing `"error"` fails at `result["error"]` (backend/main.py:294). Any
  other string or list fails at `result.get` (backend/main.py:301). The model
  folds all of these into one `InternalError` and does not keep which
  Python exception was raised.
- The auto-betting engine, rules, stake sizing, liability caps and session
  counters are not in this source and are not modelled.
