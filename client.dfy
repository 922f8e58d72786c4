/** The request shaping and the pre-trade guards of the Betfair Exchange
    client: the HTTP headers, the JSON-RPC 2.0 envelope and the unwrapping
    of its reply, the lay-order guard and body, and the parameter builders
    of the order and market-book calls.

    Money is kept in pence and odds in hundredths, so a stake of £2.50 is
    250 and odds of 3.80 are 380; rounding to two decimal places is then
    the identity. The network is a parameter: the call receives the reply
    it would have read, and the outcome of waiting for a rate-limit slot. */
module BetfairClient {
  import opened Wrappers
  import opened Json
  import RateLimiting

  // ---------------------------------------------------------------------------
  // Headers
  // ---------------------------------------------------------------------------

  /** A session token is sent only when there is one and it is not empty. */
  predicate HasToken(sessionToken: Option<string>) {
    sessionToken.Some? && sessionToken.value != ""
  }

  /** The headers of every call to the exchange: the application key, JSON
      in both directions, gzip, and the session token when there is one. */
  function Headers(appKey: string, sessionToken: Option<string>): (h: map<string, string>)
    ensures h.Keys == {"X-Application", "Content-Type", "Accept", "Accept-Encoding"}
                      + (if HasToken(sessionToken) then {"X-Authentication"} else {})
    ensures h["X-Application"] == appKey
    ensures h["Content-Type"] == "application/json" && h["Accept"] == "application/json"
    ensures h["Accept-Encoding"] == "gzip"
    ensures "X-Authentication" in h <==> HasToken(sessionToken)
    ensures "X-Authentication" in h ==> h["X-Authentication"] == sessionToken.value
  {
    var headers := map[
      "X-Application" := appKey,
      "Content-Type" := "application/json",
      "Accept" := "application/json",
      "Accept-Encoding" := "gzip"];
    if HasToken(sessionToken) then headers["X-Authentication" := sessionToken.value] else headers
  }

  // ---------------------------------------------------------------------------
  // The JSON-RPC envelope and its reply
  // ---------------------------------------------------------------------------

  /** The namespace of the Sports API operations. */
  const RpcPrefix: string := "SportsAPING/v1.0/"

  /** The JSON-RPC 2.0 request for the API operation `operation`, always with id 1. */
  function Payload(operation: string, params: Json): (p: Json)
    ensures p.JObject? && p.fields.Keys == {"jsonrpc", "method", "params", "id"}
    ensures p.fields["jsonrpc"] == JString("2.0") && p.fields["id"] == JInt(1)
    ensures p.fields["method"] == JString("SportsAPING/v1.0/" + operation)
    ensures p.fields["params"] == params
  {
    JObject(map[
      "jsonrpc" := JString("2.0"),
      "method" := JString(RpcPrefix + operation),
      "params" := params,
      "id" := JInt(1)])
  }

  /** Reads a request envelope as the exchange dispatches it: the Sports API
      operation it names and its parameters, for a JSON-RPC 2.0 request with
      id 1; `None` for anything else. */
  function ReadPayload(p: Json): Option<(string, Json)> {
    match (Member(p, "jsonrpc"), Member(p, "method"), Member(p, "params"), Member(p, "id"))
    case (Some(JString(version)), Some(JString(rpc)), Some(params), Some(JInt(id))) =>
      if version == "2.0" && id == 1 && |RpcPrefix| <= |rpc| && rpc[..|RpcPrefix|] == RpcPrefix
      then Some((rpc[|RpcPrefix|..], params))
      else None
    case _ => None
  }

  /** The envelope reads back to the operation and the parameters it was
      built from. */
  lemma PayloadRoundTrip(operation: string, params: Json)
    ensures ReadPayload(Payload(operation, params)) == Some((operation, params))
  {
    var rpc := RpcPrefix + operation;
    assert rpc[..|RpcPrefix|] == RpcPrefix;
    assert rpc[|RpcPrefix|..] == operation;
  }

  /** The errors the client reports to its caller, each with its HTTP status. */
  datatype HttpError =
    | BadRequest(detail: Json)
    | UnprocessableEntity
    | TooManyRequests
    | ServiceUnavailable(reason: string)
    | InternalError

  function StatusCode(e: HttpError): int {
    match e
    case BadRequest(_) => 400
    case UnprocessableEntity => 422
    case TooManyRequests => 429
    case ServiceUnavailable(_) => 503
    case InternalError => 500
  }

  /** What came back for a request that was sent: a parsed JSON body, a body
      that is not JSON, or a transport failure. */
  datatype Reply = Received(body: Json) | Unparsable | Unreachable(reason: string)

  /** The outcome of a reply body: an `error` member is a failure, whose
      detail is the error's `message` when it has one and the error itself
      otherwise; any other object yields its `result` member, or an empty
      object when there is none. A body that is not an object, or an error
      that is not an object, makes the client fail internally. */
  function Unwrap(body: Json): (r: Result<Json, HttpError>)
    ensures r.Ok? <==> body.JObject? && "error" !in body.fields
    ensures r.Ok? ==> r.value == (if "result" in body.fields then body.fields["result"] else JObject(map[]))
    ensures r.Err? && !r.error.InternalError? ==>
              && body.JObject? && "error" in body.fields && body.fields["error"].JObject?
              && r.error == BadRequest(
                   if "message" in body.fields["error"].fields then body.fields["error"].fields["message"]
                   else body.fields["error"])
    ensures body.JObject? && "error" in body.fields && body.fields["error"].JObject? ==>
              r == Err(BadRequest(
                     if "message" in body.fields["error"].fields then body.fields["error"].fields["message"]
                     else body.fields["error"]))
    ensures r.Err? ==> r.error.BadRequest? || r.error.InternalError?
  {
    match body
    case JObject(fields) =>
      if "error" in fields then
        match fields["error"]
        case JObject(error) =>
          Err(BadRequest(if "message" in error then error["message"] else fields["error"]))
        case _ => Err(InternalError)
      else
        Ok(if "result" in fields then fields["result"] else JObject(map[]))
    case _ => Err(InternalError)
  }

  /** A successful reply of the exchange, and a failed one. */
  function ResultReply(result: Json): Json {
    JObject(map["jsonrpc" := JString("2.0"), "result" := result, "id" := JInt(1)])
  }

  function ErrorReply(code: int, message: string): Json {
    JObject(map[
      "jsonrpc" := JString("2.0"),
      "error" := JObject(map["code" := JInt(code), "message" := JString(message)]),
      "id" := JInt(1)])
  }

  /** Unwrapping gives back the result of a successful reply and the message
      of a failed one. */
  lemma UnwrapReplies(result: Json, code: int, message: string)
    ensures Unwrap(ResultReply(result)) == Ok(result)
    ensures Unwrap(ErrorReply(code, message)) == Err(BadRequest(JString(message)))
    ensures StatusCode(Unwrap(ErrorReply(code, message)).error) == 400
  {
  }

  /** The outcome of a sent request: the unwrapped body, a 503 when the
      exchange could not be reached, a 500 when the body is not JSON. */
  function Outcome(reply: Reply): (o: Result<Json, HttpError>)
    ensures o.Ok? ==> reply.Received?
    ensures reply.Unreachable? ==> o == Err(ServiceUnavailable(reply.reason))
    ensures reply.Unparsable? ==> o == Err(InternalError)
    ensures o.Err? ==> StatusCode(o.error) in {400, 500, 503}
  {
    match reply
    case Received(body) => Unwrap(body)
    case Unparsable => Err(InternalError)
    case Unreachable(reason) => Err(ServiceUnavailable(reason))
  }

  /** A request the client sends: its headers and its JSON body. */
  datatype Request = Request(headers: map<string, string>, payload: Json)

  /** What one call to the exchange did: the request it sent, if any, and
      what it returned to its caller. */
  datatype Call = Call(sent: Option<Request>, outcome: Result<Json, HttpError>)

  /** A call waits for a slot only when it is given a non-empty key. */
  predicate RateLimited(rateKey: Option<string>) {
    rateKey.Some? && rateKey.value != ""
  }

  /** `_api_request`: wait for a rate-limit slot when a key is given
      (`slotGranted` is what waiting returned), then send the envelope with
      the session's headers and unwrap the reply. */
  function ApiCall(appKey: string, operation: string, params: Json, sessionToken: string,
                   rateKey: Option<string>, slotGranted: bool, reply: Reply): (c: Call)
    ensures c.sent.None? <==> RateLimited(rateKey) && !slotGranted
    ensures c.sent.None? ==> c.outcome == Err(TooManyRequests)
    ensures c.sent.Some? ==>
              && c.sent.value.headers == Headers(appKey, Some(sessionToken))
              && ReadPayload(c.sent.value.payload) == Some((operation, params))
    ensures c.sent.Some? && reply.Received? ==> c.outcome == Unwrap(reply.body)
    ensures c.sent.Some? && reply.Unreachable? ==> c.outcome == Err(ServiceUnavailable(reply.reason))
    ensures c.sent.Some? && reply.Unparsable? ==> c.outcome == Err(InternalError)
  {
    if RateLimited(rateKey) && !slotGranted then
      Call(None, Err(TooManyRequests))
    else
      PayloadRoundTrip(operation, params);
      Call(Some(Request(Headers(appKey, Some(sessionToken)), Payload(operation, params))), Outcome(reply))
  }

  /** Without a key, whether a slot would have been granted does not matter:
      the request is always sent. */
  lemma UnlimitedCallAlwaysSent(appKey: string, operation: string, params: Json, sessionToken: string,
                                rateKey: Option<string>, reply: Reply)
    requires !RateLimited(rateKey)
    ensures ApiCall(appKey, operation, params, sessionToken, rateKey, false, reply)
            == ApiCall(appKey, operation, params, sessionToken, rateKey, true, reply)
    ensures ApiCall(appKey, operation, params, sessionToken, rateKey, false, reply).sent.Some?
  {
  }

  /** `_api_request` with the shared limiter: with a key it waits on the
      limiter (`clock` holds the clock readings of the wait), without one it
      leaves the limiter alone. */
  method ApiRequest(limiter: RateLimiting.RateLimiter, appKey: string, operation: string, params: Json,
                    sessionToken: string, rateKey: Option<string>, start: int, clock: seq<int>, reply: Reply)
    returns (c: Call)
    requires clock != [] && clock[|clock| - 1] - start >= RateLimiting.WaitTimeout
    modifies limiter
    ensures !RateLimited(rateKey) ==>
              && limiter.requests == old(limiter.requests)
              && c == ApiCall(appKey, operation, params, sessionToken, rateKey, true, reply)
    ensures RateLimited(rateKey) ==>
              var w := RateLimiting.Wait(old(limiter.requests), rateKey.value, start, clock,
                                         RateLimiting.WaitTimeout, limiter.maxRequests, limiter.window);
              && limiter.requests == w.requests
              && c == ApiCall(appKey, operation, params, sessionToken, rateKey, w.granted, reply)
  {
    var granted := true;
    if RateLimited(rateKey) {
      granted := limiter.WaitAndAcquire(rateKey.value, start, clock, RateLimiting.WaitTimeout);
    }
    c := ApiCall(appKey, operation, params, sessionToken, rateKey, granted, reply);
  }

  // ---------------------------------------------------------------------------
  // Placing a lay order
  // ---------------------------------------------------------------------------

  /** A request to lay a selection: odds in hundredths, stake in pence. */
  datatype PlaceOrderRequest = PlaceOrderRequest(
    marketId: string, selectionId: int, odds: int, stake: int, persistenceType: string)

  const DefaultPersistenceType: string := "LAPSE"

  /** The bounds the request's fields are validated against before the
      order is considered: odds above 1.01 and at most 1000, a positive stake. */
  predicate PlaceOrderFieldsValid(r: PlaceOrderRequest) {
    101 < r.odds <= 100_000 && 0 < r.stake
  }

  /** The validation of a request before the order is considered: a request
      outside the bounds is refused with a 422, one inside them is passed on
      as it is. */
  function ValidatePlaceOrder(r: PlaceOrderRequest): (v: Result<PlaceOrderRequest, HttpError>)
    ensures v.Ok? <==> 101 < r.odds && r.odds <= 100_000 && 0 < r.stake
    ensures v.Ok? ==> v.value == r
    ensures v.Err? ==> StatusCode(v.error) == 422
  {
    if PlaceOrderFieldsValid(r) then Ok(r) else Err(UnprocessableEntity)
  }

  /** The potential payout, stake times odds, in ten-thousandths of a pound. */
  function PotentialPayout(r: PlaceOrderRequest): int {
    r.stake * r.odds
  }

  /** A stake below £1 needs a potential payout of at least £10. */
  predicate StakeTooSmall(r: PlaceOrderRequest) {
    r.stake < 100 && PotentialPayout(r) < 100_000
  }

  const StakeTooSmallMessage: string := "Stakes below £1 require potential payout of £10 or greater"

  /** The one limit-order instruction of a lay order, as the exchange reads it. */
  datatype Instruction = Instruction(
    selectionId: int, side: string, orderType: string, size: int, price: int, persistenceType: string)

  /** The parameters of `placeOrders` for one lay order. */
  function PlaceOrdersParams(r: PlaceOrderRequest): (p: Json)
    ensures p.JObject? && p.fields.Keys == {"marketId", "instructions"}
    ensures p.fields["marketId"] == JString(r.marketId)
    ensures p.fields["instructions"].JArray? && |p.fields["instructions"].items| == 1
  {
    JObject(map[
      "marketId" := JString(r.marketId),
      "instructions" := JArray([
        JObject(map[
          "selectionId" := JInt(r.selectionId),
          "side" := JString("LAY"),
          "orderType" := JString("LIMIT"),
          "limitOrder" := JObject(map[
            "size" := JDecimal(r.stake),
            "price" := JDecimal(r.odds),
            "persistenceType" := JString(r.persistenceType)])])])])
  }

  function ReadInstruction(j: Json): Option<Instruction> {
    match (Member(j, "selectionId"), Member(j, "side"), Member(j, "orderType"), Member(j, "limitOrder"))
    case (Some(JInt(selection)), Some(JString(side)), Some(JString(kind)), Some(order)) =>
      (match (Member(order, "size"), Member(order, "price"), Member(order, "persistenceType"))
       case (Some(JDecimal(size)), Some(JDecimal(price)), Some(JString(persistence))) =>
         Some(Instruction(selection, side, kind, size, price, persistence))
       case _ => None)
    case _ => None
  }

  function ReadInstructions(items: seq<Json>): Option<seq<Instruction>>
    decreases |items|
  {
    if items == [] then Some([])
    else
      match (ReadInstruction(items[0]), ReadInstructions(items[1..]))
      case (Some(first), Some(rest)) => Some([first] + rest)
      case _ => None
  }

  /** Reads `placeOrders` parameters as the exchange does: the market and
      the list of instructions. */
  function ReadPlaceParams(params: Json): Option<(string, seq<Instruction>)> {
    match (Member(params, "marketId"), Member(params, "instructions"))
    case (Some(JString(market)), Some(JArray(items))) =>
      (match ReadInstructions(items)
       case Some(instructions) => Some((market, instructions))
       case None => None)
    case _ => None
  }

  /** The order body carries exactly one instruction: a LAY at a LIMIT price
      on the requested selection, with the stake as its size, the odds as
      its price and the requested persistence type, in the requested market. */
  lemma PlaceOrdersParamsRoundTrip(r: PlaceOrderRequest)
    ensures ReadPlaceParams(PlaceOrdersParams(r))
            == Some((r.marketId, [Instruction(r.selectionId, "LAY", "LIMIT", r.stake, r.odds, r.persistenceType)]))
  {
    var items := PlaceOrdersParams(r).fields["instructions"].items;
    var lay := Instruction(r.selectionId, "LAY", "LIMIT", r.stake, r.odds, r.persistenceType);
    var order := items[0].fields["limitOrder"];
    assert Member(order, "size") == Some(JDecimal(r.stake));
    assert ReadInstruction(items[0]) == Some(lay);
    assert items[1..] == [];
    assert ReadInstructions(items[1..]) == Some([]);
    assert [lay] + [] == [lay];
    assert ReadInstructions(items) == Some([lay]);
  }

  /** `place_orders`: refuse a stake that is too small before anything is
      built or sent, otherwise send the lay order, rate-limited by its market. */
  function PlaceOrders(appKey: string, sessionToken: string, r: PlaceOrderRequest,
                       slotGranted: bool, reply: Reply): (c: Call)
    ensures StakeTooSmall(r) ==> c == Call(None, Err(BadRequest(JString(StakeTooSmallMessage))))
    ensures !StakeTooSmall(r) ==>
              c == ApiCall(appKey, "placeOrders", PlaceOrdersParams(r), sessionToken, Some(r.marketId), slotGranted, reply)
  {
    if StakeTooSmall(r) then Call(None, Err(BadRequest(JString(StakeTooSmallMessage))))
    else ApiCall(appKey, "placeOrders", PlaceOrdersParams(r), sessionToken, Some(r.marketId), slotGranted, reply)
  }

  /** Stake guard: a stake below £1 with a payout below £10 is refused with a
      400 and nothing is sent; any other stake reaches the exchange unless
      the market's rate limit refuses the slot. */
  lemma PlaceOrdersGuard(appKey: string, sessionToken: string, r: PlaceOrderRequest, slotGranted: bool, reply: Reply)
    ensures var c := PlaceOrders(appKey, sessionToken, r, slotGranted, reply);
      && (StakeTooSmall(r) ==> c.sent.None? && c.outcome.Err? && StatusCode(c.outcome.error) == 400)
      && (!StakeTooSmall(r) ==> (c.sent.Some? <==> slotGranted || r.marketId == ""))
      && (c.sent.None? && !StakeTooSmall(r) ==> c.outcome == Err(TooManyRequests))
  {
  }

  /** Order body: whatever `place_orders` sends is a `placeOrders` call
      whose parameters hold exactly the one lay instruction of the request. */
  lemma PlaceOrdersSendsOneLay(appKey: string, sessionToken: string, r: PlaceOrderRequest, slotGranted: bool, reply: Reply)
    ensures var c := PlaceOrders(appKey, sessionToken, r, slotGranted, reply);
      c.sent.Some? ==>
        && c.sent.value.headers == Headers(appKey, Some(sessionToken))
        && ReadPayload(c.sent.value.payload) == Some(("placeOrders", PlaceOrdersParams(r)))
        && ReadPlaceParams(PlaceOrdersParams(r))
           == Some((r.marketId, [Instruction(r.selectionId, "LAY", "LIMIT", r.stake, r.odds, r.persistenceType)]))
  {
    PlaceOrdersParamsRoundTrip(r);
  }

  /** `place_orders` with the shared limiter: a stake the guard refuses never
      reaches the limiter; any other order waits on the slot of its own
      market (`clock` holds the clock readings of the wait). */
  method PlaceOrdersVia(limiter: RateLimiting.RateLimiter, appKey: string, sessionToken: string,
                        r: PlaceOrderRequest, start: int, clock: seq<int>, reply: Reply)
    returns (c: Call)
    requires clock != [] && clock[|clock| - 1] - start >= RateLimiting.WaitTimeout
    modifies limiter
    ensures StakeTooSmall(r) ==>
              && limiter.requests == old(limiter.requests)
              && c == PlaceOrders(appKey, sessionToken, r, false, reply)
    ensures !StakeTooSmall(r) && r.marketId == "" ==>
              && limiter.requests == old(limiter.requests)
              && c == PlaceOrders(appKey, sessionToken, r, true, reply)
    ensures !StakeTooSmall(r) && r.marketId != "" ==>
              var w := RateLimiting.Wait(old(limiter.requests), r.marketId, start, clock,
                                         RateLimiting.WaitTimeout, limiter.maxRequests, limiter.window);
              && limiter.requests == w.requests
              && c == PlaceOrders(appKey, sessionToken, r, w.granted, reply)
  {
    if StakeTooSmall(r) {
      c := Call(None, Err(BadRequest(JString(StakeTooSmallMessage))));
      return;
    }
    c := ApiRequest(limiter, appKey, "placeOrders", PlaceOrdersParams(r), sessionToken, Some(r.marketId),
                    start, clock, reply);
  }

  /** Every stake of £1 or more passes the guard. */
  lemma PoundStakesPass(r: PlaceOrderRequest)
    requires 100 <= r.stake
    ensures !StakeTooSmall(r)
  {
  }

  /** The refused stakes at given odds form a range from below: if a stake
      is refused, so is every smaller positive stake. */
  lemma RefusedStakesDownwardClosed(r: PlaceOrderRequest, smaller: int)
    requires PlaceOrderFieldsValid(r)
    requires StakeTooSmall(r)
    requires 0 < smaller <= r.stake
    ensures StakeTooSmall(r.(stake := smaller))
  {
  }

  /** A stake below £1 passes the guard only at odds above 10.10: below that,
      even 99p cannot reach a £10 payout. */
  lemma SubPoundStakeNeedsLongOdds(r: PlaceOrderRequest)
    requires PlaceOrderFieldsValid(r)
    requires r.stake < 100 && !StakeTooSmall(r)
    ensures r.odds > 1010
  {
  }

  // ---------------------------------------------------------------------------
  // Cancelling and listing orders
  // ---------------------------------------------------------------------------

  /** The parameters of `cancelOrders`: the market, and an instruction to
      cancel one bet only when a bet id is given. */
  function CancelParams(marketId: string, betId: Option<string>): (p: Json)
    ensures p.JObject? && "marketId" in p.fields && p.fields["marketId"] == JString(marketId)
    ensures "instructions" in p.fields <==> betId.Some? && betId.value != ""
    ensures "instructions" in p.fields ==>
              p.fields["instructions"] == JArray([JObject(map["betId" := JString(betId.value)])])
    ensures p.fields.Keys <= {"marketId", "instructions"}
  {
    var params := map["marketId" := JString(marketId)];
    if betId.Some? && betId.value != "" then
      JObject(params["instructions" := JArray([JObject(map["betId" := JString(betId.value)])])])
    else JObject(params)
  }

  /** `cancel_orders`: never rate-limited. */
  function CancelOrders(appKey: string, sessionToken: string, marketId: string, betId: Option<string>,
                        reply: Reply): (c: Call)
    ensures c.sent.Some?
    ensures ReadPayload(c.sent.value.payload) == Some(("cancelOrders", CancelParams(marketId, betId)))
  {
    ApiCall(appKey, "cancelOrders", CancelParams(marketId, betId), sessionToken, None, true, reply)
  }

  /** The parameters of `listCurrentOrders`: a market filter only when a
      non-empty list of markets is given. */
  function CurrentOrdersParams(marketIds: Option<seq<string>>): (p: Json)
    ensures p.JObject?
    ensures "marketIds" in p.fields <==> marketIds.Some? && marketIds.value != []
    ensures "marketIds" in p.fields ==>
              p.fields["marketIds"] == JArray(seq(|marketIds.value|, i requires 0 <= i < |marketIds.value| => JString(marketIds.value[i])))
    ensures p.fields.Keys <= {"marketIds"}
  {
    if marketIds.Some? && marketIds.value != [] then JObject(map["marketIds" := Strings(marketIds.value)])
    else JObject(map[])
  }

  /** A list of strings as a JSON array. */
  function Strings(ss: seq<string>): (j: Json)
    ensures j.JArray? && |j.items| == |ss|
    ensures forall i :: 0 <= i < |ss| ==> j.items[i] == JString(ss[i])
  {
    JArray(seq(|ss|, i requires 0 <= i < |ss| => JString(ss[i])))
  }

  /** `list_current_orders`: never rate-limited. */
  function ListCurrentOrders(appKey: string, sessionToken: string, marketIds: Option<seq<string>>,
                             reply: Reply): (c: Call)
    ensures c.sent.Some?
    ensures ReadPayload(c.sent.value.payload) == Some(("listCurrentOrders", CurrentOrdersParams(marketIds)))
  {
    ApiCall(appKey, "listCurrentOrders", CurrentOrdersParams(marketIds), sessionToken, None, true, reply)
  }

  // ---------------------------------------------------------------------------
  // Market book
  // ---------------------------------------------------------------------------

  /** A request for the prices of some markets. */
  datatype MarketBookRequest = MarketBookRequest(marketIds: seq<string>, priceProjection: seq<string>, virtualise: bool)

  const DefaultPriceProjection: seq<string> := ["EX_BEST_OFFERS"]

  /** The bounds the request is validated against: one to forty markets. */
  predicate MarketBookRequestValid(r: MarketBookRequest) {
    1 <= |r.marketIds| <= 40
  }

  /** The rate-limit key of a market-book call: its first market, or
      "default" for an empty list. */
  function MarketBookRateKey(marketIds: seq<string>): string {
    if marketIds != [] then marketIds[0] else "default"
  }

  /** The parameters of `listMarketBook`: exactly the markets asked for, and
      the price projection with its virtualise flag. */
  function MarketBookParams(r: MarketBookRequest): (p: Json)
    ensures p.JObject? && p.fields.Keys == {"marketIds", "priceProjection"}
    ensures p.fields["marketIds"] == Strings(r.marketIds)
    ensures var projection := p.fields["priceProjection"];
      && projection.JObject? && projection.fields.Keys == {"priceData", "virtualise"}
      && projection.fields["priceData"] == Strings(r.priceProjection)
      && projection.fields["virtualise"] == JBool(r.virtualise)
  {
    JObject(map[
      "marketIds" := Strings(r.marketIds),
      "priceProjection" := JObject(map[
        "priceData" := Strings(r.priceProjection),
        "virtualise" := JBool(r.virtualise)])])
  }

  /** `list_market_book`: rate-limited by its first market. */
  function ListMarketBook(appKey: string, sessionToken: string, r: MarketBookRequest,
                          slotGranted: bool, reply: Reply): (c: Call)
    ensures c.sent.Some? ==> ReadPayload(c.sent.value.payload) == Some(("listMarketBook", MarketBookParams(r)))
    ensures c.sent.None? ==> c.outcome == Err(TooManyRequests)
  {
    ApiCall(appKey, "listMarketBook", MarketBookParams(r), sessionToken,
            Some(MarketBookRateKey(r.marketIds)), slotGranted, reply)
  }

  /** A market-book call is limited by the first market it asks for (by the
      shared "default" key when it asks for none), and a validated request
      always names a market; a refused slot means nothing is sent. */
  lemma MarketBookRateKeyIsFirstMarket(appKey: string, sessionToken: string, r: MarketBookRequest,
                                       slotGranted: bool, reply: Reply)
    ensures r.marketIds != [] ==> MarketBookRateKey(r.marketIds) == r.marketIds[0]
    ensures r.marketIds == [] ==> MarketBookRateKey(r.marketIds) == "default"
    ensures MarketBookRequestValid(r) ==> MarketBookRateKey(r.marketIds) in r.marketIds
    ensures var c := ListMarketBook(appKey, sessionToken, r, slotGranted, reply);
      c.sent.None? <==> !slotGranted && MarketBookRateKey(r.marketIds) != ""
  {
  }

  /** `list_market_book` with the shared limiter: the call waits on the slot
      of its rate key, the first market asked for. */
  method ListMarketBookVia(limiter: RateLimiting.RateLimiter, appKey: string, sessionToken: string,
                           r: MarketBookRequest, start: int, clock: seq<int>, reply: Reply)
    returns (c: Call)
    requires clock != [] && clock[|clock| - 1] - start >= RateLimiting.WaitTimeout
    modifies limiter
    ensures MarketBookRateKey(r.marketIds) == "" ==>
              && limiter.requests == old(limiter.requests)
              && c == ListMarketBook(appKey, sessionToken, r, true, reply)
    ensures MarketBookRateKey(r.marketIds) != "" ==>
              var w := RateLimiting.Wait(old(limiter.requests), MarketBookRateKey(r.marketIds), start, clock,
                                         RateLimiting.WaitTimeout, limiter.maxRequests, limiter.window);
              && limiter.requests == w.requests
              && c == ListMarketBook(appKey, sessionToken, r, w.granted, reply)
  {
    c := ApiRequest(limiter, appKey, "listMarketBook", MarketBookParams(r), sessionToken,
                    Some(MarketBookRateKey(r.marketIds)), start, clock, reply);
  }
}
