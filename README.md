# DXTrade client model

This project models the core of a small Python client for the DXTrade
retail trading REST API (`dx_trade.py`). The model covers three parts.

- **Order composer.** `place_limit_order`, `place_stop_order`,
  `place_market_order`, `set_market_order_tp` and `set_market_order_sl`
  build order payloads and POST them. A market order may be followed by a
  take-profit (LIMIT, CLOSE) order and a stop-loss (STOP, CLOSE) order.
  These sit on the opposite side and are tied to the parent's `orderId`.
- **Position/order reconciler.** `list_open_positions_sl_tp` fetches the
  open positions and open orders. Each position dict is annotated in place
  with the take-profit and stop-loss orders that protect it.
- **Plumbing.** This covers the retry rule of `_place_request` (HTTP 429 is
  retried while the budget lasts), the `Authorization` header of
  `_authorisation_add_header`, and the account-id projection of
  `get_accounts`.

The modules are as follows.

- `Json` holds the decoded JSON values the client handles. It also gives
  the Python operations the client applies to them: truthiness, `==`
  (where `True == 1`), `d.get`, `v[key]`, `v[0]`, `in` and iteration.
  Subscripts that Python would let raise become `Failure(KeyError)`,
  `Failure(TypeError)` and so on. They are not preconditions.
- `Transport` holds the retry rule, once as the recursive function the
  source writes (`Retry`) and once as a loop (`SendWithRetry`). The loop
  is proved equal to the recursive function.
- `Orders` holds the payloads and their wire objects (`ToWire`), the
  close-side flip, and the plan of orders `place_market_order` issues for
  a given reply to its parent order.
- `Reconcile` holds the matching rule (`Classify`, a function whose
  contract is stated by lemmas), the inner loop over the orders and the
  outer loop over the positions. Each of the two loops is written as a
  specification function plus a method with loop invariants proved equal
  to it.
- `Accounts` holds the `get_accounts` projection.
- `Client` holds the class `DXTrade`. Its fields are the session token,
  the account ids, the log of issued requests and the number of uuid4
  calls made. The server, `uuid4` and `round(x, 5)` are constants given
  to the object as oracles.

## Model

| member | source | states |
|---|---|---|
| Transport.Retry | dx_trade.py:31-45 | The number of HTTP attempts is between 1 and `max_iterations + 1`. |
| Transport.RetryShape | dx_trade.py:22-45 | Every attempt before the last got a 429. The last attempt is a 429 only when the budget is exhausted. The body returned is the last reply's body if that reply was a 200, and `{}` otherwise. |
| Transport.NonEmptyBodyCameFromOk | dx_trade.py:31-32 | A non-empty result is the body of a 200 reply to one of the first `max_iterations + 1` attempts. |
| Transport.SendWithRetry | dx_trade.py:33-42 | The countdown loop returns exactly what the recursive rule returns, using at most `max_iterations + 1` attempts. |
| Client.DXTrade.PlaceRequest | dx_trade.py:22-45 | Logs one request and returns the retry rule's body for this request's run of attempts (three retries by default). |
| Client.DXTrade.ReplyBody | dx_trade.py:22-45 | No contract of its own: the body `_place_request` returns for the k-th request, stated by `Transport.RetryShape` and `Transport.NonEmptyBodyCameFromOk`, and returned by `Client.DXTrade.PlaceRequest`. |
| Client.TokenText | dx_trade.py:71-73 | No contract of its own: the text `f"DXAPI {self.session_token}"` renders for the token, `None` before login. It is stated through `Client.DXTrade.AuthorisationAddHeader`. |
| Client.DXTrade.AuthorisationAddHeader | dx_trade.py:69-74 | The keys are the given keys plus `Authorization`. `Authorization` is `"DXAPI "` followed by the token, and the text is `None` when there is no token. Every other header is kept. |
| Client.DXTrade.NewOrderCode | dx_trade.py:97 | The code is `unique_` followed by uuid4's next rendering. One uuid4 call is consumed. |
| Orders.OrderCodeParts | dx_trade.py:97 | Every order code starts with `unique_` and the uuid text follows it. Distinct uuid texts give distinct codes. |
| Orders.CloseSide | dx_trade.py:193 | The result is always BUY or SELL. It is BUY exactly when the input side is SELL. |
| Orders.CloseSideInvolution | dx_trade.py:208 | On BUY and SELL the flip gives the other side, and flipping twice gives the side back. |
| Orders.PendingOrderWire | dx_trade.py:97-131 | Limit and stop payloads copy type, instrument, quantity, side, positionEffect and positionCode unchanged, carry GTC and the order code, and put the price under `limitPrice` (limit) or `stopPrice` (stop). The key set is exactly those nine keys. |
| Orders.PendingWire | dx_trade.py:98-108 | Lists the wire object of any limit or stop payload field by field. |
| Orders.MarketOrderWire | dx_trade.py:143-152 | The parent order is MARKET, OPEN and GTC. It has no positionCode, and the caller's side is not flipped. |
| Orders.WireShape | dx_trade.py:98-152 | Every payload carries GTC, its order code and the caller's instrument, quantity and side. It has exactly the keys of its shape. |
| Orders.ProtectiveOrdersWire | dx_trade.py:185-213 | The TP order is a LIMIT order with the flipped side, CLOSE, the position's code and `limitPrice = tp`. The SL order is a STOP order with the same flip, CLOSE, the same code and `stopPrice = sl`. |
| Orders.WireRoundTrip | dx_trade.py:98-152 | Every payload is read back from its wire object, so no two payloads are sent as the same JSON object. |
| Orders.WireDetermined | dx_trade.py:98-152 | A JSON object that reads back as a payload is exactly that payload's wire object. |
| Orders.OrderCode | dx_trade.py:97 | No contract of its own: the code format is stated by `Orders.OrderCodeParts`. |
| Orders.ToWire | dx_trade.py:98-152 | No contract of its own: the wire objects are stated by `Orders.WireShape`, `Orders.PendingWire`, `Orders.PendingOrderWire`, `Orders.MarketOrderWire` and `Orders.ProtectiveOrdersWire`, and `Orders.WireRoundTrip` and `Orders.WireDetermined` show the encoding is injective. |
| Orders.LimitOrder | dx_trade.py:98-108 | No contract of its own: its wire object is stated by `Orders.PendingOrderWire`. |
| Orders.StopOrder | dx_trade.py:121-131 | No contract of its own: its wire object is stated by `Orders.PendingOrderWire`. |
| Orders.MarketOrder | dx_trade.py:144-152 | No contract of its own: its wire object is stated by `Orders.MarketOrderWire`. |
| Orders.ParentId | dx_trade.py:158-162 | No contract of its own: the `orderId` read (None when the key is missing) is stated by `Orders.MarketOrderRules`, and `Client.DXTrade.PlaceFollowUp` returns it. |
| Orders.TakeProfitOrder | dx_trade.py:188-197 | No contract of its own: its wire object is stated by `Orders.ProtectiveOrdersWire`. |
| Orders.StopLossOrder | dx_trade.py:203-212 | No contract of its own: its wire object is stated by `Orders.ProtectiveOrdersWire`. |
| Orders.TakeProfitStep | dx_trade.py:164-172 | No contract of its own: stated by `Orders.MarketOrderRules`, and `Client.DXTrade.PlaceTakeProfit` is proved to follow it. |
| Orders.StopLossStep | dx_trade.py:173-181 | No contract of its own: stated by `Orders.MarketOrderRules`, and `Client.DXTrade.PlaceStopLoss` is proved to follow it. |
| Orders.ProtectionPlan | dx_trade.py:163-181 | No contract of its own: stated by `Orders.MarketOrderRules`, and `Client.DXTrade.PlaceProtection` is proved to follow it. |
| Orders.FollowUp | dx_trade.py:158-181 | No contract of its own: stated by `Orders.MarketOrderRules`, and `Client.DXTrade.PlaceFollowUp` is proved to follow it. |
| Orders.MarketOrderPlan | dx_trade.py:139-183 | No contract of its own: stated by `Orders.MarketOrderRules` and `Orders.MarketOrderCodesDistinct`, and `Client.DXTrade.PlaceMarketOrder` is proved to follow it. |
| Orders.MarketOrderRules | dx_trade.py:158-183 | The parent comes first. If `orderId` is missing the result is (None, None, None) with nothing more issued. If it is present but falsy the result is (orderId, None, None) with nothing more issued. If it is truthy, one TP order is issued per non-None `tp` and then one SL order per non-None `sl` (a zero level counts), each tied to the orderId, and the codes returned are theirs. |
| Orders.MarketOrderCodesDistinct | dx_trade.py:139-183 | If uuid4 never repeats, the orders issued by one `place_market_order` call carry pairwise distinct order codes. |
| Client.DXTrade.PostOrder | dx_trade.py:109-113 | No contract of its own: a POST of the payload's wire object to the account's `orders`, with the header `Client.DXTrade.AuthorisationAddHeader` states. |
| Client.DXTrade.PlaceLimitOrder | dx_trade.py:93-114 | Issues exactly one POST of the limit payload to the account's orders. Returns the reply's `orderId` (None if absent) and the fresh code. |
| Client.DXTrade.PlaceStopOrder | dx_trade.py:116-137 | Issues exactly one POST of the stop payload to the account's orders. Returns the reply's `orderId` (None if absent) and the fresh code. |
| Client.DXTrade.SetMarketOrderTp | dx_trade.py:185-198 | Posts the closing LIMIT order on the flipped side for the position. Returns its orderId and code. |
| Client.DXTrade.SetMarketOrderSl | dx_trade.py:200-213 | Posts the closing STOP order on the flipped side for the position. Returns its orderId and code. |
| Client.DXTrade.PlaceMarketOrder | dx_trade.py:139-183 | The requests issued, the uuid4 calls consumed and the triple returned are those of `MarketOrderPlan` for the reply the parent order actually received. |
| Client.DXTrade.PlaceFollowUp | dx_trade.py:158-181 | Reads the parent's `orderId` and places the protective orders only when it is truthy. |
| Client.DXTrade.PlaceProtection | dx_trade.py:163-181 | Places the TP order and then the SL order, each only when its level is given. |
| Client.DXTrade.PlaceTakeProfit | dx_trade.py:164-172 | Issues one TP order when `tp` is not None and nothing otherwise. |
| Client.DXTrade.PlaceStopLoss | dx_trade.py:173-181 | Issues one SL order when `sl` is not None and nothing otherwise. |
| Client.DXTrade.PostsConcat | dx_trade.py:155-181 | The requests for two runs of orders are the requests of the first run followed by those of the second. |
| Accounts.AccountIds | dx_trade.py:88 | Succeeds exactly when every account is a dict with an `account` key. The result then has the same length and holds each account's `account` value in order. |
| Accounts.AccountsFrom | dx_trade.py:84-91 | When the first `userDetails` entry lists `accounts`, returns that list and stores its ids. An entry without `accounts` gives `[]` and stores nothing. A reply without `userDetails` raises TypeError. |
| Client.DXTrade.UserInfoRequest | dx_trade.py:77-79 | No contract of its own: the GET of `users/<username>` with the header `Client.DXTrade.AuthorisationAddHeader` states, issued by `Client.DXTrade.GetAccounts`. |
| Client.DXTrade.GetAccounts | dx_trade.py:83-91 | Issues the user-info GET and returns what `AccountsFrom` gives for its reply. The `accounts` field is replaced exactly when ids are stored. |
| Client.ListField | dx_trade.py:226 | Gives the reply's field when it is present and `[]` otherwise. |
| Client.DXTrade.ListRequest | dx_trade.py:223-225 | No contract of its own: the GET of `accounts/<account>/orders` or `.../positions` (lines 223-225 and 231-233) with the header `Client.DXTrade.AuthorisationAddHeader` states, issued by `Client.DXTrade.ListOpenOrders` and `Client.DXTrade.ListOpenPositions`. |
| Client.DXTrade.ListOpenOrders | dx_trade.py:222-228 | One GET of the account's orders, returning its `orders` field or `[]`. |
| Client.DXTrade.ListOpenPositions | dx_trade.py:230-236 | One GET of the account's positions, returning its `positions` field or `[]`. |
| Reconcile.ReadAnchor | dx_trade.py:242-244 | Succeeds exactly when the position is a dict with positionCode, symbol and side, and reads those three values. |
| Reconcile.Guard | dx_trade.py:249-253 | No contract of its own: the `legCount`, `instrument` and `side` conjuncts of both branch conditions (lines 249-253 and 259-263), evaluated left to right. It is stated through `Reconcile.ClassifyMatches`. |
| Reconcile.FirstLeg | dx_trade.py:254 | No contract of its own: `order['legs'][0]` (lines 254 and 257), with its KeyError, TypeError and IndexError, stated through `Reconcile.ClassifyMatches`. |
| Reconcile.Classify | dx_trade.py:248-267 | No contract of its own: stated by `Reconcile.ClassifyMatches` and `Reconcile.ClassifyInert`. |
| Reconcile.Annotate | dx_trade.py:255-257 | No contract of its own: the three assignments of a matching branch (lines 255-257 and 265-267), stated by `Reconcile.LastMatchWins` and `Reconcile.ApplyOrdersFrame`. |
| Reconcile.ApplyOrders | dx_trade.py:246-267 | No contract of its own: stated by `Reconcile.ApplyOrdersSucceeds`, `Reconcile.ApplyOrdersFrame`, `Reconcile.LastMatchWins`, `Reconcile.ApplyOrdersIdempotent` and `Reconcile.InertOrderIgnored`, and computed by `Reconcile.ScanOrders`. |
| Reconcile.ClassifyMatches | dx_trade.py:248-267 | A hit is an order that protects the position (`Protects`: LIMIT for TP or STOP for SL, `legCount == 1`, same instrument, other side, and `legs[0].positionCode` equal to the position's code). A hit carries the order's orderCode, clientOrderId and leg price. Every protecting order that carries orderCode, clientOrderId and a leg price is a hit; one lacking them raises KeyError. A miss protects the position in neither role. |
| Reconcile.ClassifyInert | dx_trade.py:248-263 | An order that is neither LIMIT nor STOP, or whose `legCount` is not 1, is passed over without raising. |
| Reconcile.ApplyOrdersSucceeds | dx_trade.py:246-267 | The inner loop raises exactly when its body raises on some order. |
| Reconcile.ApplyOrdersFrame | dx_trade.py:255-267 | The inner loop keeps every key of the position and adds only the six annotation keys. Every other key keeps its value. |
| Reconcile.LastMatch | dx_trade.py:246-267 | Gives the index of the last order protecting the position in a role, or -1 when none does. |
| Reconcile.LastMatchWins | dx_trade.py:246-267 | After the inner loop, a role's three keys hold the code, client code and rounded price of the last protecting order in list order. They are untouched when no order protects the position in that role. |
| Reconcile.InertOrderIgnored | dx_trade.py:248-263 | Removing an inert order (not LIMIT/STOP, or `legCount != 1`) from the order list does not change the inner loop's outcome. |
| Reconcile.ApplyOrdersIdempotent | dx_trade.py:246-267 | Running the inner loop again on the position it produced changes nothing. |
| Reconcile.ReconcileOne | dx_trade.py:241-267 | An annotated position is still a dict with the same positionCode, symbol and side. |
| Reconcile.AnnotateAll | dx_trade.py:241-268 | Succeeds exactly when every position reconciles. The result then has the same positions in the same order and number, each one annotated. |
| Reconcile.PositionsSlTp | dx_trade.py:238-268 | For a list of positions (including the `[]` given when the key is missing), returns the annotated list or the first exception raised. When the positions value is not a list and iterating it raises nothing, that value itself is returned. |
| Reconcile.ReconcileIdempotent | dx_trade.py:238-268 | Reconciling the reconciled positions again with the same orders gives them back unchanged. |
| Reconcile.ReconcileIgnoresInertOrder | dx_trade.py:238-268 | Removing an inert order from the open orders does not change the reconciled positions. |
| Reconcile.ScanOrders | dx_trade.py:246-267 | The inner loop over the orders, annotating the position's dict order by order, computes `ApplyOrders`. |
| Reconcile.ReconcilePosition | dx_trade.py:242-267 | One outer-loop iteration (read the anchor, iterate the orders) computes `ReconcileOne`. |
| Reconcile.AnnotatePositions | dx_trade.py:241-268 | The outer loop, which replaces each position by its annotated dict, computes `AnnotateAll`. |
| Reconcile.ProtectedPositionScenario | dx_trade.py:238-268 | A BUY XAUUSD position P1 with a SELL LIMIT order and a SELL STOP order on P1 gains `tpPositionCode`, `tpOrderCode`, `tpPrice = round(2150, 5)`, `slPosition_code`, `slOrderCode` and `slPrice = round(2100, 5)`. It keeps its own fields. |
| Reconcile.TwoHits | dx_trade.py:246-267 | For one position and two orders that each match it, the position is annotated with both, in list order. |
| Client.DXTrade.ListOpenPositionsSlTp | dx_trade.py:238-268 | Issues the positions GET and then the orders GET, and returns `PositionsSlTp` of the two replies. |
| Client.DXTrade.constructor | dx_trade.py:10-20 | The new client has no session token, no accounts, no issued request and no uuid4 call. |

## Left out

- `login`, `_update_session_token` and `get_user_info`'s logging are not modelled. The session token is a field that no modelled operation changes, and the header contract holds for every value of it. The token timeout is unimplemented in the source anyway.
- `cancel_order` is not modelled. It sends a DELETE and ignores the reply.
- The `__main__` demonstration and the logger set-up in `utils.py` are not modelled. They do console and file I/O only.
- Real HTTP is replaced by an oracle `server(request, k, attempt)`. It gives the status and body of attempt `attempt` of the k-th request issued. A reply body is always a JSON object, so the `type(response_data) is dict` test is always true here. A 200 whose body is a JSON list is not modelled.
- URLs are modelled as lists of path segments below the API root instead of `posixpath.join` strings.
- Exceptions raised by the HTTP layer are not modelled. That covers `requests` raising ConnectionError or Timeout, and `response.json()` raising on a 200 body that is not JSON. In the source such an exception propagates out of the calling operation. For example, if the stop-loss POST of `place_market_order` raises, the parent and take-profit orders have already been placed and no triple is returned. The model's server oracle always answers, so every modelled operation returns.
- `sleep(1)` between retries is not modelled: time is not part of the model.
- Client.DXTrade.PlaceRequest: the `issued` log records one entry per `_place_request` call. The individual HTTP attempts of its retries are counted only by `Transport.SendWithRetry`.
- Transport.SendWithRetry: `max_iterations` is a natural number. A negative budget passed by a caller is not modelled (the source never passes one).
- `uuid4` randomness is replaced by an oracle `uuid(n)`, the text of the n-th call. Orders.MarketOrderCodesDistinct takes uniqueness of uuid4 as a hypothesis; it does not prove it.
- `round(x, 5)` is an uninterpreted function on JSON values. Reconcile.ProtectedPositionScenario therefore states `tpPrice = round5(2150)` and not a decimal result. A TypeError from `round` on a non-numeric price is not modelled.
- JSON numbers are kept as reals. The int/float distinction is not kept, which matches Python's `1 == 1.0`.
- Aliasing is not modelled. `_authorisation_add_header` would update a caller's headers dict in place, but no call site passes one: each call builds a new dict holding only `Authorization`. The reconciler's positions are dicts that no one else holds. The model builds new maps instead.
- Logging calls are not modelled.

Four behaviours of `dx_trade.py` that the model keeps as written:

- The stop-loss code annotation is spelt `slPosition_code` and the take-profit one `tpPositionCode`. Both hold the order's `orderCode`. The client codes go to `tpOrderCode` and `slOrderCode` from `clientOrderId`.
- When the parent market order's reply has an `orderId` that is falsy (0, empty string), `place_market_order` returns `(orderId, None, None)`.
- A position's instrument is read from its `symbol` field.
- An error code returned by the server inside a 200 reply is not surfaced. The order methods return the reply's `orderId`, None when the reply carries none.
