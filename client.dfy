/**
 * The `DXTrade` client object: its session token and account list, the
 * requests it issues through the retrying transport, and the composer and
 * reconciler operations built on them. The server, uuid4 and Python's
 * `round(x, 5)` are given to the object as oracles.
 */
module Client {
  import opened Wrappers
  import opened Json
  import opened Transport
  import opened Orders
  import opened Reconcile
  import opened Accounts

  datatype Verb = GET | PUT | POST | DELETE

  /** A request as the client hands it to the transport; `path` is the URL below the API root, segment by segment. */
  datatype Request = Request(verb: Verb, path: seq<string>, headers: map<string, string>, body: Option<map<string, Json>>)

  /** The text the f-string `f"DXAPI {self.session_token}"` gives for a token, None before login. */
  function TokenText(token: Option<string>): string
  {
    match token
    case None => "None"
    case Some(t) => t
  }

  /** `response_data['key'] if 'key' in response_data else []`. */
  function ListField(body: map<string, Json>, key: string): (v: Json)
    ensures key in body ==> v == body[key]
    ensures key !in body ==> v == JArr([])
  {
    if key in body then body[key] else JArr([])
  }

  /** Appending three runs of requests does not depend on grouping. */
  lemma AppendAssoc(a: seq<Request>, b: seq<Request>, c: seq<Request>)
    ensures (a + b) + c == a + (b + c)
  {
  }

  class DXTrade {
    const username: string
    /** uuid4 as the client sees it: the text of its n-th call. */
    const uuid: nat -> string
    /** The server: its reply to HTTP attempt `a` of the k-th request the client issues. */
    const server: (Request, nat, nat) -> Reply
    /** Python's `round(x, 5)` on prices. */
    const round5: Json -> Json

    var sessionToken: Option<string>
    var accounts: seq<Json>
    /** Every request issued, once per `_place_request` call (retries are counted by the transport). */
    var issued: seq<Request>
    /** How many times uuid4 has been called. */
    var codesDrawn: nat

    constructor (username: string, uuid: nat -> string, server: (Request, nat, nat) -> Reply, round5: Json -> Json)
      ensures this.username == username && this.uuid == uuid && this.server == server && this.round5 == round5
      ensures sessionToken == None && accounts == [] && issued == [] && codesDrawn == 0
    {
      this.username := username;
      this.uuid := uuid;
      this.server := server;
      this.round5 := round5;
      sessionToken := None;
      accounts := [];
      issued := [];
      codesDrawn := 0;
    }

    /** `_authorisation_add_header`: the session's Authorization entry added, every other header kept. */
    function AuthorisationAddHeader(headers: map<string, string>): (r: map<string, string>)
      reads this`sessionToken
      ensures r.Keys == headers.Keys + {"Authorization"}
      ensures r["Authorization"] == "DXAPI " + TokenText(sessionToken)
      ensures forall k :: k in headers && k != "Authorization" ==> r[k] == headers[k]
    {
      headers["Authorization" := "DXAPI " + TokenText(sessionToken)]
    }

    /** The replies the server gives to the attempts of the k-th request. */
    function Exchange(req: Request, k: nat): nat -> Reply
    {
      (attempt: nat) => server(req, k, attempt)
    }

    /** The body `_place_request` hands back for the k-th request. */
    function ReplyBody(req: Request, k: nat): map<string, Json>
    {
      Retry(Exchange(req, k), 0, DefaultMaxIterations).body
    }

    /** `_place_request` with its default budget of three retries. */
    method PlaceRequest(req: Request) returns (body: map<string, Json>)
      modifies this`issued
      ensures issued == old(issued) + [req]
      ensures body == ReplyBody(req, old(|issued|))
    {
      var attempts;
      body, attempts := SendWithRetry(Exchange(req, |issued|), DefaultMaxIterations);
      issued := issued + [req];
    }

    /** `f'unique_{str(uuid4())}'` */
    method NewOrderCode() returns (code: string)
      modifies this`codesDrawn
      ensures codesDrawn == old(codesDrawn) + 1
      ensures code == OrderCode(uuid(old(codesDrawn)))
    {
      code := OrderCode(uuid(codesDrawn));
      codesDrawn := codesDrawn + 1;
    }

    /** The POST that places payload `p` on `account`. */
    function PostOrder(account: string, p: Payload): Request
      reads this`sessionToken
    {
      Request(POST, ["accounts", account, "orders"], AuthorisationAddHeader(map[]), Some(ToWire(p)))
    }

    function Posts(account: string, orders: seq<Payload>): (r: seq<Request>)
      reads this`sessionToken
      ensures |r| == |orders|
      ensures forall i :: 0 <= i < |orders| ==> r[i] == PostOrder(account, orders[i])
    {
      if orders == [] then [] else [PostOrder(account, orders[0])] + Posts(account, orders[1..])
    }

    method PlaceLimitOrder(account: string, limitType: Json, instrument: Json, quantity: Json, side: Json,
                           limitPrice: Json, positionEffect: Json := JNull, positionCode: Json := JNull)
      returns (orderId: Json, orderCode: string)
      modifies this`issued, this`codesDrawn
      ensures codesDrawn == old(codesDrawn) + 1
      ensures orderCode == OrderCode(uuid(old(codesDrawn)))
      ensures issued == old(issued) + [PostOrder(account, LimitOrder(orderCode, limitType, instrument, quantity, side, limitPrice, positionEffect, positionCode))]
      ensures orderId == Get(ReplyBody(issued[|old(issued)|], |old(issued)|), "orderId")
    {
      orderCode := NewOrderCode();
      var data := LimitOrder(orderCode, limitType, instrument, quantity, side, limitPrice, positionEffect, positionCode);
      var body := PlaceRequest(PostOrder(account, data));
      orderId := Get(body, "orderId");
    }

    method PlaceStopOrder(account: string, limitType: Json, instrument: Json, quantity: Json, side: Json,
                          stopPrice: Json, positionEffect: Json := JNull, positionCode: Json := JNull)
      returns (orderId: Json, orderCode: string)
      modifies this`issued, this`codesDrawn
      ensures codesDrawn == old(codesDrawn) + 1
      ensures orderCode == OrderCode(uuid(old(codesDrawn)))
      ensures issued == old(issued) + [PostOrder(account, StopOrder(orderCode, limitType, instrument, quantity, side, stopPrice, positionEffect, positionCode))]
      ensures orderId == Get(ReplyBody(issued[|old(issued)|], |old(issued)|), "orderId")
    {
      orderCode := NewOrderCode();
      var data := StopOrder(orderCode, limitType, instrument, quantity, side, stopPrice, positionEffect, positionCode);
      var body := PlaceRequest(PostOrder(account, data));
      orderId := Get(body, "orderId");
    }

    method SetMarketOrderTp(account: string, instrument: Json, quantity: Json, side: Json, tp: Json, positionCode: Json)
      returns (tpPositionCode: Json, tpOrderCode: string)
      modifies this`issued, this`codesDrawn
      ensures codesDrawn == old(codesDrawn) + 1
      ensures tpOrderCode == OrderCode(uuid(old(codesDrawn)))
      ensures issued == old(issued) + [PostOrder(account, TakeProfitOrder(tpOrderCode, instrument, quantity, side, tp, positionCode))]
      ensures tpPositionCode == Get(ReplyBody(issued[|old(issued)|], |old(issued)|), "orderId")
    {
      tpPositionCode, tpOrderCode := PlaceLimitOrder(account, JStr("LIMIT"), instrument, quantity, CloseSide(side), tp, JStr("CLOSE"), positionCode);
    }

    method SetMarketOrderSl(account: string, instrument: Json, quantity: Json, side: Json, sl: Json, positionCode: Json)
      returns (slPositionCode: Json, slOrderCode: string)
      modifies this`issued, this`codesDrawn
      ensures codesDrawn == old(codesDrawn) + 1
      ensures slOrderCode == OrderCode(uuid(old(codesDrawn)))
      ensures issued == old(issued) + [PostOrder(account, StopLossOrder(slOrderCode, instrument, quantity, side, sl, positionCode))]
      ensures slPositionCode == Get(ReplyBody(issued[|old(issued)|], |old(issued)|), "orderId")
    {
      slPositionCode, slOrderCode := PlaceStopOrder(account, JStr("STOP"), instrument, quantity, CloseSide(side), sl, JStr("CLOSE"), positionCode);
    }

    /**
     * `place_market_order`: the parent MARKET order, then the take-profit
     * and stop-loss orders the plan calls for, given the reply the parent
     * got; `sl` and `tp` are JNull when not given.
     */
    method PlaceMarketOrder(account: string, instrument: Json, quantity: Json, side: Json, sl: Json := JNull, tp: Json := JNull)
      returns (positionCode: Json, tpOrderCode: Option<string>, slOrderCode: Option<string>)
      modifies this`issued, this`codesDrawn
      ensures var parent := PostOrder(account, MarketOrder(OrderCode(uuid(old(codesDrawn))), instrument, quantity, side));
              var plan := MarketOrderPlan(uuid, old(codesDrawn), instrument, quantity, side, sl, tp, ReplyBody(parent, old(|issued|)));
              && issued == old(issued) + Posts(account, plan.orders)
              && codesDrawn == old(codesDrawn) + |plan.orders|
              && positionCode == plan.positionCode && tpOrderCode == plan.tpCode && slOrderCode == plan.slCode
    {
      var orderCode := NewOrderCode();
      var data := MarketOrder(orderCode, instrument, quantity, side);
      var responseData := PlaceRequest(PostOrder(account, data));
      ghost var mid := issued;
      assert mid == old(issued) + Posts(account, [data]);
      positionCode, tpOrderCode, slOrderCode := PlaceFollowUp(account, instrument, quantity, side, sl, tp, responseData);
      ghost var followUp := FollowUp(uuid, old(codesDrawn) + 1, instrument, quantity, side, sl, tp, responseData);
      PostsConcat(account, [data], followUp.orders);
      AppendAssoc(old(issued), Posts(account, [data]), Posts(account, followUp.orders));
    }

    /** `place_market_order` after the parent's reply: read its orderId, and protect the position when it is truthy. */
    method PlaceFollowUp(account: string, instrument: Json, quantity: Json, side: Json, sl: Json, tp: Json, responseData: map<string, Json>)
      returns (positionCode: Json, tpOrderCode: Option<string>, slOrderCode: Option<string>)
      modifies this`issued, this`codesDrawn
      ensures var followUp := FollowUp(uuid, old(codesDrawn), instrument, quantity, side, sl, tp, responseData);
              && issued == old(issued) + Posts(account, followUp.orders)
              && codesDrawn == old(codesDrawn) + |followUp.orders|
              && positionCode == ParentId(responseData) && tpOrderCode == followUp.tpCode && slOrderCode == followUp.slCode
    {
      positionCode, tpOrderCode, slOrderCode := JNull, None, None;
      if "orderId" in responseData {
        positionCode := responseData["orderId"];
        if Truthy(positionCode) {
          tpOrderCode, slOrderCode := PlaceProtection(account, instrument, quantity, side, sl, tp, positionCode);
        }
      }
    }

    /** The TP/SL half of `place_market_order`, once the parent order has a truthy orderId. */
    method PlaceProtection(account: string, instrument: Json, quantity: Json, side: Json, sl: Json, tp: Json, positionCode: Json)
      returns (tpOrderCode: Option<string>, slOrderCode: Option<string>)
      modifies this`issued, this`codesDrawn
      ensures var protection := ProtectionPlan(uuid, old(codesDrawn), instrument, quantity, side, sl, tp, positionCode);
              && issued == old(issued) + Posts(account, protection.orders)
              && codesDrawn == old(codesDrawn) + |protection.orders|
              && tpOrderCode == protection.tpCode && slOrderCode == protection.slCode
    {
      ghost var tpStep := TakeProfitStep(uuid, codesDrawn, instrument, quantity, side, tp, positionCode);
      ghost var slStep := StopLossStep(uuid, codesDrawn + |tpStep.orders|, instrument, quantity, side, sl, positionCode);
      ghost var protection := ProtectionPlan(uuid, codesDrawn, instrument, quantity, side, sl, tp, positionCode);
      assert protection == Protection(tpStep.orders + slStep.orders, tpStep.tpCode, slStep.slCode);
      tpOrderCode := PlaceTakeProfit(account, instrument, quantity, side, tp, positionCode);
      ghost var mid := issued;
      assert mid == old(issued) + Posts(account, tpStep.orders);
      slOrderCode := PlaceStopLoss(account, instrument, quantity, side, sl, positionCode);
      assert issued == mid + Posts(account, slStep.orders);
      PostsConcat(account, tpStep.orders, slStep.orders);
      AppendAssoc(old(issued), Posts(account, tpStep.orders), Posts(account, slStep.orders));
    }

    /** `if tp is not None: tp_order_code = self.set_market_order_tp(...)[1]` */
    method PlaceTakeProfit(account: string, instrument: Json, quantity: Json, side: Json, tp: Json, positionCode: Json)
      returns (tpOrderCode: Option<string>)
      modifies this`issued, this`codesDrawn
      ensures var step := TakeProfitStep(uuid, old(codesDrawn), instrument, quantity, side, tp, positionCode);
              && issued == old(issued) + Posts(account, step.orders)
              && codesDrawn == old(codesDrawn) + |step.orders|
              && tpOrderCode == step.tpCode
    {
      tpOrderCode := None;
      if tp != JNull {
        var _, code := SetMarketOrderTp(account, instrument, quantity, side, tp, positionCode);
        tpOrderCode := Some(code);
        ghost var order := TakeProfitOrder(code, instrument, quantity, side, tp, positionCode);
        assert Posts(account, [order]) == [PostOrder(account, order)];
      }
    }

    /** `if sl is not None: sl_order_code = self.set_market_order_sl(...)[1]` */
    method PlaceStopLoss(account: string, instrument: Json, quantity: Json, side: Json, sl: Json, positionCode: Json)
      returns (slOrderCode: Option<string>)
      modifies this`issued, this`codesDrawn
      ensures var step := StopLossStep(uuid, old(codesDrawn), instrument, quantity, side, sl, positionCode);
              && issued == old(issued) + Posts(account, step.orders)
              && codesDrawn == old(codesDrawn) + |step.orders|
              && slOrderCode == step.slCode
    {
      slOrderCode := None;
      if sl != JNull {
        var _, code := SetMarketOrderSl(account, instrument, quantity, side, sl, positionCode);
        slOrderCode := Some(code);
        ghost var order := StopLossOrder(code, instrument, quantity, side, sl, positionCode);
        assert Posts(account, [order]) == [PostOrder(account, order)];
      }
    }

    lemma {:induction false} PostsConcat(account: string, first: seq<Payload>, second: seq<Payload>)
      ensures Posts(account, first + second) == Posts(account, first) + Posts(account, second)
    {
      var whole := Posts(account, first + second);
      var parts := Posts(account, first) + Posts(account, second);
      forall i | 0 <= i < |whole|
        ensures whole[i] == parts[i]
      {
        if i < |first| {
          assert (first + second)[i] == first[i];
        } else {
          assert (first + second)[i] == second[i - |first|];
        }
      }
    }

    function UserInfoRequest(): Request
      reads this`sessionToken
    {
      Request(GET, ["users", username], AuthorisationAddHeader(map[]), None)
    }

    /**
     * `get_accounts`: fetch the user info, return the listed accounts and
     * store their ids, or return `[]` and store nothing.
     */
    method GetAccounts() returns (r: Result<Json, Fault>)
      modifies this`issued, this`accounts
      ensures issued == old(issued) + [UserInfoRequest()]
      ensures var reply := AccountsFrom(ReplyBody(UserInfoRequest(), old(|issued|)));
              && r == (match reply
                       case Success(v) => Success(v.returned)
                       case Failure(e) => Failure(e))
              && accounts == (if reply.Success? && reply.value.ids.Some? then reply.value.ids.value else old(accounts))
    {
      var userInfo := PlaceRequest(UserInfoRequest());
      var reply := AccountsFrom(userInfo);
      match reply
      case Failure(e) =>
        r := Failure(e);
      case Success(v) =>
        if v.ids.Some? {
          accounts := v.ids.value;
        }
        r := Success(v.returned);
    }

    function ListRequest(accountCode: string, what: string): Request
      reads this`sessionToken
    {
      Request(GET, ["accounts", accountCode, what], AuthorisationAddHeader(map[]), None)
    }

    method ListOpenOrders(accountCode: string) returns (orders: Json)
      modifies this`issued
      ensures issued == old(issued) + [ListRequest(accountCode, "orders")]
      ensures orders == ListField(ReplyBody(ListRequest(accountCode, "orders"), old(|issued|)), "orders")
    {
      var body := PlaceRequest(ListRequest(accountCode, "orders"));
      orders := ListField(body, "orders");
    }

    method ListOpenPositions(accountCode: string) returns (positions: Json)
      modifies this`issued
      ensures issued == old(issued) + [ListRequest(accountCode, "positions")]
      ensures positions == ListField(ReplyBody(ListRequest(accountCode, "positions"), old(|issued|)), "positions")
    {
      var body := PlaceRequest(ListRequest(accountCode, "positions"));
      positions := ListField(body, "positions");
    }

    /** `list_open_positions_sl_tp`: fetch positions, then orders, then reconcile them. */
    method ListOpenPositionsSlTp(accountCode: string) returns (r: Result<Json, Fault>)
      modifies this`issued
      ensures issued == old(issued) + [ListRequest(accountCode, "positions"), ListRequest(accountCode, "orders")]
      ensures r == PositionsSlTp(ListField(ReplyBody(ListRequest(accountCode, "positions"), old(|issued|)), "positions"),
                                 ListField(ReplyBody(ListRequest(accountCode, "orders"), old(|issued|) + 1), "orders"),
                                 round5)
    {
      var openPositions := ListOpenPositions(accountCode);
      var openOrders := ListOpenOrders(accountCode);
      if openPositions.JArr? {
        var annotated := AnnotatePositions(openPositions.items, openOrders, round5);
        r := match annotated
             case Success(out) => Success(JArr(out))
             case Failure(e) => Failure(e);
      } else {
        r := match Items(openPositions)
             case Success(_) => Success(openPositions)
             case Failure(e) => Failure(e);
      }
    }
  }
}
