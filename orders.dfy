/**
 * The order composer of `DXTrade`: the payloads that `place_limit_order`,
 * `place_stop_order` and `place_market_order` POST, the side flip that
 * `set_market_order_tp` and `set_market_order_sl` apply to closing orders,
 * and the plan of orders `place_market_order` issues for a given reply to
 * its parent MARKET order.
 */
module Orders {
  import opened Wrappers
  import opened Json

  const Buy := JStr("BUY")
  const Sell := JStr("SELL")
  const Gtc := JStr("GTC")
  const CodePrefix := "unique_"

  /** Which price key a pending (LIMIT or STOP) payload carries. */
  datatype PriceField = LimitPrice | StopPrice

  /**
   * An order payload. Caller-supplied fields are arbitrary JSON values:
   * the client validates none of them.
   */
  datatype Payload =
    | Pending(orderCode: string, orderType: Json, instrument: Json, quantity: Json,
              positionEffect: Json, positionCode: Json, side: Json,
              priceField: PriceField, price: Json)
    | Market(orderCode: string, instrument: Json, quantity: Json, side: Json)

  /** The key names of the three payload shapes, as sent on the wire. */
  const PendingKeys := {"orderCode", "type", "instrument", "quantity", "positionEffect", "positionCode", "side", "tif"}
  const MarketKeys := {"orderCode", "type", "instrument", "quantity", "positionEffect", "side", "tif"}

  function PriceKey(f: PriceField): string
  {
    match f
    case LimitPrice => "limitPrice"
    case StopPrice => "stopPrice"
  }

  /** `f'unique_{str(uuid4())}'`, for the text `token` that uuid4 rendered. */
  function OrderCode(token: string): string
  {
    CodePrefix + token
  }

  /** An order code is the prefix followed by the token, so distinct tokens give distinct codes. */
  lemma OrderCodeParts(t1: string, t2: string)
    ensures CodePrefix <= OrderCode(t1) && OrderCode(t1)[|CodePrefix|..] == t1
    ensures OrderCode(t1) == OrderCode(t2) ==> t1 == t2
  {
    assert OrderCode(t1)[|CodePrefix|..] == t1;
    assert OrderCode(t2)[|CodePrefix|..] == t2;
  }

  /** `'BUY' if side == 'SELL' else 'SELL'`: the side of an order that closes a `side` position. */
  function CloseSide(side: Json): (r: Json)
    ensures r == Buy || r == Sell
    ensures r == Buy <==> side == Sell
  {
    if side == Sell then Buy else Sell
  }

  /** On BUY and SELL the flip is the opposite side, and flipping twice gives the side back. */
  lemma CloseSideInvolution(side: Json)
    requires side == Buy || side == Sell
    ensures CloseSide(side) != side
    ensures CloseSide(CloseSide(side)) == side
  {
  }

  /** The JSON object POSTed for a payload. */
  function ToWire(p: Payload): map<string, Json>
  {
    match p
    case Pending(code, orderType, instrument, quantity, effect, positionCode, side, field, price) =>
      map["orderCode" := JStr(code), "type" := orderType, "instrument" := instrument,
          "quantity" := quantity, "positionEffect" := effect, "positionCode" := positionCode,
          "side" := side, PriceKey(field) := price, "tif" := Gtc]
    case Market(code, instrument, quantity, side) =>
      map["orderCode" := JStr(code), "type" := JStr("MARKET"), "instrument" := instrument,
          "quantity" := quantity, "positionEffect" := JStr("OPEN"), "side" := side, "tif" := Gtc]
  }

  /** Every payload goes out with GTC, its order code, and the caller's instrument, quantity and side. */
  lemma WireShape(p: Payload)
    ensures var m := ToWire(p);
            && (p.Pending? ==> m.Keys == PendingKeys + {PriceKey(p.priceField)})
            && (p.Market? ==> m.Keys == MarketKeys)
            && m["tif"] == Gtc && m["orderCode"] == JStr(p.orderCode)
            && m["instrument"] == p.instrument && m["quantity"] == p.quantity && m["side"] == p.side
  {
  }

  /** Reads a wire object back into the payload it encodes, if it is one. */
  function FromWire(m: map<string, Json>): (r: Option<Payload>)
  {
    if "orderCode" !in m || !m["orderCode"].JStr? || "tif" !in m || m["tif"] != Gtc then None
    else if m.Keys == MarketKeys then
      if m["type"] == JStr("MARKET") && m["positionEffect"] == JStr("OPEN")
      then Some(Market(m["orderCode"].s, m["instrument"], m["quantity"], m["side"]))
      else None
    else if m.Keys == PendingKeys + {"limitPrice"} then
      Some(Pending(m["orderCode"].s, m["type"], m["instrument"], m["quantity"], m["positionEffect"],
                   m["positionCode"], m["side"], LimitPrice, m["limitPrice"]))
    else if m.Keys == PendingKeys + {"stopPrice"} then
      Some(Pending(m["orderCode"].s, m["type"], m["instrument"], m["quantity"], m["positionEffect"],
                   m["positionCode"], m["side"], StopPrice, m["stopPrice"]))
    else None
  }

  /** Every payload is read back from its wire object. */
  lemma WireRoundTrip(p: Payload)
    ensures FromWire(ToWire(p)) == Some(p)
  {
    var m := ToWire(p);
    assert "limitPrice" != "stopPrice";
    if p.Pending? {
      assert m.Keys != MarketKeys by { assert PriceKey(p.priceField) in m.Keys; }
      if p.priceField == StopPrice {
        assert m.Keys != PendingKeys + {"limitPrice"} by { assert "limitPrice" !in m.Keys; }
      }
    }
  }

  /** A wire object that reads back as a payload is exactly that payload's encoding. */
  lemma WireDetermined(m: map<string, Json>, p: Payload)
    requires FromWire(m) == Some(p)
    ensures ToWire(p) == m
  {
    if p.Market? {
      MarketWireDetermined(m, p);
    } else {
      PendingWireDetermined(m, p);
    }
  }

  lemma MarketWireDetermined(m: map<string, Json>, p: Payload)
    requires FromWire(m) == Some(p) && p.Market?
    ensures ToWire(p) == m
  {
    assert m.Keys == MarketKeys;
    assert ToWire(p).Keys == m.Keys;
  }

  lemma PendingWireDetermined(m: map<string, Json>, p: Payload)
    requires FromWire(m) == Some(p) && p.Pending?
    ensures ToWire(p) == m
  {
    var key := PriceKey(p.priceField);
    assert m.Keys == PendingKeys + {key};
    assert key == "limitPrice" || key == "stopPrice";
    PendingWire(p);
    assert m[key] == p.price;
  }

  /** `place_limit_order`'s payload. */
  function LimitOrder(code: string, limitType: Json, instrument: Json, quantity: Json, side: Json,
                      limitPrice: Json, positionEffect: Json, positionCode: Json): Payload
  {
    Pending(code, limitType, instrument, quantity, positionEffect, positionCode, side, LimitPrice, limitPrice)
  }

  /** `place_stop_order`'s payload. */
  function StopOrder(code: string, limitType: Json, instrument: Json, quantity: Json, side: Json,
                     stopPrice: Json, positionEffect: Json, positionCode: Json): Payload
  {
    Pending(code, limitType, instrument, quantity, positionEffect, positionCode, side, StopPrice, stopPrice)
  }

  /** `place_market_order`'s parent payload. */
  function MarketOrder(code: string, instrument: Json, quantity: Json, side: Json): Payload
  {
    Market(code, instrument, quantity, side)
  }

  /** `set_market_order_tp`'s payload. */
  function TakeProfitOrder(code: string, instrument: Json, quantity: Json, side: Json, tp: Json, positionCode: Json): Payload
  {
    LimitOrder(code, JStr("LIMIT"), instrument, quantity, CloseSide(side), tp, JStr("CLOSE"), positionCode)
  }

  /** `set_market_order_sl`'s payload. */
  function StopLossOrder(code: string, instrument: Json, quantity: Json, side: Json, sl: Json, positionCode: Json): Payload
  {
    StopOrder(code, JStr("STOP"), instrument, quantity, CloseSide(side), sl, JStr("CLOSE"), positionCode)
  }

  /**
   * The wire object of a limit or stop payload: the caller's type,
   * instrument, quantity, side, positionEffect and positionCode unchanged,
   * GTC, and the price under `limitPrice` for a limit order and under
   * `stopPrice` for a stop order, never both.
   */
  lemma PendingOrderWire(code: string, limitType: Json, instrument: Json, quantity: Json, side: Json,
                         price: Json, positionEffect: Json, positionCode: Json)
    ensures var m := ToWire(LimitOrder(code, limitType, instrument, quantity, side, price, positionEffect, positionCode));
            && m.Keys == PendingKeys + {"limitPrice"} && m["limitPrice"] == price
            && m["type"] == limitType && m["side"] == side && m["instrument"] == instrument
            && m["quantity"] == quantity && m["positionEffect"] == positionEffect
            && m["positionCode"] == positionCode && m["orderCode"] == JStr(code) && m["tif"] == Gtc
    ensures var m := ToWire(StopOrder(code, limitType, instrument, quantity, side, price, positionEffect, positionCode));
            && m.Keys == PendingKeys + {"stopPrice"} && m["stopPrice"] == price
            && m["type"] == limitType && m["side"] == side && m["instrument"] == instrument
            && m["quantity"] == quantity && m["positionEffect"] == positionEffect
            && m["positionCode"] == positionCode && m["orderCode"] == JStr(code) && m["tif"] == Gtc
  {
    PendingWire(LimitOrder(code, limitType, instrument, quantity, side, price, positionEffect, positionCode));
    PendingWire(StopOrder(code, limitType, instrument, quantity, side, price, positionEffect, positionCode));
  }

  /** The wire object of any limit or stop payload, field by field. */
  lemma PendingWire(p: Payload)
    requires p.Pending?
    ensures var m := ToWire(p);
            && m.Keys == PendingKeys + {PriceKey(p.priceField)} && m[PriceKey(p.priceField)] == p.price
            && m["type"] == p.orderType && m["side"] == p.side && m["instrument"] == p.instrument
            && m["quantity"] == p.quantity && m["positionEffect"] == p.positionEffect
            && m["positionCode"] == p.positionCode && m["orderCode"] == JStr(p.orderCode) && m["tif"] == Gtc
  {
  }

  /** The parent MARKET order: type MARKET, OPEN, GTC, no positionCode, and the caller's side unflipped. */
  lemma MarketOrderWire(code: string, instrument: Json, quantity: Json, side: Json)
    ensures var m := ToWire(MarketOrder(code, instrument, quantity, side));
            && m.Keys == MarketKeys && "positionCode" !in m
            && m["type"] == JStr("MARKET") && m["positionEffect"] == JStr("OPEN") && m["tif"] == Gtc
            && m["side"] == side && m["orderCode"] == JStr(code)
  {
  }

  /**
   * The protective orders: take-profit is a closing LIMIT order and
   * stop-loss a closing STOP order, both on the flipped side, both tied to
   * the position by positionCode.
   */
  lemma ProtectiveOrdersWire(code: string, instrument: Json, quantity: Json, side: Json, level: Json, positionCode: Json)
    ensures var m := ToWire(TakeProfitOrder(code, instrument, quantity, side, level, positionCode));
            && m["type"] == JStr("LIMIT") && m["side"] == CloseSide(side)
            && m["positionEffect"] == JStr("CLOSE") && m["positionCode"] == positionCode
            && "limitPrice" in m && m["limitPrice"] == level && "stopPrice" !in m
    ensures var m := ToWire(StopLossOrder(code, instrument, quantity, side, level, positionCode));
            && m["type"] == JStr("STOP") && m["side"] == CloseSide(side)
            && m["positionEffect"] == JStr("CLOSE") && m["positionCode"] == positionCode
            && "stopPrice" in m && m["stopPrice"] == level && "limitPrice" !in m
  {
  }

  /**
   * What `place_market_order` does for a given reply to its parent order:
   * the payloads it places, in order, and the triple it returns.
   */
  datatype Plan = Plan(orders: seq<Payload>, positionCode: Json, tpCode: Option<string>, slCode: Option<string>)

  /** The protective orders placed for an accepted parent, and their codes. */
  datatype Protection = Protection(orders: seq<Payload>, tpCode: Option<string>, slCode: Option<string>)

  /** The orderId read from the parent reply: None unless the key is there. */
  function ParentId(reply: map<string, Json>): Json
  {
    if "orderId" in reply then reply["orderId"] else JNull
  }

  /** The take-profit order when `tp` is given, its code drawn from uuid4's `next` call. */
  function TakeProfitStep(uuid: nat -> string, next: nat, instrument: Json, quantity: Json, side: Json,
                          tp: Json, positionCode: Json): Protection
  {
    if tp != JNull then
      Protection([TakeProfitOrder(OrderCode(uuid(next)), instrument, quantity, side, tp, positionCode)], Some(OrderCode(uuid(next))), None)
    else Protection([], None, None)
  }

  /** The stop-loss order when `sl` is given, its code drawn from uuid4's `next` call. */
  function StopLossStep(uuid: nat -> string, next: nat, instrument: Json, quantity: Json, side: Json,
                        sl: Json, positionCode: Json): Protection
  {
    if sl != JNull then
      Protection([StopLossOrder(OrderCode(uuid(next)), instrument, quantity, side, sl, positionCode)], None, Some(OrderCode(uuid(next))))
    else Protection([], None, None)
  }

  /**
   * The take-profit order when `tp` is given, then the stop-loss order when
   * `sl` is given, both tied to `positionCode`; uuid4 is called once per order.
   */
  function ProtectionPlan(uuid: nat -> string, next: nat, instrument: Json, quantity: Json, side: Json,
                          sl: Json, tp: Json, positionCode: Json): Protection
  {
    var tpStep := TakeProfitStep(uuid, next, instrument, quantity, side, tp, positionCode);
    var slStep := StopLossStep(uuid, next + |tpStep.orders|, instrument, quantity, side, sl, positionCode);
    Protection(tpStep.orders + slStep.orders, tpStep.tpCode, slStep.slCode)
  }

  /** The protective orders placed after the parent's reply: none unless its orderId is truthy. */
  function FollowUp(uuid: nat -> string, next: nat, instrument: Json, quantity: Json, side: Json,
                    sl: Json, tp: Json, reply: map<string, Json>): Protection
  {
    if Truthy(ParentId(reply)) then ProtectionPlan(uuid, next, instrument, quantity, side, sl, tp, ParentId(reply))
    else Protection([], None, None)
  }

  /**
   * The plan of `place_market_order`, where uuid4 renders `uuid(n)` on its
   * n-th call and `next` calls were made before. `sl` and `tp` are JNull
   * when the caller passes None.
   */
  function MarketOrderPlan(uuid: nat -> string, next: nat, instrument: Json, quantity: Json, side: Json,
                           sl: Json, tp: Json, reply: map<string, Json>): Plan
  {
    var parent := MarketOrder(OrderCode(uuid(next)), instrument, quantity, side);
    var followUp := FollowUp(uuid, next + 1, instrument, quantity, side, sl, tp, reply);
    Plan([parent] + followUp.orders, ParentId(reply), followUp.tpCode, followUp.slCode)
  }

  /**
   * The rules of `place_market_order`: the parent order always comes
   * first; without a truthy orderId in its reply nothing else is placed and
   * the codes are None; otherwise one take-profit order per given `tp` and
   * one stop-loss order per given `sl`, TP before SL, each tied to the
   * orderId, and the codes returned are theirs. A zero level is still
   * "given": only None is absent.
   */
  lemma MarketOrderRules(uuid: nat -> string, next: nat, instrument: Json, quantity: Json, side: Json,
                         sl: Json, tp: Json, reply: map<string, Json>)
    ensures var p := MarketOrderPlan(uuid, next, instrument, quantity, side, sl, tp, reply);
            && |p.orders| >= 1
            && p.orders[0] == MarketOrder(OrderCode(uuid(next)), instrument, quantity, side)
            && (forall i :: 0 <= i < |p.orders| ==> p.orders[i].orderCode == OrderCode(uuid(next + i)))
            && p.positionCode == (if "orderId" in reply then reply["orderId"] else JNull)
            && (!Truthy(p.positionCode) ==> |p.orders| == 1 && p.tpCode == None && p.slCode == None)
            && (Truthy(p.positionCode) ==>
                  |p.orders| == 1 + (if tp != JNull then 1 else 0) + (if sl != JNull then 1 else 0))
            && (p.tpCode.Some? <==> Truthy(p.positionCode) && tp != JNull)
            && (p.slCode.Some? <==> Truthy(p.positionCode) && sl != JNull)
            && (p.tpCode.Some? ==>
                  p.orders[1] == TakeProfitOrder(p.tpCode.value, instrument, quantity, side, tp, p.positionCode))
            && (p.slCode.Some? ==>
                  p.orders[|p.orders| - 1] == StopLossOrder(p.slCode.value, instrument, quantity, side, sl, p.positionCode))
  {
  }

  /**
   * With uuid4 never repeating itself, the orders of one plan carry
   * pairwise distinct codes, so the TP and SL codes returned differ from
   * each other and from the parent's.
   */
  lemma MarketOrderCodesDistinct(uuid: nat -> string, next: nat, instrument: Json, quantity: Json, side: Json,
                                 sl: Json, tp: Json, reply: map<string, Json>)
    requires forall i, j :: uuid(i) == uuid(j) ==> i == j
    ensures var p := MarketOrderPlan(uuid, next, instrument, quantity, side, sl, tp, reply);
            forall i, j :: 0 <= i < j < |p.orders| ==> p.orders[i].orderCode != p.orders[j].orderCode
  {
    var p := MarketOrderPlan(uuid, next, instrument, quantity, side, sl, tp, reply);
    forall i, j | 0 <= i < j < |p.orders|
      ensures p.orders[i].orderCode != p.orders[j].orderCode
    {
      if p.orders[i].orderCode == p.orders[j].orderCode {
        OrderCodeParts(uuid(next + i), uuid(next + j));
      }
    }
  }
}
