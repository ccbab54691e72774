/**
 * The position/order reconciler of `DXTrade.list_open_positions_sl_tp`:
 * each open position is annotated with the take-profit (LIMIT) and
 * stop-loss (STOP) orders that close it. An order protects a position when
 * it has exactly one leg, trades the position's instrument on the other
 * side, and its leg names the position's positionCode; when several orders
 * protect the same position in the same role, the last one in list order
 * is the one the position keeps.
 */
module Reconcile {
  import opened Wrappers
  import opened Json

  datatype Role = TakeProfit | StopLoss

  /** What the outer loop reads of a position before scanning the orders. */
  datatype Anchor = Anchor(positionCode: Json, symbol: Json, side: Json)

  /** A protective order as the inner loop copies it into the position. */
  datatype Hit = Hit(role: Role, orderCode: Json, clientOrderId: Json, price: Json)

  function OrderType(role: Role): Json
  {
    match role
    case TakeProfit => JStr("LIMIT")
    case StopLoss => JStr("STOP")
  }

  /** The keys a position is annotated with; the stop-loss code key is spelt `slPosition_code`. */
  function CodeKey(role: Role): string
  {
    match role
    case TakeProfit => "tpPositionCode"
    case StopLoss => "slPosition_code"
  }

  function ClientKey(role: Role): string
  {
    match role
    case TakeProfit => "tpOrderCode"
    case StopLoss => "slOrderCode"
  }

  function PriceKey(role: Role): string
  {
    match role
    case TakeProfit => "tpPrice"
    case StopLoss => "slPrice"
  }

  function RoleKeys(role: Role): set<string>
  {
    {CodeKey(role), ClientKey(role), PriceKey(role)}
  }

  const AnnotationKeys: set<string> := RoleKeys(TakeProfit) + RoleKeys(StopLoss)
  const AnchorKeys: set<string> := {"positionCode", "symbol", "side"}

  /** `position['positionCode']`, `position['symbol']`, `position['side']`, in that order. */
  function ReadAnchor(position: Json): (r: Result<Anchor, Fault>)
    ensures r.Success? <==> position.JObj? && AnchorKeys <= position.fields.Keys
    ensures r.Success? ==> r.value == Anchor(position.fields["positionCode"], position.fields["symbol"], position.fields["side"])
  {
    var code :- Subscript(position, "positionCode");
    var symbol :- Subscript(position, "symbol");
    var side :- Subscript(position, "side");
    Success(Anchor(code, symbol, side))
  }

  /**
   * The part of each branch's condition after the type test:
   * `order['legCount'] == 1 and order['instrument'] == symbol and order['side'] != side`,
   * evaluated left to right and cut short at the first false conjunct.
   */
  function Guard(o: map<string, Json>, a: Anchor): Result<bool, Fault>
  {
    if "legCount" !in o then Failure(KeyError)
    else if !IsOne(o["legCount"]) then Success(false)
    else if "instrument" !in o then Failure(KeyError)
    else if !PyEq(o["instrument"], a.symbol) then Success(false)
    else if "side" !in o then Failure(KeyError)
    else Success(!PyEq(o["side"], a.side))
  }

  /** `order['legs'][0]` */
  function FirstLeg(o: map<string, Json>): Result<Json, Fault>
  {
    var legs :- Subscript(JObj(o), "legs");
    First(legs)
  }

  /**
   * The matching rule, stated without the evaluation order: the order is
   * the `role` order of the position anchored at `a`.
   */
  predicate Protects(order: Json, a: Anchor, role: Role)
  {
    && order.JObj?
    && "type" in order.fields && order.fields["type"] == OrderType(role)
    && "legCount" in order.fields && IsOne(order.fields["legCount"])
    && "instrument" in order.fields && PyEq(order.fields["instrument"], a.symbol)
    && "side" in order.fields && !PyEq(order.fields["side"], a.side)
    && "legs" in order.fields && order.fields["legs"].JArr? && order.fields["legs"].items != []
    && order.fields["legs"].items[0].JObj?
    && "positionCode" in order.fields["legs"].items[0].fields
    && PyEq(order.fields["legs"].items[0].fields["positionCode"], a.positionCode)
  }

  /** The first leg of an order that `Protects` something. */
  function Leg(order: Json): map<string, Json>
    requires order.JObj? && "legs" in order.fields && order.fields["legs"].JArr?
    requires order.fields["legs"].items != [] && order.fields["legs"].items[0].JObj?
  {
    order.fields["legs"].items[0].fields
  }

  /** An order carrying the three values a protecting order hands to the position. */
  predicate HasHitValues(order: Json)
  {
    && order.JObj? && "orderCode" in order.fields && "clientOrderId" in order.fields
    && "legs" in order.fields && order.fields["legs"].JArr? && order.fields["legs"].items != []
    && order.fields["legs"].items[0].JObj? && "price" in Leg(order)
  }

  /** Inert for every position: not a LIMIT or STOP order, or not single-leg. */
  predicate Inert(order: Json)
  {
    && order.JObj? && "type" in order.fields
    && (|| (order.fields["type"] != JStr("LIMIT") && order.fields["type"] != JStr("STOP"))
        || ("legCount" in order.fields && !IsOne(order.fields["legCount"])))
  }

  /**
   * One pass of the inner loop's body over `order`: None when the order
   * leaves the position alone, the values to copy when it protects it, or
   * the exception the subscripts raise.
   */
  function Classify(order: Json, a: Anchor): Result<Option<Hit>, Fault>
  {
    var t :- Subscript(order, "type");
    if t == JStr("LIMIT") || t == JStr("STOP") then
      var role := if t == JStr("LIMIT") then TakeProfit else StopLoss;
      var matches :- Guard(order.fields, a);
      if !matches then Success(None)
      else
        var leg :- FirstLeg(order.fields);
        var legCode :- Subscript(leg, "positionCode");
        if !PyEq(legCode, a.positionCode) then Success(None)
        else
          var code :- Subscript(order, "orderCode");
          var client :- Subscript(order, "clientOrderId");
          var price :- Subscript(leg, "price");
          Success(Some(Hit(role, code, client, price)))
    else
      Success(None)
  }

  /**
   * The inner loop's body matches exactly the orders that protect the
   * position: a hit is a protecting order and carries its values, a
   * protecting order carrying its values is a hit, a protecting order
   * lacking one of them raises KeyError, and a miss protects it in
   * neither role.
   */
  lemma ClassifyMatches(order: Json, a: Anchor)
    ensures var r := Classify(order, a);
            && (r.Success? && r.value.Some? ==>
                  var h := r.value.value;
                  && Protects(order, a, h.role) && HasHitValues(order)
                  && h == Hit(h.role, order.fields["orderCode"], order.fields["clientOrderId"], Leg(order)["price"]))
            && (forall role :: Protects(order, a, role) && HasHitValues(order) ==>
                  r == Success(Some(Hit(role, order.fields["orderCode"], order.fields["clientOrderId"], Leg(order)["price"]))))
            && (r.Success? && r.value.None? ==> !Protects(order, a, TakeProfit) && !Protects(order, a, StopLoss))
            && (forall role :: Protects(order, a, role) && !HasHitValues(order) ==> r == Failure(KeyError))
  {
  }

  /** An order that is neither LIMIT nor STOP, or not single-leg, is passed over without raising. */
  lemma ClassifyInert(order: Json, a: Anchor)
    requires Inert(order)
    ensures Classify(order, a) == Success(None)
  {
  }

  /** The three assignments of a matching branch. */
  function Annotate(fields: map<string, Json>, h: Hit, round5: Json -> Json): map<string, Json>
  {
    fields[CodeKey(h.role) := h.orderCode][ClientKey(h.role) := h.clientOrderId][PriceKey(h.role) := round5(h.price)]
  }

  /** The inner loop over `orders` for one position, `fields` being the position before the loop. */
  function ApplyOrders(fields: map<string, Json>, a: Anchor, orders: seq<Json>, round5: Json -> Json): Result<map<string, Json>, Fault>
    decreases |orders|
  {
    if orders == [] then Success(fields)
    else
      var before :- ApplyOrders(fields, a, orders[..|orders| - 1], round5);
      var hit :- Classify(orders[|orders| - 1], a);
      Success(if hit.Some? then Annotate(before, hit.value, round5) else before)
  }

  /** The inner loop raises exactly when the body raises on some order. */
  lemma {:induction false} ApplyOrdersSucceeds(fields: map<string, Json>, a: Anchor, orders: seq<Json>, round5: Json -> Json)
    ensures ApplyOrders(fields, a, orders, round5).Success? <==> forall i :: 0 <= i < |orders| ==> Classify(orders[i], a).Success?
    decreases |orders|
  {
    if orders != [] {
      var prefix := orders[..|orders| - 1];
      assert forall i :: 0 <= i < |prefix| ==> prefix[i] == orders[i];
      ApplyOrdersSucceeds(fields, a, prefix, round5);
    }
  }

  /** The inner loop only ever adds or overwrites the six annotation keys. */
  lemma {:induction false} ApplyOrdersFrame(fields: map<string, Json>, a: Anchor, orders: seq<Json>, round5: Json -> Json)
    requires ApplyOrders(fields, a, orders, round5).Success?
    ensures var g := ApplyOrders(fields, a, orders, round5).value;
            && fields.Keys <= g.Keys <= fields.Keys + AnnotationKeys
            && forall k :: k in fields && k !in AnnotationKeys ==> g[k] == fields[k]
    decreases |orders|
  {
    if orders != [] {
      ApplyOrdersFrame(fields, a, orders[..|orders| - 1], round5);
    }
  }

  /** The index of the last order that protects the position in `role`, or -1. */
  function LastMatch(a: Anchor, orders: seq<Json>, role: Role): (i: int)
    ensures -1 <= i < |orders|
    ensures i >= 0 ==> Protects(orders[i], a, role)
    ensures forall j :: i < j < |orders| ==> !Protects(orders[j], a, role)
    decreases |orders|
  {
    if orders == [] then -1
    else if Protects(orders[|orders| - 1], a, role) then |orders| - 1
    else LastMatch(a, orders[..|orders| - 1], role)
  }

  /** The keys of `keys` are in `g` exactly when in `f`, with the same values. */
  predicate Untouched(g: map<string, Json>, f: map<string, Json>, keys: set<string>)
  {
    forall k :: k in keys ==> (k in g <==> k in f) && (k in g ==> g[k] == f[k])
  }

  /** `g` carries `order`'s values under `role`'s keys, the price rounded. */
  predicate Carries(g: map<string, Json>, role: Role, order: Json, round5: Json -> Json)
  {
    && HasHitValues(order)
    && CodeKey(role) in g && g[CodeKey(role)] == order.fields["orderCode"]
    && ClientKey(role) in g && g[ClientKey(role)] == order.fields["clientOrderId"]
    && PriceKey(role) in g && g[PriceKey(role)] == round5(Leg(order)["price"])
  }

  lemma RoleKeysDistinct()
    ensures RoleKeys(TakeProfit) !! RoleKeys(StopLoss)
    ensures AnchorKeys !! AnnotationKeys
  {
  }

  /**
   * Last match wins: after the inner loop a position carries, in each
   * role, the values of the last order protecting it in that role, and
   * that role's keys are as they were when no order protects it.
   */
  lemma {:induction false} LastMatchWins(fields: map<string, Json>, a: Anchor, orders: seq<Json>, round5: Json -> Json, role: Role)
    requires ApplyOrders(fields, a, orders, round5).Success?
    ensures var g := ApplyOrders(fields, a, orders, round5).value;
            var i := LastMatch(a, orders, role);
            && (i < 0 ==> Untouched(g, fields, RoleKeys(role)))
            && (i >= 0 ==> Carries(g, role, orders[i], round5))
    decreases |orders|
  {
    if orders != [] {
      var n := |orders| - 1;
      var prefix := orders[..n];
      assert forall j :: 0 <= j < |prefix| ==> prefix[j] == orders[j];
      LastMatchWins(fields, a, prefix, round5, role);
      var before := ApplyOrders(fields, a, prefix, round5).value;
      var hit := Classify(orders[n], a).value;
      ClassifyMatches(orders[n], a);
      if Protects(orders[n], a, role) {
        assert hit.Some? && hit.value.role == role;
        AnnotateCarries(before, hit.value, orders[n], round5);
      } else if hit.Some? {
        AnnotateOtherRole(before, hit.value, role, round5);
        UntouchedTransfer(before, Annotate(before, hit.value, round5), fields, role, orders, LastMatch(a, prefix, role), round5);
      }
    }
  }

  /** The three assignments make the position carry the order's values in the hit's role. */
  lemma AnnotateCarries(g: map<string, Json>, h: Hit, order: Json, round5: Json -> Json)
    requires HasHitValues(order)
    requires h == Hit(h.role, order.fields["orderCode"], order.fields["clientOrderId"], Leg(order)["price"])
    ensures Carries(Annotate(g, h, round5), h.role, order, round5)
  {
    RoleKeysDistinct();
  }

  /** Annotating in one role leaves the other role's keys as they were. */
  lemma AnnotateOtherRole(g: map<string, Json>, h: Hit, role: Role, round5: Json -> Json)
    requires h.role != role
    ensures Untouched(Annotate(g, h, round5), g, RoleKeys(role))
  {
    RoleKeysDistinct();
  }

  /** A map that keeps a role's keys keeps whatever those keys carried. */
  lemma UntouchedTransfer(g: map<string, Json>, g2: map<string, Json>, f: map<string, Json>, role: Role,
                          orders: seq<Json>, i: int, round5: Json -> Json)
    requires Untouched(g2, g, RoleKeys(role))
    requires i < 0 ==> Untouched(g, f, RoleKeys(role))
    requires 0 <= i < |orders| ==> Carries(g, role, orders[i], round5)
    ensures i < 0 ==> Untouched(g2, f, RoleKeys(role))
    ensures 0 <= i < |orders| ==> Carries(g2, role, orders[i], round5)
  {
  }

  /** An order inert for every position can be dropped from the list without changing the outcome. */
  lemma {:induction false} InertOrderIgnored(fields: map<string, Json>, a: Anchor, before: seq<Json>, o: Json, after: seq<Json>, round5: Json -> Json)
    requires Inert(o)
    ensures ApplyOrders(fields, a, before + [o] + after, round5) == ApplyOrders(fields, a, before + after, round5)
    decreases |after|
  {
    if after == [] {
      ClassifyInert(o, a);
      ApplyOrdersSnoc(fields, a, before, o, round5);
      assert before + after == before && before + [o] + after == before + [o];
    } else {
      var n := |after| - 1;
      InertOrderIgnored(fields, a, before, o, after[..n], round5);
      SnocCongruence(fields, a, before + [o] + after[..n], before + after[..n], after[n], round5);
      assert before + [o] + after == (before + [o] + after[..n]) + [after[n]];
      assert before + after == (before + after[..n]) + [after[n]];
    }
  }

  /** Two order lists with the same outcome still agree after one more order. */
  lemma SnocCongruence(fields: map<string, Json>, a: Anchor, xs: seq<Json>, ys: seq<Json>, o: Json, round5: Json -> Json)
    requires ApplyOrders(fields, a, xs, round5) == ApplyOrders(fields, a, ys, round5)
    ensures ApplyOrders(fields, a, xs + [o], round5) == ApplyOrders(fields, a, ys + [o], round5)
  {
    ApplyOrdersSnoc(fields, a, xs, o, round5);
    ApplyOrdersSnoc(fields, a, ys, o, round5);
  }

  /** The inner loop over one more order: the loop so far, then that order's body. */
  lemma ApplyOrdersSnoc(fields: map<string, Json>, a: Anchor, orders: seq<Json>, o: Json, round5: Json -> Json)
    ensures ApplyOrders(fields, a, orders + [o], round5)
              == (match ApplyOrders(fields, a, orders, round5)
                  case Failure(e) => Failure(e)
                  case Success(g) =>
                    match Classify(o, a)
                    case Failure(e) => Failure(e)
                    case Success(hit) => Success(if hit.Some? then Annotate(g, hit.value, round5) else g))
  {
    assert (orders + [o])[..|orders|] == orders;
  }

  /** Scanning the same orders again leaves each role's keys where the first scan put them. */
  lemma RoleSettled(fields: map<string, Json>, a: Anchor, orders: seq<Json>, round5: Json -> Json, role: Role)
    requires ApplyOrders(fields, a, orders, round5).Success?
    ensures var g := ApplyOrders(fields, a, orders, round5).value;
            && ApplyOrders(g, a, orders, round5).Success?
            && Untouched(ApplyOrders(g, a, orders, round5).value, g, RoleKeys(role))
  {
    var g := ApplyOrders(fields, a, orders, round5).value;
    ApplyOrdersSucceeds(fields, a, orders, round5);
    ApplyOrdersSucceeds(g, a, orders, round5);
    var g2 := ApplyOrders(g, a, orders, round5).value;
    LastMatchWins(g, a, orders, round5, role);
    var i := LastMatch(a, orders, role);
    if i >= 0 {
      LastMatchWins(fields, a, orders, round5, role);
      assert Carries(g, role, orders[i], round5) && Carries(g2, role, orders[i], round5);
      forall k | k in RoleKeys(role)
        ensures (k in g2 <==> k in g) && (k in g2 ==> g2[k] == g[k])
      {
        assert k == CodeKey(role) || k == ClientKey(role) || k == PriceKey(role);
      }
    }
  }

  /** Two maps that agree on the annotation keys and on every other key are equal. */
  lemma AgreeEverywhere(g: map<string, Json>, g2: map<string, Json>)
    requires Untouched(g2, g, RoleKeys(TakeProfit)) && Untouched(g2, g, RoleKeys(StopLoss))
    requires g.Keys <= g2.Keys <= g.Keys + AnnotationKeys
    requires forall k :: k in g && k !in AnnotationKeys ==> g2[k] == g[k]
    ensures g2 == g
  {
    assert forall k :: k in AnnotationKeys ==> k in RoleKeys(TakeProfit) || k in RoleKeys(StopLoss);
    assert g2.Keys == g.Keys;
  }

  /** Running the inner loop again over the position it produced changes nothing. */
  lemma ApplyOrdersIdempotent(fields: map<string, Json>, a: Anchor, orders: seq<Json>, round5: Json -> Json)
    requires ApplyOrders(fields, a, orders, round5).Success?
    ensures var g := ApplyOrders(fields, a, orders, round5).value;
            ApplyOrders(g, a, orders, round5) == Success(g)
  {
    var g := ApplyOrders(fields, a, orders, round5).value;
    RoleSettled(fields, a, orders, round5, TakeProfit);
    RoleSettled(fields, a, orders, round5, StopLoss);
    ApplyOrdersFrame(g, a, orders, round5);
    AgreeEverywhere(g, ApplyOrders(g, a, orders, round5).value);
  }

  /**
   * One iteration of the outer loop: read the position's anchor, then scan
   * the orders. The annotated position is the same dict with keys added.
   */
  function ReconcileOne(position: Json, orders: Json, round5: Json -> Json): (r: Result<Json, Fault>)
    ensures r.Success? ==> position.JObj? && r.value.JObj? && ReadAnchor(r.value) == ReadAnchor(position)
  {
    var a :- ReadAnchor(position);
    var items :- Items(orders);
    var g :- ApplyOrders(position.fields, a, items, round5);
    ApplyOrdersFrame(position.fields, a, items, round5);
    RoleKeysDistinct();
    assert ReadAnchor(JObj(g)) == ReadAnchor(position);
    Success(JObj(g))
  }

  /** `f` applied to each item in turn, stopping at the first exception. */
  function MapUntilFault(f: Json -> Result<Json, Fault>, xs: seq<Json>): (r: Result<seq<Json>, Fault>)
    ensures r.Success? <==> forall i :: 0 <= i < |xs| ==> f(xs[i]).Success?
    ensures r.Success? ==> |r.value| == |xs|
    ensures r.Success? ==> forall i :: 0 <= i < |xs| ==> f(xs[i]) == Success(r.value[i])
    decreases |xs|
  {
    if xs == [] then Success([])
    else
      var before :- MapUntilFault(f, xs[..|xs| - 1]);
      var last :- f(xs[|xs| - 1]);
      Success(before + [last])
  }

  /** Two functions that agree on every item give the same outcome. */
  lemma {:induction false} MapUntilFaultAgree(f: Json -> Result<Json, Fault>, g: Json -> Result<Json, Fault>, xs: seq<Json>)
    requires forall i :: 0 <= i < |xs| ==> f(xs[i]) == g(xs[i])
    ensures MapUntilFault(f, xs) == MapUntilFault(g, xs)
    decreases |xs|
  {
    if xs != [] {
      var prefix := xs[..|xs| - 1];
      assert forall i :: 0 <= i < |prefix| ==> prefix[i] == xs[i];
      MapUntilFaultAgree(f, g, prefix);
    }
  }

  /**
   * The outer loop over the positions: the same positions in the same order
   * and number, each one annotated by `ReconcileOne`, or the first exception.
   */
  function AnnotateAll(positions: seq<Json>, orders: Json, round5: Json -> Json): (r: Result<seq<Json>, Fault>)
    ensures r.Success? <==> forall i :: 0 <= i < |positions| ==> ReconcileOne(positions[i], orders, round5).Success?
    ensures r.Success? ==> |r.value| == |positions|
    ensures r.Success? ==> forall i :: 0 <= i < |positions| ==> ReconcileOne(positions[i], orders, round5) == Success(r.value[i])
  {
    MapUntilFault((p: Json) => ReconcileOne(p, orders, round5), positions)
  }

  /** `list_open_positions_sl_tp` once both lists are fetched: it returns the positions value it iterated. */
  function PositionsSlTp(positions: Json, orders: Json, round5: Json -> Json): (r: Result<Json, Fault>)
    ensures positions.JArr? ==> r == (match AnnotateAll(positions.items, orders, round5)
                                      case Success(out) => Success(JArr(out))
                                      case Failure(f) => Failure(f))
    ensures r.Success? && !positions.JArr? ==> r.value == positions
  {
    var ps :- Items(positions);
    if positions.JArr? then
      var out :- AnnotateAll(ps, orders, round5);
      Success(JArr(out))
    else
      Success(positions)
  }

  /** Reconciling the reconciled positions again with the same orders gives them back unchanged. */
  lemma ReconcileIdempotent(positions: seq<Json>, orders: Json, round5: Json -> Json)
    requires AnnotateAll(positions, orders, round5).Success?
    ensures var out := AnnotateAll(positions, orders, round5).value;
            AnnotateAll(out, orders, round5) == Success(out)
  {
    var out := AnnotateAll(positions, orders, round5).value;
    forall i | 0 <= i < |out|
      ensures ReconcileOne(out[i], orders, round5) == Success(out[i])
    {
      var p := positions[i];
      var a := ReadAnchor(p).value;
      var items := Items(orders).value;
      ApplyOrdersIdempotent(p.fields, a, items, round5);
    }
    var again := AnnotateAll(out, orders, round5);
    assert again.Success?;
    assert again.value == out;
  }

  /** Dropping an order that is inert for every position leaves the reconciled positions as they were. */
  lemma ReconcileIgnoresInertOrder(positions: seq<Json>, before: seq<Json>, o: Json, after: seq<Json>, round5: Json -> Json)
    requires Inert(o)
    ensures AnnotateAll(positions, JArr(before + [o] + after), round5) == AnnotateAll(positions, JArr(before + after), round5)
  {
    forall i | 0 <= i < |positions|
      ensures ReconcileOne(positions[i], JArr(before + [o] + after), round5) == ReconcileOne(positions[i], JArr(before + after), round5)
    {
      var r := ReadAnchor(positions[i]);
      if r.Success? {
        InertOrderIgnored(positions[i].fields, r.value, before, o, after, round5);
      }
    }
    MapUntilFaultAgree((p: Json) => ReconcileOne(p, JArr(before + [o] + after), round5),
                       (p: Json) => ReconcileOne(p, JArr(before + after), round5), positions);
  }

  /** The inner loop of `list_open_positions_sl_tp`: one position's dict annotated order by order. */
  method ScanOrders(fields: map<string, Json>, a: Anchor, orders: seq<Json>, round5: Json -> Json) returns (r: Result<map<string, Json>, Fault>)
    ensures r == ApplyOrders(fields, a, orders, round5)
  {
    var position := fields;
    var j := 0;
    while j < |orders|
      invariant 0 <= j <= |orders|
      invariant ApplyOrders(fields, a, orders[..j], round5) == Success(position)
    {
      assert orders[..j + 1][..j] == orders[..j];
      var hit := Classify(orders[j], a);
      if hit.Failure? {
        ApplyOrdersFailsAt(fields, a, orders, round5, j);
        return Failure(hit.error);
      }
      if hit.value.Some? {
        position := Annotate(position, hit.value.value, round5);
      }
      j := j + 1;
    }
    assert orders[..j] == orders;
    r := Success(position);
  }

  /**
   * The outer loop of `list_open_positions_sl_tp`: each position in turn
   * is read, scanned against the orders and replaced by its annotated dict.
   */
  method AnnotatePositions(positions: seq<Json>, orders: Json, round5: Json -> Json) returns (r: Result<seq<Json>, Fault>)
    ensures r == AnnotateAll(positions, orders, round5)
  {
    var out := positions;
    var i := 0;
    while i < |out|
      invariant 0 <= i <= |out| == |positions|
      invariant out[i..] == positions[i..]
      invariant AnnotateAll(positions[..i], orders, round5) == Success(out[..i])
    {
      assert out[i] == positions[i];
      var annotated := ReconcilePosition(out[i], orders, round5);
      if annotated.Failure? {
        AnnotateAllFailsAt(positions, orders, round5, i);
        return Failure(annotated.error);
      }
      AnnotateAllStep(positions, orders, round5, i, out[..i], annotated.value);
      out := out[i := annotated.value];
      assert out[..i + 1] == out[..i] + [annotated.value];
      i := i + 1;
    }
    assert out[..i] == out;
    assert positions[..i] == positions;
    r := Success(out);
  }

  /** One iteration of the outer loop: read the position's anchor, then run the inner loop on its dict. */
  method ReconcilePosition(position: Json, orders: Json, round5: Json -> Json) returns (r: Result<Json, Fault>)
    ensures r == ReconcileOne(position, orders, round5)
  {
    var anchor := ReadAnchor(position);
    if anchor.Failure? {
      return Failure(anchor.error);
    }
    var items := Items(orders);
    if items.Failure? {
      return Failure(items.error);
    }
    var scanned := ScanOrders(position.fields, anchor.value, items.value, round5);
    if scanned.Failure? {
      return Failure(scanned.error);
    }
    ApplyOrdersFrame(position.fields, anchor.value, items.value, round5);
    r := Success(JObj(scanned.value));
  }

  /** The outer loop so far, extended by one position that reconciles. */
  lemma AnnotateAllStep(positions: seq<Json>, orders: Json, round5: Json -> Json, i: nat, done: seq<Json>, v: Json)
    requires i < |positions|
    requires AnnotateAll(positions[..i], orders, round5) == Success(done)
    requires ReconcileOne(positions[i], orders, round5) == Success(v)
    ensures AnnotateAll(positions[..i + 1], orders, round5) == Success(done + [v])
  {
    assert positions[..i + 1][..i] == positions[..i];
  }

  /** When order `j` is the first to raise, the inner loop raises its exception. */
  lemma {:induction false} ApplyOrdersFailsAt(fields: map<string, Json>, a: Anchor, orders: seq<Json>, round5: Json -> Json, j: nat)
    requires j < |orders| && Classify(orders[j], a).Failure?
    requires ApplyOrders(fields, a, orders[..j], round5).Success?
    ensures ApplyOrders(fields, a, orders, round5) == Failure(Classify(orders[j], a).error)
    decreases |orders|
  {
    if j < |orders| - 1 {
      var prefix := orders[..|orders| - 1];
      assert prefix[..j] == orders[..j];
      ApplyOrdersFailsAt(fields, a, prefix, round5, j);
    } else {
      assert orders[..|orders| - 1] == orders[..j];
    }
  }

  /** When position `i` is the first to raise, the outer loop raises its exception. */
  lemma {:induction false} AnnotateAllFailsAt(positions: seq<Json>, orders: Json, round5: Json -> Json, i: nat)
    requires i < |positions| && ReconcileOne(positions[i], orders, round5).Failure?
    requires AnnotateAll(positions[..i], orders, round5).Success?
    ensures AnnotateAll(positions, orders, round5) == Failure(ReconcileOne(positions[i], orders, round5).error)
    decreases |positions|
  {
    if i < |positions| - 1 {
      var prefix := positions[..|positions| - 1];
      assert prefix[..i] == positions[..i];
      AnnotateAllFailsAt(prefix, orders, round5, i);
    } else {
      assert positions[..|positions| - 1] == positions[..i];
    }
  }

  /** A BUY XAUUSD position P1, with a SELL LIMIT and a SELL STOP order on its leg. */
  const ExamplePosition := JObj(map["positionCode" := JStr("P1"), "symbol" := JStr("XAUUSD"), "side" := JStr("BUY")])
  const ExampleTakeProfit := JObj(map["type" := JStr("LIMIT"), "legCount" := JNum(1.0), "instrument" := JStr("XAUUSD"),
                                      "side" := JStr("SELL"), "orderCode" := JStr("T1"), "clientOrderId" := JStr("unique_t"),
                                      "legs" := JArr([JObj(map["positionCode" := JStr("P1"), "price" := JNum(2150.0)])])])
  const ExampleStopLoss := JObj(map["type" := JStr("STOP"), "legCount" := JNum(1.0), "instrument" := JStr("XAUUSD"),
                                    "side" := JStr("SELL"), "orderCode" := JStr("S1"), "clientOrderId" := JStr("unique_s"),
                                    "legs" := JArr([JObj(map["positionCode" := JStr("P1"), "price" := JNum(2100.0)])])])

  /** The example position gains the take-profit values of the LIMIT order and the stop-loss values of the STOP order. */
  lemma ProtectedPositionScenario(round5: Json -> Json)
    ensures PositionsSlTp(JArr([ExamplePosition]), JArr([ExampleTakeProfit, ExampleStopLoss]), round5)
              == Success(JArr([JObj(ExamplePosition.fields["tpPositionCode" := JStr("T1")]["tpOrderCode" := JStr("unique_t")]
                                                          ["tpPrice" := round5(JNum(2150.0))]["slPosition_code" := JStr("S1")]
                                                          ["slOrderCode" := JStr("unique_s")]["slPrice" := round5(JNum(2100.0))])]))
  {
    var a := Anchor(JStr("P1"), JStr("XAUUSD"), JStr("BUY"));
    var h1 := Hit(TakeProfit, JStr("T1"), JStr("unique_t"), JNum(2150.0));
    var h2 := Hit(StopLoss, JStr("S1"), JStr("unique_s"), JNum(2100.0));
    ExampleHits();
    TwoHits(ExamplePosition, ExampleTakeProfit, ExampleStopLoss, a, h1, h2, round5);
  }

  lemma ExampleHits()
    ensures var a := Anchor(JStr("P1"), JStr("XAUUSD"), JStr("BUY"));
            && ReadAnchor(ExamplePosition) == Success(a)
            && Classify(ExampleTakeProfit, a) == Success(Some(Hit(TakeProfit, JStr("T1"), JStr("unique_t"), JNum(2150.0))))
            && Classify(ExampleStopLoss, a) == Success(Some(Hit(StopLoss, JStr("S1"), JStr("unique_s"), JNum(2100.0))))
  {
    var a := Anchor(JStr("P1"), JStr("XAUUSD"), JStr("BUY"));
    assert ReadAnchor(ExamplePosition) == Success(a);
    ExampleClassified(ExampleTakeProfit, TakeProfit, "T1", "unique_t", 2150.0);
    ExampleClassified(ExampleStopLoss, StopLoss, "S1", "unique_s", 2100.0);
  }

  lemma ExampleClassified(order: Json, role: Role, code: string, client: string, price: real)
    requires order == JObj(map["type" := OrderType(role), "legCount" := JNum(1.0), "instrument" := JStr("XAUUSD"),
                               "side" := JStr("SELL"), "orderCode" := JStr(code), "clientOrderId" := JStr(client),
                               "legs" := JArr([JObj(map["positionCode" := JStr("P1"), "price" := JNum(price)])])])
    ensures Classify(order, Anchor(JStr("P1"), JStr("XAUUSD"), JStr("BUY"))) == Success(Some(Hit(role, JStr(code), JStr(client), JNum(price))))
  {
    var a := Anchor(JStr("P1"), JStr("XAUUSD"), JStr("BUY"));
    assert Protects(order, a, role) && HasHitValues(order);
    ClassifyMatches(order, a);
  }

  /** Reconciling one position against two orders that each protect it applies both, in list order. */
  lemma TwoHits(position: Json, o1: Json, o2: Json, a: Anchor, h1: Hit, h2: Hit, round5: Json -> Json)
    requires position.JObj? && ReadAnchor(position) == Success(a)
    requires Classify(o1, a) == Success(Some(h1)) && Classify(o2, a) == Success(Some(h2))
    ensures PositionsSlTp(JArr([position]), JArr([o1, o2]), round5)
              == Success(JArr([JObj(Annotate(Annotate(position.fields, h1, round5), h2, round5))]))
  {
    var g := Annotate(Annotate(position.fields, h1, round5), h2, round5);
    ScanTwo(position.fields, a, o1, o2, h1, h2, round5);
    assert Items(JArr([o1, o2])) == Success([o1, o2]);
    assert ReconcileOne(position, JArr([o1, o2]), round5) == Success(JObj(g));
    SinglePosition(position, JArr([o1, o2]), JObj(g), round5);
  }

  lemma ScanTwo(fields: map<string, Json>, a: Anchor, o1: Json, o2: Json, h1: Hit, h2: Hit, round5: Json -> Json)
    requires Classify(o1, a) == Success(Some(h1)) && Classify(o2, a) == Success(Some(h2))
    ensures ApplyOrders(fields, a, [o1, o2], round5) == Success(Annotate(Annotate(fields, h1, round5), h2, round5))
  {
    assert [o1, o2][..1] == [o1] && [o1][..0] == [];
    assert ApplyOrders(fields, a, [], round5) == Success(fields);
    assert ApplyOrders(fields, a, [o1], round5) == Success(Annotate(fields, h1, round5));
  }

  lemma SinglePosition(position: Json, orders: Json, annotated: Json, round5: Json -> Json)
    requires ReconcileOne(position, orders, round5) == Success(annotated)
    ensures PositionsSlTp(JArr([position]), orders, round5) == Success(JArr([annotated]))
  {
    var r := AnnotateAll([position], orders, round5);
    assert r.Success?;
    assert r.value == [annotated] by { assert r.value[0] == annotated; }
  }
}
