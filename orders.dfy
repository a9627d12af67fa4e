/** The parameter maps of the order-affecting requests, and the rule that
    picks the side of a protective (stop-loss or take-profit) order. */
module Orders {
  import opened Text
  import opened Wire

  const OrdersPath: string := "/v2/orders"
  const ChangeMarginPath: string := "/v2/positions/change_margin"
  const CancelAllPath: string := "/v2/orders/all"

  // ---------------------------------------------------------------------
  // Reading a parameter map

  predicate Has(p: Params, key: string, v: Value) {
    key in p && p[key] == v
  }

  predicate IsBuy(p: Params) {
    Has(p, "side", Str("buy"))
  }

  predicate IsSell(p: Params) {
    Has(p, "side", Str("sell"))
  }

  /** The exchange may only shrink the position this order acts on. */
  predicate IsReduceOnly(p: Params) {
    Has(p, "reduce_only", Bool(true))
  }

  predicate IsMarketOrder(p: Params) {
    Has(p, "order_type", Str("market_order"))
  }

  predicate Targets(p: Params, productId: int) {
    Has(p, "product_id", Int(productId))
  }

  // ---------------------------------------------------------------------
  // The parameter maps, one per operation

  function OpenLongParams(productId: int, quantity: real, leverage: int): Params {
    map["product_id" := Int(productId), "size" := Num(quantity), "side" := Str("buy"),
        "order_type" := Str("market_order"), "leverage" := Int(leverage)]
  }

  function OpenShortParams(productId: int, quantity: real, leverage: int): Params {
    map["product_id" := Int(productId), "size" := Num(quantity), "side" := Str("sell"),
        "order_type" := Str("market_order"), "leverage" := Int(leverage)]
  }

  function CloseLongParams(productId: int, quantity: real): Params {
    map["product_id" := Int(productId), "size" := Num(quantity), "side" := Str("sell"),
        "order_type" := Str("market_order"), "reduce_only" := Bool(true)]
  }

  function CloseShortParams(productId: int, quantity: real): Params {
    map["product_id" := Int(productId), "size" := Num(quantity), "side" := Str("buy"),
        "order_type" := Str("market_order"), "reduce_only" := Bool(true)]
  }

  function LeverageParams(productId: int, leverage: int): Params {
    map["product_id" := Int(productId), "leverage" := Int(leverage)]
  }

  /** The side of an order that protects a position: it must trade against
      the position, so it buys exactly when the position is `SHORT`
      (compared case-sensitively) and sells otherwise. */
  function ProtectiveSide(positionSide: string): (side: string)
    ensures side == "buy" <==> positionSide == "SHORT"
    ensures side == "sell" <==> positionSide != "SHORT"
  {
    if positionSide == "SHORT" then "buy" else "sell"
  }

  function StopLossParams(productId: int, positionSide: string, quantity: real, stopPrice: real): Params {
    map["product_id" := Int(productId), "size" := Num(quantity), "side" := Str(ProtectiveSide(positionSide)),
        "order_type" := Str("stop_loss_order"), "stop_price" := Num(stopPrice), "reduce_only" := Bool(true)]
  }

  function TakeProfitParams(productId: int, positionSide: string, quantity: real, takeProfitPrice: real): Params {
    map["product_id" := Int(productId), "size" := Num(quantity), "side" := Str(ProtectiveSide(positionSide)),
        "order_type" := Str("take_profit_order"), "limit_price" := Num(takeProfitPrice), "reduce_only" := Bool(true)]
  }

  function CancelAllParams(productId: int): Params {
    map["product_id" := Int(productId)]
  }

  // ---------------------------------------------------------------------
  // Every order-affecting operation as one value

  /** The intent behind each order-affecting operation, without the product
      id that resolution supplies. */
  datatype Action =
    | OpenLong(quantity: real, leverage: int)
    | OpenShort(quantity: real, leverage: int)
    | CloseLong(quantity: real)
    | CloseShort(quantity: real)
    | SetLeverage(leverage: int)
    | SetStopLoss(positionSide: string, quantity: real, stopPrice: real)
    | SetTakeProfit(positionSide: string, quantity: real, takeProfitPrice: real)
    | CancelAllOrders

  /** The verb and endpoint of the one mutating request of each action. */
  function Route(a: Action): (string, string) {
    match a
    case SetLeverage(_) => ("POST", ChangeMarginPath)
    case CancelAllOrders => ("DELETE", CancelAllPath)
    case _ => ("POST", OrdersPath)
  }

  function ParamsFor(a: Action, productId: int): Params {
    match a
    case OpenLong(q, lev) => OpenLongParams(productId, q, lev)
    case OpenShort(q, lev) => OpenShortParams(productId, q, lev)
    case CloseLong(q) => CloseLongParams(productId, q)
    case CloseShort(q) => CloseShortParams(productId, q)
    case SetLeverage(lev) => LeverageParams(productId, lev)
    case SetStopLoss(side, q, px) => StopLossParams(productId, side, q, px)
    case SetTakeProfit(side, q, px) => TakeProfitParams(productId, side, q, px)
    case CancelAllOrders => CancelAllParams(productId)
  }

  // ---------------------------------------------------------------------
  // Properties of the parameter maps

  /** Every action's request is a mutating one, and it is scoped to the
      resolved product. */
  lemma EveryActionTargetsItsProduct(a: Action, productId: int)
    ensures Route(a).0 != "GET"
    ensures Targets(ParamsFor(a, productId), productId)
  {
  }

  /** Opening orders are market orders that carry the leverage and never
      the reduce-only flag; a long buys and a short sells. */
  lemma OpenOrdersCarryLeverage(productId: int, quantity: real, leverage: int)
    ensures var l := OpenLongParams(productId, quantity, leverage);
            IsMarketOrder(l) && IsBuy(l) && Has(l, "leverage", Int(leverage)) && "reduce_only" !in l
            && Has(l, "size", Num(quantity))
    ensures var s := OpenShortParams(productId, quantity, leverage);
            IsMarketOrder(s) && IsSell(s) && Has(s, "leverage", Int(leverage)) && "reduce_only" !in s
            && Has(s, "size", Num(quantity))
  {
  }

  /** Closing orders are reduce-only market orders that trade against the
      opening order of the same direction. */
  lemma CloseOrdersReverseOpenOrders(productId: int, quantity: real, leverage: int)
    ensures var c := CloseLongParams(productId, quantity);
            IsMarketOrder(c) && IsReduceOnly(c) && IsSell(c) && IsBuy(OpenLongParams(productId, quantity, leverage))
            && "leverage" !in c
    ensures var c := CloseShortParams(productId, quantity);
            IsMarketOrder(c) && IsReduceOnly(c) && IsBuy(c) && IsSell(OpenShortParams(productId, quantity, leverage))
            && "leverage" !in c
  {
  }

  /** A stop-loss or take-profit order trades on the same side as the order
      that closes the position: buying for `SHORT`, selling for anything
      else. Both are reduce-only; the stop-loss carries a stop price and the
      take-profit a limit price. */
  lemma ProtectiveOrdersCloseThePosition(productId: int, positionSide: string, quantity: real, price: real)
    ensures var sl := StopLossParams(productId, positionSide, quantity, price);
            var tp := TakeProfitParams(productId, positionSide, quantity, price);
            var closing := if positionSide == "SHORT" then CloseShortParams(productId, quantity)
                           else CloseLongParams(productId, quantity);
            && sl["side"] == closing["side"] && tp["side"] == closing["side"]
            && IsReduceOnly(sl) && IsReduceOnly(tp)
            && Has(sl, "stop_price", Num(price)) && "limit_price" !in sl
            && Has(tp, "limit_price", Num(price)) && "stop_price" !in tp
  {
  }

  /** A change-margin request names the resolved product and carries the
      requested leverage, and nothing else. */
  lemma LeverageChangeCarriesLeverage(productId: int, leverage: int)
    ensures var p := LeverageParams(productId, leverage);
            p.Keys == {"product_id", "leverage"} && Targets(p, productId) && Has(p, "leverage", Int(leverage))
  {
  }

  /** A cancel-all request names the resolved product and nothing else. */
  lemma CancelAllIsScopedToProduct(productId: int)
    ensures var p := CancelAllParams(productId);
            p.Keys == {"product_id"} && Targets(p, productId)
  {
  }

  /** The side rule applied to a listed position: any spelling of `short`
      upper-cases to `SHORT`, so its protective orders buy. */
  lemma ListedShortIsProtectedByBuying(rawSide: string)
    requires |rawSide| == 5
    requires forall i :: 0 <= i < 5 ==> UpperChar(rawSide[i]) == "SHORT"[i]
    ensures ProtectiveSide(Upper(rawSide)) == "buy"
  {
  }
}
