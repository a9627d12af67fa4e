/** Scenarios proved against a scripted exchange: each builds a fresh
    exchange and adapter, performs one operation and states what the
    exchange saw and what the caller got back. */
module Scenarios {
  import opened Wire
  import opened Transport
  import opened Account
  import opened Orders
  import opened Trader
  import Signer
  import Text

  const Catalog: Outcome :=
    Delivered(200, Payload("{\"success\":true}", ProductsDoc(true, [ProductEntry(27, "BTCUSD"), ProductEntry(139, "ETHUSD")])))

  /** Cancelling orders for a symbol missing from the catalog fails with
      `ProductNotFound` after the catalog request alone: nothing is deleted. */
  method CancelForUnknownSymbol(prims: Primitives) returns (r: Result<()>, log: seq<HttpRequest>)
    ensures r == Failure(ProductNotFound("ZZZUSD"))
    ensures |log| == 1 && log[0].verb == "GET"
    ensures forall req :: req in log ==> req.verb != "DELETE"
  {
    var exchange := new Exchange([Catalog]);
    var trader := new DeltaTrader("key", "secret", true, exchange, prims);
    r := trader.CancelAllOrders("ZZZUSD", 1700000000, 1700000001);
    log := exchange.log;
  }

  /** A balance reply with only a BTC entry yields the zero snapshot. */
  method BalanceWithoutUsdt(prims: Primitives) returns (r: Result<BalanceSnapshot>)
    ensures r == Success(BalanceSnapshot(0.0, 0.0, 0.0))
  {
    var reply := Delivered(200, Payload("{\"success\":true}", BalancesDoc(true, [BalanceEntry("BTC", 1.5, 1.25)])));
    var exchange := new Exchange([reply]);
    var trader := new DeltaTrader("key", "secret", false, exchange, prims);
    r := trader.GetBalance(1700000000);
  }

  /** Of a zero-size BTCUSD entry and a size-5 ETHUSD entry only the
      ETHUSD one is listed, with its side upper-cased. */
  method ClosedPositionIsDropped(prims: Primitives) returns (r: Result<seq<PositionRecord>>)
    ensures r.Success? && |r.value| == 1
    ensures r.value[0].symbol == "ETHUSD" && r.value[0].positionAmt == 5.0 && r.value[0].positionSide == "SHORT"
  {
    var entries := [PositionEntry("BTCUSD", 0.0, 0.0, 0.0, 0.0, 0.0, "long", 10),
                    PositionEntry("ETHUSD", 5.0, 2000.0, 2010.0, -50.0, -0.5, "short", 5)];
    var reply := Delivered(200, Payload("{\"success\":true}", PositionsDoc(true, entries)));
    var exchange := new Exchange([reply]);
    var trader := new DeltaTrader("key", "secret", false, exchange, prims);
    r := trader.GetPositions(1700000000);
    assert entries[..1] == [entries[0]];
  }

  /** A stop-loss for a SHORT position on a listed symbol sends, after the
      catalog request, one buy-side reduce-only order for that product. */
  method StopLossForShort(prims: Primitives) returns (r: Result<()>, log: seq<HttpRequest>)
    requires prims.marshal(StopLossParams(139, "SHORT", 0.5, 2100.0)).Some?
    ensures r == Success(())
    ensures |log| == 2 && log[0].verb == "GET" && log[1].verb == "POST"
    ensures log[1].url == "https://api.delta.exchange/v2/orders"
    ensures Some(log[1].body) == prims.marshal(StopLossParams(139, "SHORT", 0.5, 2100.0))
    ensures IsBuy(StopLossParams(139, "SHORT", 0.5, 2100.0))
  {
    var accepted := Delivered(200, Payload("{\"success\":true}", ObjectDoc(map[])));
    var exchange := new Exchange([Catalog, accepted]);
    var trader := new DeltaTrader("key", "secret", false, exchange, prims);
    r := trader.SetStopLoss("ETHUSD", "SHORT", 0.5, 2100.0, 1700000000, 1700000001);
    log := exchange.log;
  }

  /** The signed message of a positions read at Unix time 1700000000: the
      verb, the path, the empty body and the timestamp in decimal. */
  lemma PositionsReadSigningMessage()
    ensures Signer.SigningMessage("GET", PositionsPath, "", 1700000000) == "GET/v2/positions1700000000"
  {
    TimestampText();
    assert "GET" + PositionsPath + "" + "1700000000" == "GET/v2/positions1700000000";
  }

  /** The decimal text of 1700000000, one digit at a time as the rendering
      recurses. */
  lemma TimestampText()
    ensures Text.IntToDecimal(1700000000) == "1700000000"
  {
    assert Text.NatToDecimal(1) == "1";
    assert Text.NatToDecimal(17) == "17";
    assert Text.NatToDecimal(170) == "170";
    assert Text.NatToDecimal(1700) == "1700";
    assert Text.NatToDecimal(17000) == "17000";
    assert Text.NatToDecimal(170000) == "170000";
    assert Text.NatToDecimal(1700000) == "1700000";
    assert Text.NatToDecimal(17000000) == "17000000";
    assert Text.NatToDecimal(170000000) == "170000000";
  }
}
