/** The Delta Exchange adapter: a fixed set of credentials and primitives
    driving one transport. Every order-affecting operation first resolves
    the symbol with a catalog request and only then issues its one mutating
    request. */
module Trader {
  import opened Wire
  import opened Transport
  import opened Products
  import opened Account
  import opened Orders

  /** The script after `n` requests have each taken one outcome. */
  function Consumed(script: seq<Outcome>, n: nat): seq<Outcome> {
    if n == 0 then script else Consumed(Rest(script), n - 1)
  }

  function LookupRequest(creds: Credentials, prims: Primitives, lookupAt: int): HttpRequest {
    BuildRequest(creds, prims, "GET", ProductsPath, "", lookupAt)
  }

  /** The requests an order-affecting operation issues against `script`:
      the catalog request, then, only if resolution succeeded, the action's
      request for the resolved product. */
  function ActedRequests(creds: Credentials, prims: Primitives, symbol: string, a: Action,
                         lookupAt: int, actAt: int, script: seq<Outcome>): seq<HttpRequest> {
    [LookupRequest(creds, prims, lookupAt)] +
    match ResolveReply(Next(script), symbol)
    case Failure(_) => []
    case Success(id) => Issued(creds, prims, Route(a).0, Route(a).1, Some(ParamsFor(a, id)), actAt)
  }

  /** What the action's request yields: the resolution error, a
      serialisation error, or the status rule applied to the second reply. */
  function ActResult(prims: Primitives, symbol: string, a: Action, script: seq<Outcome>): Result<Payload> {
    match ResolveReply(Next(script), symbol)
    case Failure(e) => Failure(e)
    case Success(id) =>
      if prims.marshal(ParamsFor(a, id)).None? then Failure(MarshalFailed) else ReplyResult(Next(Rest(script)))
  }

  /** Decoding an order reply into the untyped map that is returned. */
  function DecodeObject(payload: Payload): (r: Result<map<string, Value>>)
    ensures r.Success? <==> payload.doc.ObjectDoc?
    ensures r.Success? ==> r.value == payload.doc.fields
    ensures r.Failure? ==> r.error == UnmarshalFailed
  {
    match payload.doc
    case ObjectDoc(fields) => Success(fields)
    case _ => Failure(UnmarshalFailed)
  }

  /** An order operation returns the decoded reply; an earlier error is
      passed through unchanged. */
  function OrderAck(reply: Result<Payload>): (r: Result<map<string, Value>>)
    ensures reply.Failure? ==> r == Failure(reply.error)
    ensures r.Success? <==> reply.Success? && reply.value.doc.ObjectDoc?
  {
    match reply
    case Failure(e) => Failure(e)
    case Success(payload) => DecodeObject(payload)
  }

  /** Operations that return only an error discard the reply body. */
  function Completion(reply: Result<Payload>): (r: Result<()>)
    ensures r.Success? <==> reply.Success?
    ensures reply.Failure? ==> r.error == reply.error
  {
    match reply
    case Failure(e) => Failure(e)
    case Success(_) => Success(())
  }

  /** If resolution fails, the operation issues the catalog request and
      nothing else: no mutating request reaches the exchange. */
  lemma UnresolvedActionNeverMutates(creds: Credentials, prims: Primitives, symbol: string, a: Action,
                                     lookupAt: int, actAt: int, script: seq<Outcome>)
    requires ResolveReply(Next(script), symbol).Failure?
    ensures ActedRequests(creds, prims, symbol, a, lookupAt, actAt, script) == [LookupRequest(creds, prims, lookupAt)]
    ensures forall req :: req in ActedRequests(creds, prims, symbol, a, lookupAt, actAt, script) ==> !Mutating(req)
    ensures ActResult(prims, symbol, a, script) == Failure(ResolveReply(Next(script), symbol).error)
  {
  }

  /** An unlisted symbol surfaces as `ProductNotFound`, not as a transport
      error, when the catalog itself was delivered. */
  lemma UnlistedSymbolIsProductNotFound(prims: Primitives, symbol: string, a: Action, script: seq<Outcome>,
                                        raw: string, success: bool, products: seq<ProductEntry>)
    requires Next(script) == Delivered(200, Payload(raw, ProductsDoc(success, products)))
    requires forall i :: 0 <= i < |products| ==> products[i].symbol != symbol
    ensures ActResult(prims, symbol, a, script) == Failure(ProductNotFound(symbol))
  {
    LookupFailsIffAbsent(products, symbol);
  }

  /** At most one request of an operation is mutating: the second, after a
      successful resolution; it is authentic, goes to the action's route and
      carries the serialised parameters for the resolved product. */
  lemma MutationFollowsResolution(creds: Credentials, prims: Primitives, symbol: string, a: Action,
                                  lookupAt: int, actAt: int, script: seq<Outcome>)
    ensures var sent := ActedRequests(creds, prims, symbol, a, lookupAt, actAt, script);
            var res := ResolveReply(Next(script), symbol);
            && 1 <= |sent| <= 2 && !Mutating(sent[0]) && Authentic(creds, prims, sent[0])
            && (|sent| == 2 ==>
                  && res.Success?
                  && Mutating(sent[1]) && Authentic(creds, prims, sent[1])
                  && sent[1].verb == Route(a).0
                  && sent[1].url == creds.baseUrl + Route(a).1
                  && prims.marshal(ParamsFor(a, res.value)) == Some(sent[1].body)
                  && Targets(ParamsFor(a, res.value), res.value))
  {
  }

  /** After a successful resolution the action's request is sent, provided
      its parameters serialise: the operation issues the catalog request and
      then exactly that request, and its result is the status rule applied
      to the second reply. */
  lemma ResolvedActionIsSent(creds: Credentials, prims: Primitives, symbol: string, a: Action,
                             lookupAt: int, actAt: int, script: seq<Outcome>)
    requires ResolveReply(Next(script), symbol).Success?
    requires prims.marshal(ParamsFor(a, ResolveReply(Next(script), symbol).value)).Some?
    ensures var id := ResolveReply(Next(script), symbol).value;
            var body := prims.marshal(ParamsFor(a, id)).value;
            && ActedRequests(creds, prims, symbol, a, lookupAt, actAt, script)
               == [LookupRequest(creds, prims, lookupAt), BuildRequest(creds, prims, Route(a).0, Route(a).1, body, actAt)]
            && ActResult(prims, symbol, a, script) == ReplyResult(Next(Rest(script)))
  {
  }

  class DeltaTrader {
    const creds: Credentials
    const prims: Primitives
    const client: Exchange

    /** `NewDeltaTrader`: the base URL is chosen by the testnet flag. */
    constructor (apiKey: string, apiSecret: string, testnet: bool, client: Exchange, prims: Primitives)
      ensures creds == Credentials(apiKey, apiSecret, BaseUrl(testnet))
      ensures this.client == client && this.prims == prims
    {
      creds := Credentials(apiKey, apiSecret, BaseUrl(testnet));
      this.client := client;
      this.prims := prims;
    }

    /** The operation issued exactly the requests `ActedRequests` lists,
        each taking one scripted outcome. */
    ghost predicate Performed(a: Action, symbol: string, lookupAt: int, actAt: int,
                              log0: seq<HttpRequest>, script0: seq<Outcome>)
      reads client
    {
      var sent := ActedRequests(creds, prims, symbol, a, lookupAt, actAt, script0);
      client.log == log0 + sent && client.script == Consumed(script0, |sent|)
    }

    ghost predicate NoMutationSince(log0: seq<HttpRequest>)
      reads client
    {
      |log0| <= |client.log| && forall i :: |log0| <= i < |client.log| ==> !Mutating(client.log[i])
    }

    /** `makeRequest`: serialise, sign, send, apply the status rule. */
    method MakeRequest(verb: string, endpoint: string, params: Option<Params>, now: int) returns (r: Result<Payload>)
      modifies client
      ensures var sent := Issued(creds, prims, verb, endpoint, params, now);
              && client.log == old(client.log) + sent
              && client.script == Consumed(old(client.script), |sent|)
              && r == RequestResult(sent, Next(old(client.script)))
    {
      var body := "";
      if params.Some? {
        var encoded := prims.marshal(params.value);
        if encoded.None? {
          return Failure(MarshalFailed);
        }
        body := encoded.value;
      }
      var req := BuildRequest(creds, prims, verb, endpoint, body, now);
      var o := client.Do(req);
      r := ReplyResult(o);
    }

    method GetBalance(now: int) returns (r: Result<BalanceSnapshot>)
      modifies client
      ensures client.log == old(client.log) + [BuildRequest(creds, prims, "GET", BalancesPath, "", now)]
      ensures client.script == Rest(old(client.script))
      ensures r == BalanceReply(Next(old(client.script)))
    {
      var payload :- MakeRequest("GET", BalancesPath, None, now);
      match payload.doc {
        case BalancesDoc(success, balances) =>
          if !success {
            return Failure(ApiReturnedError);
          }
          var snap := FindUsdtBalance(balances);
          return Success(snap);
        case _ =>
          return Failure(UnmarshalFailed);
      }
    }

    method GetPositions(now: int) returns (r: Result<seq<PositionRecord>>)
      modifies client
      ensures client.log == old(client.log) + [BuildRequest(creds, prims, "GET", PositionsPath, "", now)]
      ensures client.script == Rest(old(client.script))
      ensures r == PositionsReply(Next(old(client.script)))
    {
      var payload :- MakeRequest("GET", PositionsPath, None, now);
      match payload.doc {
        case PositionsDoc(success, entries) =>
          if !success {
            return Failure(ApiReturnedError);
          }
          var positions := CollectOpenPositions(entries);
          return Success(positions);
        case _ =>
          return Failure(UnmarshalFailed);
      }
    }

    /** `getProductId`: fetch the catalog and scan it. */
    method GetProductId(symbol: string, now: int) returns (r: Result<int>)
      modifies client
      ensures client.log == old(client.log) + [LookupRequest(creds, prims, now)]
      ensures client.script == Rest(old(client.script))
      ensures r == ResolveReply(Next(old(client.script)), symbol)
    {
      var payload :- MakeRequest("GET", ProductsPath, None, now);
      match payload.doc {
        case ProductsDoc(_, products) =>
          r := FindProductId(products, symbol);
        case _ =>
          return Failure(UnmarshalFailed);
      }
    }

    method OpenLong(symbol: string, quantity: real, leverage: int, lookupAt: int, orderAt: int)
      returns (r: Result<map<string, Value>>)
      modifies client
      ensures Performed(Action.OpenLong(quantity, leverage), symbol, lookupAt, orderAt, old(client.log), old(client.script))
      ensures r == OrderAck(ActResult(prims, symbol, Action.OpenLong(quantity, leverage), old(client.script)))
      ensures ResolveReply(Next(old(client.script)), symbol).Failure? ==> NoMutationSince(old(client.log))
    {
      var productId :- GetProductId(symbol, lookupAt);
      var params := OpenLongParams(productId, quantity, leverage);
      var payload :- MakeRequest("POST", OrdersPath, Some(params), orderAt);
      r := DecodeObject(payload);
    }

    method OpenShort(symbol: string, quantity: real, leverage: int, lookupAt: int, orderAt: int)
      returns (r: Result<map<string, Value>>)
      modifies client
      ensures Performed(Action.OpenShort(quantity, leverage), symbol, lookupAt, orderAt, old(client.log), old(client.script))
      ensures r == OrderAck(ActResult(prims, symbol, Action.OpenShort(quantity, leverage), old(client.script)))
      ensures ResolveReply(Next(old(client.script)), symbol).Failure? ==> NoMutationSince(old(client.log))
    {
      var productId :- GetProductId(symbol, lookupAt);
      var params := OpenShortParams(productId, quantity, leverage);
      var payload :- MakeRequest("POST", OrdersPath, Some(params), orderAt);
      r := DecodeObject(payload);
    }

    method CloseLong(symbol: string, quantity: real, lookupAt: int, orderAt: int)
      returns (r: Result<map<string, Value>>)
      modifies client
      ensures Performed(Action.CloseLong(quantity), symbol, lookupAt, orderAt, old(client.log), old(client.script))
      ensures r == OrderAck(ActResult(prims, symbol, Action.CloseLong(quantity), old(client.script)))
      ensures ResolveReply(Next(old(client.script)), symbol).Failure? ==> NoMutationSince(old(client.log))
    {
      var productId :- GetProductId(symbol, lookupAt);
      var params := CloseLongParams(productId, quantity);
      var payload :- MakeRequest("POST", OrdersPath, Some(params), orderAt);
      r := DecodeObject(payload);
    }

    method CloseShort(symbol: string, quantity: real, lookupAt: int, orderAt: int)
      returns (r: Result<map<string, Value>>)
      modifies client
      ensures Performed(Action.CloseShort(quantity), symbol, lookupAt, orderAt, old(client.log), old(client.script))
      ensures r == OrderAck(ActResult(prims, symbol, Action.CloseShort(quantity), old(client.script)))
      ensures ResolveReply(Next(old(client.script)), symbol).Failure? ==> NoMutationSince(old(client.log))
    {
      var productId :- GetProductId(symbol, lookupAt);
      var params := CloseShortParams(productId, quantity);
      var payload :- MakeRequest("POST", OrdersPath, Some(params), orderAt);
      r := DecodeObject(payload);
    }

    method SetLeverage(symbol: string, leverage: int, lookupAt: int, changeAt: int) returns (r: Result<()>)
      modifies client
      ensures Performed(Action.SetLeverage(leverage), symbol, lookupAt, changeAt, old(client.log), old(client.script))
      ensures r == Completion(ActResult(prims, symbol, Action.SetLeverage(leverage), old(client.script)))
      ensures ResolveReply(Next(old(client.script)), symbol).Failure? ==> NoMutationSince(old(client.log))
    {
      var productId :- GetProductId(symbol, lookupAt);
      var params := LeverageParams(productId, leverage);
      var _ :- MakeRequest("POST", ChangeMarginPath, Some(params), changeAt);
      r := Success(());
    }

    method SetStopLoss(symbol: string, positionSide: string, quantity: real, stopPrice: real, lookupAt: int, orderAt: int)
      returns (r: Result<()>)
      modifies client
      ensures Performed(Action.SetStopLoss(positionSide, quantity, stopPrice), symbol, lookupAt, orderAt,
                        old(client.log), old(client.script))
      ensures r == Completion(ActResult(prims, symbol, Action.SetStopLoss(positionSide, quantity, stopPrice), old(client.script)))
      ensures ResolveReply(Next(old(client.script)), symbol).Failure? ==> NoMutationSince(old(client.log))
    {
      var productId :- GetProductId(symbol, lookupAt);
      var params := StopLossParams(productId, positionSide, quantity, stopPrice);
      var _ :- MakeRequest("POST", OrdersPath, Some(params), orderAt);
      r := Success(());
    }

    method SetTakeProfit(symbol: string, positionSide: string, quantity: real, takeProfitPrice: real,
                         lookupAt: int, orderAt: int)
      returns (r: Result<()>)
      modifies client
      ensures Performed(Action.SetTakeProfit(positionSide, quantity, takeProfitPrice), symbol, lookupAt, orderAt,
                        old(client.log), old(client.script))
      ensures r == Completion(ActResult(prims, symbol, Action.SetTakeProfit(positionSide, quantity, takeProfitPrice),
                                        old(client.script)))
      ensures ResolveReply(Next(old(client.script)), symbol).Failure? ==> NoMutationSince(old(client.log))
    {
      var productId :- GetProductId(symbol, lookupAt);
      var params := TakeProfitParams(productId, positionSide, quantity, takeProfitPrice);
      var _ :- MakeRequest("POST", OrdersPath, Some(params), orderAt);
      r := Success(());
    }

    method CancelAllOrders(symbol: string, lookupAt: int, cancelAt: int) returns (r: Result<()>)
      modifies client
      ensures Performed(Action.CancelAllOrders, symbol, lookupAt, cancelAt, old(client.log), old(client.script))
      ensures r == Completion(ActResult(prims, symbol, Action.CancelAllOrders, old(client.script)))
      ensures ResolveReply(Next(old(client.script)), symbol).Failure? ==> NoMutationSince(old(client.log))
    {
      var productId :- GetProductId(symbol, lookupAt);
      var params := CancelAllParams(productId);
      var _ :- MakeRequest("DELETE", CancelAllPath, Some(params), cancelAt);
      r := Success(());
    }
  }
}
