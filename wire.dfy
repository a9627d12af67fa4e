/** The values that cross the wire between the adapter and the exchange:
    request parameters, HTTP requests, replies (as already-decoded views of
    the JSON body) and the adapter's errors. */
module Wire {

  datatype Option<+T> = None | Some(value: T)

  /** A JSON value as the adapter puts it into a request parameter map (the
      scalars) or reads it from an order reply (any value, nested arrays and
      objects and `null` included). */
  datatype Value =
    | Int(i: int)
    | Num(r: real)
    | Str(s: string)
    | Bool(b: bool)
    | Null
    | Arr(items: seq<Value>)
    | Obj(fields: map<string, Value>)

  /** The `map[string]interface{}` of request parameters. */
  type Params = map<string, Value>

  /** One entry of the `/v2/wallet/balances` reply. */
  datatype BalanceEntry = BalanceEntry(asset: string, balance: real, availableBalance: real)

  /** One entry of the `/v2/positions` reply. */
  datatype PositionEntry = PositionEntry(
    symbol: string,
    size: real,
    entryPrice: real,
    markPrice: real,
    unrealizedPnl: real,
    unrealizedPnlPercent: real,
    side: string,
    leverage: int)

  /** One entry of the `/v2/products` catalog. */
  datatype ProductEntry = ProductEntry(id: int, symbol: string)

  /** The decoded view of a reply body: one variant per reply shape the
      adapter decodes into, and `Malformed` for a body that does not decode. */
  datatype Doc =
    | BalancesDoc(success: bool, balances: seq<BalanceEntry>)
    | PositionsDoc(success: bool, positions: seq<PositionEntry>)
    | ProductsDoc(success: bool, products: seq<ProductEntry>)
    | ObjectDoc(fields: map<string, Value>)
    | Malformed

  /** A reply body: its raw text (quoted verbatim in status errors) and its
      decoded view. */
  datatype Payload = Payload(raw: string, doc: Doc)

  /** What the transport yields for one request: a status line with a body,
      or a failure before any complete reply was read. */
  datatype Outcome =
    | Delivered(status: int, payload: Payload)
    | TransportFailure(reason: string)

  datatype Headers = Headers(contentType: string, apiKey: string, signature: string, timestamp: string)

  datatype HttpRequest = HttpRequest(verb: string, url: string, body: string, headers: Headers)

  /** The adapter's error conditions, one per distinct way an operation fails. */
  datatype Error =
    | MarshalFailed
    | RequestFailed(reason: string)
    | ApiStatus(status: int, body: string)
    | UnmarshalFailed
    | ApiReturnedError
    | ProductNotFound(symbol: string)

  datatype Result<+T> = Success(value: T) | Failure(error: Error) {
    predicate IsFailure() {
      Failure?
    }

    function PropagateFailure<U>(): Result<U>
      requires Failure?
    {
      Failure(error)
    }

    function Extract(): T
      requires Success?
    {
      value
    }
  }

  /** A request that may change exchange-side state. */
  predicate Mutating(req: HttpRequest) {
    req.verb != "GET"
  }
}
