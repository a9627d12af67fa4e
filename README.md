# Delta Exchange trading adapter — a Dafny model

This project models the Delta Exchange adapter of the DANTO trading system
(`trader/delta_trader.go`): the component that turns trading intents (read
the balance, list open positions, open or close a leveraged position, set
leverage, place stop-loss and take-profit orders, cancel all orders) into
signed REST requests, and normalises the exchange's replies.

The network is replaced by an abstract transport, the class
`Transport.Exchange`, which appends every request it receives to a request
log and answers it with the next outcome of a script. Replies arrive as
already-decoded views of their JSON body (`Wire.Doc`). The HMAC-SHA256 digest
with hex encoding and JSON serialisation of parameters are foreign primitives.
The adapter receives them as function values (`Transport.Primitives`), so the
model assumes nothing of them except that they are functions. The clock is a
parameter: each request's Unix timestamp is passed in (`now`, or `lookupAt`
and `orderAt` for the two requests of an order-affecting operation).

Files, leaf first:

- `text.dfy` (`Text`): ASCII upper-casing; decimal rendering of an integer and
  reading it back.
- `wire.dfy` (`Wire`): parameter values, reply entries and their decoded
  views, HTTP requests, the error conditions, `Result`.
- `signer.dfy` (`Signer`): the signed message and the signature.
- `transport.dfy` (`Transport`): base URL, request construction, the status
  rule, the scripted `Exchange`.
- `products.dfy` (`Products`): symbol to product-id resolution.
- `account.dfy` (`Account`): balance and position normalisation.
- `orders.dfy` (`Orders`): the parameter map of every order-affecting request
  and the side rule for protective orders.
- `trader.dfy` (`Trader`): the `DeltaTrader` class, one method per operation,
  with the resolve-then-act invariant.
- `scenarios.dfy` (`Scenarios`): scenarios proved against a scripted exchange.

Two behaviours of the code are easy to misread, and the model keeps both:

- Only status 200 is success. Any other status is an error, 2xx included.
- Product resolution ignores the catalog reply's `success` flag.

## Model

| member | source | states |
|---|---|---|
| Text.Upper | trader/delta_trader.go:175 | upper-casing keeps the length, leaves no lower-case ASCII letter, changes only `a`..`z`, each by -32 |
| Text.UpperIdempotent | trader/delta_trader.go:175 | upper-casing an already upper-cased side changes nothing |
| Text.UpperIgnoresCase | trader/delta_trader.go:175 | two sides that differ only in letter case normalise to the same string |
| Text.IntToDecimal | trader/delta_trader.go:44 | the timestamp text is a well-formed base-10 numeral, with a minus sign exactly for negatives |
| Text.ParseIntToDecimal | trader/delta_trader.go:74 | the timestamp header reads back as the exact clock value |
| Text.IntToDecimalInjective | trader/delta_trader.go:44 | distinct timestamps have distinct decimal texts |
| Signer.MessageLayout | trader/delta_trader.go:43-44 | the signed message is verb, path and body in order, followed by text that reads back as the timestamp |
| Signer.MessageDeterminesEachField | trader/delta_trader.go:43-47 | with three fields fixed, equal messages have equal fourth fields, so changing any one field changes what is signed |
| Signer.SigningMessage | trader/delta_trader.go:43-44 | defines the signed message; its layout is stated by Signer.MessageLayout and its injectivity in each field by Signer.MessageDeterminesEachField |
| Signer.Sign | trader/delta_trader.go:43-47 | defines the signature as the keyed digest of the signed message; Transport.BuiltRequestIsAuthentic states that the request carries it |
| Transport.BaseUrl | trader/delta_trader.go:27-31 | the base URL is the testnet URL exactly when the testnet flag is set, and the production URL otherwise |
| Transport.EnvironmentsNeverShareUrl | trader/delta_trader.go:27-31 | no testnet request URL equals a production request URL, whatever the endpoints |
| Transport.BuiltRequestIsAuthentic | trader/delta_trader.go:62-74 | every built request passes the exchange's check: URL under the base URL, the key header, a numeral timestamp header, and a signature over verb, path, body and that header |
| Transport.IssuedRequestsAreAuthentic | trader/delta_trader.go:51-74 | makeRequest issues at most one request, exactly one with an empty body when there are no parameters, and every one is authentic with the given verb and URL |
| Transport.BuildRequest | trader/delta_trader.go:62-74 | defines the signed request; Transport.BuiltRequestIsAuthentic states what the exchange can check of it |
| Transport.Issued | trader/delta_trader.go:51-74 | defines the requests makeRequest sends; Transport.SerialisedParamsAreSent, Transport.UnserialisableParamsAreNotSent, Transport.NilParamsSignEmptyBody and Transport.IssuedRequestsAreAuthentic characterise them |
| Transport.SerialisedParamsAreSent | trader/delta_trader.go:55-63 | parameters that serialise are sent as exactly one request whose body is their serialisation |
| Transport.UnserialisableParamsAreNotSent | trader/delta_trader.go:55-59 | parameters that do not serialise send nothing, and the result is a marshal error |
| Transport.NilParamsSignEmptyBody | trader/delta_trader.go:52-69 | with nil parameters exactly one request is sent, its body is empty, and its signature is the digest of verb, path and timestamp alone |
| Transport.RequestResult | trader/delta_trader.go:55-91 | defines makeRequest's result: a marshal failure, else the status rule; Trader.DeltaTrader.MakeRequest is proved to return it |
| Transport.ReplyResult | trader/delta_trader.go:76-91 | success exactly for status 200, returning the body; another status is an error with that status and the raw body; a transport failure is an error with its reason |
| Transport.Exchange.Do | trader/delta_trader.go:76 | the transport appends the request to its log and answers with the next scripted outcome |
| Products.ProductLookup | trader/delta_trader.go:203-209 | a lookup failure is always ProductNotFound for the symbol asked |
| Products.FindProductId | trader/delta_trader.go:203-209 | the early-return scan computes the catalog lookup |
| Products.LookupFindsFirstMatch | trader/delta_trader.go:203-207 | the id returned is that of the first entry whose symbol matches exactly |
| Products.LookupFailsIffAbsent | trader/delta_trader.go:203-209 | resolution fails exactly when no catalog entry has the symbol; it never defaults |
| Products.ResolveReply | trader/delta_trader.go:185-209 | defines getProductId's result for a reply; characterised by Products.ResolveSucceedsIffListed |
| Products.ResolveSucceedsIffListed | trader/delta_trader.go:185-209 | getProductId succeeds exactly for a 200 catalog reply that lists the symbol, whatever its success flag; a transport or status error reaches the caller unchanged (lines 186-189) |
| Products.NotFoundMeansCatalogLacksSymbol | trader/delta_trader.go:185-209 | ProductNotFound is reported only for a delivered 200 catalog that lacks the symbol, never for a transport, status or decode error |
| Account.FindUsdtBalance | trader/delta_trader.go:118-133 | the early-return search computes the snapshot of the first USDT entry, or the zero snapshot |
| Account.UsdtSnapshot | trader/delta_trader.go:118-133 | defines the first-USDT-or-zero rule; characterised by Account.UsdtSnapshotIsFirstUsdt and Account.NoUsdtIsZero, and computed by Account.FindUsdtBalance |
| Account.SnapshotOf | trader/delta_trader.go:121-125 | defines the snapshot of one entry; Account.UsdtSnapshotIsFirstUsdt states that the result is built from the first USDT entry |
| Account.UsdtSnapshotIsFirstUsdt | trader/delta_trader.go:119-126 | the snapshot comes from the first USDT entry: wallet and margin balance are its balance, available is its available balance |
| Account.NoUsdtIsZero | trader/delta_trader.go:129-133 | with no USDT entry the snapshot is all zeros |
| Account.BalanceReply | trader/delta_trader.go:95-133 | defines GetBalance's result for a reply; characterised by Account.BalanceFailsOnlyForBadReply, Account.UsdtSnapshotIsFirstUsdt and Account.NoUsdtIsZero |
| Account.BalanceFailsOnlyForBadReply | trader/delta_trader.go:95-133 | GetBalance fails exactly on a transport, status or decode error or success=false; success=false is ApiReturnedError; a transport or status error reaches the caller unchanged (lines 96-99); a missing USDT entry is not an error |
| Account.RecordOf | trader/delta_trader.go:168-177 | defines the record of one entry, field by field with the side upper-cased; Account.OpenPositions and Text.Upper state its side is upper-case |
| Account.IsOpen | trader/delta_trader.go:167 | defines an open position as one of non-zero size; Account.OpenPositionsAreOrderedSubsequence states that exactly these entries are listed |
| Account.OpenPositions | trader/delta_trader.go:165-181 | the listing is no longer than the reply, holds no zero-size record, and every side is upper-case |
| Account.CollectOpenPositions | trader/delta_trader.go:165-181 | the append loop computes the listing of open positions |
| Account.OpenPositionsAreOrderedSubsequence | trader/delta_trader.go:166-179 | output k is the record of input idx[k], the indices strictly increase, and every non-zero entry is listed |
| Account.PositionsReply | trader/delta_trader.go:137-181 | defines GetPositions's result for a reply; characterised by Account.PositionsFailOnlyForBadReply |
| Account.PositionsFailOnlyForBadReply | trader/delta_trader.go:137-181 | GetPositions fails exactly on a transport, status or decode error or success=false, passing a transport or status error through unchanged (lines 138-141), and otherwise lists the open positions |
| Orders.OpenLongParams | trader/delta_trader.go:219-225 | defines the open-long parameters; characterised by Orders.OpenOrdersCarryLeverage |
| Orders.OpenShortParams | trader/delta_trader.go:247-253 | defines the open-short parameters; characterised by Orders.OpenOrdersCarryLeverage |
| Orders.CloseLongParams | trader/delta_trader.go:275-281 | defines the close-long parameters; characterised by Orders.CloseOrdersReverseOpenOrders |
| Orders.CloseShortParams | trader/delta_trader.go:303-309 | defines the close-short parameters; characterised by Orders.CloseOrdersReverseOpenOrders |
| Orders.LeverageParams | trader/delta_trader.go:331-334 | defines the change-margin parameters; characterised by Orders.EveryActionTargetsItsProduct |
| Orders.StopLossParams | trader/delta_trader.go:378-385 | defines the stop-loss parameters; characterised by Orders.ProtectiveOrdersCloseThePosition |
| Orders.TakeProfitParams | trader/delta_trader.go:403-410 | defines the take-profit parameters; characterised by Orders.ProtectiveOrdersCloseThePosition |
| Orders.CancelAllParams | trader/delta_trader.go:423-425 | defines the cancel-all parameters; characterised by Orders.CancelAllIsScopedToProduct |
| Orders.Route | trader/delta_trader.go:227 | defines the verb and endpoint of each action's request (also lines 255, 283, 311, 336, 387, 412, 427); Orders.EveryActionTargetsItsProduct states each is mutating |
| Orders.ParamsFor | trader/delta_trader.go:213-225 | selects each action's parameter map (as for OpenLong, so for every operation); Orders.EveryActionTargetsItsProduct states each names the resolved product |
| Orders.ProtectiveSide | trader/delta_trader.go:373-376 | the protective side is buy exactly when the position side is SHORT (case-sensitive), and sell otherwise |
| Orders.EveryActionTargetsItsProduct | trader/delta_trader.go:219-225 | every order-affecting request is mutating and names the resolved product_id (also lines 247-253, 275-281, 303-309, 331-334, 378-385, 403-410, 423-425) |
| Orders.OpenOrdersCarryLeverage | trader/delta_trader.go:219-253 | OpenLong buys and OpenShort sells, as market orders with the size and the leverage and without reduce_only |
| Orders.CloseOrdersReverseOpenOrders | trader/delta_trader.go:275-309 | CloseLong sells and CloseShort buys, the opposite of the matching open; both are reduce-only market orders without leverage |
| Orders.ProtectiveOrdersCloseThePosition | trader/delta_trader.go:373-410 | stop-loss and take-profit trade on the closing side of the position and are reduce-only; stop-loss carries stop_price only, take-profit limit_price only |
| Orders.CancelAllIsScopedToProduct | trader/delta_trader.go:423-427 | the cancel-all parameters are the resolved product_id and nothing else |
| Orders.LeverageChangeCarriesLeverage | trader/delta_trader.go:331-334 | the change-margin parameters are exactly the resolved product_id and the requested leverage |
| Orders.ListedShortIsProtectedByBuying | trader/delta_trader.go:373-376 | a position listed with any spelling of "short" gets buy-side protective orders |
| Trader.ActedRequests | trader/delta_trader.go:213-227 | defines the requests of an order-affecting operation; characterised by Trader.ResolvedActionIsSent, Trader.UnresolvedActionNeverMutates and Trader.MutationFollowsResolution |
| Trader.ActResult | trader/delta_trader.go:213-230 | defines the outcome of the action's request; characterised by Trader.UnresolvedActionNeverMutates and Trader.UnlistedSymbolIsProductNotFound |
| Trader.LookupRequest | trader/delta_trader.go:186 | defines the catalog request; Trader.UnresolvedActionNeverMutates and Trader.ResolvedActionIsSent state it is always the first request |
| Trader.DecodeObject | trader/delta_trader.go:232-237 | decoding succeeds exactly for an object reply, returning its fields; anything else is an unmarshal error |
| Trader.OrderAck | trader/delta_trader.go:227-237 | an order operation passes an earlier error through unchanged and succeeds exactly when the reply was accepted and decodes as an object |
| Trader.Completion | trader/delta_trader.go:336-337 | an error-only operation succeeds exactly when its request did, and otherwise returns that request's error (also lines 387-388, 412-413, 427-428) |
| Trader.UnresolvedActionNeverMutates | trader/delta_trader.go:214-217 | if resolution fails, the operation issues only the catalog GET, no mutating request, and returns the resolution error |
| Trader.UnlistedSymbolIsProductNotFound | trader/delta_trader.go:203-209 | when the catalog was delivered but lacks the symbol, the operation fails with ProductNotFound, not a transport error |
| Trader.MutationFollowsResolution | trader/delta_trader.go:212-238 | an operation issues one or two requests; only the second can be mutating, only after resolution succeeded, and it is authentic, on the action's route, carrying the parameters for the resolved product |
| Trader.ResolvedActionIsSent | trader/delta_trader.go:214-230 | after a successful resolution with serialisable parameters, the catalog GET and then exactly the action's signed request are sent, and the result is the status rule on the second reply |
| Trader.DeltaTrader.constructor | trader/delta_trader.go:27-39 | the base URL is the testnet URL exactly when the testnet flag is set |
| Trader.DeltaTrader.MakeRequest | trader/delta_trader.go:51-92 | the log grows by exactly the issued requests; a marshal failure issues nothing; otherwise the result is the status rule applied to the reply |
| Trader.DeltaTrader.GetBalance | trader/delta_trader.go:95-134 | one GET to /v2/wallet/balances with an empty body; the result is the balance normalisation of the reply |
| Trader.DeltaTrader.GetPositions | trader/delta_trader.go:137-182 | one GET to /v2/positions with an empty body; the result is the position normalisation of the reply |
| Trader.DeltaTrader.GetProductId | trader/delta_trader.go:185-210 | one GET to /v2/products; the result is the resolution of the reply |
| Trader.DeltaTrader.OpenLong | trader/delta_trader.go:213-238 | resolve then POST /v2/orders with the open-long parameters; no mutating request if resolution fails; the reply decoded as a map |
| Trader.DeltaTrader.OpenShort | trader/delta_trader.go:241-266 | as OpenLong with the open-short parameters |
| Trader.DeltaTrader.CloseLong | trader/delta_trader.go:269-294 | resolve then POST /v2/orders with the close-long parameters; no mutating request if resolution fails |
| Trader.DeltaTrader.CloseShort | trader/delta_trader.go:297-322 | resolve then POST /v2/orders with the close-short parameters; no mutating request if resolution fails |
| Trader.DeltaTrader.SetLeverage | trader/delta_trader.go:325-338 | resolve then POST /v2/positions/change_margin; the reply body is discarded; no mutating request if resolution fails |
| Trader.DeltaTrader.SetStopLoss | trader/delta_trader.go:367-389 | resolve then POST the stop-loss order; no mutating request if resolution fails |
| Trader.DeltaTrader.SetTakeProfit | trader/delta_trader.go:392-414 | resolve then POST the take-profit order; no mutating request if resolution fails |
| Trader.DeltaTrader.CancelAllOrders | trader/delta_trader.go:417-429 | resolve then DELETE /v2/orders/all for that product only; no DELETE if resolution fails |
| Scenarios.CancelForUnknownSymbol | trader/delta_trader.go:417-421 | cancelling for a symbol missing from the catalog returns ProductNotFound and the exchange sees one GET and no DELETE |
| Scenarios.BalanceWithoutUsdt | trader/delta_trader.go:118-133 | a balance reply with only a BTC entry gives the zero snapshot, not an error |
| Scenarios.ClosedPositionIsDropped | trader/delta_trader.go:165-181 | of a zero-size BTCUSD and a size-5 ETHUSD entry only ETHUSD is listed, with side SHORT |
| Scenarios.StopLossForShort | trader/delta_trader.go:367-389 | a stop-loss for a SHORT position sends the catalog GET, then one POST to /v2/orders with buy-side stop-loss parameters |
| Scenarios.PositionsReadSigningMessage | trader/delta_trader.go:43-44 | a positions read at Unix time 1700000000 signs the message GET/v2/positions1700000000 |
| Scenarios.TimestampText | trader/delta_trader.go:44 | 1700000000 renders as the text 1700000000 |

## Left out

- HTTP itself: the `http.Client`, its 30-second timeout, connection reuse and
  `io.ReadAll`. A failed call and a failed body read both become one transport
  failure with a reason. An exhausted script also yields a transport failure.
- `http.NewRequest` failure (trader/delta_trader.go:63-66) is not modelled.
  The verbs and endpoints used are constants that it accepts.
- JSON: `json.Marshal` is the opaque `marshal` primitive, which may fail.
  Key order in the body is therefore not modelled. Replies arrive already
  decoded. Go's lenient decoding, where unknown fields are ignored and a
  reply of another shape decodes to zero values, is not modelled: a view of
  the wrong kind is `UnmarshalFailed`. String-to-float parse errors are
  folded into `Malformed`.
- HMAC-SHA256 and hex encoding are the opaque `mac` primitive. Only
  determinism is assumed.
- The clock (`time.Now`) is a parameter of each operation. Two-phase
  operations take one reading for each of their two requests.
- `GetMarketPrice` (trader/delta_trader.go:341-364) only passes one parsed field
  through.
- `FormatQuantity` (trader/delta_trader.go:432-435) is `%.8f` float formatting.
- Floating point: sizes, prices and balances are `real`. Go's NaN (kept by
  `size != 0`) and negative zero (dropped) have no counterpart here.
- Text.Upper: models `strings.ToUpper` on ASCII only; Unicode case mapping is
  not modelled.
- Timestamps are unbounded integers rather than `int64`. Unix seconds are far
  from the bounds.
- Error messages are structured error values, not formatted strings.
- `main.go` (configuration, goroutines, signals, the API server) and
  `test_delta.go` (messages only). There is no concurrency in the model.
