/** The request layer: the base URL, how one signed request is built, the
    status rule that turns a reply into a result, and an abstract exchange
    that records every request it receives and answers from a script. */
module Transport {
  import opened Text
  import opened Wire
  import Signer

  const ProductionUrl: string := "https://api.delta.exchange"
  const TestnetUrl: string := "https://testnet-api.delta.exchange"

  /** The base URL chosen at construction from the testnet flag. */
  function BaseUrl(testnet: bool): (url: string)
    ensures url == TestnetUrl <==> testnet
    ensures url == ProductionUrl <==> !testnet
  {
    if testnet then TestnetUrl else ProductionUrl
  }

  /** A request URL tells the two environments apart: no production URL
      equals a testnet URL, whatever the endpoints. */
  lemma EnvironmentsNeverShareUrl(testnetEndpoint: string, productionEndpoint: string)
    ensures BaseUrl(true) + testnetEndpoint != BaseUrl(false) + productionEndpoint
  {
    assert (BaseUrl(true) + testnetEndpoint)[8] == 't';
    assert (BaseUrl(false) + productionEndpoint)[8] == 'a';
  }

  /** The fixed part of an adapter instance. */
  datatype Credentials = Credentials(apiKey: string, apiSecret: string, baseUrl: string)

  /** The foreign primitives the adapter calls: HMAC-SHA256 with hex
      encoding, and JSON serialisation of a parameter map (which can fail). */
  datatype Primitives = Primitives(mac: Signer.Mac, marshal: Params -> Option<string>)

  const JsonContentType: string := "application/json"

  /** The request sent for `verb endpoint` with the given body at time `now`. */
  function BuildRequest(creds: Credentials, prims: Primitives, verb: string, endpoint: string, body: string, now: int): HttpRequest {
    HttpRequest(verb, creds.baseUrl + endpoint, body,
      Headers(JsonContentType, creds.apiKey,
        Signer.Sign(prims.mac, creds.apiSecret, verb, endpoint, body, now),
        IntToDecimal(now)))
  }

  /** What the exchange checks of a request before acting on it, using only
      the request itself and the shared secret: the URL is under the base
      URL, the key header is the instance's key, the timestamp header is a
      numeral, and the signature is the digest of verb, path, body and
      timestamp header in that order. */
  predicate Authentic(creds: Credentials, prims: Primitives, req: HttpRequest) {
    var base := creds.baseUrl;
    && |base| <= |req.url| && req.url[..|base|] == base
    && req.headers.apiKey == creds.apiKey
    && IsNumeral(req.headers.timestamp)
    && req.headers.signature
       == prims.mac(creds.apiSecret, req.verb + req.url[|base|..] + req.body + req.headers.timestamp)
  }

  /** Every request the adapter builds passes the exchange's check, and its
      timestamp header reads back as the clock value it was built with. */
  lemma BuiltRequestIsAuthentic(creds: Credentials, prims: Primitives, verb: string, endpoint: string, body: string, now: int)
    ensures var req := BuildRequest(creds, prims, verb, endpoint, body, now);
            Authentic(creds, prims, req) && ParseNumeral(req.headers.timestamp) == now
  {
    var req := BuildRequest(creds, prims, verb, endpoint, body, now);
    assert req.url[..|creds.baseUrl|] == creds.baseUrl;
    assert req.url[|creds.baseUrl|..] == endpoint;
    ParseIntToDecimal(now);
  }

  /** The status rule: a 200 reply yields its body; any other status is an
      error carrying the status and the raw body; a transport failure is an
      error carrying its reason. */
  function ReplyResult(o: Outcome): (r: Result<Payload>)
    ensures r.Success? <==> o.Delivered? && o.status == 200
    ensures r.Success? ==> r.value == o.payload
    ensures o.Delivered? && o.status != 200 ==> r == Failure(ApiStatus(o.status, o.payload.raw))
    ensures o.TransportFailure? ==> r == Failure(RequestFailed(o.reason))
  {
    match o
    case TransportFailure(reason) => Failure(RequestFailed(reason))
    case Delivered(status, payload) =>
      if status != 200 then Failure(ApiStatus(status, payload.raw)) else Success(payload)
  }

  /** The requests `makeRequest` puts on the wire: none when the parameters
      do not serialise, otherwise one, whose body is empty when there are no
      parameters and the serialised parameters when there are. */
  function Issued(creds: Credentials, prims: Primitives, verb: string, endpoint: string, params: Option<Params>, now: int): seq<HttpRequest> {
    match params
    case None => [BuildRequest(creds, prims, verb, endpoint, "", now)]
    case Some(p) =>
      match prims.marshal(p)
      case None => []
      case Some(body) => [BuildRequest(creds, prims, verb, endpoint, body, now)]
  }

  /** What `makeRequest` returns given what the transport does with the
      request it issued. */
  function RequestResult(issued: seq<HttpRequest>, o: Outcome): Result<Payload> {
    if issued == [] then Failure(MarshalFailed) else ReplyResult(o)
  }

  /** `makeRequest` issues at most one request, with an empty body when
      there are no parameters, and every request it issues is authentic and
      carries the given verb and URL. */
  lemma IssuedRequestsAreAuthentic(creds: Credentials, prims: Primitives, verb: string, endpoint: string, params: Option<Params>, now: int)
    ensures var sent := Issued(creds, prims, verb, endpoint, params, now);
            |sent| <= 1
            && (params.None? ==> |sent| == 1 && sent[0].body == "")
            && forall req :: req in sent ==> Authentic(creds, prims, req) && req.verb == verb
                                             && req.url == creds.baseUrl + endpoint
  {
  }

  /** Parameters that serialise are sent: exactly one request goes out, and
      its body is their serialisation. */
  lemma SerialisedParamsAreSent(creds: Credentials, prims: Primitives, verb: string, endpoint: string, p: Params, now: int)
    requires prims.marshal(p).Some?
    ensures Issued(creds, prims, verb, endpoint, Some(p), now)
            == [BuildRequest(creds, prims, verb, endpoint, prims.marshal(p).value, now)]
  {
  }

  /** Parameters that do not serialise are never sent. */
  lemma UnserialisableParamsAreNotSent(creds: Credentials, prims: Primitives, verb: string, endpoint: string, p: Params, now: int)
    requires prims.marshal(p).None?
    ensures Issued(creds, prims, verb, endpoint, Some(p), now) == []
    ensures RequestResult(Issued(creds, prims, verb, endpoint, Some(p), now), TransportFailure("")) == Failure(MarshalFailed)
  {
  }

  /** A request without parameters goes out with an empty body, and its
      signature covers the verb, the path and the timestamp alone. */
  lemma NilParamsSignEmptyBody(creds: Credentials, prims: Primitives, verb: string, endpoint: string, now: int)
    ensures var sent := Issued(creds, prims, verb, endpoint, None, now);
            |sent| == 1 && sent[0].body == ""
            && sent[0].headers.signature == prims.mac(creds.apiSecret, verb + endpoint + IntToDecimal(now))
  {
    assert verb + endpoint + "" == verb + endpoint;
  }

  /** The reply scripted for the next request; an exhausted script is a
      connection that yields no reply. */
  function Next(script: seq<Outcome>): Outcome {
    if |script| == 0 then TransportFailure("no response") else script[0]
  }

  function Rest(script: seq<Outcome>): seq<Outcome> {
    if |script| == 0 then [] else script[1..]
  }

  /** The abstract HTTP transport: it records each request in `log` and
      answers it with the next scripted outcome. */
  class Exchange {
    var log: seq<HttpRequest>
    var script: seq<Outcome>

    constructor (script: seq<Outcome>)
      ensures log == [] && this.script == script
    {
      log := [];
      this.script := script;
    }

    method Do(req: HttpRequest) returns (o: Outcome)
      modifies this
      ensures log == old(log) + [req]
      ensures o == Next(old(script)) && script == Rest(old(script))
    {
      log := log + [req];
      o := Next(script);
      script := Rest(script);
    }
  }
}
