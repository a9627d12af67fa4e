/** Symbol to product-id resolution: a first-match scan of the product
    catalog, which fails with its own error when the symbol is not listed. */
module Products {
  import opened Wire
  import opened Transport

  const ProductsPath: string := "/v2/products"

  /** The id of the first catalog entry whose symbol is exactly `symbol`. */
  function ProductLookup(products: seq<ProductEntry>, symbol: string): (r: Result<int>)
    ensures r.Failure? ==> r.error == ProductNotFound(symbol)
  {
    if |products| == 0 then Failure(ProductNotFound(symbol))
    else if products[0].symbol == symbol then Success(products[0].id)
    else ProductLookup(products[1..], symbol)
  }

  /** The scan loop of `getProductId`, returning at the first match. */
  method FindProductId(products: seq<ProductEntry>, symbol: string) returns (r: Result<int>)
    ensures r == ProductLookup(products, symbol)
  {
    for i := 0 to |products|
      invariant ProductLookup(products[i..], symbol) == ProductLookup(products, symbol)
    {
      if products[i].symbol == symbol {
        return Success(products[i].id);
      }
      assert products[i..][1..] == products[i + 1..];
    }
    return Failure(ProductNotFound(symbol));
  }

  /** When entry `k` is the first one listing `symbol`, its id is returned. */
  lemma {:induction false} LookupFindsFirstMatch(products: seq<ProductEntry>, symbol: string, k: nat)
    requires k < |products| && products[k].symbol == symbol
    requires forall j :: 0 <= j < k ==> products[j].symbol != symbol
    ensures ProductLookup(products, symbol) == Success(products[k].id)
  {
    if k > 0 {
      LookupFindsFirstMatch(products[1..], symbol, k - 1);
    }
  }

  /** Resolution fails exactly when no entry lists the symbol; it never
      falls back to a default id. */
  lemma {:induction false} LookupFailsIffAbsent(products: seq<ProductEntry>, symbol: string)
    ensures ProductLookup(products, symbol).Failure?
            <==> forall i :: 0 <= i < |products| ==> products[i].symbol != symbol
  {
    if |products| > 0 && products[0].symbol != symbol {
      LookupFailsIffAbsent(products[1..], symbol);
      assert forall i :: 1 <= i < |products| ==> products[i] == products[1..][i - 1];
    }
  }

  /** The outcome of `getProductId` for a given reply to `GET /v2/products`:
      a transport or status error, a decode error, or the catalog lookup.
      The reply's `success` flag is not consulted. */
  function ResolveReply(o: Outcome, symbol: string): Result<int> {
    match ReplyResult(o)
    case Failure(e) => Failure(e)
    case Success(payload) =>
      match payload.doc
      case ProductsDoc(_, products) => ProductLookup(products, symbol)
      case _ => Failure(UnmarshalFailed)
  }

  /** Resolution succeeds exactly for a 200 catalog reply that lists the
      symbol, whatever its `success` flag says; a transport or status error
      reaches the caller unchanged. */
  lemma ResolveSucceedsIffListed(o: Outcome, symbol: string)
    ensures ResolveReply(o, symbol).Success?
            <==> && o.Delivered? && o.status == 200 && o.payload.doc.ProductsDoc?
                 && exists i :: 0 <= i < |o.payload.doc.products| && o.payload.doc.products[i].symbol == symbol
    ensures ReplyResult(o).Failure? ==> ResolveReply(o, symbol) == Failure(ReplyResult(o).error)
  {
    if o.Delivered? && o.status == 200 && o.payload.doc.ProductsDoc? {
      LookupFailsIffAbsent(o.payload.doc.products, symbol);
    }
  }

  /** `ProductNotFound` is reported only for a delivered 200 catalog that
      really lacks the symbol, never for a transport, status or decode
      error. */
  lemma NotFoundMeansCatalogLacksSymbol(o: Outcome, symbol: string)
    requires ResolveReply(o, symbol).Failure? && ResolveReply(o, symbol).error.ProductNotFound?
    ensures o.Delivered? && o.status == 200 && o.payload.doc.ProductsDoc?
    ensures forall i :: 0 <= i < |o.payload.doc.products| ==> o.payload.doc.products[i].symbol != symbol
  {
    if o.Delivered? && o.status == 200 && o.payload.doc.ProductsDoc? {
      LookupFailsIffAbsent(o.payload.doc.products, symbol);
    }
  }
}
