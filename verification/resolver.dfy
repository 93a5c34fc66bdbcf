/** `getProductBySku`: obtain a token, search product projections by SKU and
    normalise the first result. Every failure on the way becomes "no product". */
module Resolver {
  import opened Wrappers
  import Config
  import TokenCache
  import Product

  /** The product-projection search as issued: bearer token and SKU. */
  datatype SearchRequest = SearchRequest(bearer: string, sku: string)

  /** What the search produced. `Unparsable` stands for any error thrown while
      reading a body that does not have the declared shape. */
  datatype SearchResponse =
    | SearchUnreachable
    | SearchNotOk(statusText: string)
    | SearchUnparsable
    | SearchOk(results: Option<seq<Product.RawProduct>>)

  /** The resolver's answer and the token cache it leaves behind. */
  datatype Lookup = Lookup(product: Option<Product.ProductData>, cache: Option<TokenCache.Credential>)

  const DefaultLocale := "en-US"

  /** A successful search with at least one result. */
  predicate HasResult(response: SearchResponse) {
    response.SearchOk? && response.results.Some? && |response.results.value| > 0
  }

  /** `getProductBySku`. The search is consulted only once a token is in hand. */
  function GetProductBySku(
    settings: Config.Settings,
    cache: Option<TokenCache.Credential>,
    now: int,
    auth: TokenCache.AuthExchange,
    search: SearchRequest -> SearchResponse,
    sku: string,
    locale: string): (r: Lookup)
    ensures r.cache == TokenCache.GetAccessToken(settings, cache, now, auth).cache
    ensures Config.ValidateConfig(settings) != [] ==> r.product.None? && r.cache == cache
    ensures var token := TokenCache.GetAccessToken(settings, cache, now, auth).result;
            r.product.Some? <==> token.Success? && HasResult(search(SearchRequest(token.value, sku)))
    ensures var token := TokenCache.GetAccessToken(settings, cache, now, auth).result;
            r.product.Some? ==>
              r.product.value == Product.Normalize(search(SearchRequest(token.value, sku)).results.value[0], sku, locale)
    ensures r.product.Some? ==> r.product.value.sku == sku && r.product.value.name != ""
  {
    var step := TokenCache.GetAccessToken(settings, cache, now, auth);
    match step.result
    case Failure(_) => Lookup(None, step.cache)
    case Success(token) =>
      match search(SearchRequest(token, sku))
      case SearchUnreachable => Lookup(None, step.cache)
      case SearchNotOk(_) => Lookup(None, step.cache)
      case SearchUnparsable => Lookup(None, step.cache)
      case SearchOk(results) =>
        if results.None? || |results.value| == 0 then Lookup(None, step.cache)
        else Lookup(Some(Product.Normalize(results.value[0], sku, locale)), step.cache)
  }

  /** A search whose `results` is missing or empty is "not found", never an error. */
  lemma EmptySearchIsNotFound(settings: Config.Settings, cache: Option<TokenCache.Credential>, now: int,
                              auth: TokenCache.AuthExchange, sku: string, locale: string)
    ensures GetProductBySku(settings, cache, now, auth, _ => SearchOk(Some([])), sku, locale).product.None?
    ensures GetProductBySku(settings, cache, now, auth, _ => SearchOk(None), sku, locale).product.None?
  {
  }
}
