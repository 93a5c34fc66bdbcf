/** The `/api/commercetools/product` handler as a decision over the request and
    the resolver's outcome. */
module ApiHandler {
  import opened Wrappers
  import Config
  import TokenCache
  import Product
  import Resolver

  /** A query parameter as the framework parses it: absent, one value, or repeated. */
  datatype QueryValue = Absent | Single(text: string) | Repeated(texts: seq<string>)

  datatype Request = Request(httpMethod: Option<string>, sku: QueryValue, locale: QueryValue)

  /** What the awaited resolver call produced. */
  datatype ResolverOutcome = Found(product: Product.ProductData) | NotFound | Threw

  /** The arguments the resolver is called with. */
  datatype ResolverCall = ResolverCall(sku: string, locale: string)

  datatype Body = ErrorBody(error: string) | ProductBody(product: Product.ProductData)

  datatype Response = Response(status: int, headers: map<string, string>, body: Body)

  /** The response together with the resolver call made, if any. */
  datatype Exchange = Exchange(response: Response, call: Option<ResolverCall>)

  const CacheControl := "public, s-maxage=300, stale-while-revalidate=600"

  /** `!sku || typeof sku !== 'string'` fails: a single, non-empty value. */
  predicate ValidSku(sku: QueryValue) {
    sku.Single? && sku.text != ""
  }

  /** `locale = 'en-US'` applies only when the parameter is absent. */
  function LocaleOrDefault(locale: QueryValue): string
    requires !locale.Repeated?
  {
    if locale.Single? then locale.text else Resolver.DefaultLocale
  }

  /** The text JavaScript interpolates for the request method. */
  function MethodText(httpMethod: Option<string>): string {
    httpMethod.GetOr("undefined")
  }

  /** The handler: 405 for anything but GET, 400 for a bad `sku` or `locale`, otherwise
      the resolver outcome as 404, 200 (cacheable) or 500. */
  function Handle(req: Request, resolve: ResolverCall -> ResolverOutcome): (x: Exchange)
    // the method is checked before anything else
    ensures req.httpMethod != Some("GET") ==>
      x.response == Response(405, map["Allow" := "GET"], ErrorBody("Method " + MethodText(req.httpMethod) + " Not Allowed"))
    ensures req.httpMethod == Some("GET") && !ValidSku(req.sku) ==>
      x.response == Response(400, map[], ErrorBody("SKU is required"))
    ensures req.httpMethod == Some("GET") && ValidSku(req.sku) && req.locale.Repeated? ==>
      x.response == Response(400, map[], ErrorBody("Invalid locale parameter"))
    // the resolver is called only once method, SKU and locale have passed
    ensures x.call.Some? <==> req.httpMethod == Some("GET") && ValidSku(req.sku) && !req.locale.Repeated?
    ensures x.call.Some? ==> x.call.value.sku == req.sku.text && x.call.value.sku != ""
    ensures x.call.Some? && req.locale.Absent? ==> x.call.value.locale == "en-US"
    ensures x.call.Some? && req.locale.Single? ==> x.call.value.locale == req.locale.text
    // outcome mapping
    ensures x.call.Some? && resolve(x.call.value).NotFound? ==>
      x.response == Response(404, map[], ErrorBody("Product not found"))
    ensures x.call.Some? && resolve(x.call.value).Found? ==>
      x.response == Response(200, map["Cache-Control" := CacheControl], ProductBody(resolve(x.call.value).product))
    ensures x.call.Some? && resolve(x.call.value).Threw? ==>
      x.response == Response(500, map[], ErrorBody("Failed to fetch product"))
    ensures x.response.status in {200, 400, 404, 405, 500}
    ensures x.response.status == 200 <==> x.response.body.ProductBody?
  {
    if req.httpMethod != Some("GET") then
      Exchange(Response(405, map["Allow" := "GET"], ErrorBody("Method " + MethodText(req.httpMethod) + " Not Allowed")), None)
    else if !ValidSku(req.sku) then
      Exchange(Response(400, map[], ErrorBody("SKU is required")), None)
    else if req.locale.Repeated? then
      Exchange(Response(400, map[], ErrorBody("Invalid locale parameter")), None)
    else
      var call := ResolverCall(req.sku.text, LocaleOrDefault(req.locale));
      var response :=
        match resolve(call)
        case NotFound => Response(404, map[], ErrorBody("Product not found"))
        case Found(product) => Response(200, map["Cache-Control" := CacheControl], ProductBody(product))
        case Threw => Response(500, map[], ErrorBody("Failed to fetch product"));
      Exchange(response, Some(call))
  }

  /** The handler wired to the real resolver, which reports absence as `null` and never throws. */
  function ViaResolver(settings: Config.Settings, cache: Option<TokenCache.Credential>, now: int,
                       auth: TokenCache.AuthExchange, search: Resolver.SearchRequest -> Resolver.SearchResponse)
    : ResolverCall -> ResolverOutcome
  {
    (c: ResolverCall) =>
      match Resolver.GetProductBySku(settings, cache, now, auth, search, c.sku, c.locale).product
      case Some(p) => Found(p)
      case None => NotFound
  }

  /** Behind the real resolver the handler never answers 500: configuration,
      authentication and search failures all reach the client as 404. */
  lemma NoServerErrorBehindResolver(req: Request, settings: Config.Settings, cache: Option<TokenCache.Credential>,
                                    now: int, auth: TokenCache.AuthExchange,
                                    search: Resolver.SearchRequest -> Resolver.SearchResponse)
    ensures Handle(req, ViaResolver(settings, cache, now, auth, search)).response.status != 500
    ensures Config.ValidateConfig(settings) != [] ==>
      Handle(req, ViaResolver(settings, cache, now, auth, search)).response.status in {400, 404, 405}
  {
  }
}
