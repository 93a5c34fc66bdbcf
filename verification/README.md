# Commercetools product-data layer

A Dafny model of the product-data access layer of a Contentful marketing site that
shows live commerce data from commercetools. It covers:

- **Configuration check** (`validateConfig`): which of the five commercetools settings are unset or empty, in a fixed order.
- **Credential cache** (`getAccessToken`): serve the cached OAuth bearer token while it is fresh. Otherwise request a new one and cache it with a 60-second early expiry.
- **Product resolver** (`getProductBySku`): get a token, search product projections by SKU, and normalise the first result into `ProductData`. That means picking the variant, image, price entry, cent amount, currency, and localized name and description.
- **API handler** (`/api/commercetools/product`): map the HTTP method, the `sku` and `locale` query values and the resolver outcome to a status, headers and body.

Everything is a pure function. The clock, the token endpoint and the search endpoint are inputs:
- `now` is the clock reading for the cache check.
- `AuthExchange` is what the token request returned. It carries the clock reading used for the expiry, which the source takes after the response arrives.
- `search` is a function from the request (bearer token and SKU) to the search response.

Modules, one per component:

| file | module | models |
|---|---|---|
| wrappers.dfy | `Wrappers` | `undefined` and thrown errors (`Option`, `Result`) |
| js_logic.dfy | `JsLogic` | JavaScript `\|\|` on strings and numbers (`""` and `0` are falsy) |
| seqs.dfy | `Seqs` | `Array.prototype.find` |
| config.dfy | `Config` | the settings and `validateConfig` |
| token_cache.dfy | `TokenCache` | `getAccessToken` and the cached credential |
| product.dfy | `Product` | the raw payload, `ProductData`, and the normalisation steps |
| resolver.dfy | `Resolver` | `getProductBySku` |
| api_handler.dfy | `ApiHandler` | the API route handler |

The model follows JavaScript's `||`, not just "present or absent". An empty name, description, URL or currency code falls through to the next option. So does a discounted `centAmount` of 0, which falls through to the regular amount.

Edge cases of the code that the model keeps:
- A discounted `centAmount` of 0 falls through to the regular amount (src/lib/commercetools.ts:178).
- A chosen price entry with an empty currency code gives `USD`, as does having no entry at all (src/lib/commercetools.ts:179).
- A setting that is set to the empty string counts as missing (src/lib/commercetools.ts:77-81).
- The handler applies the `en-US` locale default only when `locale` is absent. `?locale=` with an empty value reaches the resolver as `""`, and the name and description then fall back through `en-US` and `en-GB` (src/pages/api/commercetools/product.ts:14).

## Model

| member | source | states |
|---|---|---|
| Config.ValidateConfig | src/lib/commercetools.ts:74-82 | A setting's name is reported iff that setting is undefined or empty. Only the five setting names are ever reported, at most five of them. |
| Config.ValidateConfigInOrder | src/lib/commercetools.ts:75-81 | The reported list equals the reference filter of the settings in the order AUTH_URL, API_URL, PROJECT_KEY, CLIENT_ID, CLIENT_SECRET, keeping only the unset ones. |
| TokenCache.ConfiguredValidates | src/lib/commercetools.ts:83-85 | With every setting present and non-empty, validation reports nothing, so it does not throw. |
| TokenCache.ExpiresAt | src/lib/commercetools.ts:121 | The cache expiry is 60 000 ms before the platform's own expiry. It lies after the grant instant iff `expires_in` exceeds 60 seconds. |
| TokenCache.GetAccessToken | src/lib/commercetools.ts:91-125 | The configuration is checked first and throws, listing the missing settings, iff any are missing, even with a cached token. With the configuration complete, no request is made iff the cache is fresh (`now < expiresAt`), and then the cached token itself is returned. A request succeeds iff the platform granted a token, and then the cache is replaced as a whole pair. A non-ok response gives `AuthError` with its status text, and a failed fetch gives `TransportError`. A failure leaves the cache unchanged. |
| TokenCache.SecondCallWithinWindowIsCached | src/lib/commercetools.ts:95-97 | From an empty cache, the first call requests a token. A second call before the computed expiry returns the same token without a request, whatever the token endpoint would have said. |
| TokenCache.ExpiredTokenIsRefreshed | src/lib/commercetools.ts:119-122 | Once `now >= expiresAt`, the next call requests a token. When the token is granted, the cache becomes the new token with `receivedAt + (expires_in - 60) * 1000`. |
| TokenCache.FiveMinuteTokenServedForFourMinutes | src/lib/commercetools.ts:121 | A 300-second grant is cached for exactly 240 000 ms. |
| TokenCache.ShortLivedTokenNeverServed | src/lib/commercetools.ts:95 | A token granted for 60 seconds or less is never served from the cache at or after its grant instant. |
| Product.SelectVariant | src/lib/commercetools.ts:164-168 | The master variant if its SKU matches. Otherwise the first alternate variant whose SKU matches. Otherwise the master. The chosen variant carries the SKU iff some variant does. |
| Product.AlternateVariantSelected | src/lib/commercetools.ts:165-167 | When the master's SKU differs and alternate variant `i` is the first carrying the SKU, exactly that variant is chosen. |
| Product.SelectImageUrl | src/lib/commercetools.ts:171 | The first image's URL, or `""` when images are absent or empty. |
| Product.SelectPrice | src/lib/commercetools.ts:174-176 | No entry iff prices are absent or empty. The chosen entry is one of the variant's prices. It is the first USD entry when one exists, else the first entry. |
| Product.FirstUsdEntrySelected | src/lib/commercetools.ts:175 | If entry `i` is the first USD entry, entry `i` is chosen. |
| Product.CentAmount | src/lib/commercetools.ts:178 | A present non-zero discounted amount wins. Otherwise the regular amount is used, and no entry gives 0. |
| Product.ZeroDiscountFallsThrough | src/lib/commercetools.ts:178 | A discounted amount of 0 yields the regular amount. |
| Product.Currency | src/lib/commercetools.ts:179 | Never empty. It is the chosen entry's regular currency code when that is non-empty, else `USD`. |
| Product.CurrencyIgnoresDiscount | src/lib/commercetools.ts:179 | Replacing the `discounted` block never changes the currency. |
| Product.ToMajorUnits | src/lib/commercetools.ts:195 | The price times 100 equals the cent amount. |
| Product.FirstFilled | src/lib/commercetools.ts:182-188 | The reference fallback chain: the text of the first key whose entry is present and non-empty, else the fallback. |
| Product.Localized | src/lib/commercetools.ts:182-188 | The `\|\|` chain equals the reference chain over requested locale, `en-US`, `en-GB`, then the fallback, looking at the map's own keys only (see Left out). It is non-empty whenever the fallback is. |
| Product.Normalize | src/lib/commercetools.ts:190-198 | `id` is the product's id and `sku` echoes the input. The name is never empty and follows the locale chain, over the maps' own keys (see Left out), with fallback `Product`. The description follows the chain with fallback `""`. The image, price (cents / 100) and currency come from the selected variant's selected price entry. |
| Product.UsdPreferredExample | src/lib/commercetools.ts:174-179 | Prices `[EUR 500, USD 999]` give 9.99 USD. |
| Product.DiscountOverrideExample | src/lib/commercetools.ts:178 | A regular 999 with a discounted 799 gives 7.99. |
| Product.LocaleFallbackExample | src/lib/commercetools.ts:182-183 | `de-DE` with only an `en-US` name `Widget` gives `Widget`. An empty name map gives `Product`. |
| Product.ChairExample | src/lib/commercetools.ts:163-198 | SKU-1, one image, USD 2500 and name Chair give `{prod_1, Chair, "", https://img/1.jpg, 25.00, USD, SKU-1}`. |
| Resolver.GetProductBySku | src/lib/commercetools.ts:134-203 | A product is returned iff a token was obtained and the search, made with that token and SKU, succeeded with at least one result. The product is the first result normalised. Every other path, including a configuration failure, gives no product. The cache is whatever the token step left. |
| Resolver.EmptySearchIsNotFound | src/lib/commercetools.ts:159-161 | A search whose `results` is missing or empty gives no product. |
| ApiHandler.Handle | src/pages/api/commercetools/product.ts:7-43 | Non-GET gives 405 with `Allow: GET` before any query check. Then a missing, empty or repeated `sku` gives 400 `SKU is required`, before a repeated `locale` gives 400 `Invalid locale parameter`. The resolver is called iff all checks pass, with the SKU and the locale, which defaults to `en-US` only when absent. Not found gives 404. Found gives 200 with the product and the `Cache-Control` header. A throw gives 500 `Failed to fetch product`. |
| ApiHandler.NoServerErrorBehindResolver | src/pages/api/commercetools/product.ts:26-42 | Behind the real resolver, which never throws, the handler never answers 500. With a missing setting it answers only 400, 404 or 405. |

## Left out

- The HTTP calls (`fetch`), URL and query construction, `encodeURIComponent`, and the Base64 encoding of the client credentials. The token response and the search response are abstract inputs.
- `Date.now()`: the two clock readings are parameters (`now`, and `receivedAt` in the granted exchange).
- Concurrency: the source has no guard around the shared cache. The model is sequential, and each call returns the cache that follows it.
- Floating point: prices are exact reals (cents / 100). JavaScript's binary rounding and the UI's currency formatting are not modelled.
- JSON numbers: `expires_in` and `centAmount` are taken as whole numbers (`int`). The source reads them as JavaScript numbers, and a fractional `expires_in` would still feed `(expires_in - 60) * 1000`.
- `console.error` logging, and the text of the thrown configuration message. The model carries the list of missing names, which the message joins with `, `.
- The token response's `token_type` and `scope`, the image dimensions, and the price's `type`, `fractionDigits` and `country`, which the code never reads.
- Payloads that violate the declared shape in a way the code trips over, for example a missing `masterVariant`, or a missing `variants` when the master variant's SKU does not match. In the source these throw inside the resolver's `try` and give `null`. The model folds them into one abstract `SearchUnparsable` response. A missing `variants` when the master variant's SKU matches is never read (src/lib/commercetools.ts:165-166). The source then returns a normal product, which is the model's `SearchOk` with `variants := []`.
- Product.Localized: looks up only the map's own keys. In the source, `name?.[locale]` is a property read on a parsed JSON object, so it also finds members inherited from `Object.prototype`. With `locale` set to the name of any such member, for example `constructor`, `toString`, `valueOf`, `hasOwnProperty` or `__proto__`, the source picks that inherited (truthy, non-string) value instead of falling back. The name or description is then not a string, so the promise that the name is never empty holds only for locales that do not name such a member. Modelling it would require `ProductData` fields that can hold arbitrary JavaScript values.
- Product.Normalize: inherits the `Product.Localized` limitation above. For a locale that names an `Object.prototype` member, the source's `name` and `description` are not the strings the contract describes.
- The default value of `getProductBySku`'s `locale` parameter (`en-US`): the only caller, the handler, always passes a locale. The same constant is the handler's default.
- The React components, the react-query hook, the generated GraphQL types and the i18n configuration: these are UI and client plumbing.
