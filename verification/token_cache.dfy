/** `getAccessToken`: the process-wide bearer-credential cache as a pure state
    transition. The clock and the OAuth client-credentials exchange are inputs. */
module TokenCache {
  import opened Wrappers
  import Config

  /** The cached pair, always replaced as a whole. */
  datatype Credential = Credential(token: string, expiresAt: int)

  /** What the client-credentials request produced. `receivedAt` is the clock
      reading taken after the response arrived, which is the one the expiry is
      computed from. */
  datatype AuthExchange =
    | Unreachable
    | Rejected(statusText: string)
    | Granted(accessToken: string, expiresIn: int, receivedAt: int)

  /** Why no token could be produced. */
  datatype TokenError =
    | ConfigurationError(missing: seq<string>)
    | AuthError(statusText: string)
    | TransportError

  /** One call: its outcome, the cache afterwards, and whether the token endpoint was contacted. */
  datatype TokenStep = TokenStep(result: Result<string, TokenError>, cache: Option<Credential>, requested: bool)

  /** The token is treated as expired this many seconds before the platform says. */
  const EarlyExpirySeconds := 60
  const MillisPerSecond := 1000

  /** A cached credential that may still be handed out at time `now`. */
  predicate Fresh(cache: Option<Credential>, now: int) {
    cache.Some? && now < cache.value.expiresAt
  }

  /** The epoch-millisecond instant after which a token granted at `receivedAt`
      for `expiresIn` seconds is no longer served from the cache. */
  function ExpiresAt(receivedAt: int, expiresIn: int): (t: int)
    ensures t == receivedAt + expiresIn * MillisPerSecond - EarlyExpirySeconds * MillisPerSecond
    ensures t < receivedAt + expiresIn * MillisPerSecond
    ensures receivedAt < t <==> expiresIn > EarlyExpirySeconds
  {
    receivedAt + (expiresIn - EarlyExpirySeconds) * MillisPerSecond
  }

  /** `getAccessToken`: validate the configuration, serve a fresh cached token,
      or request a new one and cache it. */
  function GetAccessToken(settings: Config.Settings, cache: Option<Credential>, now: int, auth: AuthExchange): (r: TokenStep)
    // the configuration is checked first, even when a token is cached
    ensures Config.ValidateConfig(settings) != [] <==> r.result.Failure? && r.result.error.ConfigurationError?
    ensures r.result.Failure? && r.result.error.ConfigurationError? ==> r.result.error.missing == Config.ValidateConfig(settings)
    // a cached token is served with no request exactly when it is still fresh
    ensures !r.requested <==> Config.ValidateConfig(settings) != [] || Fresh(cache, now)
    ensures !r.requested ==> r.cache == cache
    ensures r.result.Success? && !r.requested ==> Fresh(cache, now) && r.result.value == cache.value.token
    ensures Config.ValidateConfig(settings) == [] && Fresh(cache, now) ==> r.result == Success(cache.value.token)
    // a request succeeds exactly when the platform granted a token, which replaces the cache whole
    ensures r.requested ==> (r.result.Success? <==> auth.Granted?)
    ensures r.requested && auth.Granted? ==>
      r.result.value == auth.accessToken
      && r.cache == Some(Credential(auth.accessToken, ExpiresAt(auth.receivedAt, auth.expiresIn)))
    // a non-ok response is an authentication error carrying its status text; a failed fetch is a transport error
    ensures r.requested && auth.Rejected? ==> r.result == Failure(AuthError(auth.statusText))
    ensures r.requested && auth.Unreachable? ==> r.result == Failure(TransportError)
    ensures r.result.Failure? ==> r.cache == cache
  {
    var missing := Config.ValidateConfig(settings);
    if missing != [] then
      TokenStep(Failure(ConfigurationError(missing)), cache, false)
    else if Fresh(cache, now) then
      TokenStep(Success(cache.value.token), cache, false)
    else
      match auth
      case Unreachable => TokenStep(Failure(TransportError), cache, true)
      case Rejected(statusText) => TokenStep(Failure(AuthError(statusText)), cache, true)
      case Granted(token, expiresIn, receivedAt) =>
        TokenStep(Success(token), Some(Credential(token, ExpiresAt(receivedAt, expiresIn))), true)
  }

  /** A complete configuration: every setting present and non-empty. */
  predicate Configured(settings: Config.Settings) {
    forall i :: 0 <= i < |Config.SettingNames| ==> !Config.Unset(Config.Values(settings)[i])
  }

  /** With every setting present, validation reports nothing. */
  lemma ConfiguredValidates(settings: Config.Settings)
    requires Configured(settings)
    ensures Config.ValidateConfig(settings) == []
  {
    var values := Config.Values(settings);
    assert !Config.Unset(values[0]) && !Config.Unset(values[1]) && !Config.Unset(values[2]);
    assert !Config.Unset(values[3]) && !Config.Unset(values[4]);
  }

  /** Two calls inside the validity window contact the token endpoint once:
      the second call returns the first call's token without a request. */
  lemma SecondCallWithinWindowIsCached(settings: Config.Settings, now1: int, auth1: AuthExchange, now2: int, auth2: AuthExchange)
    requires Configured(settings)
    requires auth1.Granted?
    requires now2 < ExpiresAt(auth1.receivedAt, auth1.expiresIn)
    ensures GetAccessToken(settings, None, now1, auth1).requested
    ensures var first := GetAccessToken(settings, None, now1, auth1);
            var second := GetAccessToken(settings, first.cache, now2, auth2);
            !second.requested && second.result == Success(auth1.accessToken) && second.cache == first.cache
  {
    ConfiguredValidates(settings);
  }

  /** Once the clock reaches the cached expiry, the next call requests a new token
      and, when granted, overwrites the cached pair. */
  lemma ExpiredTokenIsRefreshed(settings: Config.Settings, cached: Credential, now: int, auth: AuthExchange)
    requires Configured(settings)
    requires now >= cached.expiresAt
    ensures GetAccessToken(settings, Some(cached), now, auth).requested
    ensures auth.Granted? ==>
      GetAccessToken(settings, Some(cached), now, auth).cache
        == Some(Credential(auth.accessToken, auth.receivedAt + (auth.expiresIn - 60) * 1000))
  {
    ConfiguredValidates(settings);
  }

  /** A token the platform grants for 300 seconds is served from the cache for 240 000 ms. */
  lemma FiveMinuteTokenServedForFourMinutes(receivedAt: int)
    ensures ExpiresAt(receivedAt, 300) == receivedAt + 240000
  {
  }

  /** A token granted for 60 seconds or less is never served from the cache:
      the next call at any later instant requests again. */
  lemma ShortLivedTokenNeverServed(settings: Config.Settings, accessToken: string, expiresIn: int, receivedAt: int,
                                   now: int, auth: AuthExchange)
    requires Configured(settings)
    requires expiresIn <= EarlyExpirySeconds
    requires now >= receivedAt
    ensures GetAccessToken(settings, Some(Credential(accessToken, ExpiresAt(receivedAt, expiresIn))), now, auth).requested
  {
    ConfiguredValidates(settings);
  }
}
