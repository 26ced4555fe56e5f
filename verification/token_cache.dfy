/** The decision logic of getAccessToken, stated as pure functions of the
    cache, the configuration, the requested scopes, the bypass flag, the
    current time and the token endpoint. The token endpoint is a function
    from the request sent to the response received; a step that sends no
    request makes no network call. The AuthenticationService classes run
    these steps on their own fields and are proved to agree with them. */
module TokenCache {
  import opened Wrappers
  import opened Strings
  import opened ScopeKey
  import opened TestConfig

  /** The fixed caching window: 55 minutes, in milliseconds. */
  const CACHE_WINDOW_MS: int := 55 * 60 * 1000

  /** TokenCacheEntry: an access token and the instant it stops being served. */
  datatype TokenCacheEntry = TokenCacheEntry(token: string, expiryTime: int) {
    /** isValid(), read at instant now: strictly before the expiry time. */
    predicate IsValid(now: int)
    {
      now < expiryTime
    }
  }

  type Cache = map<string, TokenCacheEntry>

  /** The exceptions getAccessToken throws. */
  datatype AuthError =
    | ConfigurationError       // client id or secret not configured
    | StatusError(status: int) // the token endpoint answered other than 200
    | ParseError               // the response body is not JSON
    | TokenNotFound            // access_token absent, JSON null, or empty

  /** The access_token member of a JSON response: absent, JSON null, or a
      value with the given text. */
  datatype TokenField = Absent | JsonNull | Text(text: string)

  datatype ResponseBody = Malformed | Json(accessToken: TokenField)

  datatype TokenResponse = TokenResponse(status: int, body: ResponseBody)

  /** The form POST sent to the token endpoint. */
  datatype TokenRequest = TokenRequest(baseUrl: Option<string>, tokenEndpoint: string, formParams: map<string, string>)

  /** scopes != null && scopes.length > 0 */
  predicate HasScopes(scopes: Option<seq<string>>)
  {
    scopes.Some? && |scopes.value| > 0
  }

  predicate CredentialsConfigured(config: Config)
  {
    GetPingFederateClientId(config).Some? && GetPingFederateClientSecret(config).Some?
  }

  /** The form parameters of the client-credentials grant. */
  function FormParams(config: Config, scopes: Option<seq<string>>): (params: map<string, string>)
    requires CredentialsConfigured(config)
    ensures "scope" in params <==> HasScopes(scopes)
    ensures HasScopes(scopes) ==> params["scope"] == Join(scopes.value, " ")
    ensures params.Keys - {"scope"} == {"grant_type", "client_id", "client_secret"}
    ensures params["client_id"] == GetPingFederateClientId(config).value
    ensures params["client_secret"] == GetPingFederateClientSecret(config).value
    ensures params["grant_type"] == GetPingFederateGrantType(config)
  {
    var base := map["grant_type" := GetPingFederateGrantType(config),
                     "client_id" := GetPingFederateClientId(config).value,
                     "client_secret" := GetPingFederateClientSecret(config).value];
    if HasScopes(scopes) then base["scope" := Join(scopes.value, " ")] else base
  }

  function BuildRequest(config: Config, scopes: Option<seq<string>>): TokenRequest
    requires CredentialsConfigured(config)
  {
    TokenRequest(GetPingFederateBaseUrl(config), GetPingFederateTokenEndpoint(config), FormParams(config, scopes))
  }

  /** The checks on the response: the status first, then the body, then the
      access_token member, then its text. */
  function ReadToken(response: TokenResponse): (r: Result<string, AuthError>)
    ensures r.Success? <==> response.status == 200 && response.body.Json? &&
                            response.body.accessToken.Text? && response.body.accessToken.text != ""
    ensures r.Success? ==> r.value == response.body.accessToken.text
    ensures response.status != 200 ==> r == Failure(StatusError(response.status))
  {
    if response.status != 200 then Failure(StatusError(response.status))
    else match response.body
      case Malformed => Failure(ParseError)
      case Json(Text(t)) => if t == "" then Failure(TokenNotFound) else Success(t)
      case Json(_) => Failure(TokenNotFound)
  }

  /** What one call returns (the token or the exception), the request it
      sent if any, and the cache it leaves. */
  datatype Step = Step(result: Result<string, AuthError>, request: Option<TokenRequest>, cache: Cache)

  /** A cache hit: not bypassing, and the entry for the key is still valid. */
  predicate IsHit(cache: Cache, key: string, now: int, bypass: bool)
  {
    !bypass && key in cache && cache[key].IsValid(now)
  }

  /** The cache after the read path: an expired entry for the key is removed
      when the cache is consulted. */
  function Evict(cache: Cache, key: string, now: int, bypass: bool): Cache
  {
    if !bypass && key in cache && !cache[key].IsValid(now) then cache - {key} else cache
  }

  /** The part of getAccessToken after the cache: credentials check, exchange,
      response checks, and the single write on success. */
  function Fetch(cache: Cache, config: Config, scopes: Option<seq<string>>, now: int,
                 exchange: TokenRequest -> TokenResponse): Step
  {
    if !CredentialsConfigured(config) then Step(Failure(ConfigurationError), None, cache)
    else
      var request := BuildRequest(config, scopes);
      match ReadToken(exchange(request))
      case Success(t) =>
        Step(Success(t), Some(request), cache[CreateScopeKey(scopes) := TokenCacheEntry(t, now + CACHE_WINDOW_MS)])
      case Failure(e) => Step(Failure(e), Some(request), cache)
  }

  /** getAccessToken(String[] scopes, boolean bypassCache) of the scope-keyed services. */
  function GetAccessToken(cache: Cache, config: Config, scopes: Option<seq<string>>, bypass: bool, now: int,
                          exchange: TokenRequest -> TokenResponse): Step
  {
    var key := CreateScopeKey(scopes);
    if IsHit(cache, key, now, bypass) then Step(Success(cache[key].token), None, cache)
    else Fetch(Evict(cache, key, now, bypass), config, scopes, now, exchange)
  }

  /** Every cached token is non-empty: the only write follows the emptiness check. */
  ghost predicate TokensNonEmpty(cache: Cache)
  {
    forall k :: k in cache ==> cache[k].token != ""
  }

  // ------------------------------------------------------------------
  // Properties of the scope-keyed getAccessToken

  /** Without bypass, the cached token is served exactly when the entry for
      the canonical key is valid, whatever the configuration: the cache is
      consulted before the credentials. Then nothing is sent and the cache
      stays. With credentials set, no request is sent only on a hit. */
  lemma CacheHitIff(cache: Cache, config: Config, scopes: Option<seq<string>>, now: int,
                    exchange: TokenRequest -> TokenResponse)
    ensures var key := CreateScopeKey(scopes);
      var step := GetAccessToken(cache, config, scopes, false, now, exchange);
      (step.request == None && step.result.Success?) <==> (key in cache && now < cache[key].expiryTime)
    ensures var key := CreateScopeKey(scopes);
      var step := GetAccessToken(cache, config, scopes, false, now, exchange);
      CredentialsConfigured(config) ==> (step.request == None <==> (key in cache && now < cache[key].expiryTime))
    ensures var key := CreateScopeKey(scopes);
      key in cache && now < cache[key].expiryTime ==>
        GetAccessToken(cache, config, scopes, false, now, exchange) == Step(Success(cache[key].token), None, cache)
  {
  }

  /** Without bypass, an expired entry never survives the call: it is gone,
      or replaced by a fresh entry that expires a full window from now. */
  lemma ExpiredEntryRemoved(cache: Cache, config: Config, scopes: Option<seq<string>>, now: int,
                            exchange: TokenRequest -> TokenResponse)
    requires CreateScopeKey(scopes) in cache && !cache[CreateScopeKey(scopes)].IsValid(now)
    ensures var key := CreateScopeKey(scopes);
      var step := GetAccessToken(cache, config, scopes, false, now, exchange);
      key !in step.cache || (step.result.Success? && step.cache[key] == TokenCacheEntry(step.result.value, now + CACHE_WINDOW_MS))
  {
  }

  /** With bypass the cache is never read: two caches give the same token
      and the same request. */
  lemma BypassIgnoresCache(c1: Cache, c2: Cache, config: Config, scopes: Option<seq<string>>, now: int,
                           exchange: TokenRequest -> TokenResponse)
    ensures GetAccessToken(c1, config, scopes, true, now, exchange).result == GetAccessToken(c2, config, scopes, true, now, exchange).result
    ensures GetAccessToken(c1, config, scopes, true, now, exchange).request == GetAccessToken(c2, config, scopes, true, now, exchange).request
  {
  }

  /** With bypass and credentials the exchange always happens, and a
      successful result overwrites the entry for the key even when a valid
      one was cached. */
  lemma BypassWritesBack(cache: Cache, config: Config, scopes: Option<seq<string>>, now: int,
                         exchange: TokenRequest -> TokenResponse)
    requires CredentialsConfigured(config)
    ensures var step := GetAccessToken(cache, config, scopes, true, now, exchange);
      step.request == Some(BuildRequest(config, scopes)) &&
      (step.result.Success? ==>
        step.cache == cache[CreateScopeKey(scopes) := TokenCacheEntry(step.result.value, now + CACHE_WINDOW_MS)])
  {
  }

  /** A missing client id or secret fails before any request and writes no entry. */
  lemma MissingCredentialsFail(cache: Cache, config: Config, scopes: Option<seq<string>>, bypass: bool, now: int,
                               exchange: TokenRequest -> TokenResponse)
    requires !CredentialsConfigured(config)
    requires !IsHit(cache, CreateScopeKey(scopes), now, bypass)
    ensures var step := GetAccessToken(cache, config, scopes, bypass, now, exchange);
      step == Step(Failure(ConfigurationError), None, Evict(cache, CreateScopeKey(scopes), now, bypass))
  {
  }

  /** Any failure adds nothing to the cache: every entry left was there before. */
  lemma FailureAddsNothing(cache: Cache, config: Config, scopes: Option<seq<string>>, bypass: bool, now: int,
                           exchange: TokenRequest -> TokenResponse)
    requires GetAccessToken(cache, config, scopes, bypass, now, exchange).result.Failure?
    ensures var step := GetAccessToken(cache, config, scopes, bypass, now, exchange);
      forall k :: k in step.cache ==> k in cache && step.cache[k] == cache[k]
  {
  }

  /** A failed exchange answers with the error the response checks found. */
  lemma ExchangeFailureReported(cache: Cache, config: Config, scopes: Option<seq<string>>, bypass: bool, now: int,
                                exchange: TokenRequest -> TokenResponse)
    requires CredentialsConfigured(config)
    requires !IsHit(cache, CreateScopeKey(scopes), now, bypass)
    requires ReadToken(exchange(BuildRequest(config, scopes))).Failure?
    ensures var step := GetAccessToken(cache, config, scopes, bypass, now, exchange);
      step.result == ReadToken(exchange(BuildRequest(config, scopes))) &&
      step.request == Some(BuildRequest(config, scopes)) &&
      step.cache == Evict(cache, CreateScopeKey(scopes), now, bypass)
  {
  }

  /** A fetched token is cached under the canonical key until now + 3,300,000 ms;
      every other key keeps its entry, or its absence. */
  lemma SuccessWritesOnlyItsKey(cache: Cache, config: Config, scopes: Option<seq<string>>, bypass: bool, now: int,
                                exchange: TokenRequest -> TokenResponse)
    requires GetAccessToken(cache, config, scopes, bypass, now, exchange).request.Some?
    requires GetAccessToken(cache, config, scopes, bypass, now, exchange).result.Success?
    ensures var key := CreateScopeKey(scopes);
      var step := GetAccessToken(cache, config, scopes, bypass, now, exchange);
      && key in step.cache
      && step.cache[key] == TokenCacheEntry(step.result.value, now + 3300000)
      && (forall k :: k != key ==> (k in step.cache <==> k in cache))
      && (forall k :: k != key && k in cache ==> step.cache[k] == cache[k])
  {
  }

  /** Every call keeps the cache's tokens non-empty and answers with a
      non-empty token on success. */
  lemma GetAccessTokenKeepsTokensNonEmpty(cache: Cache, config: Config, scopes: Option<seq<string>>, bypass: bool,
                                          now: int, exchange: TokenRequest -> TokenResponse)
    requires TokensNonEmpty(cache)
    ensures var step := GetAccessToken(cache, config, scopes, bypass, now, exchange);
      TokensNonEmpty(step.cache) && (step.result.Success? ==> step.result.value != "")
  {
  }

  /** A token fetched for some scopes is served, with no further request, to
      a later call for the same scopes in any order within the window. */
  lemma PermutedScopesHitAfterFetch(cache: Cache, config: Config, a: seq<string>, b: seq<string>, bypass: bool,
                                    now: int, later: int, exchange: TokenRequest -> TokenResponse,
                                    exchange2: TokenRequest -> TokenResponse)
    requires multiset(a) == multiset(b)
    requires GetAccessToken(cache, config, Some(a), bypass, now, exchange).request.Some?
    requires GetAccessToken(cache, config, Some(a), bypass, now, exchange).result.Success?
    requires later < now + CACHE_WINDOW_MS
    ensures var first := GetAccessToken(cache, config, Some(a), bypass, now, exchange);
      GetAccessToken(first.cache, config, Some(b), false, later, exchange2) == Step(first.result, None, first.cache)
  {
    PermutationInvariant(a, b);
  }

  /** After the entry for some scopes is invalidated, the next call for them
      sends a request. */
  lemma InvalidatedKeyRefetches(cache: Cache, config: Config, scopes: Option<seq<string>>, bypass: bool, now: int,
                                exchange: TokenRequest -> TokenResponse)
    requires CredentialsConfigured(config)
    ensures GetAccessToken(cache - {CreateScopeKey(scopes)}, config, scopes, bypass, now, exchange).request
            == Some(BuildRequest(config, scopes))
  {
  }

  /** The scope form parameter keeps the caller's order, while the cache key
      sorts: ["b", "a"] is sent as "b a" and cached under "a b". */
  lemma ScopeParamKeepsCallerOrder(config: Config)
    requires CredentialsConfigured(config)
    ensures FormParams(config, Some(["b", "a"]))["scope"] == "b a"
    ensures CreateScopeKey(Some(["b", "a"])) == "a b"
  {
    assert Join(["b", "a"], " ") == Join(["b"], " ") + " " + "a";
    KeyIsSortedJoin(["b", "a"], ["a", "b"]);
    assert Join(["a", "b"], " ") == Join(["a"], " ") + " " + "b";
  }

  // ------------------------------------------------------------------
  // The single-token variant

  /** cachedToken and tokenExpiryTime. */
  datatype SingleState = SingleState(cachedToken: Option<string>, tokenExpiryTime: int)

  datatype SingleStep = SingleStep(result: Result<string, AuthError>, request: Option<TokenRequest>, state: SingleState)

  /** The state after invalidateToken(), and before the first fetch. */
  const EMPTY_SINGLE_STATE := SingleState(None, 0)

  predicate SingleHit(state: SingleState, now: int)
  {
    state.cachedToken.Some? && now < state.tokenExpiryTime
  }

  /** getAccessToken(String[] scopes) of the single-token service. */
  function SingleGetAccessToken(state: SingleState, config: Config, scopes: Option<seq<string>>, now: int,
                                exchange: TokenRequest -> TokenResponse): SingleStep
  {
    if SingleHit(state, now) then SingleStep(Success(state.cachedToken.value), None, state)
    else if !CredentialsConfigured(config) then SingleStep(Failure(ConfigurationError), None, state)
    else
      var request := BuildRequest(config, scopes);
      match ReadToken(exchange(request))
      case Success(t) => SingleStep(Success(t), Some(request), SingleState(Some(t), now + CACHE_WINDOW_MS))
      case Failure(e) => SingleStep(Failure(e), Some(request), state)
  }

  /** The cached token is served, with no request, exactly when it is set
      and not yet expired. */
  lemma SingleHitIff(state: SingleState, config: Config, scopes: Option<seq<string>>, now: int,
                     exchange: TokenRequest -> TokenResponse)
    ensures var step := SingleGetAccessToken(state, config, scopes, now, exchange);
      (step.request == None && step.result.Success?) <==> SingleHit(state, now)
    ensures SingleHit(state, now) ==>
      SingleGetAccessToken(state, config, scopes, now, exchange) == SingleStep(Success(state.cachedToken.value), None, state)
  {
  }

  /** On a hit the requested scopes play no part: a token fetched for some
      scopes is returned for any others. */
  lemma SingleHitIgnoresScopes(state: SingleState, config: Config, s1: Option<seq<string>>, s2: Option<seq<string>>,
                               now: int, exchange: TokenRequest -> TokenResponse)
    requires SingleHit(state, now)
    ensures SingleGetAccessToken(state, config, s1, now, exchange) == SingleGetAccessToken(state, config, s2, now, exchange)
  {
  }

  /** A failure leaves both fields as they were. */
  lemma SingleFailureKeepsState(state: SingleState, config: Config, scopes: Option<seq<string>>, now: int,
                                exchange: TokenRequest -> TokenResponse)
    requires SingleGetAccessToken(state, config, scopes, now, exchange).result.Failure?
    ensures SingleGetAccessToken(state, config, scopes, now, exchange).state == state
  {
  }

  /** A missing client id or secret fails before any request. */
  lemma SingleMissingCredentialsFail(state: SingleState, config: Config, scopes: Option<seq<string>>, now: int,
                                     exchange: TokenRequest -> TokenResponse)
    requires !CredentialsConfigured(config) && !SingleHit(state, now)
    ensures SingleGetAccessToken(state, config, scopes, now, exchange) == SingleStep(Failure(ConfigurationError), None, state)
  {
  }

  /** A fetch stores the token with expiry now + 3,300,000 ms. */
  lemma SingleSuccessStores(state: SingleState, config: Config, scopes: Option<seq<string>>, now: int,
                            exchange: TokenRequest -> TokenResponse)
    requires SingleGetAccessToken(state, config, scopes, now, exchange).request.Some?
    requires SingleGetAccessToken(state, config, scopes, now, exchange).result.Success?
    ensures var step := SingleGetAccessToken(state, config, scopes, now, exchange);
      step.result.value != "" && step.state == SingleState(Some(step.result.value), now + 3300000)
  {
  }

  /** After invalidateToken() the next call always sends a request. */
  lemma SingleInvalidatedRefetches(config: Config, scopes: Option<seq<string>>, now: int,
                                   exchange: TokenRequest -> TokenResponse)
    requires CredentialsConfigured(config)
    ensures SingleGetAccessToken(EMPTY_SINGLE_STATE, config, scopes, now, exchange).request == Some(BuildRequest(config, scopes))
  {
  }
}
