/** com.wfld AuthenticationService: the scope-keyed token cache, a map the
    methods update in place. Time and the token endpoint are parameters. */
module WfldAuth {
  import opened Wrappers
  import opened Strings
  import opened ScopeKey
  import opened TestConfig
  import opened TokenCache

  class AuthenticationService {
    const config: Config
    var tokenCache: Cache

    ghost predicate Valid()
      reads this
    {
      TokensNonEmpty(tokenCache)
    }

    constructor (config: Config)
      ensures Valid() && this.config == config && tokenCache == map[]
    {
      this.config := config;
      tokenCache := map[];
    }

    /** getAccessToken(String[] scopes, boolean bypassCache). The token (or the
        exception thrown), the request sent (None: no network call) and the
        new cache are those of TokenCache.GetAccessToken on the old cache. */
    method GetAccessToken(scopes: Option<seq<string>>, bypassCache: bool, now: int,
                          exchange: TokenRequest -> TokenResponse)
      returns (token: Result<string, AuthError>, request: Option<TokenRequest>)
      requires Valid()
      modifies this
      ensures Valid()
      ensures Step(token, request, tokenCache)
              == TokenCache.GetAccessToken(old(tokenCache), config, scopes, bypassCache, now, exchange)
    {
      var scopeKey := CreateScopeKey(scopes);
      if !bypassCache && scopeKey in tokenCache {
        var cachedEntry := tokenCache[scopeKey];
        if cachedEntry.IsValid(now) {
          return Success(cachedEntry.token), None;
        }
        tokenCache := tokenCache - {scopeKey};
      }
      var baseUrl := GetPingFederateBaseUrl(config);
      var tokenEndpoint := GetPingFederateTokenEndpoint(config);
      var clientId := GetPingFederateClientId(config);
      var clientSecret := GetPingFederateClientSecret(config);
      var grantType := GetPingFederateGrantType(config);
      if clientId.None? || clientSecret.None? {
        return Failure(ConfigurationError), None;
      }
      var formParams := map["grant_type" := grantType, "client_id" := clientId.value,
                            "client_secret" := clientSecret.value];
      if scopes.Some? && |scopes.value| > 0 {
        formParams := formParams["scope" := Join(scopes.value, " ")];
      }
      var sent := TokenRequest(baseUrl, tokenEndpoint, formParams);
      request := Some(sent);
      var response := exchange(sent);
      if response.status != 200 {
        return Failure(StatusError(response.status)), request;
      }
      if response.body.Malformed? {
        // jsonPath() cannot read the body
        return Failure(ParseError), request;
      }
      if !response.body.accessToken.Text? || response.body.accessToken.text == "" {
        return Failure(TokenNotFound), request;
      }
      var accessToken := response.body.accessToken.text;
      tokenCache := tokenCache[scopeKey := TokenCacheEntry(accessToken, now + CACHE_WINDOW_MS)];
      token := Success(accessToken);
    }

    /** getAccessToken(): no scopes, no bypass. */
    method GetAccessTokenDefault(now: int, exchange: TokenRequest -> TokenResponse)
      returns (token: Result<string, AuthError>, request: Option<TokenRequest>)
      requires Valid()
      modifies this
      ensures Valid()
      ensures Step(token, request, tokenCache)
              == TokenCache.GetAccessToken(old(tokenCache), config, Some([]), false, now, exchange)
    {
      token, request := GetAccessToken(Some([]), false, now, exchange);
    }

    /** getAccessToken(String[] scopes): no bypass. */
    method GetAccessTokenFor(scopes: Option<seq<string>>, now: int, exchange: TokenRequest -> TokenResponse)
      returns (token: Result<string, AuthError>, request: Option<TokenRequest>)
      requires Valid()
      modifies this
      ensures Valid()
      ensures Step(token, request, tokenCache)
              == TokenCache.GetAccessToken(old(tokenCache), config, scopes, false, now, exchange)
    {
      token, request := GetAccessToken(scopes, false, now, exchange);
    }

    /** invalidateToken(String[] scopes): removes only the canonical key. */
    method InvalidateToken(scopes: Option<seq<string>>)
      requires Valid()
      modifies this
      ensures Valid()
      ensures tokenCache == old(tokenCache) - {CreateScopeKey(scopes)}
    {
      var scopeKey := CreateScopeKey(scopes);
      tokenCache := tokenCache - {scopeKey};
    }

    /** invalidateAllTokens(): empties the cache. */
    method InvalidateAllTokens()
      requires Valid()
      modifies this
      ensures Valid()
      ensures tokenCache == map[]
    {
      tokenCache := map[];
    }

    /** The deprecated invalidateToken(): the same as invalidating no scopes,
        the key "". */
    method InvalidateDefaultToken()
      requires Valid()
      modifies this
      ensures Valid()
      ensures tokenCache == old(tokenCache) - {""}
    {
      InvalidateToken(Some([]));
    }
  }

  /** The end-to-end scenario: a token fetched for ["read", "write"] is
      served for ["write", "read"] with no second call, and a 401 caches
      nothing, so the next call asks again. */
  method CachedAcrossScopeOrder(config: Config, now: int)
    returns (first: Result<string, AuthError>, second: Result<string, AuthError>,
             secondRequest: Option<TokenRequest>)
    requires CredentialsConfigured(config)
    ensures first == Success("T1") && second == Success("T1") && secondRequest == None
  {
    var service := new AuthenticationService(config);
    var granting := (r: TokenRequest) => TokenResponse(200, Json(Text("T1")));
    var request;
    first, request := service.GetAccessToken(Some(["read", "write"]), false, now, granting);
    PermutationInvariant(["read", "write"], ["write", "read"]);
    second, secondRequest := service.GetAccessToken(Some(["write", "read"]), false, now + 1, granting);
  }

  method RejectedExchangeCachesNothing(config: Config, now: int)
    returns (first: Result<string, AuthError>, secondRequest: Option<TokenRequest>)
    requires CredentialsConfigured(config)
    ensures first == Failure(StatusError(401)) && secondRequest.Some?
  {
    var service := new AuthenticationService(config);
    var rejecting := (r: TokenRequest) => TokenResponse(401, Malformed);
    var request, second;
    first, request := service.GetAccessToken(Some(["read"]), false, now, rejecting);
    assert service.tokenCache == map[];
    second, secondRequest := service.GetAccessToken(Some(["read"]), false, now, rejecting);
  }
}
