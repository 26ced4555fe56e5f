/** com.insurance AuthenticationService: one cached token for all scopes,
    kept in two fields. Its TestConfig (com.insurance...config.TestConfig) is
    not part of this model; the layered configuration of the com.wfld
    TestConfig stands in for it. */
module InsuranceAuth {
  import opened Wrappers
  import opened Strings
  import opened TestConfig
  import opened TokenCache

  class AuthenticationService {
    const config: Config
    var cachedToken: Option<string>
    var tokenExpiryTime: int

    ghost predicate Valid()
      reads this
    {
      cachedToken.Some? ==> cachedToken.value != ""
    }

    ghost function State(): SingleState
      reads this
    {
      SingleState(cachedToken, tokenExpiryTime)
    }

    /** A new service holds no token (null, 0). */
    constructor (config: Config)
      ensures Valid() && this.config == config && State() == EMPTY_SINGLE_STATE
    {
      this.config := config;
      cachedToken := None;
      tokenExpiryTime := 0;
    }

    /** getAccessToken(String[] scopes): the token (or exception), the request
        sent and the new fields are those of SingleGetAccessToken. */
    method GetAccessToken(scopes: Option<seq<string>>, now: int, exchange: TokenRequest -> TokenResponse)
      returns (token: Result<string, AuthError>, request: Option<TokenRequest>)
      requires Valid()
      modifies this
      ensures Valid()
      ensures SingleStep(token, request, State())
              == SingleGetAccessToken(old(State()), config, scopes, now, exchange)
    {
      if cachedToken.Some? && now < tokenExpiryTime {
        return Success(cachedToken.value), None;
      }
      var baseUrl := GetPingFederateBaseUrl(config);
      var tokenEndpoint := GetPingFederateTokenEndpoint(config);
      var clientId := GetPingFederateClientId(config);
      var clientSecret := GetPingFederateClientSecret(config);
      var grantType := GetPingFederateGrantType(config);
      if clientId.None? || clientSecret.None? {
        return Failure(ConfigurationError), None;
      }
      var formParams := map["grant_type" := grantType, "client_id" := clientId.value,
                            "client_secret" := clientSecret.value];
      if scopes.Some? && |scopes.value| > 0 {
        formParams := formParams["scope" := Join(scopes.value, " ")];
      }
      var sent := TokenRequest(baseUrl, tokenEndpoint, formParams);
      request := Some(sent);
      var response := exchange(sent);
      if response.status != 200 {
        return Failure(StatusError(response.status)), request;
      }
      if response.body.Malformed? {
        return Failure(ParseError), request;
      }
      if !response.body.accessToken.Text? || response.body.accessToken.text == "" {
        return Failure(TokenNotFound), request;
      }
      var accessToken := response.body.accessToken.text;
      cachedToken := Some(accessToken);
      tokenExpiryTime := now + CACHE_WINDOW_MS;
      token := Success(accessToken);
    }

    /** getAccessToken(): the same as asking for no scopes. */
    method GetAccessTokenDefault(now: int, exchange: TokenRequest -> TokenResponse)
      returns (token: Result<string, AuthError>, request: Option<TokenRequest>)
      requires Valid()
      modifies this
      ensures Valid()
      ensures SingleStep(token, request, State())
              == SingleGetAccessToken(old(State()), config, Some([]), now, exchange)
    {
      token, request := GetAccessToken(Some([]), now, exchange);
    }

    /** invalidateToken(): cachedToken = null, tokenExpiryTime = 0. */
    method InvalidateToken()
      modifies this
      ensures Valid()
      ensures cachedToken == None && tokenExpiryTime == 0
    {
      cachedToken := None;
      tokenExpiryTime := 0;
    }
  }

  /** A token fetched for one set of scopes is served for any other set
      while it lasts, and after invalidation the next call asks again. */
  method TokenSharedAcrossScopes(config: Config, now: int)
    returns (first: Result<string, AuthError>, second: Result<string, AuthError>,
             secondRequest: Option<TokenRequest>, afterInvalidate: Option<TokenRequest>)
    requires CredentialsConfigured(config)
    ensures first == Success("T1") && second == Success("T1") && secondRequest == None
    ensures afterInvalidate.Some?
  {
    var service := new AuthenticationService(config);
    var granting := (r: TokenRequest) => TokenResponse(200, Json(Text("T1")));
    var request, third;
    first, request := service.GetAccessToken(Some(["read"]), now, granting);
    second, secondRequest := service.GetAccessToken(Some(["admin", "write"]), now + 1, granting);
    service.InvalidateToken();
    third, afterInvalidate := service.GetAccessToken(Some(["read"]), now + 2, granting);
  }
}
