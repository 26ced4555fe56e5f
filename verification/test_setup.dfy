/** The token step of setUpTest in each BaseApiTest variant: resolve the
    scopes and the bypass flag from the annotations, ask the service for a
    token, and build the Authorization header. The request and response
    specifications built afterwards are not modelled. */
module TestSetup {
  import opened Wrappers
  import opened TokenCache
  import opened ScopeResolution
  import WfldAuth
  import WestfieldAuth
  import InsuranceAuth

  const BEARER_PREFIX := "Bearer "

  /** "Bearer " + accessToken. */
  function BearerHeader(accessToken: string): (header: string)
    ensures |header| == |BEARER_PREFIX| + |accessToken|
    ensures header[..|BEARER_PREFIX|] == BEARER_PREFIX && header[|BEARER_PREFIX|..] == accessToken
  {
    BEARER_PREFIX + accessToken
  }

  /** The header is the token behind a fixed prefix, so distinct tokens give
      distinct headers. */
  lemma BearerHeaderInjective(t1: string, t2: string)
    ensures BearerHeader(t1) == BearerHeader(t2) <==> t1 == t2
  {
    if BearerHeader(t1) == BearerHeader(t2) {
      assert t1 == BearerHeader(t1)[|BEARER_PREFIX|..];
    }
  }

  /** The header for a token, or the exception getAccessToken threw, which
      fails the test set-up. */
  function Authorization(token: Result<string, AuthError>): (header: Result<string, AuthError>)
    ensures header.Success? <==> token.Success?
    ensures token.Failure? ==> header == token
    ensures token.Success? ==> header.value == BearerHeader(token.value)
  {
    match token
    case Success(t) => Success(BearerHeader(t))
    case Failure(e) => Failure(e)
  }

  /** setUpTest of the com.wfld BaseApiTest and of
      BaseApiTestPlaywrightExample, which use the com.wfld service. */
  method WfldSetUpTest(service: WfldAuth.AuthenticationService, testInfo: Option<TestInfo>,
                       classAnnotations: Annotations, now: int, exchange: TokenRequest -> TokenResponse)
    returns (authorization: Result<string, AuthError>, request: Option<TokenRequest>)
    requires service.Valid()
    modifies service
    ensures service.Valid()
    ensures var step := TokenCache.GetAccessToken(old(service.tokenCache), service.config,
                                                 Some(ExtractScopesFromAnnotation(testInfo, classAnnotations)),
                                                 ShouldBypassCache(testInfo, classAnnotations), now, exchange);
      authorization == Authorization(step.result) && request == step.request && service.tokenCache == step.cache
  {
    var scopes := ExtractScopesFromAnnotation(testInfo, classAnnotations);
    var bypassCache := ShouldBypassCache(testInfo, classAnnotations);
    var accessToken;
    accessToken, request := service.GetAccessToken(Some(scopes), bypassCache, now, exchange);
    authorization := Authorization(accessToken);
  }

  /** setUpTest of the com.westfieldgrp BaseApiTest. */
  method WestfieldSetUpTest(service: WestfieldAuth.AuthenticationService, testInfo: Option<TestInfo>,
                            classAnnotations: Annotations, now: int, exchange: TokenRequest -> TokenResponse)
    returns (authorization: Result<string, AuthError>, request: Option<TokenRequest>)
    requires service.Valid()
    modifies service
    ensures service.Valid()
    ensures var step := TokenCache.GetAccessToken(old(service.tokenCache), service.config,
                                                 Some(ExtractScopesFromAnnotation(testInfo, classAnnotations)),
                                                 ShouldBypassCache(testInfo, classAnnotations), now, exchange);
      authorization == Authorization(step.result) && request == step.request && service.tokenCache == step.cache
  {
    var scopes := ExtractScopesFromAnnotation(testInfo, classAnnotations);
    var bypassCache := ShouldBypassCache(testInfo, classAnnotations);
    var accessToken;
    accessToken, request := service.GetAccessToken(Some(scopes), bypassCache, now, exchange);
    authorization := Authorization(accessToken);
  }

  /** setUpTest of the com.insurance test BaseApiTest: class-level scopes,
      no bypass. */
  method InsuranceSetUpTest(service: InsuranceAuth.AuthenticationService, classScopes: Option<seq<string>>,
                            now: int, exchange: TokenRequest -> TokenResponse)
    returns (authorization: Result<string, AuthError>, request: Option<TokenRequest>)
    requires service.Valid()
    modifies service
    ensures service.Valid()
    ensures var step := SingleGetAccessToken(old(service.State()), service.config,
                                             Some(ExtractClassScopes(classScopes)), now, exchange);
      authorization == Authorization(step.result) && request == step.request && service.State() == step.state
  {
    var scopes := ExtractClassScopes(classScopes);
    var accessToken;
    accessToken, request := service.GetAccessToken(Some(scopes), now, exchange);
    authorization := Authorization(accessToken);
  }
}
