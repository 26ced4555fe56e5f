/** com.westfieldgrp AuthenticationService: the same scope-keyed cache as the
    com.wfld one, reading the response with a JSON tree (parse, member
    lookup, JSON null, text) and sending the form as a body built by
    buildFormData. */
module WestfieldAuth {
  import opened Wrappers
  import opened Strings
  import opened ScopeKey
  import opened TestConfig
  import opened TokenCache

  class AuthenticationService {
    const config: Config
    var tokenCache: Cache

    ghost predicate Valid()
      reads this
    {
      TokensNonEmpty(tokenCache)
    }

    constructor (config: Config)
      ensures Valid() && this.config == config && tokenCache == map[]
    {
      this.config := config;
      tokenCache := map[];
    }

    /** getAccessToken(String[] scopes, boolean bypassCache). */
    method GetAccessToken(scopes: Option<seq<string>>, bypassCache: bool, now: int,
                          exchange: TokenRequest -> TokenResponse)
      returns (token: Result<string, AuthError>, request: Option<TokenRequest>)
      requires Valid()
      modifies this
      ensures Valid()
      ensures Step(token, request, tokenCache)
              == TokenCache.GetAccessToken(old(tokenCache), config, scopes, bypassCache, now, exchange)
    {
      var scopeKey := CreateScopeKey(scopes);
      if !bypassCache && scopeKey in tokenCache {
        var cachedEntry := tokenCache[scopeKey];
        if cachedEntry.IsValid(now) {
          return Success(cachedEntry.token), None;
        }
        tokenCache := tokenCache - {scopeKey};
      }
      var baseUrl := GetPingFederateBaseUrl(config);
      var tokenEndpoint := GetPingFederateTokenEndpoint(config);
      var clientId := GetPingFederateClientId(config);
      var clientSecret := GetPingFederateClientSecret(config);
      var grantType := GetPingFederateGrantType(config);
      if clientId.None? || clientSecret.None? {
        return Failure(ConfigurationError), None;
      }
      var formParams := map["grant_type" := grantType, "client_id" := clientId.value,
                            "client_secret" := clientSecret.value];
      if scopes.Some? && |scopes.value| > 0 {
        formParams := formParams["scope" := Join(scopes.value, " ")];
      }
      var sent := TokenRequest(baseUrl, tokenEndpoint, formParams);
      request := Some(sent);
      var response := exchange(sent);
      if response.status != 200 {
        return Failure(StatusError(response.status)), request;
      }
      if response.body.Malformed? {
        return Failure(ParseError), request;
      }
      var accessTokenNode := response.body.accessToken;
      if accessTokenNode.Absent? || accessTokenNode.JsonNull? {
        return Failure(TokenNotFound), request;
      }
      var accessToken := accessTokenNode.text;
      if accessToken == "" {
        return Failure(TokenNotFound), request;
      }
      tokenCache := tokenCache[scopeKey := TokenCacheEntry(accessToken, now + CACHE_WINDOW_MS)];
      token := Success(accessToken);
    }

    /** getAccessToken(): no scopes, no bypass. */
    method GetAccessTokenDefault(now: int, exchange: TokenRequest -> TokenResponse)
      returns (token: Result<string, AuthError>, request: Option<TokenRequest>)
      requires Valid()
      modifies this
      ensures Valid()
      ensures Step(token, request, tokenCache)
              == TokenCache.GetAccessToken(old(tokenCache), config, Some([]), false, now, exchange)
    {
      token, request := GetAccessToken(Some([]), false, now, exchange);
    }

    /** getAccessToken(String[] scopes): no bypass. */
    method GetAccessTokenFor(scopes: Option<seq<string>>, now: int, exchange: TokenRequest -> TokenResponse)
      returns (token: Result<string, AuthError>, request: Option<TokenRequest>)
      requires Valid()
      modifies this
      ensures Valid()
      ensures Step(token, request, tokenCache)
              == TokenCache.GetAccessToken(old(tokenCache), config, scopes, false, now, exchange)
    {
      token, request := GetAccessToken(scopes, false, now, exchange);
    }

    method InvalidateToken(scopes: Option<seq<string>>)
      requires Valid()
      modifies this
      ensures Valid()
      ensures tokenCache == old(tokenCache) - {CreateScopeKey(scopes)}
    {
      var scopeKey := CreateScopeKey(scopes);
      tokenCache := tokenCache - {scopeKey};
    }

    method InvalidateAllTokens()
      requires Valid()
      modifies this
      ensures Valid()
      ensures tokenCache == map[]
    {
      tokenCache := map[];
    }

    /** The deprecated invalidateToken(). */
    method InvalidateDefaultToken()
      requires Valid()
      modifies this
      ensures Valid()
      ensures tokenCache == old(tokenCache) - {""}
    {
      InvalidateToken(Some([]));
    }
  }

  // ------------------------------------------------------------------
  // buildFormData

  /** One form entry: key=encode(value). */
  function FormEntry(entry: (string, string), encode: string -> string): string
  {
    entry.0 + "=" + encode(entry.1)
  }

  function FormEntries(entries: seq<(string, string)>, encode: string -> string): (r: seq<string>)
    ensures |r| == |entries|
    ensures forall i :: 0 <= i < |entries| ==> r[i] == FormEntry(entries[i], encode)
  {
    seq(|entries|, i requires 0 <= i < |entries| => FormEntry(entries[i], encode))
  }

  /** The form body: the entries in iteration order, separated by "&". */
  function FormData(entries: seq<(string, string)>, encode: string -> string): string
  {
    Join(FormEntries(entries, encode), "&")
  }

  /** One more entry adds one "&" (none before the first) and the entry. */
  lemma FormDataExtend(entries: seq<(string, string)>, i: nat, encode: string -> string)
    requires i < |entries|
    ensures FormData(entries[..i + 1], encode)
            == (if i == 0 then "" else FormData(entries[..i], encode) + "&") + FormEntry(entries[i], encode)
  {
    var init := FormEntries(entries[..i], encode);
    assert FormEntries(entries[..i + 1], encode) == init + [FormEntry(entries[i], encode)];
    if i > 0 {
      JoinSnoc(init, FormEntry(entries[i], encode), "&");
    }
  }

  /** buildFormData(Map formParams), over the map's entries in iteration order
      and with URLEncoder.encode as the parameter encode. */
  method BuildFormData(entries: seq<(string, string)>, encode: string -> string) returns (formData: string)
    ensures formData == FormData(entries, encode)
  {
    formData := "";
    var first := true;
    var i := 0;
    while i < |entries|
      invariant 0 <= i <= |entries|
      invariant first <==> i == 0
      invariant formData == FormData(entries[..i], encode)
    {
      var entry := entries[i];
      FormDataExtend(entries, i, encode);
      if !first {
        formData := formData + "&";
      }
      formData := formData + entry.0 + "=" + encode(entry.1);
      first := false;
      i := i + 1;
    }
    assert entries[..i] == entries;
  }

  /** The body is empty exactly when there are no entries: every entry
      contributes at least its "=". */
  lemma {:induction false} FormDataEmptyIff(entries: seq<(string, string)>, encode: string -> string)
    ensures FormData(entries, encode) == "" <==> entries == []
    decreases |entries|
  {
    var n := |entries|;
    if n > 1 {
      var pieces := FormEntries(entries, encode);
      assert pieces[..n - 1] == FormEntries(entries[..n - 1], encode);
      assert |FormData(entries, encode)| >= |FormEntry(entries[n - 1], encode)| > 0;
    } else if n == 1 {
      assert |FormEntry(entries[0], encode)| > 0;
    }
  }

  /** With keys and encoded values free of "&" (URL encoding escapes it), n
      entries are separated by exactly n - 1 "&", and the body neither starts
      nor ends with one. */
  lemma FormDataSeparators(entries: seq<(string, string)>, encode: string -> string)
    requires |entries| > 0
    requires forall i :: 0 <= i < |entries| ==> '&' !in entries[i].0 && '&' !in encode(entries[i].1)
    ensures Count('&', FormData(entries, encode)) == |entries| - 1
    ensures var body := FormData(entries, encode); body[0] != '&' && body[|body| - 1] != '&'
  {
    var pieces := FormEntries(entries, encode);
    forall i | 0 <= i < |pieces| ensures '&' !in pieces[i] {
      assert pieces[i] == entries[i].0 + "=" + encode(entries[i].1);
    }
    JoinSeparatorCount(pieces, '&');
    FormDataEmptyIff(entries, encode);
    FormDataEnds(pieces);
  }

  /** A join of non-empty pieces starts with the first piece's first
      character and ends with the last piece's last character. */
  lemma {:induction false} FormDataEnds(pieces: seq<string>)
    requires |pieces| > 0
    requires forall i :: 0 <= i < |pieces| ==> |pieces[i]| > 0 && '&' !in pieces[i]
    ensures var body := Join(pieces, "&"); |body| > 0 && body[0] == pieces[0][0] && body[|body| - 1] == pieces[|pieces| - 1][|pieces[|pieces| - 1]| - 1]
    decreases |pieces|
  {
    var n := |pieces|;
    if n > 1 {
      FormDataEnds(pieces[..n - 1]);
    }
  }
}
