# API test harness core, modelled in Dafny

This project models the deterministic core of a Java API-testing harness.

- **OAuth token caching.** Two services keep a map from a canonical scope key to a cached token and its expiry time. A third, older service keeps one token in two fields and ignores scopes when deciding a hit.
- **Per-test scope and bypass resolution.** Each `BaseApiTest` variant reads the `@OAuthScopes` and `@BypassTokenCache` annotations on the test method and the test class. It asks the service for a token and builds the `Authorization: Bearer …` header.
- **TemplateService bookkeeping.**
  - The CSV line parser (quoted fields, doubled-quote escapes, trimming).
  - The CSV file parser (header row, blank lines, padding and truncation to the header width).
  - The `loadCsvAsMap` checks.
  - The varargs-to-map conversion.
  - The data-file context merge.
  - The template cache (compute-if-absent, clear, remove, size).
- **TestConfig.** A layered property lookup: a system property overrides the file property, and a default applies when both are absent.

Modules, one per file:

- `Wrappers`: `Option` and `Result`.
- `Strings`:
  - `String.join`, `String.trim` and `compareTo` order;
  - the insertion sort that stands for `Arrays.sort`;
  - splitting at a character.
- `ScopeKey`: `createScopeKey`.
- `TestConfig`.
- `TokenCache`:
  - the decision logic of `getAccessToken` as pure functions of the cache, the configuration, the scopes, the bypass flag, the instant `now` and the token endpoint;
  - the single-token variant, with its own functions.
- `WfldAuth`, `WestfieldAuth`, `InsuranceAuth`. Each holds an `AuthenticationService` class whose methods update the cache fields in place. Each method is proved to leave exactly the state, and return exactly the result, that the `TokenCache` functions give.
- `ScopeResolution`: the annotation resolvers.
- `TestSetup`: the token step of each `setUpTest`.
- `Csv`: `parseCsvLine` and `parseCsv`, as loop methods proved against recursive definitions.
- `TemplateService`: the service class with its template cache, and the render and CSV-load operations.

How the environment is modelled:

- The token endpoint is a function parameter from the request sent to the response received. A step whose request out-parameter is `None` made no network call.
- The JSON response is abstracted: the body is either not JSON, or JSON whose `access_token` member is absent, JSON null, or a value with some text.
- The classpath is a value: templates, JSON data files and CSV files (as lines), by path.
- Velocity's `template.merge` is a function parameter.

One might expect the scope key to ignore duplicate entries, so that `["a","a"]` and `["a"]` share a cached token. The code does not do this: it sorts a copy and joins it without de-duplicating, so `["a","a"]` gives `"a a"` and `["a"]` gives `"a"`. `ScopeKey.KeepsDuplicates` states this, and the two key the cache differently.

## Model

| member | source | states |
|---|---|---|
| ScopeKey.CreateScopeKey | src/main/java/com/wfld/testing/api/auth/AuthenticationService.java:166-169 | a null or empty scope array gives the key "" |
| ScopeKey.NullAndEmptyShareKey | src/main/java/com/westfieldgrp/testing/api/auth/AuthenticationService.java:195-198 | null and the empty array share the key "" |
| ScopeKey.KeyIsSortedJoin | src/main/java/com/wfld/testing/api/auth/AuthenticationService.java:170-173 | for a non-empty array, the key is the " "-join of any sorted permutation of it |
| ScopeKey.PermutationInvariant | src/main/java/com/westfieldgrp/testing/api/auth/AuthenticationService.java:199-202 | two scope lists with the same elements and multiplicities give the same key |
| ScopeKey.KeepsDuplicates | src/main/java/com/wfld/testing/api/auth/AuthenticationService.java:170-173 | duplicates are kept: ["a","a"] keys as "a a", unlike ["a"] |
| TestConfig.GetProperty | src/main/java/com/wfld/testing/api/config/TestConfig.java:45-51 | null exactly when neither the system properties nor the file define the key |
| TestConfig.GetPropertyOr | src/main/java/com/wfld/testing/api/config/TestConfig.java:53-56 | definition: the default exactly when the lookup is null, else the looked-up value (properties in SystemPropertyWins and DefaultsWhenUnset) |
| TestConfig.LayersAsOverride | src/main/java/com/wfld/testing/api/config/TestConfig.java:45-51 | the lookup equals a lookup in the file map overridden by the system map |
| TestConfig.SystemPropertyWins | src/main/java/com/wfld/testing/api/config/TestConfig.java:46-49 | a system property beats both the file value and the default |
| TestConfig.DefaultsWhenUnset | src/main/java/com/wfld/testing/api/config/TestConfig.java:58-88 | unset: endpoint "/as/token.oauth2", grant "client_credentials", timeouts "30000" and "10000"; base URLs, client id and secret null |
| TokenCache.FormParams | src/main/java/com/wfld/testing/api/auth/AuthenticationService.java:114-124 | grant_type, client_id and client_secret are always sent; "scope" only for non-empty scopes, as their " "-join in caller order |
| TokenCache.ReadToken | src/main/java/com/westfieldgrp/testing/api/auth/AuthenticationService.java:151-176 | a token only for status 200 with a JSON body whose access_token has non-empty text; any other status is reported with its code |
| TokenCache.CacheHitIff | src/main/java/com/wfld/testing/api/auth/AuthenticationService.java:81-94 | without bypass and for any configuration, the call succeeds with no request iff the key's entry exists with now < expiry, and then returns the cached token with the cache unchanged; with credentials set, no request is sent only on a hit |
| TokenCache.ExpiredEntryRemoved | src/main/java/com/westfieldgrp/testing/api/auth/AuthenticationService.java:99-109 | without bypass, an expired entry is gone after the call, or replaced by a fresh one |
| TokenCache.BypassIgnoresCache | src/main/java/com/wfld/testing/api/auth/AuthenticationService.java:81-94 | with bypass, the result and the request do not depend on the cache |
| TokenCache.BypassWritesBack | src/main/java/com/wfld/testing/api/auth/AuthenticationService.java:92-152 | with bypass, the request is always sent, and a success overwrites the key's entry |
| TokenCache.MissingCredentialsFail | src/main/java/com/wfld/testing/api/auth/AuthenticationService.java:105-110 | a null client id or secret fails with no request and no new entry |
| TokenCache.FailureAddsNothing | src/main/java/com/wfld/testing/api/auth/AuthenticationService.java:136-152 | after any failure, every cache entry was already there with the same value |
| TokenCache.ExchangeFailureReported | src/main/java/com/westfieldgrp/testing/api/auth/AuthenticationService.java:151-176 | a rejected response yields the error the response checks give; the request was sent; the cache is the post-eviction cache |
| TokenCache.SuccessWritesOnlyItsKey | src/main/java/com/wfld/testing/api/auth/AuthenticationService.java:151-152 | a fetched token is cached under its key until now + 3,300,000; every other key keeps its entry or its absence |
| TokenCache.GetAccessTokenKeepsTokensNonEmpty | src/main/java/com/westfieldgrp/testing/api/auth/AuthenticationService.java:173-181 | cached and returned tokens are never empty |
| TokenCache.PermutedScopesHitAfterFetch | src/main/java/com/wfld/testing/api/auth/AuthenticationService.java:166-174 | after a fetch, a call for the same scopes in any order within the window is a hit with no request |
| TokenCache.InvalidatedKeyRefetches | src/main/java/com/wfld/testing/api/auth/AuthenticationService.java:181-187 | after the key is removed, the next call sends a request |
| TokenCache.ScopeParamKeepsCallerOrder | src/main/java/com/westfieldgrp/testing/api/auth/AuthenticationService.java:138-142 | ["b","a"] is sent as scope "b a" but cached under "a b" |
| TokenCache.SingleHitIff | src/main/java/com/insurance/api/testing/auth/AuthenticationService.java:53-56 | the cached token is returned without a request iff it is non-null and now < tokenExpiryTime |
| TokenCache.SingleHitIgnoresScopes | src/main/java/com/insurance/api/testing/auth/AuthenticationService.java:53-56 | on a hit, the requested scopes make no difference |
| TokenCache.SingleFailureKeepsState | src/main/java/com/insurance/api/testing/auth/AuthenticationService.java:61-114 | any failure leaves both fields unchanged |
| TokenCache.SingleMissingCredentialsFail | src/main/java/com/insurance/api/testing/auth/AuthenticationService.java:67-72 | a null client id or secret fails before any request |
| TokenCache.SingleSuccessStores | src/main/java/com/insurance/api/testing/auth/AuthenticationService.java:113-114 | a fetch stores the non-empty token with expiry now + 3,300,000 |
| TokenCache.SingleInvalidatedRefetches | src/main/java/com/insurance/api/testing/auth/AuthenticationService.java:123-127 | from the invalidated state (null, 0), the next call always sends a request |
| WfldAuth.AuthenticationService.constructor | src/main/java/com/wfld/testing/api/auth/AuthenticationService.java:23-42 | a new service has an empty cache |
| WfldAuth.AuthenticationService.GetAccessToken | src/main/java/com/wfld/testing/api/auth/AuthenticationService.java:77-157 | token, request and new cache are those of TokenCache.GetAccessToken on the old cache; cached tokens stay non-empty |
| WfldAuth.AuthenticationService.GetAccessTokenDefault | src/main/java/com/wfld/testing/api/auth/AuthenticationService.java:56-58 | the same as no scopes, no bypass |
| WfldAuth.AuthenticationService.GetAccessTokenFor | src/main/java/com/wfld/testing/api/auth/AuthenticationService.java:66-68 | the same as the given scopes, no bypass |
| WfldAuth.AuthenticationService.InvalidateToken | src/main/java/com/wfld/testing/api/auth/AuthenticationService.java:181-187 | removes exactly the canonical key of the scopes |
| WfldAuth.AuthenticationService.InvalidateAllTokens | src/main/java/com/wfld/testing/api/auth/AuthenticationService.java:192-195 | leaves the cache empty |
| WfldAuth.AuthenticationService.InvalidateDefaultToken | src/main/java/com/wfld/testing/api/auth/AuthenticationService.java:202-204 | removes exactly the key "" |
| WfldAuth.CachedAcrossScopeOrder | src/main/java/com/wfld/testing/api/auth/AuthenticationService.java:166-174 | a token fetched for [read, write] is served for [write, read] with no second request |
| WfldAuth.RejectedExchangeCachesNothing | src/main/java/com/wfld/testing/api/auth/AuthenticationService.java:136-142 | a 401 fails with that status, and the next call sends a request again |
| WestfieldAuth.AuthenticationService.constructor | src/main/java/com/westfieldgrp/testing/api/auth/AuthenticationService.java:29-49 | a new service has an empty cache |
| WestfieldAuth.AuthenticationService.GetAccessToken | src/main/java/com/westfieldgrp/testing/api/auth/AuthenticationService.java:95-186 | token, request and new cache are those of TokenCache.GetAccessToken, with the parse, missing or null node, and empty-text branches taken separately |
| WestfieldAuth.AuthenticationService.GetAccessTokenDefault | src/main/java/com/westfieldgrp/testing/api/auth/AuthenticationService.java:74-76 | the same as no scopes, no bypass |
| WestfieldAuth.AuthenticationService.GetAccessTokenFor | src/main/java/com/westfieldgrp/testing/api/auth/AuthenticationService.java:84-86 | the same as the given scopes, no bypass |
| WestfieldAuth.AuthenticationService.InvalidateToken | src/main/java/com/westfieldgrp/testing/api/auth/AuthenticationService.java:210-216 | removes exactly the canonical key of the scopes |
| WestfieldAuth.AuthenticationService.InvalidateAllTokens | src/main/java/com/westfieldgrp/testing/api/auth/AuthenticationService.java:221-224 | leaves the cache empty |
| WestfieldAuth.AuthenticationService.InvalidateDefaultToken | src/main/java/com/westfieldgrp/testing/api/auth/AuthenticationService.java:231-233 | removes exactly the key "" |
| WestfieldAuth.FormEntries | src/main/java/com/westfieldgrp/testing/api/auth/AuthenticationService.java:248-250 | definition: entry i is key_i + "=" + encode(value_i) (properties in FormDataSeparators and BuildFormData) |
| WestfieldAuth.FormDataExtend | src/main/java/com/westfieldgrp/testing/api/auth/AuthenticationService.java:244-252 | each entry appends "&" (none before the first) and then the entry |
| WestfieldAuth.BuildFormData | src/main/java/com/westfieldgrp/testing/api/auth/AuthenticationService.java:241-254 | the loop with the first flag yields the "&"-join of the encoded entries |
| WestfieldAuth.FormDataEmptyIff | src/main/java/com/westfieldgrp/testing/api/auth/AuthenticationService.java:241-254 | the body is empty iff there are no entries |
| WestfieldAuth.FormDataSeparators | src/main/java/com/westfieldgrp/testing/api/auth/AuthenticationService.java:241-254 | with "&"-free keys and encoded values, n entries give exactly n-1 "&", with none first or last |
| WestfieldAuth.FormDataEnds | src/main/java/com/westfieldgrp/testing/api/auth/AuthenticationService.java:245-250 | a join of non-empty pieces starts with the first piece and ends with the last |
| InsuranceAuth.AuthenticationService.constructor | src/main/java/com/insurance/api/testing/auth/AuthenticationService.java:21-26 | a new service holds (null, 0) |
| InsuranceAuth.AuthenticationService.GetAccessToken | src/main/java/com/insurance/api/testing/auth/AuthenticationService.java:50-118 | token, request and new fields are those of TokenCache.SingleGetAccessToken on the old fields |
| InsuranceAuth.AuthenticationService.GetAccessTokenDefault | src/main/java/com/insurance/api/testing/auth/AuthenticationService.java:40-42 | the same as the empty scope array |
| InsuranceAuth.AuthenticationService.InvalidateToken | src/main/java/com/insurance/api/testing/auth/AuthenticationService.java:123-127 | cachedToken is null and tokenExpiryTime is 0 |
| InsuranceAuth.TokenSharedAcrossScopes | src/main/java/com/insurance/api/testing/auth/AuthenticationService.java:53-127 | a token fetched for [read] is served for [admin, write]; after invalidation the next call sends a request |
| ScopeResolution.FindTestMethod | src/main/java/com/wfld/testing/api/BaseApiTest.java:274-285 | definition: no method exactly for a null TestInfo or an absent test method; otherwise TestInfo's method (property in NoTestMethodMeansClassOnly) |
| ScopeResolution.FirstDeclaredIsFirst | src/main/java/com/wfld/testing/api/BaseApiTest.java:236-266 | the reference rule: empty iff no level supplies scopes, else the value of the first level that does |
| ScopeResolution.ExtractIsFirstDeclared | src/main/java/com/westfieldgrp/testing/api/BaseApiTest.java:313-343 | extractScopesFromAnnotation is the first-supplying-level rule over [method, class] |
| ScopeResolution.ClassScopesIsFirstDeclared | src/test/java/com/insurance/api/testing/BaseApiTest.java:122-135 | the class-only resolver is the same rule over [class] |
| ScopeResolution.MethodScopesWin | src/main/java/com/wfld/testing/api/BaseApiTest.java:241-251 | a non-empty method value is returned as is, whatever the class says |
| ScopeResolution.EmptyMethodValueFallsThrough | src/main/java/com/wfld/testing/api/BaseApiTestPlaywrightExample.java:234-254 | a method annotation with an empty value (or none) leaves the class level to decide |
| ScopeResolution.EmptyIffNoneDeclared | src/main/java/com/westfieldgrp/testing/api/BaseApiTest.java:318-342 | the result is the empty array iff neither level supplies scopes |
| ScopeResolution.NoTestMethodMeansClassOnly | src/main/java/com/westfieldgrp/testing/api/BaseApiTest.java:351-354 | a null TestInfo and a missing method both consult only the class, for scopes and for bypass |
| ScopeResolution.BypassIff | src/main/java/com/wfld/testing/api/BaseApiTestPlaywrightExample.java:273-291 | bypass iff @BypassTokenCache is on the method or on the class |
| ScopeResolution.ClassScopesCases | src/test/java/com/insurance/api/testing/BaseApiTest.java:123-134 | a present non-empty class value is returned exactly, else the empty array |
| ScopeResolution.ResolvedIndependently | src/main/java/com/wfld/testing/api/BaseApiTest.java:57-61 | scopes ignore @BypassTokenCache, and bypass ignores @OAuthScopes |
| TestSetup.BearerHeader | src/main/java/com/wfld/testing/api/BaseApiTest.java:71 | the header is "Bearer " followed by exactly the token |
| TestSetup.BearerHeaderInjective | src/main/java/com/westfieldgrp/testing/api/BaseApiTest.java:72 | distinct tokens give distinct headers |
| TestSetup.Authorization | src/main/java/com/wfld/testing/api/BaseApiTest.java:57-71 | definition: a header exactly when a token was obtained; otherwise the same exception (property in BearerHeaderInjective) |
| TestSetup.WfldSetUpTest | src/main/java/com/wfld/testing/api/BaseApiTestPlaywrightExample.java:67-79 | the token is requested with the resolved (scopes, bypass); the header and the new cache follow TokenCache.GetAccessToken |
| TestSetup.WestfieldSetUpTest | src/main/java/com/westfieldgrp/testing/api/BaseApiTest.java:60-72 | the same for the westfieldgrp service |
| TestSetup.InsuranceSetUpTest | src/test/java/com/insurance/api/testing/BaseApiTest.java:51-60 | the token is requested with the class-level scopes and no bypass; the header and new fields follow TokenCache.SingleGetAccessToken |
| Csv.Scan | src/main/java/com/wfld/testing/api/template/TemplateService.java:414-443 | every line yields at least one field |
| Csv.ParseCsvLine | src/main/java/com/wfld/testing/api/template/TemplateService.java:414-444 | the loop with its manual skip over "" yields ParseLine(line) |
| Csv.ScanTrimmed | src/main/java/com/wfld/testing/api/template/TemplateService.java:433-441 | every emitted field is trimmed |
| Csv.ScanFieldCount | src/main/java/com/wfld/testing/api/template/TemplateService.java:414-443 | from any quote state, scanning gives one field more than the commas outside quotes, with "" inside quotes flipping the state twice |
| Csv.ParseLineShape | src/main/java/com/wfld/testing/api/template/TemplateService.java:414-443 | a line of any mix of quoted and unquoted text gives exactly (commas outside quotes) + 1 fields, each trimmed |
| Csv.ScanQuoteFree | src/main/java/com/wfld/testing/api/template/TemplateService.java:431-437 | outside quotes and with no quote left, scanning splits at commas |
| Csv.QuoteFreeLineIsSplit | src/main/java/com/wfld/testing/api/template/TemplateService.java:431-441 | a quote-free line gives its trimmed comma-separated pieces, one more field than commas |
| Csv.ScanEscaped | src/main/java/com/wfld/testing/api/template/TemplateService.java:422-426 | inside quotes, a field with its quotes doubled reads back as the field itself |
| Csv.ScanQuoted | src/main/java/com/wfld/testing/api/template/TemplateService.java:422-430 | a quoted field followed by a comma or the end reads back as its content |
| Csv.QuotedLineRoundTrip | src/main/java/com/wfld/testing/api/template/TemplateService.java:414-444 | quoting each field, doubling its quotes, and joining with commas parses back to the trimmed fields, whatever commas and quotes they hold |
| Csv.Fit | src/main/java/com/wfld/testing/api/template/TemplateService.java:380-387 | width exactly the header's; value j, or "" past the row's end |
| Csv.FitValues | src/main/java/com/wfld/testing/api/template/TemplateService.java:375-388 | the padding loop and the truncation yield Fit |
| Csv.BuildRowMap | src/main/java/com/wfld/testing/api/template/TemplateService.java:390-393 | the put loop yields RowMap |
| Csv.ParseCsv | src/main/java/com/wfld/testing/api/template/TemplateService.java:346-402 | the line loop yields ParseCsvSpec: first non-blank line as header, one row per later non-blank line |
| Csv.NonBlankLinesAppend | src/main/java/com/wfld/testing/api/template/TemplateService.java:356-362 | the kept lines of a concatenation are the concatenation of the kept lines |
| Csv.BlankLineIgnored | src/main/java/com/wfld/testing/api/template/TemplateService.java:357-362 | inserting a blank line anywhere leaves the rows unchanged |
| Csv.RowCount | src/main/java/com/wfld/testing/api/template/TemplateService.java:366-397 | rows = non-blank lines - 1, or 0 when there are none |
| Csv.RowMapKeys | src/main/java/com/wfld/testing/api/template/TemplateService.java:390-393 | a row's keys are exactly the headers |
| Csv.RowMapValue | src/main/java/com/wfld/testing/api/template/TemplateService.java:390-393 | a header maps to the value in the column of its last occurrence |
| Csv.RowKeysAreHeaders | src/main/java/com/wfld/testing/api/template/TemplateService.java:375-394 | every row has exactly the header set as keys |
| Csv.RowCellFollowsColumn | src/main/java/com/wfld/testing/api/template/TemplateService.java:375-394 | the cell under a header at its last column j is field j of the line, or "" when the line is shorter |
| TemplateService.LoadedAtMostOnce | src/main/java/com/wfld/testing/api/template/TemplateService.java:196-208 | once loaded, a template is served from the cache whatever the classpath then holds |
| TemplateService.ComputeIfAbsentFrame | src/main/java/com/wfld/testing/api/template/TemplateService.java:196-208 | a failed load caches nothing; a success caches only the requested path |
| TemplateService.BuildContext | src/main/java/com/wfld/testing/api/template/TemplateService.java:95-106 | the pairwise loop yields ContextOf(args): odd count, then non-String key, are rejected |
| TemplateService.ContextOfAccepts | src/main/java/com/wfld/testing/api/template/TemplateService.java:96-104 | arguments are accepted iff they come in pairs with String keys; an odd count fails as such |
| TemplateService.PairsKeys | src/main/java/com/wfld/testing/api/template/TemplateService.java:100-106 | the map's keys are the keys given |
| TemplateService.PairsLaterWins | src/main/java/com/wfld/testing/api/template/TemplateService.java:180-185 | a key maps to the value after its last occurrence |
| TemplateService.MergeContext | src/main/java/com/wfld/testing/api/template/TemplateService.java:147-150 | keys are the union; on a clash the additional context wins; null adds nothing |
| TemplateService.TemplateService.constructor | src/main/java/com/wfld/testing/api/template/TemplateService.java:31-42 | a new service has an empty template cache |
| TemplateService.TemplateService.GetTemplate | src/main/java/com/wfld/testing/api/template/TemplateService.java:196-208 | the result and the new cache are those of ComputeIfAbsent |
| TemplateService.TemplateService.Render | src/main/java/com/wfld/testing/api/template/TemplateService.java:65-84 | the result and the new cache are those of RenderSpec |
| TemplateService.TemplateService.RenderArgs | src/main/java/com/wfld/testing/api/template/TemplateService.java:95-109 | the argument checks, then RenderSpec with the built map |
| TemplateService.TemplateService.RenderWithData | src/main/java/com/wfld/testing/api/template/TemplateService.java:126-162 | the result and the new cache are those of RenderWithDataSpec |
| TemplateService.TemplateService.RenderWithDataArgs | src/main/java/com/wfld/testing/api/template/TemplateService.java:174-188 | the argument checks, then RenderWithDataSpec with the built map |
| TemplateService.TemplateService.ClearCache | src/main/java/com/wfld/testing/api/template/TemplateService.java:228-231 | the cache is empty |
| TemplateService.TemplateService.ClearCachePath | src/main/java/com/wfld/testing/api/template/TemplateService.java:238-242 | only that path is removed |
| TemplateService.TemplateService.GetCacheSize | src/main/java/com/wfld/testing/api/template/TemplateService.java:249-251 | the number of cached paths |
| TemplateService.TemplateService.LoadCsvAsList | src/main/java/com/wfld/testing/api/template/TemplateService.java:316-337 | blank path and missing file rejected; otherwise the rows parseCsv gives |
| TemplateService.TemplateService.LoadCsvAsMap | src/main/java/com/wfld/testing/api/template/TemplateService.java:263-295 | equals LoadCsvAsMapSpec: the checks in order, then the row |
| TemplateService.TemplateService.LoadCsvAsMapFirst | src/main/java/com/wfld/testing/api/template/TemplateService.java:305-307 | the same as row index 0 |
| TemplateService.BlankTemplatePathRejected | src/main/java/com/wfld/testing/api/template/TemplateService.java:66-68 | a null or blank template path fails before the cache is touched |
| TemplateService.FailedMergeKeepsTemplate | src/main/java/com/wfld/testing/api/template/TemplateService.java:70-83 | after a render the path is cached iff it was cached or loadable, even when the merge fails; an unloadable template is reported as not found |
| TemplateService.RenderUsesContext | src/main/java/com/wfld/testing/api/template/TemplateService.java:216-222 | the engine sees the caller's context, or an empty one for null |
| TemplateService.OddArgumentsRejectedFirst | src/main/java/com/wfld/testing/api/template/TemplateService.java:96-98 | an odd argument list fails first, whatever the paths, and leaves the cache |
| TemplateService.BlankDataPathRejected | src/main/java/com/wfld/testing/api/template/TemplateService.java:127-129 | a null or blank data path fails before the template path is looked at |
| TemplateService.RenderWithDataIsMergedRender | src/main/java/com/wfld/testing/api/template/TemplateService.java:141-161 | a parsed data file renders as the merged context renders, errors wrapped |
| TemplateService.CsvMapIsListElement | src/main/java/com/wfld/testing/api/template/TemplateService.java:275-288 | loadCsvAsMap succeeds iff the index is within loadCsvAsList's rows, and then gives that row |
| TemplateService.CsvMapRejections | src/main/java/com/wfld/testing/api/template/TemplateService.java:264-285 | a blank path, no data rows, and an index out of [0, rows) are rejected with their own errors |
| TemplateService.RenderTwiceLoadsOnce | src/main/java/com/wfld/testing/api/template/TemplateService.java:196-251 | two renders of one path leave one cached template; removing it leaves none |

## Left out

- The HTTP token exchange (RestAssured and Playwright) is a function parameter from request to response. Base URI handling and the westfieldgrp URL `baseUrl + tokenEndpoint` (which reads "null…" for an unset base URL) are not modelled beyond recording both strings in the request.
- Jackson and `jsonPath` parsing are abstracted to "not JSON" or the `access_token` member (absent, JSON null, or a node's text). The text of a non-string node is whatever `asText` gives, and is taken as given.
- `URLEncoder.encode` is an opaque function parameter of `WestfieldAuth.BuildFormData`. HashMap iteration order is its entry sequence. The service records the form as a map and does not route it through `BuildFormData`.
- `TokenCache.GetAccessToken`: the source reads the clock twice (for `isValid` and for the expiry), while the model uses one instant `now` for both.
- `TokenCache.SingleGetAccessToken`: the same simplification. The com.insurance service reads the clock once for the hit test and again for the new expiry; the model uses one `now`.
- `ScopeKey.CreateScopeKey`: `String.compareTo` compares UTF-16 code units, and the model compares Dafny characters, so the order can differ for characters outside the Basic Multilingual Plane. Null elements inside a scope array are not modelled.
- The `long` expiry arithmetic is unbounded here; overflow near `Long.MAX_VALUE` is not modelled.
- Singleton `getInstance`, `synchronized` and `ConcurrentHashMap` thread safety are left out: the model is sequential.
- Reflection (`getAnnotation`, `TestInfo`) is replaced by annotation data. `findTestMethod`'s catch of an exception from `Optional.get` cannot fire after the emptiness check and is not modelled.
- Building request and response specifications, Playwright contexts, teardown and logging are test-runner glue and are left out.
- `TestConfig.GetTestTimeout` and `TestConfig.GetTestConnectionTimeout` return the property string; `Integer.parseInt` and its `NumberFormatException` are left out. Loading `application.properties` is file I/O: the two layers are given as maps.
- The com.insurance TestConfig is not part of this model. The com.wfld TestConfig stands in for it.
- The com.westfieldgrp TestConfig, which the westfieldgrp AuthenticationService and BaseApiTest import, is not part of this model either. `WestfieldAuth` uses the com.wfld TestConfig in its place.
- Velocity: engine set-up, template parsing and `merge` are opaque (`Template`, and a `Merge` function parameter). The classpath is a value, and reading a CSV file into lines (`readLine`'s line terminators) is not modelled.
- `Csv.ParseCsv`: the `headers == null` exception cannot be reached, because the first kept line always sets the headers, so it is not modelled. An I/O failure while reading, and the wrapping of such failures as "Failed to load or parse CSV file", are left out.
- `TemplateService.RenderWithDataSpec`: a data file holding the JSON literal `null` (a null map copied into a HashMap) is not modelled: a data file is either a JSON object or unparseable. A null varargs array is not modelled either.
- `TemplateService.TemplateService.ClearCachePath`: `ConcurrentHashMap.remove(null)` throws, and that case is not modelled because the path is a string.
