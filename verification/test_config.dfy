/** TestConfig: a layered property lookup in which a JVM system property
    overrides the value read from application.properties, and the typed
    getters add the documented defaults. Loading the file is not modelled;
    the two layers are given as maps. */
module TestConfig {
  import opened Wrappers

  /** The two layers the getters consult. */
  datatype Config = Config(systemProperties: map<string, string>, fileProperties: map<string, string>)

  const BASE_URL_KEY := "ping.federate.base.url"
  const TOKEN_ENDPOINT_KEY := "ping.federate.token.endpoint"
  const CLIENT_ID_KEY := "ping.federate.client.id"
  const CLIENT_SECRET_KEY := "ping.federate.client.secret"
  const GRANT_TYPE_KEY := "ping.federate.grant.type"
  const API_BASE_URL_KEY := "api.base.url"
  const TEST_TIMEOUT_KEY := "test.timeout"
  const CONNECTION_TIMEOUT_KEY := "test.connection.timeout"

  const DEFAULT_TOKEN_ENDPOINT := "/as/token.oauth2"
  const DEFAULT_GRANT_TYPE := "client_credentials"
  const DEFAULT_TEST_TIMEOUT := "30000"
  const DEFAULT_CONNECTION_TIMEOUT := "10000"

  /** getProperty(key): the system property, else the file property, else null. */
  function GetProperty(c: Config, key: string): (value: Option<string>)
    ensures value == None <==> key !in c.systemProperties && key !in c.fileProperties
  {
    if key in c.systemProperties then Some(c.systemProperties[key])
    else if key in c.fileProperties then Some(c.fileProperties[key])
    else None
  }

  /** getProperty(key, defaultValue). */
  function GetPropertyOr(c: Config, key: string, default: string): (value: string)
    ensures GetProperty(c, key) == None ==> value == default
    ensures GetProperty(c, key).Some? ==> value == GetProperty(c, key).value
  {
    match GetProperty(c, key)
    case Some(v) => v
    case None => default
  }

  function GetPingFederateBaseUrl(c: Config): Option<string> { GetProperty(c, BASE_URL_KEY) }
  function GetPingFederateTokenEndpoint(c: Config): string { GetPropertyOr(c, TOKEN_ENDPOINT_KEY, DEFAULT_TOKEN_ENDPOINT) }
  function GetPingFederateClientId(c: Config): Option<string> { GetProperty(c, CLIENT_ID_KEY) }
  function GetPingFederateClientSecret(c: Config): Option<string> { GetProperty(c, CLIENT_SECRET_KEY) }
  function GetPingFederateGrantType(c: Config): string { GetPropertyOr(c, GRANT_TYPE_KEY, DEFAULT_GRANT_TYPE) }
  function GetApiBaseUrl(c: Config): Option<string> { GetProperty(c, API_BASE_URL_KEY) }
  /** getTestTimeout before Integer.parseInt. */
  function GetTestTimeout(c: Config): string { GetPropertyOr(c, TEST_TIMEOUT_KEY, DEFAULT_TEST_TIMEOUT) }
  /** getTestConnectionTimeout before Integer.parseInt. */
  function GetTestConnectionTimeout(c: Config): string { GetPropertyOr(c, CONNECTION_TIMEOUT_KEY, DEFAULT_CONNECTION_TIMEOUT) }

  /** The layered lookup is a lookup in the file layer overridden by the
      system layer. */
  lemma LayersAsOverride(c: Config, key: string)
    ensures var merged := c.fileProperties + c.systemProperties;
      GetProperty(c, key) == (if key in merged then Some(merged[key]) else None)
  {
  }

  /** With neither layer naming a key, the defaulted getters give their
      defaults and the undefaulted ones give null; in particular a missing
      client id or secret reaches the service as null. */
  lemma DefaultsWhenUnset(c: Config)
    requires c.systemProperties == map[] && c.fileProperties == map[]
    ensures GetPingFederateTokenEndpoint(c) == "/as/token.oauth2"
    ensures GetPingFederateGrantType(c) == "client_credentials"
    ensures GetTestTimeout(c) == "30000"
    ensures GetTestConnectionTimeout(c) == "10000"
    ensures GetPingFederateBaseUrl(c) == None && GetApiBaseUrl(c) == None
    ensures GetPingFederateClientId(c) == None && GetPingFederateClientSecret(c) == None
  {
  }

  /** A system property overrides both the file value and the default. */
  lemma SystemPropertyWins(c: Config, key: string, default: string)
    requires key in c.systemProperties
    ensures GetPropertyOr(c, key, default) == c.systemProperties[key]
  {
  }
}
