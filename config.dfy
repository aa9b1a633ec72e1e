/** The app's fixed configuration record and its URL helper. */
module Config {

  const BACKEND_URL: string := "http://localhost:5000"

  /** Request timeout in milliseconds. */
  const API_TIMEOUT: nat := 10000

  const APP_NAME: string := "OnCall"

  const AUTH_TOKEN_KEY: string := "token"

  const USER_PROFILE_KEY: string := "user_profile"

  /** `getApiUrl(endpoint)`: the base URL followed by the endpoint, joined
      without inserting or removing any slash. */
  function GetApiUrl(endpoint: string): (url: string)
    ensures |url| == |BACKEND_URL| + |endpoint|
    ensures url[..|BACKEND_URL|] == BACKEND_URL
    ensures url[|BACKEND_URL|..] == endpoint
  {
    BACKEND_URL + endpoint
  }

  /** Distinct endpoints give distinct URLs. */
  lemma GetApiUrlInjective(a: string, b: string)
    requires GetApiUrl(a) == GetApiUrl(b)
    ensures a == b
  {
    assert a == GetApiUrl(a)[|BACKEND_URL|..];
  }

  /** No slash normalisation: an endpoint without a leading slash is glued
      onto the port number. */
  lemma GetApiUrlNoSlashInserted()
    ensures GetApiUrl("health") == "http://localhost:5000health"
    ensures GetApiUrl("/health") == "http://localhost:5000/health"
  {
  }
}
