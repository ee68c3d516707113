/** The environment configuration of src/config/env.js: the two base URLs
    and the helpers that join a base URL and an endpoint path.
    The build-time environment variable (`VITE_BACKEND_URL`,
    `VITE_AGENT_URL`) is a parameter: `None` when it is not set. */
module Env {
  import opened Wrappers
  import opened Strings

  const DefaultBackendUrl: string := "http://localhost:3001"
  const DefaultAgentUrl: string := "http://localhost:8000"

  /** `variable || fallback`: an unset or empty variable selects the fallback. */
  function BaseUrl(variable: Option<string>, fallback: string): (r: string)
    ensures variable.Some? && variable.value != "" ==> r == variable.value
    ensures variable.None? || variable.value == "" ==> r == fallback
  {
    match variable
    case Some(v) => if v != "" then v else fallback
    case None => fallback
  }

  /** `${base}${endpoint.startsWith('/') ? endpoint : `/${endpoint}`}`.
      The result starts with the base, what follows the base starts with
      exactly the one slash the endpoint may lack, and it ends with the
      endpoint itself: nothing of the base or the endpoint is dropped. */
  function JoinUrl(base: string, endpoint: string): (r: string)
    ensures base <= r
    ensures StartsWith(r[|base|..], "/")
    ensures |r| == |base| + |endpoint| + (if StartsWith(endpoint, "/") then 0 else 1)
    ensures r[|r| - |endpoint|..] == endpoint
  {
    base + (if StartsWith(endpoint, "/") then endpoint else "/" + endpoint)
  }

  /** `config.getBackendUrl(endpoint)` */
  function GetBackendUrl(variable: Option<string>, endpoint: string): (r: string)
    ensures BaseUrl(variable, DefaultBackendUrl) <= r
  {
    JoinUrl(BaseUrl(variable, DefaultBackendUrl), endpoint)
  }

  /** `config.getAgentUrl(endpoint)` */
  function GetAgentUrl(variable: Option<string>, endpoint: string): (r: string)
    ensures BaseUrl(variable, DefaultAgentUrl) <= r
  {
    JoinUrl(BaseUrl(variable, DefaultAgentUrl), endpoint)
  }

  /** The two cases of the join, read off its contract: an endpoint that
      starts with a slash is appended as it is, any other one after a slash. */
  lemma JoinUrlCases(base: string, endpoint: string)
    ensures StartsWith(endpoint, "/") ==> JoinUrl(base, endpoint) == base + endpoint
    ensures !StartsWith(endpoint, "/") ==> JoinUrl(base, endpoint) == base + "/" + endpoint
  {
    var r := JoinUrl(base, endpoint);
    var tail := r[|base|..];
    assert r == base + tail;
    if StartsWith(endpoint, "/") {
      assert tail == r[|r| - |endpoint|..];
    } else {
      assert tail == [tail[0]] + tail[1..];
      assert tail[1..] == r[|r| - |endpoint|..];
      assert base + "/" + endpoint == base + ("/" + endpoint);
    }
  }

  /** Writing the leading slash or leaving it out names the same URL. */
  lemma LeadingSlashOptional(variable: Option<string>, endpoint: string)
    requires !StartsWith(endpoint, "/")
    ensures GetBackendUrl(variable, endpoint) == GetBackendUrl(variable, "/" + endpoint)
    ensures GetAgentUrl(variable, endpoint) == GetAgentUrl(variable, "/" + endpoint)
  {
    var b := BaseUrl(variable, DefaultBackendUrl);
    var a := BaseUrl(variable, DefaultAgentUrl);
    JoinUrlCases(b, endpoint);
    JoinUrlCases(b, "/" + endpoint);
    JoinUrlCases(a, endpoint);
    JoinUrlCases(a, "/" + endpoint);
  }

  /** The empty endpoint, which the axios clients use for their `baseURL`,
      gives the base followed by one slash. */
  lemma EmptyEndpoint(base: string)
    ensures JoinUrl(base, "") == base + "/"
  {
    JoinUrlCases(base, "");
  }

  /** A trailing slash on the base and the endpoint's own leading slashes
      are kept: joining never collapses "//". */
  lemma SlashesKept(base: string, endpoint: string)
    requires base != [] && base[|base| - 1] == '/'
    requires StartsWith(endpoint, "/")
    ensures JoinUrl(base, endpoint)[|base| - 1..|base| + 1] == "//"
  {
    JoinUrlCases(base, endpoint);
    var r := JoinUrl(base, endpoint);
    assert r[|base| - 1] == '/' && r[|base|] == endpoint[0];
  }

  /** Without the variables the helpers join onto the local defaults. */
  lemma DefaultBases(endpoint: string)
    ensures GetBackendUrl(None, endpoint) == JoinUrl("http://localhost:3001", endpoint)
    ensures GetAgentUrl(None, endpoint) == JoinUrl("http://localhost:8000", endpoint)
    ensures GetBackendUrl(Some(""), endpoint) == GetBackendUrl(None, endpoint)
  {
  }
}
