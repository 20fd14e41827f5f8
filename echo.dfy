/**
 * The pure derivations made while building the push-channel client
 * (src/plugins/echo.ts, createSocket): the authorization endpoint derived
 * from the API base URL, the bearer header and the TLS flag. Environment
 * variables are parameters; an unset variable is the empty string, which
 * `||` treats the same way.
 */
module Echo {

  const BROADCAST_AUTH := "/broadcasting/auth"
  const API_BROADCAST_AUTH := "/api/broadcasting/auth"

  /** The build-time settings createSocket reads; "" stands for unset. */
  datatype SocketEnv = SocketEnv(host: string, key: string, scheme: string, apiUrl: string)

  /** The settings handed to the push client. */
  datatype SocketConfig = SocketConfig(
    key: string,
    host: string,
    forceTLS: bool,
    authEndpoint: string,
    authHeaders: map<string, string>)

  predicate EndsWith(s: string, suffix: string)
  {
    |suffix| <= |s| && s[|s| - |suffix|..] == suffix
  }

  /** A string of `n` slashes. */
  function Slashes(n: nat): (r: string)
    ensures |r| == n
    ensures forall i :: 0 <= i < n ==> r[i] == '/'
  {
    if n == 0 then "" else Slashes(n - 1) + "/"
  }

  /**
   * `s.replace(/\/+$/, '')`: the longest prefix of `s` that does not end in
   * a slash; everything after it is slashes.
   */
  function StripTrailingSlashes(s: string): (r: string)
    ensures |r| <= |s| && r == s[..|r|]
    ensures forall i :: |r| <= i < |s| ==> s[i] == '/'
    ensures r == "" || r[|r| - 1] != '/'
    decreases |s|
  {
    if |s| > 0 && s[|s| - 1] == '/' then StripTrailingSlashes(s[..|s| - 1]) else s
  }

  /** The two characterising properties single out the stripped string. */
  lemma StripTrailingSlashesUnique(s: string, r: string)
    requires |r| <= |s| && r == s[..|r|]
    requires forall i :: |r| <= i < |s| ==> s[i] == '/'
    requires r == "" || r[|r| - 1] != '/'
    ensures r == StripTrailingSlashes(s)
  {
  }

  /** Stripping is idempotent. */
  lemma StripTrailingSlashesIdempotent(s: string)
    ensures StripTrailingSlashes(StripTrailingSlashes(s)) == StripTrailingSlashes(s)
  {
  }

  /** Any number of extra trailing slashes on the base is ignored. */
  lemma {:induction false} StripIgnoresExtraSlashes(base: string, n: nat)
    ensures StripTrailingSlashes(base + Slashes(n)) == StripTrailingSlashes(base)
    decreases n
  {
    if n > 0 {
      var s := base + Slashes(n);
      assert s == (base + Slashes(n - 1)) + "/";
      assert s[|s| - 1] == '/';
      assert s[..|s| - 1] == base + Slashes(n - 1);
      assert StripTrailingSlashes(s) == StripTrailingSlashes(s[..|s| - 1]);
      StripIgnoresExtraSlashes(base, n - 1);
    } else {
      assert base + Slashes(n) == base;
    }
  }

  /** The `authEndpoint` createSocket derives from `VITE_API_URL`. */
  function AuthEndpoint(apiUrl: string): (r: string)
    ensures EndsWith(StripTrailingSlashes(apiUrl), "/api") <==>
              r == StripTrailingSlashes(apiUrl) + BROADCAST_AUTH
    ensures !EndsWith(StripTrailingSlashes(apiUrl), "/api") <==>
              r == StripTrailingSlashes(apiUrl) + API_BROADCAST_AUTH
  {
    var base := StripTrailingSlashes(apiUrl);
    if EndsWith(base, "/api") then base + BROADCAST_AUTH else base + API_BROADCAST_AUTH
  }

  /**
   * Whatever the base, the endpoint ends in "/api/broadcasting/auth". When the
   * stripped base already ends in "/api", the part before that suffix is the base
   * without its "/api"; otherwise it is the whole base. So "/api" is never doubled.
   */
  lemma AuthEndpointSuffix(apiUrl: string)
    ensures EndsWith(AuthEndpoint(apiUrl), API_BROADCAST_AUTH)
    ensures var r := AuthEndpoint(apiUrl);
            var base := StripTrailingSlashes(apiUrl);
            && (EndsWith(base, "/api") ==> r[..|r| - |API_BROADCAST_AUTH|] + "/api" == base)
            && (!EndsWith(base, "/api") ==> r[..|r| - |API_BROADCAST_AUTH|] == base)
  {
    var base := StripTrailingSlashes(apiUrl);
    var r := AuthEndpoint(apiUrl);
    if EndsWith(base, "/api") {
      var head := base[..|base| - 4];
      assert base == head + "/api";
      assert r == head + API_BROADCAST_AUTH;
      assert r[..|r| - |API_BROADCAST_AUTH|] == head;
      assert r[|r| - |API_BROADCAST_AUTH|..] == API_BROADCAST_AUTH;
    } else {
      assert r == base + API_BROADCAST_AUTH;
      assert r[..|r| - |API_BROADCAST_AUTH|] == base;
      assert r[|r| - |API_BROADCAST_AUTH|..] == API_BROADCAST_AUTH;
    }
  }

  /** Trailing slashes on the API base never change the endpoint. */
  lemma AuthEndpointIgnoresTrailingSlashes(apiUrl: string, n: nat)
    ensures AuthEndpoint(apiUrl + Slashes(n)) == AuthEndpoint(apiUrl)
  {
    StripIgnoresExtraSlashes(apiUrl, n);
  }

  /** `auth.headers`: a bearer Authorization header exactly when a token is given. */
  function AuthHeaders(token: string): (r: map<string, string>)
    ensures "Authorization" in r <==> token != ""
    ensures token != "" ==> r["Authorization"] == "Bearer " + token
    ensures r.Keys <= {"Authorization"}
    ensures token == "" ==> r == map[]
  {
    if token != "" then map["Authorization" := "Bearer " + token] else map[]
  }

  /** `forceTLS: scheme === 'https'` with `scheme = VITE_WEBSOCKETS_SCHEME || 'http'`. */
  function ForceTls(envScheme: string): (r: bool)
    ensures r <==> envScheme == "https"
  {
    (if envScheme != "" then envScheme else "http") == "https"
  }

  /** The configuration createSocket hands to the push client for a token. */
  function CreateSocket(env: SocketEnv, token: string): (c: SocketConfig)
    ensures c.authEndpoint == AuthEndpoint(env.apiUrl)
    ensures c.authHeaders == AuthHeaders(token)
    ensures c.forceTLS <==> env.scheme == "https"
    ensures c.host == (if env.host != "" then env.host else "localhost")
    ensures c.key == (if env.key != "" then env.key else "local")
    ensures c.host != "" && c.key != ""
  {
    SocketConfig(
      if env.key != "" then env.key else "local",
      if env.host != "" then env.host else "localhost",
      ForceTls(env.scheme),
      AuthEndpoint(env.apiUrl),
      AuthHeaders(token))
  }
}
