/** The two HTTP requests the plugin issues per endpoint
    (plugins/inputs/arangodb/arangodb.go, lines 68-69, 105, 111, 137-138). */
module Requests {
  import opened Results
  import opened ArangoTypes

  const LoginPostfix: string := "/_open/auth"
  const StatsPostfix: string := "/_admin/statistics"
  const BearerPrefix: string := "Bearer "

  /** A parsed endpoint URL; `text` is what u.String() renders. url.Parse
      itself is outside the model. */
  datatype Url = Url(text: string)

  /** The configured credentials. */
  datatype Credentials = Credentials(username: string, password: string)

  datatype Method = Post | Get

  /** An HTTP request as handed to the client: method, target, the
      Authorization header if set, and the JSON body if any. */
  datatype Request = Request(
    verb: Method,
    target: string,
    authorization: Option<string>,
    body: Option<LoginRequest>)

  /** `t` with `suffix` removed from its end, if it ends with it. */
  function StripSuffix(t: string, suffix: string): (r: Option<string>)
    ensures r.Some? <==> |suffix| <= |t| && t[|t| - |suffix|..] == suffix
    ensures r.Some? ==> r.value + suffix == t
  {
    if |suffix| <= |t| && t[|t| - |suffix|..] == suffix then
      assert t[..|t| - |suffix|] + t[|t| - |suffix|..] == t;
      Some(t[..|t| - |suffix|])
    else None
  }

  /** `h` with `prefix` removed from its front, if it starts with it. */
  function StripPrefix(h: string, prefix: string): (r: Option<string>)
    ensures r.Some? <==> |prefix| <= |h| && h[..|prefix|] == prefix
    ensures r.Some? ==> prefix + r.value == h
  {
    if |prefix| <= |h| && h[..|prefix|] == prefix then
      assert h[..|prefix|] + h[|prefix|..] == h;
      Some(h[|prefix|..])
    else None
  }

  /** The login target: the endpoint's rendering followed by the login postfix. */
  function LoginTarget(base: string): (t: string)
    ensures StripSuffix(t, LoginPostfix) == Some(base)
  {
    var t := base + LoginPostfix;
    assert t[|t| - |LoginPostfix|..] == LoginPostfix;
    assert t[..|t| - |LoginPostfix|] == base;
    t
  }

  /** The statistics target: the endpoint's rendering followed by the stats postfix. */
  function StatsTarget(base: string): (t: string)
    ensures StripSuffix(t, StatsPostfix) == Some(base)
  {
    var t := base + StatsPostfix;
    assert t[|t| - |StatsPostfix|..] == StatsPostfix;
    assert t[..|t| - |StatsPostfix|] == base;
    t
  }

  /** The Authorization header value: the token verbatim after "Bearer ". */
  function AuthHeader(jwt: string): (h: string)
    ensures StripPrefix(h, BearerPrefix) == Some(jwt)
  {
    var h := BearerPrefix + jwt;
    assert h[..|BearerPrefix|] == BearerPrefix;
    assert h[|BearerPrefix|..] == jwt;
    h
  }

  /** The token a server reads back out of an Authorization header. */
  function TokenOf(header: string): Option<string> {
    StripPrefix(header, BearerPrefix)
  }

  /** The header carries the token unencoded, both ways round: a header yields
      a token exactly when it is the header built from that token. */
  lemma AuthHeaderRoundTrip(header: string, jwt: string)
    ensures TokenOf(header) == Some(jwt) <==> header == AuthHeader(jwt)
  {
    if TokenOf(header) == Some(jwt) {
      assert BearerPrefix + jwt == header;
    }
  }

  /** A target determines its endpoint: different endpoints never share a
      login or a statistics target. */
  lemma TargetsInjective(a: string, b: string)
    ensures LoginTarget(a) == LoginTarget(b) <==> a == b
    ensures StatsTarget(a) == StatsTarget(b) <==> a == b
  {
    if LoginTarget(a) == LoginTarget(b) {
      assert StripSuffix(LoginTarget(a), LoginPostfix) == Some(a);
    }
    if StatsTarget(a) == StatsTarget(b) {
      assert StripSuffix(StatsTarget(a), StatsPostfix) == Some(a);
    }
  }

  /** No login target is ever a statistics target, whatever the two endpoints. */
  lemma {:induction false} LoginNeverStats(a: string, b: string)
    ensures LoginTarget(a) != StatsTarget(b)
  {
    var l := LoginTarget(a);
    var s := StatsTarget(b);
    assert l[|l| - 1] == 'h';
    assert s[|s| - 1] == 's';
  }

  /** The login request: POST of the credentials to the login target. */
  function LoginRequestFor(u: Url, creds: Credentials): (r: Request)
    ensures r.verb == Post && r.authorization == None
    ensures StripSuffix(r.target, LoginPostfix) == Some(u.text)
    ensures r.body == Some(LoginRequest(creds.username, creds.password))
  {
    Request(Post, LoginTarget(u.text), None, Some(LoginRequest(creds.username, creds.password)))
  }

  /** The statistics request: a bodiless GET of the stats target, authorised by the token. */
  function StatsRequestFor(u: Url, jwt: string): (r: Request)
    ensures r.verb == Get && r.body == None
    ensures StripSuffix(r.target, StatsPostfix) == Some(u.text)
    ensures r.authorization.Some? && TokenOf(r.authorization.value) == Some(jwt)
  {
    Request(Get, StatsTarget(u.text), Some(AuthHeader(jwt)), None)
  }
}
