/**
  Client code over the handlers' contracts: a full handshake (login, the provider's
  redirect back, the callback) and the concrete login and callback situations: a
  matching handshake, a forged state, an unregistered provider.
 */
module Scenarios {
  import opened Wrappers
  import opened StateToken
  import Base64Url
  import opened Http
  import opened OAuth2
  import opened Handlers

  /** A browser logs in for `name`/`platform` at `now`; the provider sends it back at
      `later` with `code` and the state it was given, and the browser sends whatever
      cookies have not expired. */
  method Handshake(f: Factory, client: Client, name: string, platform: string,
                   random: seq<Base64Url.byte>, now: int, later: int, code: string)
    returns (login: LoginOutcome, callback: Option<CallbackOutcome>)
    requires |random| == RandomBytes
    modifies client
    ensures var id := PlatformBase(name, platform);
      if id !in f.settings then
        login == UnknownProvider(id) && callback == None && client.exchanges == old(client.exchanges)
      else if later >= now + StateLifetime then
        login.Redirected? && callback == Some(NoStateCookie) && client.exchanges == old(client.exchanges)
      else if SeparatorFree(id) then
        && login.Redirected?
        && client.exchanges == old(client.exchanges) + [ExchangeCall(f.settings[id], code)]
        && callback == Some(match client.tokenEndpoint(f.settings[id], code)
                            case Failure(_) => ExchangeFailed(platform)
                            case Success(token) => Authorized(TokenData(id, token)))
      else
        login.Redirected? && callback.Some? && callback.value != StatesDiffer && callback.value != InvalidState
  {
    var w1 := new Response();
    login := f.Login(w1, Request(map["name" := name, "platform" := platform], []), client, ReadOk(random), now);
    if !login.Redirected? {
      return login, None;
    }
    // The provider sends back the state given to AuthCodeURL, which Login set as the cookie.
    var state := NewState(name, platform, random);
    assert w1.cookies == [StateCookie(state, now)];
    FormattedStateHasTwoSeparators(name, platform, Base64Url.Encode(random));
    var sent := Unexpired(w1.cookies, later);
    assert w1.cookies[1..] == [];
    assert sent == (if later < now + StateLifetime then w1.cookies else []) + Unexpired([], later);
    var w2 := new Response();
    var outcome := f.Callback(w2, Request(map["state" := state, "code" := code], sent), client);
    if later < now + StateLifetime && SeparatorFree(PlatformBase(name, platform)) {
      MintedStateAdmitted(f.settings, PlatformBase(name, platform), random, now);
    }
    callback := Some(outcome);
  }

  const GithubConfig: Config :=
    Config("client-id", "client-secret",
           Endpoint("https://github.com/login/oauth/authorize", "https://github.com/login/oauth/access_token"),
           "http://localhost:8000/auth/callback", [])

  const Xyz: Token := Token("xyz", "Bearer", "", 0)

  function GithubSettings(): map<PlatformBase, Config>
  {
    map[PlatformBase("github", "oauth") := GithubConfig]
  }

  method NewGithubClient() returns (client: Client)
    ensures fresh(client) && client.exchanges == []
    ensures client.tokenEndpoint(GithubConfig, "abc123") == Success(Xyz)
  {
    client := new Client((cfg: Config, state: string, opts: seq<AuthCodeOption>) => cfg.endpoint.authURL + "?state=" + state,
                         (cfg: Config, code: string) => if code == "abc123" then Success(Xyz) else Failure("invalid_grant"));
  }

  /** Login for a registered provider, then the callback with the matching state and
      a valid code, yields the provider's identity and token. */
  method GithubHandshake(random: seq<Base64Url.byte>, now: int)
    requires |random| == RandomBytes
  {
    var github := PlatformBase("github", "oauth");
    var f := new Factory(GithubSettings());
    var client := NewGithubClient();
    assert SeparatorFree(github);
    var login, callback := Handshake(f, client, "github", "oauth", random, now, now + Minute, "abc123");
    assert callback == Some(Authorized(TokenData(github, Xyz)));
    assert client.exchanges == [ExchangeCall(GithubConfig, "abc123")];
  }

  /** A forged callback, whose state differs from the cookie, never reaches the exchange. */
  method ForgedCallback(now: int)
  {
    var f := new Factory(GithubSettings());
    var client := NewGithubClient();
    var w := new Response();
    var genuine := Cookie("state", "github_oauth_genuine", now + StateLifetime);
    var forged := Request(map["state" := "github_oauth_forged", "code" := "abc123"], [genuine]);
    assert FindCookie(forged.cookies, StateCookieName) == Some(genuine);
    assert FormValue(forged, "state") == "github_oauth_forged" != genuine.value;
    var outcome := f.Callback(w, forged, client);
    assert outcome == StatesDiffer && w.body == "states are different";
    assert client.exchanges == [];
  }

  /** Login for a provider that is not registered sets no cookie and issues no redirect. */
  method UnregisteredLogin(random: seq<Base64Url.byte>, now: int)
    requires |random| == RandomBytes
  {
    var f := new Factory(GithubSettings());
    var client := NewGithubClient();
    var w := new Response();
    var gitlab := Request(map["name" := "gitlab", "platform" := "oauth"], []);
    assert FormValue(gitlab, "name") == "gitlab" && FormValue(gitlab, "platform") == "oauth";
    assert PlatformBase("gitlab", "oauth") !in f.settings;
    var outcome := f.Login(w, gitlab, client, ReadOk(random), now);
    assert outcome == UnknownProvider(PlatformBase("gitlab", "oauth"));
    assert w.cookies == [] && w.redirect == None;
    assert w.body == MissingConfigMessage(PlatformBase("gitlab", "oauth"));
  }
}
