/**
  The login and callback handlers of the authorization code grant (section 4.1 of
  RFC 6749), protected against cross-site request forgery by a `state` value bound
  to a cookie. Login looks the provider up, mints a state, sets it as a cookie and
  redirects to the provider; the callback checks the returned state against the
  cookie, decodes the provider from it, looks the provider up again and exchanges
  the code for a token. Every failure writes a message and stops.
 */
module Handlers {
  import opened Wrappers
  import opened StateToken
  import Base64Url
  import Split
  import opened Http
  import opened OAuth2

  const StateCookieName: string := "state"

  /** The state cookie lives 20 minutes. */
  const StateLifetime: int := 20 * Minute

  /** Login asks the provider to show the consent screen again and to issue a refresh token. */
  const LoginOptions: seq<AuthCodeOption> := [ApprovalForce, AccessTypeOffline]

  /** What the callback hands to the result page. */
  datatype TokenData = TokenData(base: PlatformBase, token: Token)

  /** What `rand.Read` did with the 16-byte buffer: filled it, or failed. */
  datatype RandomRead = ReadOk(bytes: seq<Base64Url.byte>) | ReadFailed(reason: string)

  datatype LoginOutcome =
    | UnknownProvider(id: PlatformBase)
    | StateNotGenerated(reason: string)
    | Redirected(location: string)

  datatype CallbackOutcome =
    | NoStateCookie                 // the handler dereferences a nil cookie and panics
    | StatesDiffer
    | InvalidState
    | ConfigMissing(id: PlatformBase)
    | ExchangeFailed(platform: string)
    | Authorized(data: TokenData)

  function MissingConfigMessage(id: PlatformBase): string
  {
    "Missing config for " + id.name + ", platform " + id.platform + "\n"
  }

  /** The text a login handler writes for each outcome. */
  function LoginMessage(o: LoginOutcome): string
  {
    match o
    case UnknownProvider(id) => MissingConfigMessage(id)
    case StateNotGenerated(reason) => "failed to generate state and add cookie: " + reason + "\n"
    case Redirected(_) => ""
  }

  /** The text a callback handler writes for each outcome (the result page is not modelled). */
  function CallbackMessage(o: CallbackOutcome): string
  {
    match o
    case NoStateCookie => ""
    case StatesDiffer => "states are different"
    case InvalidState => "invalid oauth2State"
    case ConfigMissing(id) => MissingConfigMessage(id)
    case ExchangeFailed(platform) => "failed to exchange token for " + platform + "\n"
    case Authorized(_) => ""
  }

  /** The cookie that carries a state minted at time `now`. */
  function StateCookie(state: string, now: int): Cookie
  {
    Cookie(StateCookieName, state, now + StateLifetime)
  }

  /** The callback's decision before the exchange: go ahead with a provider, or stop. */
  datatype Verdict = Rejected(outcome: CallbackOutcome) | Admitted(id: PlatformBase, config: Config)

  /** The callback's guards in the order the handler runs them: the cookie, the CSRF
      comparison, the decoding of the state and the registry lookup. */
  function Admit(settings: map<PlatformBase, Config>, formState: string, cookie: Option<Cookie>): (v: Verdict)
    ensures v.Admitted? <==>
      && cookie.Some? && formState == cookie.value.value
      && Split.Count(formState, Separator) >= 2
      && ParseState(formState).value in settings
    ensures v.Admitted? ==>
      && SeparatorFree(v.id) && v.id in settings && v.config == settings[v.id]
      && |v.id.name| + |v.id.platform| + 2 <= |formState|
      && formState == FormatState(v.id.name, v.id.platform, formState[|v.id.name| + |v.id.platform| + 2..])
    ensures cookie.None? ==> v == Rejected(NoStateCookie)
    ensures cookie.Some? && formState != cookie.value.value ==> v == Rejected(StatesDiffer)
    ensures cookie.Some? && formState == cookie.value.value && Split.Count(formState, Separator) < 2
            ==> v == Rejected(InvalidState)
    ensures cookie.Some? && formState == cookie.value.value && Split.Count(formState, Separator) >= 2
            && ParseState(formState).value !in settings
            ==> v == Rejected(ConfigMissing(ParseState(formState).value))
    ensures v.Rejected? ==> !v.outcome.ExchangeFailed? && !v.outcome.Authorized?
  {
    if cookie.None? then Rejected(NoStateCookie)
    else if formState != cookie.value.value then Rejected(StatesDiffer)
    else
      match ParseState(formState)
      case None => Rejected(InvalidState)
      case Some(id) => if id in settings then Admitted(id, settings[id]) else Rejected(ConfigMissing(id))
  }

  /** A state minted at login for a separator-free, registered identity passes every
      guard of the callback when it comes back with its own cookie, and selects that
      identity's configuration. */
  lemma MintedStateAdmitted(settings: map<PlatformBase, Config>, id: PlatformBase,
                            bytes: seq<Base64Url.byte>, now: int)
    requires SeparatorFree(id) && id in settings
    ensures var state := NewState(id.name, id.platform, bytes);
            Admit(settings, state, Some(StateCookie(state, now))) == Admitted(id, settings[id])
  {
    ParseFormat(id.name, id.platform, Base64Url.Encode(bytes));
  }

  /** With both "a_b"/"c" and "a"/"b" registered, a login for "a_b"/"c" comes back
      admitted for "a"/"b": the code is exchanged with the other provider's configuration. */
  lemma SeparatorInNameMisroutes(settings: map<PlatformBase, Config>, bytes: seq<Base64Url.byte>, now: int)
    requires PlatformBase("a_b", "c") in settings && PlatformBase("a", "b") in settings
    ensures var state := NewState("a_b", "c", bytes);
            Admit(settings, state, Some(StateCookie(state, now)))
              == Admitted(PlatformBase("a", "b"), settings[PlatformBase("a", "b")])
  {
    SeparatorInNameIsMisread(Base64Url.Encode(bytes));
  }

  /** `handlers.Factory`: the provider registry shared by the handlers. It is fixed at
      construction, so no handler can change it. */
  class Factory {
    const settings: map<PlatformBase, Config>

    /** `NewHandlersFactory`. */
    constructor (settings: map<PlatformBase, Config>)
      ensures this.settings == settings
    {
      this.settings := settings;
    }

    /** The registry lookup `f.settings[PlatformBase{name, platform}]`. */
    function Lookup(id: PlatformBase): (r: Option<Config>)
      ensures r.Some? <==> id in settings
      ensures r.Some? ==> r.value == settings[id]
    {
      if id in settings then Some(settings[id]) else None
    }

    /** `generateStateAndAddCookie`: mints the state from 16 random bytes and sets it as
        the `state` cookie, expiring 20 minutes after `now`. */
    method GenerateStateAndAddCookie(w: Response, name: string, platform: string, now: int, random: RandomRead)
      returns (state: string, err: Option<string>)
      requires random.ReadOk? ==> |random.bytes| == RandomBytes
      modifies w
      ensures w.body == old(w.body) && w.redirect == old(w.redirect)
      ensures random.ReadFailed? ==> state == "" && err == Some(random.reason) && w.cookies == old(w.cookies)
      ensures random.ReadOk? ==>
        && err == None
        && state == NewState(name, platform, random.bytes)
        && w.cookies == old(w.cookies) + [StateCookie(state, now)]
    {
      var expiration := now + StateLifetime;
      match random {
        case ReadFailed(reason) =>
          return "", Some(reason);
        case ReadOk(b) =>
          state := FormatState(name, platform, Base64Url.Encode(b));
          var cookie := Cookie(StateCookieName, state, expiration);
          w.SetCookie(cookie);
          return state, None;
      }
    }

    /** The handler of `GetLoginHandler`, for the request `r`. */
    method Login(w: Response, r: Request, client: Client, random: RandomRead, now: int)
      returns (outcome: LoginOutcome)
      requires random.ReadOk? ==> |random.bytes| == RandomBytes
      modifies w
      ensures var id := PlatformBase(FormValue(r, "name"), FormValue(r, "platform"));
        if id !in settings then
          && outcome == UnknownProvider(id)
          && w.body == old(w.body) + LoginMessage(outcome)
          && w.cookies == old(w.cookies) && w.redirect == old(w.redirect)
        else if random.ReadFailed? then
          && outcome == StateNotGenerated(random.reason)
          && w.body == old(w.body) + LoginMessage(outcome)
          && w.cookies == old(w.cookies) && w.redirect == old(w.redirect)
        else
          var state := NewState(id.name, id.platform, random.bytes);
          && outcome == Redirected(client.authCodeURL(settings[id], state, LoginOptions))
          && w.cookies == old(w.cookies) + [StateCookie(state, now)]
          && w.redirect == Some(Redirect(outcome.location, StatusTemporaryRedirect))
          && w.body == old(w.body)
      ensures w.cookies != old(w.cookies) ==> outcome.Redirected?
    {
      var name := FormValue(r, "name");
      var platform := FormValue(r, "platform");
      var cfg := Lookup(PlatformBase(name, platform));
      if cfg.None? {
        outcome := UnknownProvider(PlatformBase(name, platform));
        w.Write(MissingConfigMessage(PlatformBase(name, platform)));
        return;
      }

      var opts := LoginOptions;

      var oauthState, err := GenerateStateAndAddCookie(w, name, platform, now, random);
      if err.Some? {
        outcome := StateNotGenerated(err.value);
        w.Write("failed to generate state and add cookie: " + err.value + "\n");
        return;
      }

      var u := client.authCodeURL(cfg.value, oauthState, opts);
      w.SendRedirect(u, StatusTemporaryRedirect);
      outcome := Redirected(u);
    }

    /** The handler of `GetCallbackHandler`, for the request `r`, up to the result page. */
    method Callback(w: Response, r: Request, client: Client) returns (outcome: CallbackOutcome)
      modifies w, client
      ensures w.cookies == old(w.cookies) && w.redirect == old(w.redirect)
      ensures w.body == old(w.body) + CallbackMessage(outcome)
      ensures match Admit(settings, FormValue(r, "state"), FindCookie(r.cookies, StateCookieName))
        case Rejected(o) =>
          outcome == o && client.exchanges == old(client.exchanges)
        case Admitted(id, cfg) =>
          var code := FormValue(r, "code");
          && client.exchanges == old(client.exchanges) + [ExchangeCall(cfg, code)]
          && outcome == match client.tokenEndpoint(cfg, code)
                        case Failure(_) => ExchangeFailed(id.platform)
                        case Success(token) => Authorized(TokenData(id, token))
      ensures client.exchanges != old(client.exchanges) ==>
        var cookie := FindCookie(r.cookies, StateCookieName);
        var state := FormValue(r, "state");
        && cookie.Some? && state == cookie.value.value
        && Split.Count(state, Separator) >= 2
        && ParseState(state).value in settings
    {
      var cookieState := FindCookie(r.cookies, StateCookieName);
      var oauth2State := FormValue(r, "state");

      if cookieState.None? {
        return NoStateCookie;
      }
      if oauth2State != cookieState.value.value {
        outcome := StatesDiffer;
        w.Write("states are different");
        return;
      }

      var code := FormValue(r, "code");
      var decoded := ParseState(oauth2State);
      if decoded.None? {
        outcome := InvalidState;
        w.Write("invalid oauth2State");
        return;
      }

      var name := decoded.value.name;
      var platform := decoded.value.platform;
      var cfg := Lookup(PlatformBase(name, platform));
      if cfg.None? {
        outcome := ConfigMissing(PlatformBase(name, platform));
        w.Write(MissingConfigMessage(PlatformBase(name, platform)));
        return;
      }

      var token := client.Exchange(cfg.value, code);
      if token.Failure? {
        outcome := ExchangeFailed(platform);
        w.Write("failed to exchange token for " + platform + "\n");
        return;
      }

      var data := TokenData(PlatformBase(name, platform), token.value);
      outcome := Authorized(data);
    }
  }
}
