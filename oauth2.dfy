/**
  The part of golang.org/x/oauth2 the handlers call: a provider configuration,
  the authorization URL built from it, and the exchange of an authorization code
  for a token (section 4.1 of RFC 6749). Building the URL and answering the token
  request happen outside this model, so a `Client` carries both as given functions;
  it records every exchange it is asked to perform.
 */
module OAuth2 {
  import opened Wrappers

  datatype Endpoint = Endpoint(authURL: string, tokenURL: string)

  /** `oauth2.Config`. */
  datatype Config = Config(clientID: string, clientSecret: string, endpoint: Endpoint,
                           redirectURL: string, scopes: seq<string>)

  /** `oauth2.Token`; `expiry` in nanoseconds. */
  datatype Token = Token(accessToken: string, tokenType: string, refreshToken: string, expiry: int)

  /** `oauth2.ApprovalForce` (prompt=consent) and `oauth2.AccessTypeOffline` (access_type=offline). */
  datatype AuthCodeOption = ApprovalForce | AccessTypeOffline

  /** One call of `cfg.Exchange(ctx, code)`. */
  datatype ExchangeCall = ExchangeCall(config: Config, code: string)

  class Client {
    /** `cfg.AuthCodeURL(state, opts...)`. */
    const authCodeURL: (Config, string, seq<AuthCodeOption>) -> string
    /** The provider's answer to a token request for `code`. */
    const tokenEndpoint: (Config, string) -> Result<Token, string>
    /** Every exchange performed so far, oldest first. */
    ghost var exchanges: seq<ExchangeCall>

    constructor (authCodeURL: (Config, string, seq<AuthCodeOption>) -> string,
                 tokenEndpoint: (Config, string) -> Result<Token, string>)
      ensures this.authCodeURL == authCodeURL && this.tokenEndpoint == tokenEndpoint
      ensures exchanges == []
    {
      this.authCodeURL := authCodeURL;
      this.tokenEndpoint := tokenEndpoint;
      exchanges := [];
    }

    /** `cfg.Exchange(ctx, code)`: asks the provider's token endpoint for a token. */
    method Exchange(cfg: Config, code: string) returns (r: Result<Token, string>)
      modifies this
      ensures exchanges == old(exchanges) + [ExchangeCall(cfg, code)]
      ensures r == tokenEndpoint(cfg, code)
    {
      exchanges := exchanges + [ExchangeCall(cfg, code)];
      r := tokenEndpoint(cfg, code);
    }
  }
}
