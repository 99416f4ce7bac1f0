# oauth2-token-app: the state check of the authorization code grant

The server brokers the authorization code grant of section 4.1 of RFC 6749 for several
named providers, each keyed by a `(name, platform)` pair. Its core, in
`handlers/factory.go`, protects the grant against cross-site request forgery with the
`state` value that section 10.12 of RFC 6749 recommends:

- **Login** looks the provider up in the registry. It mints the state
  `name_platform_<base64url of 16 random bytes>` and sets it as the `state` cookie, valid
  for 20 minutes. Then it redirects to the provider's consent URL, which carries the same
  state.
- **Callback** runs its guards in a fixed order. First it compares the returned `state`
  with the cookie, by exact string equality. Then it splits the state on `_` and needs at
  least three segments. Next it looks up the provider named by the first two segments.
  Only then does it exchange the code for a token. It builds `TokenData` from the identity
  and the token.
- Every failure writes a plain-text message to the response and stops.

The Dafny modules:

| module | file | models |
|---|---|---|
| `Split` | split.dfy | Go's `strings.Split` on one separator character, with `Join` as its inverse |
| `Base64Url` | base64url.dfy | `base64.URLEncoding.EncodeToString`: padded base64url (section 5 of RFC 4648), with a decoder as its inverse |
| `StateToken` | state_token.dfy | `PlatformBase`, the state layout `stateFmt`, minting, and the decoding done inline in the callback |
| `Http` | http.dfy | form values, cookie lookup, and a `Response` class that collects body, Set-Cookie headers and redirect |
| `OAuth2` | oauth2.dfy | `oauth2.Config`, `oauth2.Token`, and a `Client` class standing for `AuthCodeURL` and `Exchange`; it records every exchange |
| `Handlers` | handlers.dfy | `TokenData`, the `Factory` class (registry, `generateStateAndAddCookie`, the login and callback handlers), and `Admit`, a pure specification of the callback's guards |
| `Scenarios` | scenarios.dfy | client code: a full handshake, plus the concrete login and callback situations |

The handlers are methods on `Factory`. They change the `Response` and the `Client`'s
exchange record, and they return an outcome datatype. Encoding and decoding are pure
functions. The registry is a `const` map, so no handler can write to it.

Behaviour of the code worth knowing (the model follows the code):
- **Missing `state` cookie.** The callback ignores the error from `r.Cookie`. It then
  dereferences a nil cookie and panics. The model gives this its own outcome,
  `NoStateCookie`, with nothing written. It is not a graceful "cookie missing" error.
- **Random part may contain the separator.** The random part uses the base64url
  alphabet, which contains `_`. So the random part can contain the separator
  (`StateToken.RandomPartMayContainSeparator`). Decoding still recovers the identity,
  because only segments 0 and 1 are read.
- **Exactly 16 bytes.** The code draws exactly 16 random bytes (handlers/factory.go:167), so the random part is always 24 characters.
- **No status codes.** A failed random read, like every other failure, is reported as a
  message in the response body. No error status is set.

## Model

| member | source | states |
|---|---|---|
| `Split.Split` | handlers/factory.go:115 | `strings.Split` on `_` never returns an empty slice: the empty string gives one empty segment |
| `Split.SplitCount` | handlers/factory.go:115-116 | a string with k separators splits into exactly k + 1 segments, so "fewer than 3 segments" means "fewer than two `_`" |
| `Split.SplitSegmentsFree` | handlers/factory.go:115 | no segment returned by the split contains the separator |
| `Split.JoinSplit` | handlers/factory.go:115 | joining the segments with the separator gives back the original string |
| `Split.SplitJoin` | handlers/factory.go:115 | splitting is the inverse of joining one or more separator-free segments |
| `Split.SplitFirstSegment` | handlers/factory.go:115 | a separator-free prefix followed by `_` is split off as the first segment, whatever follows it |
| `Split.CountAppend` | handlers/factory.go:18 | the separators of a concatenation are those of its parts |
| `Base64Url.Encode` | handlers/factory.go:173 | the padded encoding of n bytes has 4 * ceil(n / 3) characters, all from the URL-safe alphabet or `=` |
| `Base64Url.DecodeEncode` | handlers/factory.go:173 | the encoding loses nothing: decoding it gives back the bytes |
| `Base64Url.EncodeInjective` | handlers/factory.go:167-173 | different byte strings never encode to the same text |
| `StateToken.FormatState` | handlers/factory.go:18 | the state `stateFmt` produces has its three parts at fixed positions: the name, `_`, the platform, `_`, then the random part, 2 characters longer than the parts together |
| `StateToken.NewState` | handlers/factory.go:167-173 | a minted state starts with `name_platform_`, has 4 * ceil(n / 3) characters of random part for n bytes, and that part decodes back to the random bytes |
| `StateToken.ParseState` | handlers/factory.go:115-122 | decoding fails exactly when the state has fewer than two `_`; otherwise the identity is separator-free and the state is `name_platform_rest` |
| `StateToken.ParseFormat` | handlers/factory.go:115-122 | round trip: for a separator-free name and platform, decoding `name_platform_random` gives back that identity, for every random part, even one containing `_` |
| `StateToken.FormattedStateHasTwoSeparators` | handlers/factory.go:173 | every state formatted with `stateFmt` has at least two `_`, so it passes the segment-count check |
| `StateToken.NewStateLength` | handlers/factory.go:167-173 | the random part of a minted state is 24 characters, and the state is 26 characters longer than the identity |
| `StateToken.RandomPartMayContainSeparator` | handlers/factory.go:173 | some 16-byte draws encode to a random part that contains `_` |
| `StateToken.NewStateInjective` | handlers/factory.go:167-173 | two states minted for one identity are equal only if their random bytes are equal |
| `StateToken.SeparatorInNameIsMisread` | handlers/factory.go:18 | without escaping, `a_b`/`c` and `a`/`b_c` mint the same state, and it decodes as `a`/`b` |
| `Http.FindCookie` | handlers/factory.go:106 | the cookie lookup returns the first request cookie with the name, and None exactly when no cookie has it |
| `Http.FormValue` | handlers/factory.go:65-66 | a form value is the submitted value for the key, and the empty string when the key is absent, as `r.FormValue` does |
| `OAuth2.Client.Exchange` | handlers/factory.go:132 | the exchange is recorded as a call with the configuration and code, and it returns the provider's answer |
| `Handlers.Admit` | handlers/factory.go:106-130 | the guards admit an exchange exactly when a cookie exists, the state equals it, the state has two `_`, and the decoded identity is registered. The admitted configuration is that identity's. Each rejection is the first guard that failed: no cookie, states differ, fewer than two `_`, or "Missing config" for the decoded identity |
| `Handlers.MintedStateAdmitted` | handlers/factory.go:164-178 | a state minted for a separator-free, registered identity passes every callback guard with its own cookie and selects that identity's configuration |
| `Handlers.SeparatorInNameMisroutes` | handlers/factory.go:115-130 | when both `a_b`/`c` and `a`/`b` are registered, a login for `a_b`/`c` comes back admitted for `a`/`b`, with the other provider's configuration |
| `Handlers.Factory.constructor` | handlers/factory.go:35-39 | the registry is the map given at construction; it is a constant, so no handler writes to it |
| `Handlers.Factory.Lookup` | handlers/factory.go:67-74 | the registry answers a configuration exactly for registered identities, and it is that identity's |
| `Handlers.Factory.GenerateStateAndAddCookie` | handlers/factory.go:164-178 | on a failed random read: empty state, the error, no cookie. Otherwise the state is `name_platform_base64url(bytes)`, and exactly one cookie `state` with that value, expiring 20 minutes after now, is added. The body and redirect are untouched |
| `Handlers.Factory.Login` | handlers/factory.go:58-97 | an unregistered identity writes "Missing config…" and sets no cookie or redirect. A failed random read writes its message and sets no cookie or redirect. Otherwise the cookie value and the state passed to AuthCodeURL (with ApprovalForce and AccessTypeOffline) are the same string, and the response is a 307 redirect to that URL. A cookie is set only when the outcome is a redirect |
| `Handlers.Factory.Callback` | handlers/factory.go:99-144 | the outcome and message are those of `Admit`. The exchange is called once with the admitted configuration and the form's code, and never otherwise. A failed exchange writes "failed to exchange token for <platform>". Success yields `TokenData` with the decoded identity and the exchanged token. Cookies and redirect are untouched |
| `Scenarios.Handshake` | handlers/factory.go:58-144 | login, then the callback with the echoed state and unexpired cookies. Unregistered: no callback and no exchange. Callback after 20 minutes: the handler panics for the missing cookie. Separator-free identity in time: exactly one exchange, with that identity's configuration, and `TokenData` of that identity. Otherwise the CSRF and segment-count checks still pass |

## Left out

- Template parsing and rendering: `GetHomeHandler` and the callback's result page (handlers/factory.go:41-56, 146-152). `Callback` stops once `TokenData` is built.
- Logging: `handleLocalError` and the `log.Printf` of the consent URL.
- main.go: process startup, route registration and `ListenAndServe`.
- `AuthCodeURL` and the token endpoint are functions given to `OAuth2.Client`. How the URL's query is built and escaped is not modelled, and neither is the network exchange, its context or its timeout.
- `crypto/rand.Read` and `time.Now` are inputs: a `RandomRead` value and an integer time in nanoseconds. The unpredictability of the bytes cannot be stated. The model proves only that distinct bytes give distinct states.
- `http.Redirect`: only the Location and the 307 status are modelled, not the short HTML body it writes.
- Cookie value sanitising by `net/http` is not modelled: characters outside the cookie-value alphabet are dropped. The model's cookie carries the state verbatim.
- The panic on a missing cookie is the outcome `NoStateCookie`. How the HTTP server recovers from the panic and closes the connection is not modelled.
- `Http.Unexpired`: the browser's cookie jar is reduced to one rule. It sends a cookie while the current time is before its expiry. `net/http` writes the `Expires` attribute to the whole second, dropping the sub-second part, so the real cookie can lapse up to a second before `now + StateLifetime`; the model keeps the exact nanosecond expiry.
- Concurrency of the HTTP server. The registry is read-only, so handlers share no mutable state.
