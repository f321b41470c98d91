# Criteo identity provider: session and group authorisation

This project models the Criteo provider of the oauth2 proxy gateway in Dafny. The model covers:

- profile resolution: the session's email and user key are filled from the token-introspection endpoint;
- the request guard shared by every remote lookup;
- the two-step directory lookup: the user's entry first, then its group memberships;
- case-sensitive matching of those memberships against the configured allow-list;
- the refresh heartbeat, which re-checks the groups and sets the session's expiry to the next whole second after now;
- the constructor and `Configure` defaulting rules.

Modules:

- `Wire` (wire.dfy): the decoded records (`TokenInfo`, `ProfileResponse`, `GroupInfo`, `CriteoProfile`), URLs, headers, requests, the provider's errors, and the network as an oracle (`Remote`). `Remote` has one total function per endpoint, mapping a request to a decoded record or a failure.
- `Sessions` (sessions.dfy): the mutable `Session` class with the fields the provider reads and writes. Also truncation of an instant to whole seconds. Instants are integer nanoseconds since Go's zero time.
- `Requests` (requests.dfy): `requestJSON`. If a session is given, its access token must be non-empty. The bearer header is attached exactly when a session is given.
- `Groups` (groups.dfy): the allow-list match, with lemmas that it is a set intersection and therefore independent of order.
- `Criteo` (criteo.dfy): the `CriteoProvider` class, its directory paths, and `Authorized`. `Authorized` is the reference definition that the group check is proved against.

Every operation that talks to the network also returns `sent`, the list of requests it actually issued. "No remote call" is therefore `sent == []`, and the order and paths of the directory lookups are stated exactly. `ProfileResolved` is the two-state predicate that states what `GetProfile` does to a session.

Three facts about the source shape the model:

- The membership lookup is built from the requested user key. The `dn` of the fetched entry is never used (providers/criteo.go:156-164).
- The expiry is overwritten with `truncate(now + 1s)`; its old value is only printed (providers/criteo.go:206-209).
- `RefreshSessionIfNeeded` reads the clock twice: once for the expiry test and once for the new expiry (providers/criteo.go:198, 206). The model takes two readings, `checkedAt` and `now`.

## Model

| member | source | states |
|---|---|---|
| `Sessions.TruncateToSecond` | providers/criteo.go:206 | the result is a whole second, at most `t`, and more than `t - 1s`; so `TruncateToSecond(now + 1s)` lies in `(now, now + 1s]` |
| `Requests.GetCriteoHeader` | providers/criteo.go:93-98 | the header built from an access token has Accept `application/json` and Authorization `"Bearer " + token` |
| `Requests.RequestJSON` | providers/criteo.go:100-132 | nothing is sent exactly when a session is given with an empty access token, and the result is then "missing access token"; otherwise exactly one GET goes to `url` and the reply is passed on; the bearer header is present exactly when a session is given, and then carries its non-empty token |
| `Groups.Member` | providers/criteo.go:220-227 | false when either list is empty; true only when some allowed name occurs as a membership name |
| `Groups.MemberIffSharedName` | providers/criteo.go:220-227 | the match holds exactly when the set of membership names and the set of allowed names intersect |
| `Groups.MemberIgnoresOrder` | providers/criteo.go:220-227 | permuting the memberships or the allow-list does not change the answer |
| `Groups.MemberExamples` | providers/criteo.go:220-227 | `["eng","ops"]` against `["ops"]` matches; `["eng"]` against `["ops"]` does not; `"Ops"` does not match `"ops"` |
| `Criteo.CriteoProvider.constructor` | providers/criteo.go:49-55 | the provider is named "Criteo"; an empty scope becomes `"cn mail uid dn umsId"`, and a non-empty one is kept; the group validator and the identity URL are nil |
| `Criteo.CriteoProvider.Configure` | providers/criteo.go:58-91 | the identity URL is `http://<identityHost>/user/`; each blank login, redeem or profile URL gets its default on `ssoHost`, and a non-blank one is kept; a blank validate URL becomes the (new) profile URL; the validator holds the given groups |
| `Criteo.CriteoProvider.GetProfile` | providers/criteo.go:134-151 | the tokens and the expiry never change; with user and email set it succeeds, sends nothing and changes nothing; otherwise, with an empty access token, it fails with "missing access token", sends nothing and changes nothing; otherwise it sends one authenticated request to the profile URL; if that request fails, the error is passed on and email and user are untouched; if it succeeds, email and user are overwritten with the fetched values and an empty fetched email gives "can't find email" |
| `Criteo.CriteoProvider.GetEmailAddress` | providers/criteo.go:173-176 | the effect of `GetProfile`, and the returned email is the session's email afterwards |
| `Criteo.CriteoProvider.GetUserName` | providers/criteo.go:179-182 | the effect of `GetProfile`, and the returned user is the session's user afterwards |
| `Criteo.CriteoProvider.GetExtendedProfile` | providers/criteo.go:153-170 | the entry is fetched at identity path + `dn`; then, only if that succeeded, the memberships at identity path + `dn + "/groups"`; neither request carries a header; the first failure is the result; otherwise the result holds both records |
| `Criteo.CriteoProvider.UserInGroup` | providers/criteo.go:213-228 | the nested search returns exactly `Authorized`: both lookups succeed and some membership equals some given group; any lookup failure yields false and no error; the requests are those of `GetExtendedProfile` |
| `Criteo.CriteoProvider.ValidateGroup` | providers/criteo.go:191-193 | the configured validator: `Authorized` with the allow-list given to `Configure` (providers/criteo.go:88-90) |
| `Criteo.CriteoProvider.RefreshSessionIfNeeded` | providers/criteo.go:197-211 | never reports "refreshed" and never changes tokens, email or user; with no session, an empty refresh token, or an expiry strictly after the clock reading, it succeeds, sends nothing and keeps the expiry; otherwise it runs the group check; if the user is no longer in the groups, it fails naming the email and keeps the expiry; if the user is still in the groups, it sets the expiry to `TruncateToSecond(now + 1s)` |

## Left out

- `ValidateSessionState` (providers/criteo.go:184-187): it delegates to `validateToken`, and that collaborator is not part of this model.
- Context cancellation in `requestJSONWithContext`: the model has one `RequestJSON`. Apart from the context, the two Go functions are the same.
- Building the HTTP request, `requests.RequestJSON` and JSON decoding: each remote lookup is one oracle answer, `Decoded(record)` or `Failed(reason)`. An error from `http.NewRequest` counts as a failed lookup, but a malformed URL never reaches an oracle, so the model sends a request in that case too.
- The oracle is a function of the request, so asking the same thing twice gets the same answer. No operation asks twice, so nothing depends on this.
- `url.URL.String()`: a URL "serialises to the empty string" is modelled as all four modelled parts being empty (`Url.Blank`). Escaping of `dn` in paths is not modelled.
- Aliasing: `NewCriteoProvider` updates the caller's `ProviderData` in place, and `Configure` makes the validate URL share the profile URL's pointer. The model stores values, so neither sharing is visible.
- The closure `GroupValidator` is a field holding its allow-list. `None` stands for the nil function (and `identityURL`'s `None` for the nil URL). The model requires both to be set wherever the source would dereference them.
- `log.Print` and `fmt.Printf` (providers/criteo.go:209, 216): these only produce output.
- Time: Go's monotonic clock reading, and overflow of `time.Time` arithmetic, are not modelled. Instants are unbounded integers.
- `ProviderData` keeps only the provider name, the scope and the four endpoint URLs (login, redeem, profile, validate): the fields this provider reads or writes. The other fields of the embedded provider settings are not modelled.
- `Session` holds only the five fields that this provider reads or writes. A nil session passed to `GetProfile` or `UserInGroup` makes the Go code panic; the model's parameter type there is non-null.
