# renju24 backend: subscription and RPC hooks, sign-up validation, OAuth routing

This project models three parts of the renju24 game server's API layer and
proves properties about them:

- The real-time hooks of the websocket client handler.
  - `OnSubscribe` decides who may subscribe to which channel. A
    `user_<id>` channel belongs to that user alone. A `game_<id>` channel is
    open to the members of that game, and membership is asked of the
    database. Every other channel is open to anyone.
  - `OnRPC` sends the four game methods (`find_game`, `create_game`,
    `join_game`, `left_game`) to their handlers. It marshals the handler's
    response, and it logs server faults.
  - The remaining hooks do nothing, or return an empty reply with no error.
- The sign-up request's `Validate`. It trims the username and e-mail in
  place, then applies twelve rules in a fixed order and returns the first
  one that fails.
- The OAuth routes. `parseService` and `parsePlatform` read the path
  segments. `oauthConfig` builds the client configuration for Google or
  Yandex from the server settings. The login and callback handlers first
  run these two parses: service first, then platform.

The modules are:

- `Results`: `Option` and `Result`.
- `Strings` and `Strconv`: the Go standard-library calls the core relies on.
  - `strings.HasPrefix`, `strings.Count` for a single rune, and
    `strings.TrimSpace`.
  - `strconv.ParseInt(s, 10, 64)`: an optional sign, at least one ASCII
    digit, and the 64-bit signed range.
- `WebsocketClientHandler`, `SignUp` and `OAuth2`: one per source file.

How outside code is modelled:

- The database query, the four RPC handlers and `json.Marshal` are
  function-valued fields of `APIServer`. They are oracles whose answers
  are free.
- `OnSubscribe` returns the membership queries it made. `OnRPC` returns the
  handler calls it made and the log records it wrote. This lets the model
  state "never consulted" and "logged exactly once".
- The Unicode classes `unicode.IsSpace`, `unicode.IsLetter` and
  `unicode.IsDigit` are parameters, bundled in `SignUp.RuneClasses`.
- A Go string is a `seq<char>` of runes. So `utf8.RuneCountInString` is the
  sequence length, and `range` walks the elements.

`SignUp.SignupRequest` is a class holding the four request fields; `Validate`
trims its username and e-mail in place and leaves the two passwords as they
are. Its password loop is the method `SignUp.ScanPassword`, which has a
loop invariant. The specification of `Validate` is `SignUp.FirstFailure`
over the ordered list `SignUp.Checks`. The lemmas prove properties of that
list.

Notes on the source's behaviour:

- Go's `config.Platform` and `config.OauthService` are string types, so any
  value can be built. `OtherPlatform` and `OtherService` stand for every
  string other than the named constants; they have no path segment. An
  `OtherService` reaches the `ErrUnknownService` branch of `oauthConfig`,
  and an `OtherPlatform` its empty-redirect case. The `default` branches of
  the two handlers (oauth2.go lines 40-42 and 66-67) cannot be reached,
  because `parseService` yields only Google or Yandex.
- The error `ErrorMissingUpperInPassword` is returned when the password
  has no letter at all, upper or lower case. The code tests
  `unicode.IsLetter`, and the model follows it.
- A rune that is both a letter and a digit counts as a letter only, because
  the `switch` tests letters first (`SignUp.HasDigit`).
- Publishing on any channel is allowed without a check. The code's
  `OnPublish` returns an empty reply and no error, and the model follows
  the code.
- The `user_` test compares the whole channel name with `"user_"` followed
  by the user id. This is the same as comparing the rest of the name with
  the id.

## Model

| member | source | states |
|---|---|---|
| WebsocketClientHandler.OnSubscribe | internal/apiserver/websocket_client_handler.go:16-44 | A `user_` channel is allowed exactly when the rest of the name is the client's id, else permission denied, with no database query. On a `game_` channel the game id is parsed, then the user id; if either fails, the answer is bad request with no query. Otherwise exactly one query `(game, user)` is made, and its error, `false` or `true` answer gives internal error, permission denied or allowed. Any other channel is allowed without a query. |
| WebsocketClientHandler.ParseChannel | internal/apiserver/websocket_client_handler.go:17-23 | Splitting a channel name by its reserved prefix gives a well-formed channel whose name is the input. |
| WebsocketClientHandler.ParseChannelName | internal/apiserver/websocket_client_handler.go:17-23 | Naming a well-formed channel and splitting the name again gives back that channel. |
| WebsocketClientHandler.OnSubscribeFollowsPolicy | internal/apiserver/websocket_client_handler.go:16-44 | The two prefix tests of `OnSubscribe` decide exactly what the namespace policy does: owner only, game members only, or open. |
| WebsocketClientHandler.SubscribeDependsOnlyOnLookups | internal/apiserver/websocket_client_handler.go:34-40 | Two databases that agree on the membership pairs actually queried give the same subscription decision. |
| WebsocketClientHandler.LookupMethod | internal/apiserver/websocket_client_handler.go:50-61 | A found method carries the name looked up. No method is found exactly when none of the four has that name. |
| WebsocketClientHandler.LookupMethodName | internal/apiserver/websocket_client_handler.go:50-58 | Each of the four methods is found under its own name. |
| WebsocketClientHandler.OnRPC | internal/apiserver/websocket_client_handler.go:46-74 | An unknown method gives method-not-found, with no call, no log and no data. A known method calls its handler once with the request data. A handler error is returned unchanged and logged once. A marshal failure gives internal error and is logged once. Success returns the marshalled bytes with no error and no log. |
| WebsocketClientHandler.RpcLogsExactlyServerFaults | internal/apiserver/websocket_client_handler.go:59-73 | At most one call and one log record. A record is written exactly when a handler was called and an error came back. Every success made a call. Every error carries empty data. |
| WebsocketClientHandler.HandleEvent | internal/apiserver/websocket_client_handler.go:12-102 | Alive, disconnect, unsubscribe and message give no answer. Publish, refresh, sub-refresh, presence, presence stats and history give an empty reply with no error. Subscribe and RPC give exactly `OnSubscribe` and `OnRPC`. |
| WebsocketClientHandler.PassiveHooksIgnoreInputs | internal/apiserver/websocket_client_handler.go:12-102 | All hooks other than subscribe and RPC answer the same whatever the server, the client or the event's contents, and always with nothing or with an empty, error-free reply. |
| WebsocketClientHandler.ParseSmallIds | internal/apiserver/websocket_client_handler.go:24-28 | Ids are parsed in base 10: `"42"` and `"042"` give 42, `"100"` gives 100, and `"abc"` is rejected. |
| WebsocketClientHandler.UserFortyTwoUserChannels | internal/apiserver/websocket_client_handler.go:17-21 | User 42 may subscribe to `user_42`, but not to `user_7` or `user_042`. |
| WebsocketClientHandler.UserFortyTwoGameChannel | internal/apiserver/websocket_client_handler.go:23-43 | User 42 may subscribe to `game_100` when the database says it is a member, and is refused when it says not. Either way, exactly the query (100, 42) is made. |
| WebsocketClientHandler.GameChannelWithoutNumber | internal/apiserver/websocket_client_handler.go:24-27 | `game_abc` is a bad request for any client, with no query. |
| WebsocketClientHandler.UserFortyTwoCallsRpcs | internal/apiserver/websocket_client_handler.go:53-61 | A successful `create_game` returns the marshalled response. `delete_game` is an unknown method. |
| Strconv.ParseInt | internal/apiserver/websocket_client_handler.go:24-31 | A result is returned exactly when the text is an optional sign followed by one or more decimal digits and its value fits in 64 bits. That value is the result. |
| Strconv.ParseFormatRoundTrip | internal/apiserver/sign_up.go:78 | Every 64-bit id written in decimal, as the token subject is, parses back to itself, so the user id a signed-up client carries never causes a bad request in `OnSubscribe`. |
| Strconv.ParseRejectsOutOfRange | internal/apiserver/websocket_client_handler.go:24-27 | A decimal id outside the 64-bit range is rejected. |
| Strconv.ParseIgnoresLeadingZero | internal/apiserver/websocket_client_handler.go:24-27 | A leading zero does not change the parsed id, so `game_042` and `game_42` name the same game. |
| Strconv.ParseIgnoresPlusSign | internal/apiserver/websocket_client_handler.go:24-27 | A leading `+` does not change the parsed id. |
| Strconv.ParseRejectsNonDigit | internal/apiserver/websocket_client_handler.go:24-27 | A non-digit anywhere after the first rune makes the id invalid. |
| Strconv.FormatNatDigits | internal/apiserver/sign_up.go:78 | The decimal form of a natural number is all digits and has that value. |
| Strconv.LeadingZeroValue | internal/apiserver/websocket_client_handler.go:24 | A leading zero digit does not change the value of a digit string. |
| Strings.Count | internal/apiserver/sign_up.go:129 | The count is at most the length, and is zero exactly when the rune does not occur. |
| Strings.CountIsOneIff | internal/apiserver/sign_up.go:129-131 | The count of `@` is one exactly when `@` occurs at one position and nowhere else. |
| Strings.TrimLeftSpec | internal/apiserver/sign_up.go:107-108 | Trimming the front drops a white-space prefix and stops at the first other rune. |
| Strings.TrimRightSpec | internal/apiserver/sign_up.go:107-108 | Trimming the back drops a white-space suffix and stops at the last other rune. |
| Strings.TrimSpaceSpec | internal/apiserver/sign_up.go:107-108 | The trimmed field is a contiguous part of the input with only white space around it. It neither starts nor ends with white space, and it is empty exactly when the input is all white space. |
| Strings.TrimSpaceIdempotent | internal/apiserver/sign_up.go:107-108 | Trimming twice is the same as trimming once. |
| SignUp.FirstFailureNone | internal/apiserver/sign_up.go:106-164 | Validation succeeds exactly when every rule holds. |
| SignUp.FirstFailureSome | internal/apiserver/sign_up.go:106-164 | Any error returned is the error of some rule that fails. |
| SignUp.FirstFailureAt | internal/apiserver/sign_up.go:106-164 | When every rule before rule k holds and rule k fails, the result is rule k's error. |
| SignUp.FirstFailureAppend | internal/apiserver/sign_up.go:109-162 | The rules of a concatenation are tried left part first. |
| SignUp.FirstFailureOfFour | internal/apiserver/sign_up.go:109-120 | The outcome of four rules is the chain of early returns they form. |
| SignUp.RulesInOrder | internal/apiserver/sign_up.go:109-164 | The error is the first of, in order: empty username, e-mail, password or repetition; username length not in 4..32; e-mail length not in 5..84; not exactly one `@`; password length not in 8..64; a rune that is neither letter nor digit; no letter; no digit; passwords differ. With none of these, there is no error. |
| SignUp.SignupAcceptedIff | internal/apiserver/sign_up.go:106-164 | A request is accepted exactly when the trimmed username has 4..32 runes, the trimmed e-mail has 5..84 runes and one `@`, and the password has 8..64 runes, only letters and digits, at least one of each, and equals the repetition. |
| SignUp.BlankUsernameIsMissing | internal/apiserver/sign_up.go:107-111 | A username made only of white space is reported as a missing username. |
| SignUp.RevalidationAgrees | internal/apiserver/sign_up.go:106-108 | Validating the request again after its in-place trimming gives the same answer. |
| SignUp.ScanPassword | internal/apiserver/sign_up.go:137-151 | The loop stops on a bad rune exactly when some rune is neither a letter nor a digit. Otherwise its flags say whether a letter occurs and whether a digit not taken as a letter occurs. |
| SignUp.SignupRequest.constructor | internal/apiserver/sign_up.go:18-23 | The request holds the four fields as given. |
| SignUp.SignupRequest.Validate | internal/apiserver/sign_up.go:106-165 | The username and e-mail are replaced by their trimmed forms, and the passwords are untouched. The error is the first failing rule over the trimmed fields, which is the sign-up error of the original fields. |
| OAuth2.ParsePlatform | internal/apiserver/oauth2.go:77-85 | `web` and `android`, and only they, parse to their platforms. Every other segment gives the unknown-platform error. |
| OAuth2.ParseService | internal/apiserver/oauth2.go:87-95 | `google` and `yandex`, and only they, parse to their services. Every other segment gives the unknown-service error. |
| OAuth2.ParseSegmentRoundTrip | internal/apiserver/oauth2.go:77-95 | Exactly the named platforms and services have a segment, and each parses back from it. |
| OAuth2.ParsedSegments | internal/apiserver/oauth2.go:77-95 | A parsed value is always a named one, and its segment is the input. |
| OAuth2.OauthConfig | internal/apiserver/oauth2.go:97-129 | Fails, with unknown service, exactly for a service that is neither provider. Otherwise the client id, secret and scopes are that provider's, the endpoint is the provider's, and the redirect is the web or android callback, or empty for any other platform. |
| OAuth2.ParseRoute | internal/apiserver/oauth2.go:16-25 | The service is parsed before the platform. A bad service gives unknown service whatever the platform, a bad platform after a good service gives unknown platform, and with both good the route is the two parsed values. |
| OAuth2.OauthLogin | internal/apiserver/oauth2.go:14-47 | Login answers not found exactly when a segment does not parse. Otherwise it redirects with the configuration `oauthConfig` builds for the parsed service and platform. |
| OAuth2.OauthCallback | internal/apiserver/oauth2.go:49-70 | The callback answers not found exactly when a segment does not parse. Otherwise it hands over to the named provider's exchange with the parsed platform, both named values whose segments are the inputs. |
| OAuth2.LoginRedirects | internal/apiserver/oauth2.go:14-47 | On each of the four served routes, login redirects with that provider's client id, secret, scopes and endpoint and with the callback registered for that platform. |
| OAuth2.ServedRoutes | internal/apiserver/oauth2.go:14-70 | Exactly the four routes made of `google`/`yandex` and `web`/`android` are served, by login and callback alike. |

## Left out

- HTTP and websocket transport are not modelled: the gin context, status codes as numbers, cookies, JSON binding of the request body, and the centrifuge reply structs, which are only "empty" or "data".
- The `signUp` handler around `Validate` is not modelled: bcrypt hashing, the database insert and the token issuing.
- `AuthCodeURL`, the token exchange, and `googleOauth`/`yandexOauth` are not modelled. The outcomes stop at "redirect with this configuration" and "exchange with this provider". The fixed `state` argument and the 301 status are left out.
- The bodies of `FindGame`, `CreateGame`, `JoinGame` and `LeftGame` are not modelled; they are oracles.
- The database's `IsGameMember` and `json.Marshal` are oracles, and so is the logger's output format (only the error logged is recorded).
- The Unicode tables behind `unicode.IsSpace`, `unicode.IsLetter` and `unicode.IsDigit` are parameters, not tables.
- Invalid UTF-8 in strings is not modelled, because strings are rune sequences.
- Concurrency between websocket clients is not modelled; every hook call is a pure function of its inputs and the oracles.
- The game logic, the model package and the configuration loader are not part of this model.
