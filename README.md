# astral: JWT sessions and partial-update statements, modelled in Dafny

astral is a small blogging API written in Go. This project models two parts of it.

**The JWT session lifecycle** (`internal/handler/auth.go`, `internal/handler/middleware.go`, `internal/handler/errors.go`, `internal/model/auth.go`):
- Login issues an HS256 access token and refresh token. Under a fresh UUID per token, it records a Redis session holding the user id.
- The post handlers authenticate a request in two steps. They read the access token's claims, then read the user id stored under its `access_uuid`.
- Logout deletes that session.
- Refresh deletes the session named by the refresh token's `refresh_uuid`, then issues and saves a new pair.
- `RequireAuth` admits a request on the token alone.
- Every failure answers through the JSON error helpers.

**The dynamic `UPDATE` builders** of the post and user repositories (`internal/store/postgres/post.go`, `internal/store/postgres/user.go`). They append one `column=$n` fragment and one argument per supplied field. The WHERE placeholder is the next number.

Modules:
- `Wrappers`: Option and Result.
- `Strconv`: Go's `Itoa`, `Atoi`, `ParseInt` and `ParseUint` on 64-bit integers.
- `Strings`: `strings.Split`, `strings.Join` and ASCII `strings.ToLower`.
- `Uuid`: the UUIDv4 source, as a generator that never repeats a name.
- `Jwt`: jwt-go's `Parse` and `SignedString`, over an abstract codec.
- `Redis`: the session store, a class over a map of expiring entries.
- `Model`: configuration, records and `Auth.CreateToken`.
- `Responses`: the error helpers.
- `AuthHandler`: the handler's pure steps as functions. Its `Handler` class holds the store and the UUID source; its methods are the handlers that change them.
- `Middleware`: the guard.
- `Sessions`: sequences of handler calls.
- `Sql`, `PostStore`, `UserStore`: the statement builders.

How the model treats time, failures and secrets:
- Time is an integer number of Unix seconds, passed in.
- Each call the model cannot see takes a failure flag: a UUID draw, a Redis SET, GET or DEL, writing the response.
- A signed token records the secret it was signed with. It verifies under a key exactly when that key is this secret.

Behaviour of the code kept as written:
- The handler's refresh claim `refresh_uuid` holds the ACCESS uuid (auth.go:147). As a result:
  - refresh retires the access session;
  - refresh works only while that session exists;
  - logging out also ends the refresh token;
  - the refresh session is written but never read.
- Tokens are signed with `supersecretkey` when `JWT_SECRET` / `JWT_REFRESH_SECRET` are empty. They are verified against the raw value. With the variables unset, no issued token verifies.
- `saveTokenInformation` does not roll back the first SET when the second one fails.
- `login` compares the lookup error with the handlers' "record not found" error, but the repository returns `pgx.ErrNoRows`. An unknown e-mail therefore gets 500, not 404.
- `recordNotFoundResponse` answers 400, not 404. `badRequestResponse`'s comment says 404; it sends 400.
- The `!token.Valid` branches cannot be taken, because jwt-go returns an error whenever a token is not valid:
  - `isTokenExpired` would return nil there;
  - `refreshToken`'s final "token expired" answer is never sent.
- `RequireAuth` never looks at the store. A logged-out token that has not expired still passes it.
- `Auth.CreateToken` in `internal/model/auth.go` writes `refresh_uuid` into the access claims after the access token is signed. Neither of its tokens carries it.
- With `auth.tokenExpTime` missing or 0, `viper.GetInt` gives 0: the access token expires at the issuing second, its Redis TTL is not positive, so the SET stores the session with no expiry. The session key is permanent and the token still authenticates at its own expiry instant.
- An `UPDATE` with no field supplied has an empty SET list. It is built anyway.

## Model

| member | source | states |
|---|---|---|
| Strconv.AtoiItoa | internal/handler/auth.go:170-176 | Reading back a saved user id with `Atoi` returns the id exactly when it is in the int64 range, and fails otherwise. |
| Strconv.ParseUintItoa | internal/handler/auth.go:339-344 | `ParseUint` of a formatted id returns it exactly when it is in `[0, 2^64)`. A negative id is refused. |
| Strconv.ItoaInjective | internal/handler/auth.go:170 | Distinct user ids are stored as distinct strings. |
| Strconv.FormatNatValue | internal/handler/auth.go:170 | The decimal digits written for n have value n. |
| Strconv.Itoa | internal/handler/auth.go:170 | The decimal text of an id is never empty and starts with '-' exactly when the id is negative. |
| Strconv.Atoi | internal/handler/auth.go:275 | A parsed value comes from non-empty text, is negative only after a '-', and for unsigned text is the value of its digits. |
| Strconv.ParseUint64 | internal/handler/auth.go:339 | Text is accepted exactly when it is a non-empty run of decimal digits whose value is at most 2^64-1, and the result is that value. |
| Strings.SplitJoin | internal/handler/auth.go:189 | The pieces of `strings.Split` hold no separator, and joining them with it gives back the header. |
| Strings.SplitNoSeparator | internal/handler/auth.go:189 | A string without the separator splits into itself alone. |
| Strings.SplitAfterPrefix | internal/handler/auth.go:189 | A separator-free prefix followed by the separator is split off as the first piece. |
| Strings.ToLower | internal/handler/auth.go:30 | Lower-casing keeps the length and maps each character through the ASCII lower-case table. |
| Uuid.NameInjective | internal/handler/auth.go:115-127 | Distinct draws yield distinct session names. |
| Uuid.Generator.NewV4 | internal/handler/auth.go:115-127 | A draw fails exactly when the random source does. A successful draw is non-empty, never handed out before, and recorded. |
| Uuid.Generator.constructor | internal/handler/auth.go:115 | A fresh source has issued nothing. |
| Jwt.ClaimsError | internal/handler/auth.go:210-217 | The claims are accepted exactly when exp (0 meaning unset) has not passed and iat and nbf are not in the future. |
| Jwt.Parse | internal/handler/auth.go:210-221 | A successfully parsed token is Valid. |
| Jwt.ParseAccepts | internal/handler/auth.go:210-221 | Parsing succeeds exactly for a decodable HMAC token signed with the key's secret whose time claims hold. The claims returned are the decoded ones. |
| Jwt.Sign | internal/handler/auth.go:137-153 | Under a valid codec, a signed token decodes to its algorithm, claims and secret, and holds no space. |
| Jwt.SignParse | internal/handler/auth.go:137-153 | A token signed with a key's secret parses back to its claims while they are current. |
| Jwt.WrongSecretRejected | internal/handler/auth.go:210-215 | A token signed with another secret is refused with "signature is invalid". |
| Jwt.NonHmacRejected | internal/handler/auth.go:211-213 | A token with a non-HMAC algorithm is refused by the key function with its own message. |
| Jwt.ExpiredRejected | internal/handler/auth.go:210-217 | A correctly signed token whose non-zero exp has passed is refused. |
| Redis.ExpiryFor | internal/handler/auth.go:170-179 | A positive TTL expires the entry at now + TTL. A TTL of zero or less stores it without expiry. |
| Redis.Lookup | internal/handler/auth.go:270 | GET finds a value exactly when the key is present and not expired. |
| Redis.Client.constructor | internal/handler/auth.go:170 | The store starts empty. |
| Redis.Client.Set | internal/handler/auth.go:170-179 | SET creates or overwrites only that key. The value reads back until the TTL elapses, then reads as absent; the store is unchanged when the call fails. |
| Redis.Client.Get | internal/handler/auth.go:270-273 | GET returns the live value, `redis.Nil` when the key is absent or expired, and an error when the call fails. |
| Redis.Client.Del | internal/handler/auth.go:285-289 | DEL reports 1 when a live key was removed and 0 otherwise. It removes only that key, which then reads absent at every time. |
| Model.SigningSecret | internal/handler/auth.go:95-104 | The signing secret is the variable's value, or "supersecretkey" when it is empty. It is never empty. |
| Model.AccessClaims | internal/handler/auth.go:130-134 | The access payload has exactly the keys user_id, access_uuid, authorized and exp. |
| Model.BareRefreshClaims | internal/model/auth.go:83-87 | The payload `Auth.CreateToken` signs as its refresh token has only user_id, authorized and exp. |
| Model.Auth.CreateToken | internal/model/auth.go:31-98 | Either draw failing fails the call. On success: expiries come from the "server.auth.*" settings; the two session names are fresh, non-empty and distinct; the access token signs the access payload; the refresh token signs a payload without any session name. |
| Model.CreateTokenOmitsRefreshUuid | internal/model/auth.go:82-91 | Neither token from `Auth.CreateToken` carries "refresh_uuid". |
| Responses.SendJSON | internal/handler/errors.go:21 | Writing succeeds exactly when the writer does, and then sends the given status and body. |
| Responses.ErrorResponse | internal/handler/errors.go:18-25 | The error helper sends {"error": message} with the status, or a bare 500 when writing fails. |
| Responses.InternalErrorResponse | internal/handler/errors.go:29-34 | The status is always 500 and the message is fixed. |
| Responses.InternalErrorHidesCause | internal/handler/errors.go:29-34 | The response does not depend on the logged cause. |
| Responses.NotFoundResponse | internal/handler/errors.go:38-41 | 404 with the fixed message. |
| Responses.MethodNotAllowedResponse | internal/handler/errors.go:45-48 | 405 with the request method in the message. |
| Responses.BadRequestResponse | internal/handler/errors.go:50-53 | 400, not the 404 its comment names, with the error's text. |
| Responses.RecordNotFoundResponse | internal/handler/errors.go:55-58 | 400, not 404, with "record not found". |
| Responses.InvalidRequestBodyResponse | internal/handler/errors.go:61-64 | 422 with "invalid request body". |
| Responses.UnauthorizedResponse | internal/handler/errors.go:66-69 | 401 with the fixed message. |
| Responses.HelpersAreErrors | internal/handler/errors.go:18-69 | No helper answers below 400, and each collapses to a bare 500 when writing fails. |
| AuthHandler.ExtractToken | internal/handler/auth.go:185-199 | Every failure is "invalid authorization header". |
| AuthHandler.ExtractTokenSound | internal/handler/auth.go:185-199 | An accepted header is exactly "Bearer " followed by the returned token, which holds no space. |
| AuthHandler.ExtractTokenComplete | internal/handler/auth.go:185-199 | Every "Bearer " + token with no space in the token is accepted and yields that token. |
| AuthHandler.ExtractTokenRejectsOtherScheme | internal/handler/auth.go:194-196 | "Token abc" is refused. |
| AuthHandler.ExtractTokenRejectsExtraSpace | internal/handler/auth.go:190-192 | "Bearer a b" is refused: it has three pieces. |
| AuthHandler.ExtractTokenEmptyCases | internal/handler/auth.go:188-198 | A missing header is refused. "Bearer " yields the empty token with no error. |
| AuthHandler.VerifyToken | internal/handler/auth.go:203-222 | A malformed header fails before any parsing. A token it returns is always Valid. |
| AuthHandler.IsTokenExpired | internal/handler/auth.go:225-236 | isTokenExpired reports nothing exactly when verification succeeds, and otherwise reports verification's own error. Its not-Valid branch is dead, because a parsed token is always Valid. |
| AuthHandler.AccessKeyfunc | internal/handler/auth.go:210-215 | The access key function verifies against the signing secret exactly when JWT_SECRET is set. |
| AuthHandler.RefreshKeyfunc | internal/handler/auth.go:306-312 | The refresh key function verifies against the signing secret exactly when JWT_REFRESH_SECRET is set. |
| AuthHandler.FormattedUserId | internal/handler/auth.go:254 | `%.f` of the user_id claim gives parseable text exactly when the claim is a number (otherwise Go prints a `%!f(...)` text that no parser accepts); the text is non-empty and starts with '-' exactly when the number is negative. |
| AuthHandler.AcceptedUser | internal/handler/auth.go:25-48 | A user is accepted only if the body decoded, the lookup by the lower-cased e-mail found them, the password matches and the stored e-mail equals the lower-cased one. A found user is refused only for a wrong password or a different e-mail. |
| AuthHandler.SignedUserId | internal/handler/auth.go:254 | A user id read with ParseInt is the number held in the user_id claim. |
| AuthHandler.UnsignedUserId | internal/handler/auth.go:339 | A user id read with ParseUint is the claim's number, and lies in `[0, 2^64)`. |
| AuthHandler.IntOfUint64 | internal/handler/auth.go:354 | `int(userId)` agrees with the unsigned value modulo 2^64 and lies in the int64 range. |
| AuthHandler.GetTokenMetadata | internal/handler/auth.go:239-266 | Metadata exists only for a verified token. It is that token's access_uuid and user_id. |
| AuthHandler.MetadataTimeIndependent | internal/handler/auth.go:239-266 | Whenever a token's metadata can be read, it is the same. |
| AuthHandler.SessionUser | internal/handler/post.go:14-24 | The post handlers authenticate a user only when the token's metadata reads and its access session is live in the store. The user is the id stored there. |
| AuthHandler.ReadRefreshClaims | internal/handler/auth.go:306-344 | A refresh token is accepted only if it parses under the refresh key, and it names a string refresh_uuid and a non-negative user_id at most 2^64-1, whose session id is that claim converted with Go's `int(uint64)`. |
| AuthHandler.RefreshClaimsTimeIndependent | internal/handler/auth.go:306-344 | Whenever a refresh token is accepted, it names the same session and user. |
| AuthHandler.RejectionResponse | internal/handler/auth.go:315-344 | No rejection of a refresh token is answered 200. |
| AuthHandler.TokensResponse | internal/handler/auth.go:63-71 | The pair is sent with 200, or a 500 when writing fails. |
| AuthHandler.RefreshClaims | internal/handler/auth.go:145-149 | The handler's refresh payload has exactly the keys user_id, refresh_uuid, authorized and exp. |
| AuthHandler.IssuedAccessTokenAuthenticates | internal/handler/auth.go:93-160 | After issue and save, the access token authenticates exactly its user at every instant before its expiry, provided JWT_SECRET is set. |
| AuthHandler.IssuedAccessTokenExpires | internal/handler/auth.go:170-173 | When `auth.tokenExpTime` is positive, from its expiry on the access token no longer authenticates. |
| AuthHandler.UnsetSecretRejectsIssuedTokens | internal/handler/auth.go:95-104 | With JWT_SECRET unset, no issued access token verifies. With JWT_REFRESH_SECRET unset, no refresh token is accepted. |
| AuthHandler.IssuedRefreshTokenNamesAccessSession | internal/handler/auth.go:145-149 | A current refresh token, with JWT_REFRESH_SECRET set, names the pair's access session and its user. |
| AuthHandler.IssuedAccessTokenNamesSession | internal/handler/auth.go:130-134 | Whenever an issued access token verifies, its metadata is the pair's access session and user. |
| AuthHandler.IssuedRefreshTokenNamesAccessUuid | internal/handler/auth.go:147 | Whenever an issued refresh token is accepted, it names the access session, never the refresh session. |
| AuthHandler.RevokedNeverAuthenticates | internal/handler/auth.go:269-281 | A session name absent from the store never authenticates, whatever token carries it. |
| AuthHandler.Handler.constructor | internal/handler/auth.go:163-182 | The handler starts with an empty store, an unused UUID source and nothing revoked. |
| AuthHandler.Handler.CreateToken | internal/handler/auth.go:93-160 | Either draw failing fails the call. On success the pair is IssuedPair: expiries from "auth.*"; both tokens HS256 with the fallback secrets; the refresh token names the access session. The two names are fresh and distinct. |
| AuthHandler.Handler.SaveTokenInformation | internal/handler/auth.go:163-182 | Writes the access session, then the refresh session, each holding Itoa(userId) until its expiry. A failed first SET skips the second. A failed second SET keeps the first. |
| AuthHandler.Handler.FetchTokenDataFromRedis | internal/handler/auth.go:269-281 | Returns the id parsed from the live value under the access uuid. It fails when the key is absent or expired, when the value does not parse, or when the call fails. |
| AuthHandler.Handler.RemoveUserTokenFromCache | internal/handler/auth.go:284-290 | Deletes the name and reports 1 if a live session was removed, 0 otherwise. The store is unchanged when the call fails. |
| AuthHandler.Handler.Authenticate | internal/handler/post.go:14-24 | Authenticating through the store gives exactly SessionUser. |
| AuthHandler.Handler.Logout | internal/handler/auth.go:75-89 | 401 when the token does not verify. Otherwise deletes its access session and answers 200 only if a live one was removed, else 500. After a 200 the token never authenticates again. |
| AuthHandler.Handler.RefreshToken | internal/handler/auth.go:293-380 | 400 or 401 or 422 before the store is touched. A session already revoked gives 422 with the store and the UUID source unchanged. The revoked set and the UUID source only grow. A failed DEL, or a session no longer live, gives 422 with the UUID source and the revoked set unchanged and the session deleted only if DEL ran. Once the session is deleted, a failed draw or SET gives 403 (500 if the response cannot be written) and the session stays revoked; a failed draw or access SET also leaves no new session. Once a new IssuedPair is drawn and its access session saved, a failed refresh SET leaves exactly that access session in place of the old one (no rollback), and a successful one answers with the pair (500 if the write fails) over the old store minus the old session plus both new sessions. With every call succeeding the answer is 200. A 200 means the named session was live and is now deleted, and a new IssuedPair was saved and sent. |
| AuthHandler.Handler.Login | internal/handler/auth.go:22-72 | 422 on a bad body. A lookup error gives 404 only for the handlers' "record not found", else 500. A wrong password or e-mail gives 400. The UUID source only grows. A refused login (bad body, lookup error, wrong credentials) is not 200 and leaves the sessions and the UUID source unchanged. For an accepted user, a failed draw or a failed access SET gives 500 with the sessions unchanged, a failed refresh SET gives 500 and keeps the new access session (no rollback); once both SETs succeed the answer is the new IssuedPair (500 if the write fails) and both sessions are saved. With every call succeeding the answer is 200. A 200 sends an IssuedPair for the user and saves both sessions; its access token then authenticates that user until it expires, provided JWT_SECRET is set. |
| Middleware.RequireAuth | internal/handler/middleware.go:6-16 | The next handler runs exactly when the token verifies; otherwise the answer is 401. A header with the wrong scheme is refused before any parsing. |
| Middleware.GateOutlivesSession | internal/handler/middleware.go:8-14 | When `auth.tokenExpTime` is positive, at the access expiry instant the guard still admits the token while the store has already expired its session. |
| Middleware.RevokedTokenPassesGate | internal/handler/middleware.go:8 | A token whose session was deleted still passes the guard, yet does not authenticate. |
| Sessions.Serve | internal/handler/auth.go:22-380 | Any login, logout or refresh keeps the handler's invariant and never takes a name out of the revoked set. |
| Sessions.ServeAll | internal/handler/auth.go:22-380 | A sequence of handler calls keeps the invariant and only grows the revoked set. |
| Sessions.RefreshIsSingleUse | internal/handler/auth.go:346-351 | A refresh token redeemed once with 200 is never redeemed again, after any sequence of logins, logouts and refreshes and at any later time. |
| Sessions.LogoutEndsRefresh | internal/handler/auth.go:147 | After a logout with a pair's access token, that pair's refresh token is refused, whatever handler calls come between. |
| Sql.Placeholder | internal/store/postgres/post.go:144 | A placeholder is "$" followed by at least one character. |
| Sql.Assignments | internal/store/postgres/post.go:143-159 | The i-th fragment sets the i-th field's column to placeholder i+1. |
| Sql.Bindings | internal/store/postgres/post.go:146-163 | The i-th argument is the i-th field's value. |
| Sql.AppendField | internal/store/postgres/post.go:143-147 | Appending a field adds one fragment, numbered one past those before it, and one argument. |
| Sql.PlaceholdersDistinct | internal/store/postgres/post.go:141-162 | Different placeholder numbers give different placeholders, so no argument is bound twice. |
| PostStore.PostFields | internal/store/postgres/post.go:143-159 | The supplied fields appear in the order title, content, author_id. Each one follows exactly the supplied fields before it, and no other column appears. |
| PostStore.Update | internal/store/postgres/post.go:138-167 | The statement is "UPDATE posts SET" with the numbered fragments joined by ", ", then WHERE post_id = $(k+1). The args are the k values in order, then the post id. |
| PostStore.PostStatement | internal/store/postgres/post.go:162 | The format string is the general UPDATE shape for table posts and key post_id. |
| PostStore.EmptyUpdate | internal/store/postgres/post.go:161-163 | With no field supplied, the statement is "UPDATE posts SET  WHERE post_id = $1". |
| UserStore.UserFields | internal/store/postgres/user.go:115-131 | The supplied fields appear in the order email, username, password. Each one follows exactly the supplied fields before it, and no other column appears. |
| UserStore.Update | internal/store/postgres/user.go:110-139 | The statement is "UPDATE users SET" with the numbered fragments joined by ", ", then WHERE user_id = $(k+1). The args are the k values in order, then the user id. |
| UserStore.UserStatement | internal/store/postgres/user.go:134 | The format string is the general UPDATE shape for table users and key user_id. |
| UserStore.RegisteredAtIgnored | internal/model/user.go:16 | registered_at never changes the statement's fields. |

## Left out

- HMAC-SHA256 and the base64url/JSON encoding of tokens are abstract. The codec is any pair of functions where decoding inverts encoding and the encoded form holds no space; a signature is valid exactly under its own secret.
- The `user_id` claim is a JSON number, a float64 in Go, printed with `%.f`. The model treats it as an integer, so ids beyond 2^53, which lose precision, are not modelled.
- Time is whole Unix seconds and one `now` per handler call. Go reads `time.Now()` several times and Redis TTLs are nanosecond durations, so sub-second skew and duration overflow are not modelled.
- `SignedString` never fails in the model. For HS256 with a byte key, it does not fail in the library either.
- The texts of jwt-go, uuid, strconv and Redis errors are stand-ins. Only the status codes and the handlers' own messages are exact.
- HTTP reading and writing, JSON decoding (a body is given as decoded or failed), routing, contexts and timeouts, the server and its configuration, mail, the queue and all other SQL are not modelled. The statement builders return the statement and arguments instead of executing them.
- `ComparePassword` and `FindByEmail` are parameters of `Login`. The repository's lookup, which does not select the password column, is not part of this model.
- Strings.ToLower: only ASCII letters are lowered; Go's Unicode case mapping is not modelled.
- Uuid.Generator.NewV4: session names are "uuid-" followed by a counter, not the RFC 4122 text form. Only their freshness matters to the handlers.
- AuthHandler.Handler.SaveTokenInformation: requires both names to be drawn from the UUID source and not yet revoked. The handlers only ever pass the pair that `createToken` just produced.
- Concurrency: each handler call is one atomic step and calls run one at a time. Interleaved GET, SET and DEL of concurrent requests are not modelled; under concurrency, single use of a refresh token rests on Redis executing each DEL atomically.
- Responses.InternalErrorResponse: the cause is logged in `internal/handler/errors.go:29-34`; logging is not modelled and the cause is dropped. Likewise the `fmt.Println("uuid")` and `fmt.Println("user id")` calls of `refreshToken` (`internal/handler/auth.go:333`, `internal/handler/auth.go:341`) are not modelled.
- The `Handler` fields the snapshot's constructor lacks (store, Redis client) are given to the class directly; the process wiring in `cmd/main.go` and `internal/server/server.go` is not modelled.
