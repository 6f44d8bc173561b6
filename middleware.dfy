/**
  RequireAuth of internal/handler/middleware.go: a guard that lets a request
  through to the next handler exactly when isTokenExpired reports nothing, and
  otherwise answers 401. It looks only at the token, never at the session store.
*/
module Middleware {
  import opened Wrappers
  import Strconv
  import Jwt
  import Redis
  import Model
  import AuthHandler
  import opened Responses

  /** What the guard does with a request: call the next handler, or stop with a response. */
  datatype Outcome = Next | Stop(response: Response)

  /** The guard applied to a request with the given Authorization header at instant `now`. */
  function RequireAuth(cfg: Model.Config, codec: Jwt.Codec, w: Writer, authorization: string, now: int): (o: Outcome)
    ensures o.Next? <==> AuthHandler.VerifyToken(cfg, codec, authorization, now).Ok?
    ensures o.Stop? ==> o.response == UnauthorizedResponse(w)
    ensures AuthHandler.ExtractToken(authorization).Err? ==> o == Stop(UnauthorizedResponse(w))
  {
    if AuthHandler.IsTokenExpired(cfg, codec, authorization, now).Some? then Stop(UnauthorizedResponse(w)) else Next
  }

  /**
    The guard admits an issued access token up to and including the instant
    its exp names, one second longer than its session lives: at
    t == atExpires the guard says Next while authentication through the store
    already fails.
  */
  lemma GateOutlivesSession(cfg: Model.Config, codec: Jwt.Codec, w: Writer, entries: map<string, Redis.Entry>,
                            td: Model.TokenDetails, userId: Strconv.Int64, now: int)
    requires Jwt.ValidCodec(codec)
    requires AuthHandler.IssuedPair(cfg, codec, td, userId, now)
    requires td.accessUuid in entries && entries[td.accessUuid] == AuthHandler.SessionEntry(userId, td.atExpires, now)
    requires Model.Getenv(cfg, "JWT_SECRET") != "" && Model.GetInt(cfg, "auth.tokenExpTime") > 0
    ensures RequireAuth(cfg, codec, w, "Bearer " + td.accessToken, td.atExpires) == Next
    ensures AuthHandler.SessionUser(cfg, codec, entries, "Bearer " + td.accessToken, td.atExpires).Err?
  {
    var claims := Model.AccessClaims(userId, td.accessUuid, td.atExpires);
    assert ' ' !in codec.encode(Jwt.Jws(Jwt.HS256, claims, Model.SigningSecret(cfg, "JWT_SECRET")));
    AuthHandler.ExtractTokenComplete(td.accessToken);
    assert Jwt.TimeClaim(claims, "iat") == 0 && Jwt.TimeClaim(claims, "nbf") == 0;
    Jwt.SignParse(codec, Jwt.HS256, claims, AuthHandler.AccessKeyfunc(cfg), td.atExpires);
    AuthHandler.IssuedAccessTokenExpires(cfg, codec, entries, td, userId, now, td.atExpires);
  }

  /**
    A token whose session has been deleted (by logout or refresh) still passes
    the guard while its signature and time claims hold, though it no longer
    authenticates through the store.
  */
  lemma RevokedTokenPassesGate(cfg: Model.Config, codec: Jwt.Codec, w: Writer, entries: map<string, Redis.Entry>,
                               revoked: set<string>, authorization: string, t: int)
    requires revoked !! entries.Keys
    requires AuthHandler.GetTokenMetadata(cfg, codec, authorization, t).Ok?
    requires AuthHandler.GetTokenMetadata(cfg, codec, authorization, t).value.accessUuid in revoked
    ensures RequireAuth(cfg, codec, w, authorization, t) == Next
    ensures AuthHandler.SessionUser(cfg, codec, entries, authorization, t) == Err(AuthHandler.StoreError(Redis.Nil))
  {
    AuthHandler.RevokedNeverAuthenticates(cfg, codec, entries, revoked, authorization, t);
  }
}
