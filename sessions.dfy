/**
  Sequences of handler calls on one shared store, and what the session
  lifecycle guarantees across them.
*/
module Sessions {
  import opened Wrappers
  import Model
  import Strconv
  import AuthHandler
  import opened Responses

  /** One request to the session handlers, with everything the handler cannot see about it. */
  datatype Request =
    | LoginRequest(w: Writer, credentials: Option<Model.Auth>,
                   findByEmail: string -> Result<Model.User, Model.DbError>,
                   comparePassword: (string, string) -> bool, now: int, io: AuthHandler.Io)
    | LogoutRequest(w: Writer, authorization: string, now: int, io: AuthHandler.Io)
    | RefreshRequest(w: Writer, refreshBody: Result<string, string>, now: int, io: AuthHandler.Io)

  /** Route one request to its handler. No handler ever takes a name back out of the revoked set. */
  method Serve(h: AuthHandler.Handler, req: Request) returns (r: Response)
    requires h.Valid()
    modifies h, h.redis, h.uuids
    ensures h.Valid()
    ensures old(h.revoked) <= h.revoked
  {
    ghost var issued;
    match req
    case LoginRequest(w, credentials, findByEmail, comparePassword, now, io) =>
      r, issued := h.Login(w, credentials, findByEmail, comparePassword, now, io);
    case LogoutRequest(w, authorization, now, io) =>
      r := h.Logout(w, authorization, now, io);
    case RefreshRequest(w, refreshBody, now, io) =>
      r, issued := h.RefreshToken(w, refreshBody, now, io);
  }

  /** Serve the requests one after another. */
  method ServeAll(h: AuthHandler.Handler, reqs: seq<Request>) returns (rs: seq<Response>)
    requires h.Valid()
    modifies h, h.redis, h.uuids
    ensures h.Valid()
    ensures |rs| == |reqs|
    ensures old(h.revoked) <= h.revoked
  {
    rs := [];
    var i := 0;
    while i < |reqs|
      invariant 0 <= i <= |reqs| && |rs| == i
      invariant h.Valid()
      invariant old(h.revoked) <= h.revoked
    {
      var r := Serve(h, reqs[i]);
      rs := rs + [r];
      i := i + 1;
    }
  }

  /**
    A refresh token can be redeemed at most once: after one 200, any sequence
    of logins, logouts and refreshes may follow, and a later redemption of the
    same token, at any time and whatever the store does, is not 200.
  */
  method RefreshIsSingleUse(h: AuthHandler.Handler, w: Writer, body: Result<string, string>,
                            now1: int, io1: AuthHandler.Io, between: seq<Request>, now2: int, io2: AuthHandler.Io)
    returns (first: Response, meanwhile: seq<Response>, second: Response)
    requires h.Valid()
    modifies h, h.redis, h.uuids
    ensures h.Valid()
    ensures first.status == StatusOK ==> second.status != StatusOK
  {
    ghost var issued;
    first, issued := h.RefreshToken(w, body, now1, io1);
    meanwhile := ServeAll(h, between);
    if first.status == StatusOK && body.Ok? && AuthHandler.ReadRefreshClaims(h.cfg, h.codec, body.value, now2).Ok? {
      AuthHandler.RefreshClaimsTimeIndependent(h.cfg, h.codec, body.value, now1, now2);
    }
    second, issued := h.RefreshToken(w, body, now2, io2);
  }

  /**
    Logging out with the access token of a pair also ends its refresh token:
    the refresh token names the access session, which logout deleted.
  */
  method LogoutEndsRefresh(h: AuthHandler.Handler, w: Writer, td: Model.TokenDetails, userId: Strconv.Int64, issuedAt: int,
                           now1: int, io1: AuthHandler.Io, between: seq<Request>, now2: int, io2: AuthHandler.Io)
    returns (loggedOut: Response, meanwhile: seq<Response>, refreshed: Response)
    requires h.Valid()
    requires AuthHandler.IssuedPair(h.cfg, h.codec, td, userId, issuedAt)
    modifies h, h.redis, h.uuids
    ensures h.Valid()
    ensures loggedOut.status == StatusOK ==> refreshed.status != StatusOK
  {
    loggedOut := h.Logout(w, "Bearer " + td.accessToken, now1, io1);
    if loggedOut.status == StatusOK {
      AuthHandler.IssuedAccessTokenNamesSession(h.cfg, h.codec, td, userId, issuedAt, now1);
      assert td.accessUuid in h.revoked;
      if AuthHandler.ReadRefreshClaims(h.cfg, h.codec, td.refreshToken, now2).Ok? {
        AuthHandler.IssuedRefreshTokenNamesAccessUuid(h.cfg, h.codec, td, userId, issuedAt, now2);
      }
    }
    meanwhile := ServeAll(h, between);
    ghost var issued;
    refreshed, issued := h.RefreshToken(w, Ok(td.refreshToken), now2, io2);
  }
}
