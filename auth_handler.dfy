/**
  The JWT session lifecycle of internal/handler/auth.go.

  A login issues an access token and a refresh token and records one session
  per token in Redis under a fresh name, holding the user id. The post
  handlers authenticate a request by reading the access token's claims and
  then the user id stored under its access_uuid. Logout deletes that session.
  Refresh deletes the session named by the refresh token's refresh_uuid claim
  and only then issues a new pair; the refresh token carries the ACCESS
  session's name under "refresh_uuid", so refresh succeeds only while that
  access session still exists.

  The clock, the random source, Redis failures and the request body are
  parameters. The functions are the handler's pure steps (header parsing,
  token verification, claim reading); the class Handler holds the shared
  store and name generator and its methods are the steps that change them.
*/
module AuthHandler {
  import opened Wrappers
  import Strconv
  import Strings
  import Jwt
  import Redis
  import Uuid
  import Model
  import opened Responses

  datatype AuthError =
    | InvalidAuthorizationHeader
    | TokenError(jwtError: Jwt.JwtError)
    | TokenNotValid
    | UserIdUnparsable
    | StoreError(redisError: Redis.RedisError)
    | UuidError(uuidError: Uuid.UuidError)

  /** err.Error(), as the refresh handler puts it in a 403 body. */
  function ErrorText(e: AuthError): string {
    match e
    case InvalidAuthorizationHeader => "invalid authorization header"
    case TokenError(cause) => Jwt.Message(cause)
    case TokenNotValid => "token is not valid"
    case UserIdUnparsable => "strconv.ParseInt: invalid syntax"
    case StoreError(cause) => Redis.ErrorText(cause)
    case UuidError(_) => "uuid: could not generate random bytes"
  }

  /** How each call the model cannot see turns out: the two UUID draws, the two SETs, the GET and the DEL. */
  datatype Io = Io(
    accessUuidFails: bool,
    refreshUuidFails: bool,
    setAccessFails: bool,
    setRefreshFails: bool,
    getFails: bool,
    delFails: bool)

  // ---------------------------------------------------------------------------
  // Reading the Authorization header and the tokens

  /** extractToken: the header split on single spaces must be exactly "Bearer" and one more piece. */
  function ExtractToken(authorization: string): (r: Result<string, AuthError>)
    ensures r.Err? ==> r.error == InvalidAuthorizationHeader
  {
    var s := Strings.Split(authorization, ' ');
    if |s| != 2 then Err(InvalidAuthorizationHeader)
    else if s[0] != "Bearer" then Err(InvalidAuthorizationHeader)
    else Ok(s[1])
  }

  /** extractToken only accepts "Bearer " followed by a piece with no space. */
  lemma ExtractTokenSound(authorization: string)
    ensures ExtractToken(authorization).Ok? ==>
      && authorization == "Bearer " + ExtractToken(authorization).value
      && ' ' !in ExtractToken(authorization).value
  {
    var parts := Strings.Split(authorization, ' ');
    Strings.SplitJoin(authorization, ' ');
    if |parts| == 2 {
      assert Strings.Join(parts[1..], [' ']) == parts[1];
      assert parts[1..][0] == parts[1];
    }
  }

  /** extractToken accepts every "Bearer <token>" whose token has no space, and returns the token. */
  lemma ExtractTokenComplete(token: string)
    requires ' ' !in token
    ensures ExtractToken("Bearer " + token) == Ok(token)
  {
    assert "Bearer " + token == "Bearer" + [' '] + token;
    Strings.SplitAfterPrefix("Bearer", ' ', token);
    Strings.SplitNoSeparator(token, ' ');
  }

  /** A scheme other than "Bearer" is refused. */
  lemma ExtractTokenRejectsOtherScheme()
    ensures ExtractToken("Token abc").Err?
  {
    assert "Token abc" == "Token" + [' '] + "abc";
    Strings.SplitAfterPrefix("Token", ' ', "abc");
  }

  /** A token holding a space is refused: the header splits into three pieces. */
  lemma ExtractTokenRejectsExtraSpace()
    ensures ExtractToken("Bearer a b").Err?
  {
    assert "Bearer a b" == "Bearer" + [' '] + ("a" + [' '] + "b");
    Strings.SplitAfterPrefix("Bearer", ' ', "a" + [' '] + "b");
    Strings.SplitAfterPrefix("a", ' ', "b");
  }

  /** A missing header is refused; "Bearer " alone yields the empty token with no error. */
  lemma ExtractTokenEmptyCases()
    ensures ExtractToken("").Err?
    ensures ExtractToken("Bearer ") == Ok("")
  {
    assert Strings.Split("", ' ') == [""];
    ExtractTokenComplete("");
    assert "Bearer " + "" == "Bearer ";
  }

  /** The key function of verifyToken: HMAC only, checked against JWT_SECRET as set, with no fallback. */
  function AccessKeyfunc(cfg: Model.Config): (k: Jwt.Keyfunc)
    ensures k.secret == Model.SigningSecret(cfg, "JWT_SECRET") <==> Model.Getenv(cfg, "JWT_SECRET") != ""
  {
    Jwt.HmacOnly(Model.Getenv(cfg, "JWT_SECRET"), "unexpected token signing method")
  }

  /** The key function of refreshToken: HMAC only, checked against JWT_REFRESH_SECRET as set, with no fallback. */
  function RefreshKeyfunc(cfg: Model.Config): (k: Jwt.Keyfunc)
    ensures k.secret == Model.SigningSecret(cfg, "JWT_REFRESH_SECRET") <==> Model.Getenv(cfg, "JWT_REFRESH_SECRET") != ""
  {
    Jwt.HmacOnly(Model.Getenv(cfg, "JWT_REFRESH_SECRET"), "unexpected signing method")
  }

  /** verifyToken: the bearer token of the header, parsed and checked with the access key function. */
  function VerifyToken(cfg: Model.Config, codec: Jwt.Codec, authorization: string, now: int): (r: Result<Jwt.Token, AuthError>)
    ensures ExtractToken(authorization).Err? ==> r == Err(InvalidAuthorizationHeader)
    ensures r.Ok? ==> r.value.valid
  {
    match ExtractToken(authorization)
    case Err(e) => Err(e)
    case Ok(tokenString) =>
      match Jwt.Parse(codec, tokenString, AccessKeyfunc(cfg), now)
      case Err(e) => Err(TokenError(e))
      case Ok(token) => Ok(token)
  }

  /**
    isTokenExpired: the verification error, if any. A token that parsed but is
    not Valid would yield the nil error of the successful parse; jwt.Parse
    never returns such a token, so that branch is dead.
  */
  function IsTokenExpired(cfg: Model.Config, codec: Jwt.Codec, authorization: string, now: int): (r: Option<AuthError>)
    ensures r.None? <==> VerifyToken(cfg, codec, authorization, now).Ok?
    ensures r.Some? ==> r.value == VerifyToken(cfg, codec, authorization, now).error
  {
    match VerifyToken(cfg, codec, authorization, now)
    case Err(e) => Some(e)
    case Ok(token) => if !token.valid then None else None
  }

  /** fmt.Sprintf("%.f", claims["user_id"]): the digits of a number; any other value prints as a formatting error no parser accepts. */
  function FormattedUserId(claims: Jwt.Claims): (r: Option<string>)
    ensures r.Some? <==> "user_id" in claims && claims["user_id"].Num?
    ensures r.Some? ==> |r.value| > 0 && (r.value[0] == '-' <==> claims["user_id"].n < 0)
  {
    if "user_id" in claims && claims["user_id"].Num? then Some(Strconv.Itoa(claims["user_id"].n)) else None
  }

  /** The user id as getTokenMetadata reads it, with strconv.ParseInt(_, 10, 64). */
  function SignedUserId(claims: Jwt.Claims): (r: Option<Strconv.Int64>)
    ensures r.Some? ==> "user_id" in claims && claims["user_id"] == Jwt.Num(r.value)
  {
    match FormattedUserId(claims)
    case None => None
    case Some(s) => Strconv.AtoiItoa(claims["user_id"].n); Strconv.Atoi(s)
  }

  /** The user id as refreshToken reads it, with strconv.ParseUint(_, 10, 64). */
  function UnsignedUserId(claims: Jwt.Claims): (r: Option<nat>)
    ensures r.Some? ==> r.value <= Strconv.MaxUint64 && "user_id" in claims && claims["user_id"] == Jwt.Num(r.value)
  {
    match FormattedUserId(claims)
    case None => None
    case Some(s) => Strconv.ParseUintItoa(claims["user_id"].n); Strconv.ParseUint64(s)
  }

  /** Go's int(u) for a uint64 u: values past the int64 range wrap around to negative ones. */
  function IntOfUint64(u: nat): (r: Strconv.Int64)
    requires u <= Strconv.MaxUint64
    ensures (r - u) % (Strconv.MaxUint64 + 1) == 0
  {
    if u > Strconv.MaxInt64 then u - (Strconv.MaxUint64 + 1) else u
  }

  /** getTokenMetadata: the access_uuid and user id of a verified access token. */
  function GetTokenMetadata(cfg: Model.Config, codec: Jwt.Codec, authorization: string, now: int): (r: Result<Model.TokenMetadata, AuthError>)
    ensures r.Ok? ==> VerifyToken(cfg, codec, authorization, now).Ok?
    ensures r.Ok? ==>
      var claims := VerifyToken(cfg, codec, authorization, now).value.claims;
      "access_uuid" in claims && claims["access_uuid"] == Jwt.Str(r.value.accessUuid)
      && "user_id" in claims && claims["user_id"] == Jwt.Num(r.value.userId)
  {
    match VerifyToken(cfg, codec, authorization, now)
    case Err(e) => Err(e)
    case Ok(token) =>
      if token.valid then
        if !("access_uuid" in token.claims && token.claims["access_uuid"].Str?) then Err(TokenNotValid)
        else match SignedUserId(token.claims)
          case None => Err(UserIdUnparsable)
          case Some(id) => Ok(Model.TokenMetadata(token.claims["access_uuid"].s, id))
      else Err(TokenNotValid)
  }

  /** A token's metadata does not depend on when it is read, only whether it can be. */
  lemma MetadataTimeIndependent(cfg: Model.Config, codec: Jwt.Codec, authorization: string, t1: int, t2: int)
    requires GetTokenMetadata(cfg, codec, authorization, t1).Ok?
    requires GetTokenMetadata(cfg, codec, authorization, t2).Ok?
    ensures GetTokenMetadata(cfg, codec, authorization, t1) == GetTokenMetadata(cfg, codec, authorization, t2)
  {
  }

  /**
    Authentication as the post handlers compose it (getTokenMetadata, then
    fetchTokenDataFromRedis): the user id stored under the token's access_uuid.
  */
  function SessionUser(cfg: Model.Config, codec: Jwt.Codec, entries: map<string, Redis.Entry>, authorization: string, now: int): (r: Result<Strconv.Int64, AuthError>)
    ensures r.Ok? ==> GetTokenMetadata(cfg, codec, authorization, now).Ok?
    ensures r.Ok? ==>
      var u := GetTokenMetadata(cfg, codec, authorization, now).value.accessUuid;
      Redis.Lookup(entries, u, now).Some? && Strconv.Atoi(Redis.Lookup(entries, u, now).value) == Some(r.value)
  {
    match GetTokenMetadata(cfg, codec, authorization, now)
    case Err(e) => Err(e)
    case Ok(md) =>
      match Redis.Lookup(entries, md.accessUuid, now)
      case None => Err(StoreError(Redis.Nil))
      case Some(v) =>
        match Strconv.Atoi(v)
        case None => Err(UserIdUnparsable)
        case Some(id) => Ok(id)
  }

  /** What stops the refresh handler before it touches the store. */
  datatype RefreshRejection =
    | ParseFailed(cause: Jwt.JwtError)  // 400 with the parser's message
    | NotValid                          // 401
    | MissingRefreshUuid                // 422 "invalid token"
    | BadUserId                         // 422 "invalid token"

  datatype RefreshClaim = RefreshClaim(uuid: string, userId: Strconv.Int64)

  /** refreshToken's reading of the token it is given: the session to retire and the user to issue for. */
  function ReadRefreshClaims(cfg: Model.Config, codec: Jwt.Codec, tokenString: string, now: int): (r: Result<RefreshClaim, RefreshRejection>)
    ensures r.Ok? ==> Jwt.Parse(codec, tokenString, RefreshKeyfunc(cfg), now).Ok?
    ensures r.Ok? ==>
      var claims := Jwt.Parse(codec, tokenString, RefreshKeyfunc(cfg), now).value.claims;
      && "refresh_uuid" in claims && claims["refresh_uuid"] == Jwt.Str(r.value.uuid)
      && "user_id" in claims && claims["user_id"].Num? && 0 <= claims["user_id"].n <= Strconv.MaxUint64
      && r.value.userId == IntOfUint64(claims["user_id"].n)
  {
    match Jwt.Parse(codec, tokenString, RefreshKeyfunc(cfg), now)
    case Err(e) => Err(ParseFailed(e))
    case Ok(token) =>
      // The later `ok && token.Valid` test always passes here, so its "token expired" answer is never sent.
      if !token.valid then Err(NotValid)
      else if !("refresh_uuid" in token.claims && token.claims["refresh_uuid"].Str?) then Err(MissingRefreshUuid)
      else match UnsignedUserId(token.claims)
        case None => Err(BadUserId)
        case Some(id) => Ok(RefreshClaim(token.claims["refresh_uuid"].s, IntOfUint64(id)))
  }

  /** A refresh token names the same session and user whenever it is read. */
  lemma RefreshClaimsTimeIndependent(cfg: Model.Config, codec: Jwt.Codec, tokenString: string, t1: int, t2: int)
    requires ReadRefreshClaims(cfg, codec, tokenString, t1).Ok?
    requires ReadRefreshClaims(cfg, codec, tokenString, t2).Ok?
    ensures ReadRefreshClaims(cfg, codec, tokenString, t1) == ReadRefreshClaims(cfg, codec, tokenString, t2)
  {
  }

  /** The answer the refresh handler gives for a rejected token. */
  function RejectionResponse(w: Writer, e: RefreshRejection): (r: Response)
    ensures r.status != StatusOK
  {
    match e
    case ParseFailed(cause) => BadRequestResponse(w, Jwt.Message(cause))
    case NotValid => UnauthorizedResponse(w)
    case MissingRefreshUuid => ErrorResponse(w, StatusUnprocessableEntity, "invalid token")
    case BadUserId => ErrorResponse(w, StatusUnprocessableEntity, "invalid token")
  }

  /** sendJSON of the new pair with 200, or internalErrorResponse when that fails. */
  function TokensResponse(w: Writer, td: Model.TokenDetails): (r: Response)
    ensures !w.sendFails ==> r == Response(StatusOK, TokenPair(td.accessToken, td.refreshToken))
    ensures w.sendFails ==> r.status == StatusInternalServerError
  {
    match SendJSON(w, TokenPair(td.accessToken, td.refreshToken), StatusOK)
    case Some(written) => written
    case None => InternalErrorResponse(w, "")
  }

  // ---------------------------------------------------------------------------
  // What createToken and saveTokenInformation produce

  /** createToken's refresh payload: the session name it is given goes under "refresh_uuid". */
  function RefreshClaims(userId: int, sessionName: string, exp: int): (c: Jwt.Claims)
    ensures c.Keys == {"user_id", "refresh_uuid", "authorized", "exp"}
  {
    map["user_id" := Jwt.Num(userId), "refresh_uuid" := Jwt.Str(sessionName),
        "authorized" := Jwt.Flag(true), "exp" := Jwt.Num(exp)]
  }

  /**
    The pair createToken issues for `userId` at `now`: expiries from the
    "auth.*" settings, both tokens HS256 with the fallback secrets, and the
    refresh token naming the ACCESS session.
  */
  predicate IssuedPair(cfg: Model.Config, codec: Jwt.Codec, td: Model.TokenDetails, userId: int, now: int) {
    && td.atExpires == now + Model.SecondsPerMinute * Model.GetInt(cfg, "auth.tokenExpTime")
    && td.rtExpires == now + Model.SecondsPerDay * Model.GetInt(cfg, "auth.refreshExpTime")
    && td.accessToken == Jwt.Sign(codec, Jwt.HS256, Model.AccessClaims(userId, td.accessUuid, td.atExpires),
                                  Model.SigningSecret(cfg, "JWT_SECRET"))
    && td.refreshToken == Jwt.Sign(codec, Jwt.HS256, RefreshClaims(userId, td.accessUuid, td.rtExpires),
                                   Model.SigningSecret(cfg, "JWT_REFRESH_SECRET"))
  }

  /** The entry saveTokenInformation writes: the decimal user id, living until `expires`. */
  function SessionEntry(userId: int, expires: int, now: int): Redis.Entry {
    Redis.Entry(Strconv.Itoa(userId), Redis.ExpiryFor(expires - now, now))
  }

  /**
    Issue, save, authenticate: while the access token is current, presenting
    it gives back exactly the user it was issued for, provided JWT_SECRET is
    set (so the verifying secret is the signing one).
  */
  lemma IssuedAccessTokenAuthenticates(cfg: Model.Config, codec: Jwt.Codec, entries: map<string, Redis.Entry>,
                                       td: Model.TokenDetails, userId: Strconv.Int64, now: int, t: int)
    requires Jwt.ValidCodec(codec)
    requires IssuedPair(cfg, codec, td, userId, now)
    requires td.accessUuid in entries && entries[td.accessUuid] == SessionEntry(userId, td.atExpires, now)
    requires Model.Getenv(cfg, "JWT_SECRET") != ""
    requires now <= t < td.atExpires
    ensures SessionUser(cfg, codec, entries, "Bearer " + td.accessToken, t) == Ok(userId)
  {
    var claims := Model.AccessClaims(userId, td.accessUuid, td.atExpires);
    var key := AccessKeyfunc(cfg);
    assert ' ' !in codec.encode(Jwt.Jws(Jwt.HS256, claims, key.secret));
    ExtractTokenComplete(td.accessToken);
    assert Jwt.TimeClaim(claims, "iat") == 0 && Jwt.TimeClaim(claims, "nbf") == 0;
    Jwt.SignParse(codec, Jwt.HS256, claims, key, t);
    Strconv.AtoiItoa(userId);
  }

  /**
    Once the access expiry has passed, the token no longer authenticates even
    though its session entry may still be in the map.
  */
  lemma IssuedAccessTokenExpires(cfg: Model.Config, codec: Jwt.Codec, entries: map<string, Redis.Entry>,
                                 td: Model.TokenDetails, userId: Strconv.Int64, now: int, t: int)
    requires Jwt.ValidCodec(codec)
    requires IssuedPair(cfg, codec, td, userId, now)
    requires td.accessUuid in entries && entries[td.accessUuid] == SessionEntry(userId, td.atExpires, now)
    requires Model.GetInt(cfg, "auth.tokenExpTime") > 0
    requires t >= td.atExpires
    ensures SessionUser(cfg, codec, entries, "Bearer " + td.accessToken, t).Err?
  {
    var jws := Jwt.Jws(Jwt.HS256, Model.AccessClaims(userId, td.accessUuid, td.atExpires), Model.SigningSecret(cfg, "JWT_SECRET"));
    assert codec.decode(td.accessToken) == Some(jws);
    ExtractTokenComplete(td.accessToken);
    Jwt.ParseAccepts(codec, td.accessToken, AccessKeyfunc(cfg), t);
    assert !Redis.Live(entries[td.accessUuid], t);
  }

  /**
    With JWT_SECRET unset, tokens are signed with "supersecretkey" but checked
    against the empty string, so no issued access token ever verifies; the
    same holds for refresh tokens and JWT_REFRESH_SECRET.
  */
  lemma UnsetSecretRejectsIssuedTokens(cfg: Model.Config, codec: Jwt.Codec, td: Model.TokenDetails, userId: int, now: int, t: int)
    requires Jwt.ValidCodec(codec)
    requires IssuedPair(cfg, codec, td, userId, now)
    ensures Model.Getenv(cfg, "JWT_SECRET") == "" ==>
      VerifyToken(cfg, codec, "Bearer " + td.accessToken, t) == Err(TokenError(Jwt.SignatureInvalid))
    ensures Model.Getenv(cfg, "JWT_REFRESH_SECRET") == "" ==>
      ReadRefreshClaims(cfg, codec, td.refreshToken, t) == Err(ParseFailed(Jwt.SignatureInvalid))
  {
    var access := Jwt.Jws(Jwt.HS256, Model.AccessClaims(userId, td.accessUuid, td.atExpires), Model.SigningSecret(cfg, "JWT_SECRET"));
    assert ' ' !in codec.encode(access);
    ExtractTokenComplete(td.accessToken);
    if Model.Getenv(cfg, "JWT_SECRET") == "" {
      Jwt.WrongSecretRejected(codec, Jwt.HS256, access.claims, access.signedWith, AccessKeyfunc(cfg), t);
    }
    if Model.Getenv(cfg, "JWT_REFRESH_SECRET") == "" {
      Jwt.WrongSecretRejected(codec, Jwt.HS256, RefreshClaims(userId, td.accessUuid, td.rtExpires),
                              Model.SigningSecret(cfg, "JWT_REFRESH_SECRET"), RefreshKeyfunc(cfg), t);
    }
  }

  /**
    An issued refresh token, read while current with JWT_REFRESH_SECRET set,
    names the pair's ACCESS session and its user.
  */
  lemma IssuedRefreshTokenNamesAccessSession(cfg: Model.Config, codec: Jwt.Codec, td: Model.TokenDetails,
                                             userId: Strconv.Int64, now: int, t: int)
    requires Jwt.ValidCodec(codec)
    requires IssuedPair(cfg, codec, td, userId, now)
    requires Model.Getenv(cfg, "JWT_REFRESH_SECRET") != ""
    requires userId >= 0 && t <= td.rtExpires
    ensures ReadRefreshClaims(cfg, codec, td.refreshToken, t) == Ok(RefreshClaim(td.accessUuid, userId))
  {
    var claims := RefreshClaims(userId, td.accessUuid, td.rtExpires);
    assert Jwt.TimeClaim(claims, "iat") == 0 && Jwt.TimeClaim(claims, "nbf") == 0;
    Jwt.SignParse(codec, Jwt.HS256, claims, RefreshKeyfunc(cfg), t);
    Strconv.ParseUintItoa(userId);
  }

  /** Whenever an issued access token verifies, its metadata names the pair's access session and its user. */
  lemma IssuedAccessTokenNamesSession(cfg: Model.Config, codec: Jwt.Codec, td: Model.TokenDetails,
                                      userId: Strconv.Int64, now: int, t: int)
    requires Jwt.ValidCodec(codec)
    requires IssuedPair(cfg, codec, td, userId, now)
    requires GetTokenMetadata(cfg, codec, "Bearer " + td.accessToken, t).Ok?
    ensures GetTokenMetadata(cfg, codec, "Bearer " + td.accessToken, t).value == Model.TokenMetadata(td.accessUuid, userId)
  {
    var jws := Jwt.Jws(Jwt.HS256, Model.AccessClaims(userId, td.accessUuid, td.atExpires), Model.SigningSecret(cfg, "JWT_SECRET"));
    assert codec.decode(td.accessToken) == Some(jws);
    ExtractTokenComplete(td.accessToken);
    Jwt.ParseAccepts(codec, td.accessToken, AccessKeyfunc(cfg), t);
  }

  /**
    Whenever an issued refresh token is accepted, it names the pair's ACCESS
    session (never its refresh session), under any secret setting and at any time.
  */
  lemma IssuedRefreshTokenNamesAccessUuid(cfg: Model.Config, codec: Jwt.Codec, td: Model.TokenDetails,
                                          userId: int, now: int, t: int)
    requires Jwt.ValidCodec(codec)
    requires IssuedPair(cfg, codec, td, userId, now)
    requires ReadRefreshClaims(cfg, codec, td.refreshToken, t).Ok?
    ensures ReadRefreshClaims(cfg, codec, td.refreshToken, t).value.uuid == td.accessUuid
  {
    var jws := Jwt.Jws(Jwt.HS256, RefreshClaims(userId, td.accessUuid, td.rtExpires), Model.SigningSecret(cfg, "JWT_REFRESH_SECRET"));
    assert codec.decode(td.refreshToken) == Some(jws);
    Jwt.ParseAccepts(codec, td.refreshToken, RefreshKeyfunc(cfg), t);
  }

  /** A session name that is no longer in the store never authenticates, whatever token carries it. */
  lemma RevokedNeverAuthenticates(cfg: Model.Config, codec: Jwt.Codec, entries: map<string, Redis.Entry>,
                                  revoked: set<string>, authorization: string, t: int)
    requires revoked !! entries.Keys
    requires GetTokenMetadata(cfg, codec, authorization, t).Ok?
    requires GetTokenMetadata(cfg, codec, authorization, t).value.accessUuid in revoked
    ensures SessionUser(cfg, codec, entries, authorization, t) == Err(StoreError(Redis.Nil))
  {
  }

  /**
    The user login accepts: the body decoded, a user found under the
    lower-cased e-mail, and both the password and the stored e-mail matching.
  */
  function AcceptedUser(body: Option<Model.Auth>, findByEmail: string -> Result<Model.User, Model.DbError>,
                        comparePassword: (string, string) -> bool): (u: Option<Model.User>)
    ensures u.Some? ==> body.Some? && findByEmail(Strings.ToLower(body.value.email)) == Ok(u.value)
    ensures u.Some? ==> comparePassword(u.value.password, body.value.password) && u.value.email == Strings.ToLower(body.value.email)
    ensures u.None? && body.Some? && findByEmail(Strings.ToLower(body.value.email)).Ok? ==>
      var user := findByEmail(Strings.ToLower(body.value.email)).value;
      !comparePassword(user.password, body.value.password) || user.email != Strings.ToLower(body.value.email)
  {
    if body.None? then None
    else
      var email := Strings.ToLower(body.value.email);
      match findByEmail(email)
      case Err(_) => None
      case Ok(user) =>
        if comparePassword(user.password, body.value.password) && user.email == email then Some(user) else None
  }

  // ---------------------------------------------------------------------------
  // The handler and its shared state

  class Handler {
    const cfg: Model.Config
    const codec: Jwt.Codec
    /** h.redis: the session store shared by all requests. */
    const redis: Redis.Client
    /** The random source behind uuid.NewV4. */
    const uuids: Uuid.Generator
    /** Session names deleted by a successful logout or refresh. */
    ghost var revoked: set<string>

    /**
      Every stored session name was drawn from the generator, and no revoked
      name is stored again: the generator never hands it out a second time.
    */
    ghost predicate Valid()
      reads this, redis, uuids
    {
      && Jwt.ValidCodec(codec)
      && uuids.Valid()
      && redis.entries.Keys <= uuids.issued
      && revoked <= uuids.issued
      && revoked !! redis.entries.Keys
    }

    constructor (cfg: Model.Config, codec: Jwt.Codec)
      requires Jwt.ValidCodec(codec)
      ensures Valid() && fresh(redis) && fresh(uuids)
      ensures this.cfg == cfg && redis.entries == map[] && uuids.issued == {} && revoked == {}
    {
      this.cfg := cfg;
      this.codec := codec;
      redis := new Redis.Client();
      uuids := new Uuid.Generator();
      revoked := {};
    }

    /** createToken: draw two session names, compute both expiries, sign both tokens. */
    method CreateToken(userId: Strconv.Int64, now: int, io: Io) returns (r: Result<Model.TokenDetails, AuthError>)
      requires Valid()
      modifies uuids
      ensures Valid()
      ensures r.Err? <==> io.accessUuidFails || io.refreshUuidFails
      ensures r.Err? ==> r.error.UuidError? && uuids.issued >= old(uuids.issued)
      ensures r.Ok? ==>
        var td := r.value;
        && IssuedPair(cfg, codec, td, userId, now)
        && td.accessUuid != td.refreshUuid
        && td.accessUuid !in old(uuids.issued) && td.refreshUuid !in old(uuids.issued)
        && uuids.issued == old(uuids.issued) + {td.accessUuid, td.refreshUuid}
    {
      var accessSecret := Model.Getenv(cfg, "JWT_SECRET");
      if accessSecret == "" {
        accessSecret := Model.DefaultSecret;
      }
      var refreshSecret := Model.Getenv(cfg, "JWT_REFRESH_SECRET");
      if refreshSecret == "" {
        refreshSecret := Model.DefaultSecret;
      }
      var tokenExpTimeMinutes := Model.GetInt(cfg, "auth.tokenExpTime");
      var refreshExpTimeDays := Model.GetInt(cfg, "auth.refreshExpTime");

      var td := Model.TokenDetails("", "", "", "", 0, 0);

      td := td.(atExpires := now + Model.SecondsPerMinute * tokenExpTimeMinutes);
      var accessUuid := uuids.NewV4(io.accessUuidFails);
      if accessUuid.Err? {
        return Err(UuidError(accessUuid.error));
      }
      td := td.(accessUuid := accessUuid.value);

      td := td.(rtExpires := now + Model.SecondsPerDay * refreshExpTimeDays);
      var refreshUuid := uuids.NewV4(io.refreshUuidFails);
      if refreshUuid.Err? {
        return Err(UuidError(refreshUuid.error));
      }
      td := td.(refreshUuid := refreshUuid.value);

      var accessClaims: Jwt.Claims := map[];
      accessClaims := accessClaims["user_id" := Jwt.Num(userId)];
      accessClaims := accessClaims["access_uuid" := Jwt.Str(td.accessUuid)];
      accessClaims := accessClaims["authorized" := Jwt.Flag(true)];
      accessClaims := accessClaims["exp" := Jwt.Num(td.atExpires)];
      td := td.(accessToken := Jwt.Sign(codec, Jwt.HS256, accessClaims, accessSecret));

      var refreshClaims: Jwt.Claims := map[];
      refreshClaims := refreshClaims["user_id" := Jwt.Num(userId)];
      refreshClaims := refreshClaims["refresh_uuid" := Jwt.Str(td.accessUuid)];
      refreshClaims := refreshClaims["authorized" := Jwt.Flag(true)];
      refreshClaims := refreshClaims["exp" := Jwt.Num(td.rtExpires)];
      td := td.(refreshToken := Jwt.Sign(codec, Jwt.HS256, refreshClaims, refreshSecret));

      return Ok(td);
    }

    /**
      saveTokenInformation: SET access name -> user id until the access expiry,
      then SET refresh name -> user id until the refresh expiry. A failed first
      SET skips the second; a failed second SET leaves the first in place.
    */
    method SaveTokenInformation(userId: Strconv.Int64, td: Model.TokenDetails, now: int, io: Io) returns (err: Option<AuthError>)
      requires Valid()
      requires td.accessUuid in uuids.issued - revoked && td.refreshUuid in uuids.issued - revoked
      modifies redis
      ensures Valid()
      ensures err.None? <==> !io.setAccessFails && !io.setRefreshFails
      ensures err.Some? ==> err.value == StoreError(Redis.Unavailable)
      ensures io.setAccessFails ==> redis.entries == old(redis.entries)
      ensures !io.setAccessFails && io.setRefreshFails ==>
        redis.entries == old(redis.entries)[td.accessUuid := SessionEntry(userId, td.atExpires, now)]
      ensures !io.setAccessFails && !io.setRefreshFails ==>
        redis.entries == old(redis.entries)[td.accessUuid := SessionEntry(userId, td.atExpires, now)]
                                           [td.refreshUuid := SessionEntry(userId, td.rtExpires, now)]
    {
      var e := redis.Set(td.accessUuid, Strconv.Itoa(userId), td.atExpires - now, now, io.setAccessFails);
      if e.Some? {
        return Some(StoreError(e.value));
      }
      e := redis.Set(td.refreshUuid, Strconv.Itoa(userId), td.rtExpires - now, now, io.setRefreshFails);
      if e.Some? {
        return Some(StoreError(e.value));
      }
      return None;
    }

    /** fetchTokenDataFromRedis: GET the token's access name and parse the stored user id with Atoi. */
    method FetchTokenDataFromRedis(md: Model.TokenMetadata, now: int, fails: bool) returns (r: Result<Strconv.Int64, AuthError>)
      ensures fails ==> r == Err(StoreError(Redis.Unavailable))
      ensures !fails && Redis.Lookup(redis.entries, md.accessUuid, now).None? ==> r == Err(StoreError(Redis.Nil))
      ensures r.Ok? <==> !fails && Redis.Lookup(redis.entries, md.accessUuid, now).Some?
                         && Strconv.Atoi(Redis.Lookup(redis.entries, md.accessUuid, now).value).Some?
      ensures r.Ok? ==> Strconv.Atoi(Redis.Lookup(redis.entries, md.accessUuid, now).value) == Some(r.value)
      ensures r.Err? && !fails && Redis.Lookup(redis.entries, md.accessUuid, now).Some? ==> r == Err(UserIdUnparsable)
    {
      var userIdString := redis.Get(md.accessUuid, now, fails);
      if userIdString.Err? {
        return Err(StoreError(userIdString.error));
      }
      var userId := Strconv.Atoi(userIdString.value);
      if userId.None? {
        return Err(UserIdUnparsable);
      }
      return Ok(userId.value);
    }

    /** removeUserTokenFromCache: DEL the name, answering how many live sessions went. */
    method RemoveUserTokenFromCache(uuid: string, now: int, fails: bool) returns (r: Result<nat, AuthError>)
      requires Valid()
      modifies redis
      ensures Valid()
      ensures fails ==> r == Err(StoreError(Redis.Unavailable)) && redis.entries == old(redis.entries)
      ensures !fails ==> r == Ok(if Redis.Lookup(old(redis.entries), uuid, now).Some? then 1 else 0)
      ensures !fails ==> redis.entries == old(redis.entries) - {uuid}
    {
      var deleted := redis.Del(uuid, now, fails);
      if deleted.Err? {
        return Err(StoreError(deleted.error));
      }
      return Ok(deleted.value);
    }

    /** The authentication the post handlers perform on each request (internal/handler/post.go). */
    method Authenticate(authorization: string, now: int, io: Io) returns (r: Result<Strconv.Int64, AuthError>)
      ensures !io.getFails ==> r == SessionUser(cfg, codec, redis.entries, authorization, now)
      ensures io.getFails ==> r.Err?
    {
      var token := GetTokenMetadata(cfg, codec, authorization, now);
      if token.Err? {
        return Err(token.error);
      }
      r := FetchTokenDataFromRedis(token.value, now, io.getFails);
    }

    /**
      logout: delete the access session of the presented token. 401 when the
      token does not verify, 500 when the store fails or nothing was deleted,
      otherwise 200; afterwards the token never authenticates again.
    */
    method Logout(w: Writer, authorization: string, now: int, io: Io) returns (r: Response)
      requires Valid()
      modifies this, redis
      ensures Valid()
      ensures GetTokenMetadata(cfg, codec, authorization, now).Err? ==>
        r == UnauthorizedResponse(w) && redis.entries == old(redis.entries) && revoked == old(revoked)
      ensures GetTokenMetadata(cfg, codec, authorization, now).Ok? ==>
        var u := GetTokenMetadata(cfg, codec, authorization, now).value.accessUuid;
        && redis.entries == (if io.delFails then old(redis.entries) else old(redis.entries) - {u})
        && (r.status == StatusOK <==> !io.delFails && Redis.Lookup(old(redis.entries), u, now).Some?)
        && (r.status == StatusOK ==> r.body == NoBody && revoked == old(revoked) + {u})
        && (r.status != StatusOK ==> r == InternalErrorResponse(w, "") && revoked == old(revoked))
      ensures r.status == StatusOK ==> forall t :: SessionUser(cfg, codec, redis.entries, authorization, t).Err?
    {
      var token := GetTokenMetadata(cfg, codec, authorization, now);
      if token.Err? {
        return UnauthorizedResponse(w);
      }
      var deleted := RemoveUserTokenFromCache(token.value.accessUuid, now, io.delFails);
      if deleted.Err? || deleted.value == 0 {
        return InternalErrorResponse(w, if deleted.Err? then ErrorText(deleted.error) else "");
      }
      revoked := revoked + {token.value.accessUuid};
      forall t ensures SessionUser(cfg, codec, redis.entries, authorization, t).Err? {
        if GetTokenMetadata(cfg, codec, authorization, t).Ok? {
          MetadataTimeIndependent(cfg, codec, authorization, now, t);
        }
      }
      return Response(StatusOK, NoBody);
    }

    /**
      refreshToken: read the refresh token, delete the session its
      refresh_uuid names, and only if one was deleted issue and save a new
      pair. 400 on a body or parse error, 401 when not valid, 422 on a missing
      name or user id or when nothing was deleted, 403 when issuing or saving
      fails, 200 with the new pair otherwise.
    */
    method RefreshToken(w: Writer, body: Result<string, string>, now: int, io: Io)
      returns (r: Response, ghost issued: Option<Model.TokenDetails>)
      requires Valid()
      modifies this, redis, uuids
      ensures Valid()
      ensures body.Err? ==> r == BadRequestResponse(w, body.error)
      ensures body.Ok? && ReadRefreshClaims(cfg, codec, body.value, now).Err? ==>
        r == RejectionResponse(w, ReadRefreshClaims(cfg, codec, body.value, now).error)
      ensures (body.Err? || ReadRefreshClaims(cfg, codec, body.value, now).Err?) ==>
        redis.entries == old(redis.entries) && uuids.issued == old(uuids.issued) && revoked == old(revoked)
      ensures old(revoked) <= revoked && old(uuids.issued) <= uuids.issued
      ensures body.Ok? && ReadRefreshClaims(cfg, codec, body.value, now).Ok? ==>
        var c := ReadRefreshClaims(cfg, codec, body.value, now).value;
        && (r.status == StatusOK || r.status == StatusForbidden ==> c.uuid in revoked)
        && (c.uuid in old(revoked) ==>
              && r == ErrorResponse(w, StatusUnprocessableEntity, "invalid token")
              && redis.entries == old(redis.entries) && uuids.issued == old(uuids.issued))
        // DEL failed or found no live session: 422 before any draw.
        && (io.delFails || Redis.Lookup(old(redis.entries), c.uuid, now).None? ==>
              && r == ErrorResponse(w, StatusUnprocessableEntity, "invalid token")
              && uuids.issued == old(uuids.issued) && revoked == old(revoked)
              && redis.entries == (if io.delFails then old(redis.entries) else old(redis.entries) - {c.uuid}))
        // The session was deleted but issuing or saving the new pair failed: 403.
        && ((!io.delFails && Redis.Lookup(old(redis.entries), c.uuid, now).Some?
             && (io.accessUuidFails || io.refreshUuidFails || io.setAccessFails || io.setRefreshFails)) ==>
              && r.status == (if w.sendFails then StatusInternalServerError else StatusForbidden)
              && revoked == old(revoked) + {c.uuid})
        && ((!io.delFails && Redis.Lookup(old(redis.entries), c.uuid, now).Some?
             && (io.accessUuidFails || io.refreshUuidFails || io.setAccessFails)) ==>
              redis.entries == old(redis.entries) - {c.uuid})
        // The new pair was issued and its access session saved; the refresh SET and the write decide the rest.
        && ((!io.delFails && Redis.Lookup(old(redis.entries), c.uuid, now).Some?
             && !io.accessUuidFails && !io.refreshUuidFails && !io.setAccessFails) ==>
              && issued.Some? && IssuedPair(cfg, codec, issued.value, c.userId, now)
              && (io.setRefreshFails ==>
                    redis.entries == (old(redis.entries) - {c.uuid})
                                       [issued.value.accessUuid := SessionEntry(c.userId, issued.value.atExpires, now)])
              && (!io.setRefreshFails ==>
                    && r == TokensResponse(w, issued.value)
                    && redis.entries == (old(redis.entries) - {c.uuid})
                                          [issued.value.accessUuid := SessionEntry(c.userId, issued.value.atExpires, now)]
                                          [issued.value.refreshUuid := SessionEntry(c.userId, issued.value.rtExpires, now)]))
        // Everything succeeds: 200.
        && ((!io.delFails && Redis.Lookup(old(redis.entries), c.uuid, now).Some?
             && !io.accessUuidFails && !io.refreshUuidFails && !io.setAccessFails && !io.setRefreshFails
             && !w.sendFails) ==> r.status == StatusOK)
      ensures r.status == StatusOK ==>
        && body.Ok? && ReadRefreshClaims(cfg, codec, body.value, now).Ok?
        && var c := ReadRefreshClaims(cfg, codec, body.value, now).value;
        && Redis.Lookup(old(redis.entries), c.uuid, now).Some?
        && issued.Some?
        && var td := issued.value;
        && IssuedPair(cfg, codec, td, c.userId, now)
        && r.body == TokenPair(td.accessToken, td.refreshToken)
        && redis.entries == (old(redis.entries) - {c.uuid})[td.accessUuid := SessionEntry(c.userId, td.atExpires, now)]
                                                          [td.refreshUuid := SessionEntry(c.userId, td.rtExpires, now)]
    {
      issued := None;
      if body.Err? {
        return BadRequestResponse(w, body.error), issued;
      }
      var claim := ReadRefreshClaims(cfg, codec, body.value, now);
      if claim.Err? {
        return RejectionResponse(w, claim.error), issued;
      }
      var refreshUuid, userId := claim.value.uuid, claim.value.userId;

      var deleted := RemoveUserTokenFromCache(refreshUuid, now, io.delFails);
      if deleted.Err? || deleted.value == 0 {
        return ErrorResponse(w, StatusUnprocessableEntity, "invalid token"), issued;
      }
      revoked := revoked + {refreshUuid};

      var ts := CreateToken(userId, now, io);
      if ts.Err? {
        return ErrorResponse(w, StatusForbidden, ErrorText(ts.error)), issued;
      }
      issued := Some(ts.value);
      var err := SaveTokenInformation(userId, ts.value, now, io);
      if err.Some? {
        return ErrorResponse(w, StatusForbidden, ErrorText(err.value)), issued;
      }
      return TokensResponse(w, ts.value), issued;
    }

    /**
      login: read the credentials, look the user up by lower-cased e-mail,
      check the password and the e-mail, then issue, save and send a pair.
      The lookup's missing-row error is pgx.ErrNoRows, which is not the
      handlers' "record not found" error, so an unknown e-mail gets 500.
    */
    method Login(w: Writer, body: Option<Model.Auth>, findByEmail: string -> Result<Model.User, Model.DbError>,
                 comparePassword: (string, string) -> bool, now: int, io: Io)
      returns (r: Response, ghost issued: Option<Model.TokenDetails>)
      requires Valid()
      modifies redis, uuids
      ensures Valid()
      ensures uuids.issued >= old(uuids.issued)
      ensures body.None? ==> r == InvalidRequestBodyResponse(w)
      ensures AcceptedUser(body, findByEmail, comparePassword).None? ==>
        r.status != StatusOK && redis.entries == old(redis.entries) && uuids.issued == old(uuids.issued)
      ensures AcceptedUser(body, findByEmail, comparePassword).Some? ==>
        && (io.accessUuidFails || io.refreshUuidFails || io.setAccessFails ==>
              r == InternalErrorResponse(w, "") && redis.entries == old(redis.entries))
        && (!io.accessUuidFails && !io.refreshUuidFails && io.setRefreshFails ==> r == InternalErrorResponse(w, ""))
        && (!io.accessUuidFails && !io.refreshUuidFails && !io.setAccessFails ==>
              && var u := AcceptedUser(body, findByEmail, comparePassword).value;
              && issued.Some? && IssuedPair(cfg, codec, issued.value, u.id, now)
              && (io.setRefreshFails ==>
                    redis.entries == old(redis.entries)[issued.value.accessUuid := SessionEntry(u.id, issued.value.atExpires, now)])
              && (!io.setRefreshFails ==>
                    && r == TokensResponse(w, issued.value)
                    && redis.entries == old(redis.entries)
                                          [issued.value.accessUuid := SessionEntry(u.id, issued.value.atExpires, now)]
                                          [issued.value.refreshUuid := SessionEntry(u.id, issued.value.rtExpires, now)]))
        && (!io.accessUuidFails && !io.refreshUuidFails && !io.setAccessFails && !io.setRefreshFails && !w.sendFails ==>
              r.status == StatusOK)
      ensures body.Some? && findByEmail(Strings.ToLower(body.value.email)).Err? ==>
        r == (if findByEmail(Strings.ToLower(body.value.email)).error == Model.RecordNotFound
              then NotFoundResponse(w) else InternalErrorResponse(w, ""))
      ensures body.Some? && findByEmail(Strings.ToLower(body.value.email)).Ok? ==>
        var user := findByEmail(Strings.ToLower(body.value.email)).value;
        !comparePassword(user.password, body.value.password) || user.email != Strings.ToLower(body.value.email) ==>
          r == BadRequestResponse(w, "invalid email or password")
      ensures r.status == StatusOK ==>
        && body.Some?
        && findByEmail(Strings.ToLower(body.value.email)).Ok?
        && var user := findByEmail(Strings.ToLower(body.value.email)).value;
        && comparePassword(user.password, body.value.password)
        && user.email == Strings.ToLower(body.value.email)
        && issued.Some?
        && var td := issued.value;
        && IssuedPair(cfg, codec, td, user.id, now)
        && r.body == TokenPair(td.accessToken, td.refreshToken)
        && redis.entries == old(redis.entries)[td.accessUuid := SessionEntry(user.id, td.atExpires, now)]
                                              [td.refreshUuid := SessionEntry(user.id, td.rtExpires, now)]
        && (Model.Getenv(cfg, "JWT_SECRET") != "" ==>
              forall t :: now <= t < td.atExpires ==>
                SessionUser(cfg, codec, redis.entries, "Bearer " + td.accessToken, t) == Ok(user.id))
      ensures r.status != StatusOK ==> revoked == old(revoked)
    {
      issued := None;
      if body.None? {
        return InvalidRequestBodyResponse(w), issued;
      }
      var login := body.value;
      login := login.(email := Strings.ToLower(login.email));

      var found := findByEmail(login.email);
      if found.Err? {
        if found.error == Model.RecordNotFound {
          return NotFoundResponse(w), issued;
        }
        return InternalErrorResponse(w, ""), issued;
      }
      var user := found.value;
      if !comparePassword(user.password, login.password) || user.email != login.email {
        return BadRequestResponse(w, "invalid email or password"), issued;
      }
      user := user.(password := "");

      var tokens := CreateToken(user.id, now, io);
      if tokens.Err? {
        return InternalErrorResponse(w, ErrorText(tokens.error)), issued;
      }
      issued := Some(tokens.value);
      var err := SaveTokenInformation(user.id, tokens.value, now, io);
      if err.Some? {
        return InternalErrorResponse(w, ErrorText(err.value)), issued;
      }
      var td := tokens.value;
      assert td.accessUuid != td.refreshUuid;
      forall t | now <= t < td.atExpires && Model.Getenv(cfg, "JWT_SECRET") != ""
        ensures SessionUser(cfg, codec, redis.entries, "Bearer " + td.accessToken, t) == Ok(user.id)
      {
        IssuedAccessTokenAuthenticates(cfg, codec, redis.entries, td, user.id, now, t);
      }
      return TokensResponse(w, td), issued;
    }
  }
}
