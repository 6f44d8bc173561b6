/**
  The records of internal/model: the login input (Auth), the issued token pair
  (TokenDetails), what the handlers read back from an access token
  (TokenMetadata), a user row, and the process configuration the token code
  reads (environment variables and viper settings).
*/
module Model {
  import opened Wrappers
  import Strconv
  import Jwt
  import Uuid

  /** The process environment (os.Getenv) and the loaded viper settings (viper.GetInt). */
  datatype Config = Config(env: map<string, string>, viper: map<string, int>)

  /** os.Getenv: the empty string when the variable is unset. */
  function Getenv(cfg: Config, name: string): string {
    if name in cfg.env then cfg.env[name] else ""
  }

  /** viper.GetInt: 0 when the key is missing. */
  function GetInt(cfg: Config, key: string): int {
    if key in cfg.viper then cfg.viper[key] else 0
  }

  const DefaultSecret: string := "supersecretkey"

  /** The secret the token code signs with: the variable's value, or "supersecretkey" when it is empty. */
  function SigningSecret(cfg: Config, name: string): (s: string)
    ensures s != ""
    ensures Getenv(cfg, name) != "" ==> s == Getenv(cfg, name)
    ensures Getenv(cfg, name) == "" ==> s == DefaultSecret
  {
    if Getenv(cfg, name) == "" then DefaultSecret else Getenv(cfg, name)
  }

  const SecondsPerMinute: int := 60
  const SecondsPerDay: int := 24 * 60 * 60

  datatype TokenDetails = TokenDetails(
    accessToken: string,
    refreshToken: string,
    accessUuid: string,
    refreshUuid: string,
    atExpires: int,
    rtExpires: int)

  datatype TokenMetadata = TokenMetadata(accessUuid: string, userId: int)

  /** A users row as the repository returns it. */
  datatype User = User(id: Strconv.Int64, username: string, email: string, password: string)

  /** What a repository lookup can fail with: pgx.ErrNoRows, the handlers' own "record not found", or anything else. */
  datatype DbError = ErrNoRows | RecordNotFound | OtherDbError

  /** The payload of an access token: user id, session name, the authorized flag and the expiry. */
  function AccessClaims(userId: int, accessUuid: string, exp: int): (c: Jwt.Claims)
    ensures c.Keys == {"user_id", "access_uuid", "authorized", "exp"}
  {
    map["user_id" := Jwt.Num(userId), "access_uuid" := Jwt.Str(accessUuid),
        "authorized" := Jwt.Flag(true), "exp" := Jwt.Num(exp)]
  }

  /** The payload Auth.CreateToken signs into its refresh token: no session name at all. */
  function BareRefreshClaims(userId: int, exp: int): (c: Jwt.Claims)
    ensures c.Keys == {"user_id", "authorized", "exp"}
  {
    map["user_id" := Jwt.Num(userId), "authorized" := Jwt.Flag(true), "exp" := Jwt.Num(exp)]
  }

  datatype Auth = Auth(email: string, password: string) {

    /**
      Auth.CreateToken, the unused twin of the handler's createToken. It reads
      the "server.auth.*" settings, and it writes "refresh_uuid" into the
      access claims after the access token has been signed, so neither signed
      token carries it.
    */
    method CreateToken(userId: Strconv.Int64, cfg: Config, codec: Jwt.Codec, uuids: Uuid.Generator, now: int,
                       accessUuidFails: bool, refreshUuidFails: bool)
      returns (r: Result<TokenDetails, Uuid.UuidError>)
      requires uuids.Valid()
      modifies uuids
      ensures uuids.Valid()
      ensures r.Err? <==> accessUuidFails || refreshUuidFails
      ensures r.Err? ==> uuids.issued >= old(uuids.issued)
      ensures r.Ok? ==>
        var td := r.value;
        && td.atExpires == now + SecondsPerMinute * GetInt(cfg, "server.auth.tokenExpTime")
        && td.rtExpires == now + SecondsPerDay * GetInt(cfg, "server.auth.refreshExpTime")
        && td.accessUuid != "" && td.refreshUuid != "" && td.accessUuid != td.refreshUuid
        && td.accessUuid !in old(uuids.issued) && td.refreshUuid !in old(uuids.issued)
        && uuids.issued == old(uuids.issued) + {td.accessUuid, td.refreshUuid}
        && td.accessToken == Jwt.Sign(codec, Jwt.HS256, AccessClaims(userId, td.accessUuid, td.atExpires),
                                      SigningSecret(cfg, "JWT_SECRET"))
        && td.refreshToken == Jwt.Sign(codec, Jwt.HS256, BareRefreshClaims(userId, td.rtExpires),
                                       SigningSecret(cfg, "JWT_REFRESH_SECRET"))
    {
      var accessSecret := Getenv(cfg, "JWT_SECRET");
      if accessSecret == "" {
        accessSecret := DefaultSecret;
      }
      var refreshSecret := Getenv(cfg, "JWT_REFRESH_SECRET");
      if refreshSecret == "" {
        refreshSecret := DefaultSecret;
      }
      var tokenExpTimeMinutes := GetInt(cfg, "server.auth.tokenExpTime");
      var refreshExpTimeDays := GetInt(cfg, "server.auth.refreshExpTime");

      var td := TokenDetails("", "", "", "", 0, 0);

      td := td.(atExpires := now + SecondsPerMinute * tokenExpTimeMinutes);
      var accessUuid := uuids.NewV4(accessUuidFails);
      if accessUuid.Err? {
        return Err(accessUuid.error);
      }
      td := td.(accessUuid := accessUuid.value);

      td := td.(rtExpires := now + SecondsPerDay * refreshExpTimeDays);
      var refreshUuid := uuids.NewV4(refreshUuidFails);
      if refreshUuid.Err? {
        return Err(refreshUuid.error);
      }
      td := td.(refreshUuid := refreshUuid.value);

      var accessClaims: Jwt.Claims := map[];
      accessClaims := accessClaims["user_id" := Jwt.Num(userId)];
      accessClaims := accessClaims["access_uuid" := Jwt.Str(td.accessUuid)];
      accessClaims := accessClaims["authorized" := Jwt.Flag(true)];
      accessClaims := accessClaims["exp" := Jwt.Num(td.atExpires)];

      var accessToken := Jwt.Sign(codec, Jwt.HS256, accessClaims, accessSecret);
      td := td.(accessToken := accessToken);

      var refreshClaims: Jwt.Claims := map[];
      refreshClaims := refreshClaims["user_id" := Jwt.Num(userId)];
      // The session name goes into the access claims, whose token is already signed.
      accessClaims := accessClaims["refresh_uuid" := Jwt.Str(td.accessUuid)];
      refreshClaims := refreshClaims["authorized" := Jwt.Flag(true)];
      refreshClaims := refreshClaims["exp" := Jwt.Num(td.rtExpires)];

      var refreshToken := Jwt.Sign(codec, Jwt.HS256, refreshClaims, refreshSecret);
      td := td.(refreshToken := refreshToken);

      return Ok(td);
    }
  }

  /**
    Neither token Auth.CreateToken signs names a refresh session, so a refresh
    handler reading "refresh_uuid" finds nothing in them.
  */
  lemma CreateTokenOmitsRefreshUuid(codec: Jwt.Codec, cfg: Config, td: TokenDetails, userId: int)
    requires Jwt.ValidCodec(codec)
    requires td.accessToken == Jwt.Sign(codec, Jwt.HS256, AccessClaims(userId, td.accessUuid, td.atExpires),
                                        SigningSecret(cfg, "JWT_SECRET"))
    requires td.refreshToken == Jwt.Sign(codec, Jwt.HS256, BareRefreshClaims(userId, td.rtExpires),
                                         SigningSecret(cfg, "JWT_REFRESH_SECRET"))
    ensures codec.decode(td.accessToken).Some? && "refresh_uuid" !in codec.decode(td.accessToken).value.claims
    ensures codec.decode(td.refreshToken).Some? && "refresh_uuid" !in codec.decode(td.refreshToken).value.claims
  {
    var at := Jwt.Jws(Jwt.HS256, AccessClaims(userId, td.accessUuid, td.atExpires), SigningSecret(cfg, "JWT_SECRET"));
    var rt := Jwt.Jws(Jwt.HS256, BareRefreshClaims(userId, td.rtExpires), SigningSecret(cfg, "JWT_REFRESH_SECRET"));
    assert codec.decode(codec.encode(at)) == Some(at);
    assert codec.decode(codec.encode(rt)) == Some(rt);
  }
}
