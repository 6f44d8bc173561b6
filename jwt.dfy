/**
  The JSON Web Token codec (dgrijalva/jwt-go, version 3): JWS compact
  serialisation (section 7.1 of RFC 7515) with HMAC signatures (section 3.2
  of RFC 7518). Base64url and HMAC-SHA256 are not modelled: a decoded token
  records the secret its signature was computed with, and the signature checks
  out under a key exactly when that secret is the key.
*/
module Jwt {
  import opened Wrappers

  /** The "alg" header values the library knows; an unknown one fails decoding. */
  datatype Alg = HS256 | HS384 | HS512 | RS256 | ES256 | PS256 | NoneAlg

  /** The HMAC family, *jwt.SigningMethodHMAC. */
  predicate IsHmac(alg: Alg) {
    alg.HS256? || alg.HS384? || alg.HS512?
  }

  /** A claim value as jwt.MapClaims holds it after JSON decoding. */
  datatype ClaimValue = Num(n: int) | Str(s: string) | Flag(b: bool)

  /** jwt.MapClaims. */
  type Claims = map<string, ClaimValue>

  /** A token as decoded from its compact form: header algorithm, payload, and the secret behind its signature. */
  datatype Jws = Jws(alg: Alg, claims: Claims, signedWith: string)

  /**
    The serialisation, left abstract: `encode` writes the compact form, `decode`
    reads it back or fails on a malformed string.
  */
  datatype Codec = Codec(encode: Jws -> string, decode: string -> Option<Jws>)

  /** Decoding inverts encoding, and the compact form (base64url and dots) holds no space. */
  ghost predicate ValidCodec(c: Codec) {
    && (forall t :: c.decode(c.encode(t)) == Some(t))
    && (forall t :: ' ' !in c.encode(t))
  }

  /** jwt.NewWithClaims(alg, claims).SignedString(secret). */
  function Sign(c: Codec, alg: Alg, claims: Claims, secret: string): (s: string)
    ensures ValidCodec(c) ==> c.decode(s) == Some(Jws(alg, claims, secret)) && ' ' !in s
  {
    c.encode(Jws(alg, claims, secret))
  }

  /**
    The key function both handlers pass to jwt.Parse: an HMAC token is checked
    against `secret`, any other algorithm is refused with `rejection`.
  */
  datatype Keyfunc = HmacOnly(secret: string, rejection: string)

  datatype JwtError =
    | Malformed
    | Unverifiable(reason: string)
    | ClaimsInvalid(reason: string)
    | SignatureInvalid

  /** err.Error() of a parse failure. */
  function Message(e: JwtError): string {
    match e
    case Malformed => "token contains an invalid number of segments"
    case Unverifiable(reason) => reason
    case ClaimsInvalid(reason) => reason
    case SignatureInvalid => "signature is invalid"
  }

  /** *jwt.Token after parsing: its header algorithm, its claims and the Valid flag. */
  datatype Token = Token(alg: Alg, claims: Claims, valid: bool)

  /** A registered time claim; absent, or not a number, reads as 0, which the library treats as "not set". */
  function TimeClaim(claims: Claims, name: string): int {
    if name in claims && claims[name].Num? then claims[name].n else 0
  }

  predicate NotExpired(claims: Claims, now: int) {
    var exp := TimeClaim(claims, "exp");
    exp == 0 || now <= exp
  }

  predicate IssuedInPast(claims: Claims, now: int) {
    var iat := TimeClaim(claims, "iat");
    iat == 0 || now >= iat
  }

  predicate HasStarted(claims: Claims, now: int) {
    var nbf := TimeClaim(claims, "nbf");
    nbf == 0 || now >= nbf
  }

  /**
    MapClaims.Valid at instant `now`: the exp, iat and nbf checks in that order,
    each failing one overwriting the reason left by the one before.
  */
  function ClaimsError(claims: Claims, now: int): (r: Option<string>)
    ensures r.None? <==> NotExpired(claims, now) && IssuedInPast(claims, now) && HasStarted(claims, now)
  {
    if !HasStarted(claims, now) then Some("Token is not valid yet")
    else if !IssuedInPast(claims, now) then Some("Token used before issued")
    else if !NotExpired(claims, now) then Some("Token is expired")
    else None
  }

  /**
    jwt.Parse(s, keyfunc) at instant `now`: decode, ask the key function, check
    the time claims, check the signature. A bad signature overrides the reason
    of a failed time check. The token is Valid exactly when there is no error.
  */
  function Parse(c: Codec, s: string, key: Keyfunc, now: int): (r: Result<Token, JwtError>)
    ensures r.Ok? ==> r.value.valid
  {
    match c.decode(s)
    case None => Err(Malformed)
    case Some(t) =>
      if !IsHmac(t.alg) then Err(Unverifiable(key.rejection))
      else if t.signedWith != key.secret then Err(SignatureInvalid)
      else match ClaimsError(t.claims, now)
        case Some(reason) => Err(ClaimsInvalid(reason))
        case None => Ok(Token(t.alg, t.claims, true))
  }

  /** Parsing succeeds exactly for a well-formed HMAC token signed with the key's secret whose time claims hold. */
  lemma ParseAccepts(c: Codec, s: string, key: Keyfunc, now: int)
    ensures Parse(c, s, key, now).Ok? <==>
      && c.decode(s).Some?
      && IsHmac(c.decode(s).value.alg)
      && c.decode(s).value.signedWith == key.secret
      && NotExpired(c.decode(s).value.claims, now)
      && IssuedInPast(c.decode(s).value.claims, now)
      && HasStarted(c.decode(s).value.claims, now)
    ensures Parse(c, s, key, now).Ok? ==> Parse(c, s, key, now).value.claims == c.decode(s).value.claims
  {
  }

  /** Signing then parsing with the same secret gives the claims back while they are current. */
  lemma SignParse(c: Codec, alg: Alg, claims: Claims, key: Keyfunc, now: int)
    requires ValidCodec(c)
    requires IsHmac(alg) && ClaimsError(claims, now).None?
    ensures Parse(c, Sign(c, alg, claims, key.secret), key, now) == Ok(Token(alg, claims, true))
  {
    assert c.decode(c.encode(Jws(alg, claims, key.secret))) == Some(Jws(alg, claims, key.secret));
  }

  /** A token signed with another secret is refused, whatever its claims and whenever it is presented. */
  lemma WrongSecretRejected(c: Codec, alg: Alg, claims: Claims, secret: string, key: Keyfunc, now: int)
    requires ValidCodec(c)
    requires IsHmac(alg) && secret != key.secret
    ensures Parse(c, Sign(c, alg, claims, secret), key, now) == Err(SignatureInvalid)
  {
    assert c.decode(c.encode(Jws(alg, claims, secret))) == Some(Jws(alg, claims, secret));
  }

  /** A token whose header names a non-HMAC algorithm is refused by the key function, whatever its claims and signature. */
  lemma NonHmacRejected(c: Codec, alg: Alg, claims: Claims, secret: string, key: Keyfunc, now: int)
    requires ValidCodec(c)
    requires !IsHmac(alg)
    ensures Parse(c, Sign(c, alg, claims, secret), key, now) == Err(Unverifiable(key.rejection))
  {
    assert c.decode(c.encode(Jws(alg, claims, secret))) == Some(Jws(alg, claims, secret));
  }

  /** A correctly signed token whose non-zero exp has passed is refused. */
  lemma ExpiredRejected(c: Codec, alg: Alg, claims: Claims, key: Keyfunc, now: int)
    requires ValidCodec(c)
    requires IsHmac(alg)
    requires "exp" in claims && claims["exp"].Num? && claims["exp"].n != 0 && now > claims["exp"].n
    ensures Parse(c, Sign(c, alg, claims, key.secret), key, now).Err?
  {
    assert c.decode(c.encode(Jws(alg, claims, key.secret))) == Some(Jws(alg, claims, key.secret));
  }
}
