/**
 * Token issue and validation (the service's JWT helper).
 *
 * Tokens are JWTs (RFC 7519) signed with HMAC SHA-256 ("HS256", section 3.2 of RFC 7518)
 * under the process secret. The compact serialisation, base64url and the MAC are
 * abstract: a `Jwt` value bundles the library's signer, its unverified decoder and its
 * signature check, and the lemmas that need them to fit together take `Sound(jwt)` as a
 * hypothesis. The wall clock is the parameter `now`, in Unix seconds.
 */
module Tokens {
  import opened Wrappers
  import opened ObjectIds
  import opened Store

  const Issuer: string := "boracay"
  const Hour: int := 3600
  const AccessLifetime: int := 24 * Hour
  const RefreshLifetime: int := 48 * Hour

  /** The claims struct: five identity fields and the two registered claims the service sets. */
  datatype SignedDetails = SignedDetails(
    email: string,
    firstName: string,
    lastName: string,
    userType: string,
    uid: string,
    expiresAt: int,
    issuer: string)

  /** The `alg` values the JWT library knows; `NoSigning` is the unsecured "none". */
  datatype SigningMethod =
    | HS256 | HS384 | HS512
    | RS256 | RS384 | RS512
    | PS256 | PS384 | PS512
    | ES256 | ES384 | ES512
    | NoSigning

  /** Membership in the HMAC family, `token.Method.(*jwt.SigningMethodHMAC)`. */
  predicate IsHmac(m: SigningMethod)
  {
    m.HS256? || m.HS384? || m.HS512?
  }

  datatype SignResult = Signed(token: string) | SignFailed(error: string)

  /**
   * Claims as decoded: the requested struct, or some other claims type. `ValidateToken`
   * passes a fresh `*SignedDetails` to the parser, which decodes into it, so a real parser
   * never yields `OtherClaims` and the "Token is invalid" branch is dead in the program.
   * The case is kept so that the branch the code writes is modelled.
   */
  datatype ClaimsValue = Details(details: SignedDetails) | OtherClaims

  /** Result of the unverified decoding step: a malformed token, or its header method and claims. */
  datatype Decoded = Malformed(error: string) | Unverified(alg: SigningMethod, claims: ClaimsValue)

  /** The library's signer, decoder and signature check; `verify(token, method, key)`. */
  datatype Jwt = Jwt(
    sign: (SigningMethod, SignedDetails, string) -> SignResult,
    decode: string -> Decoded,
    verify: (string, SigningMethod, string) -> bool)

  /**
   * An idealised JWT implementation: a token it signs is a non-empty compact serialisation
   * that decodes to the same method and claims and carries a signature that checks under
   * the same key and under no other key. Real HMAC is weaker on the last point: it pads
   * short keys with zero bytes and hashes long ones, so some distinct keys agree.
   */
  ghost predicate Sound(j: Jwt)
  {
    forall m, c, k :: j.sign(m, c, k).Signed? ==>
      && j.sign(m, c, k).token != ""
      && j.decode(j.sign(m, c, k).token) == Unverified(m, Details(c))
      && j.verify(j.sign(m, c, k).token, m, k)
      && forall k' :: k' != k ==> !j.verify(j.sign(m, c, k).token, m, k')
  }

  /** Claims of the access token: the five identity arguments, the fixed issuer, now + 24h. */
  function AccessClaims(email: string, firstName: string, lastName: string, userType: string,
                        userId: string, now: int): (c: SignedDetails)
    ensures c.email == email && c.firstName == firstName && c.lastName == lastName
    ensures c.userType == userType && c.uid == userId
    ensures c.issuer == Issuer && c.expiresAt == now + AccessLifetime
  {
    SignedDetails(email, firstName, lastName, userType, userId, now + AccessLifetime, Issuer)
  }

  /** Claims of the refresh token: no identity at all, the fixed issuer, now + 48h. */
  function RefreshClaims(now: int): (c: SignedDetails)
    ensures c.email == "" && c.firstName == "" && c.lastName == "" && c.userType == "" && c.uid == ""
    ensures c.issuer == Issuer && c.expiresAt == now + RefreshLifetime
  {
    SignedDetails("", "", "", "", "", now + RefreshLifetime, Issuer)
  }

  /** `(token, refreshToken, err)`; `err == None` is a nil error. */
  datatype Issued = Issued(token: string, refreshToken: string, err: Option<string>)

  /** `GenerateAllTokens`: sign the access claims, then the refresh claims, both HS256 under `secret`. */
  function GenerateAllTokens(email: string, firstName: string, lastName: string, userType: string,
                             userId: string, now: int, secret: string, j: Jwt): (r: Issued)
    ensures r.err.Some? <==>
      j.sign(HS256, AccessClaims(email, firstName, lastName, userType, userId, now), secret).SignFailed? ||
      j.sign(HS256, RefreshClaims(now), secret).SignFailed?
    ensures r.err.Some? ==> r.token == "" && r.refreshToken == "" && r.err.value != ""
    ensures r.err.None? ==>
      && j.sign(HS256, AccessClaims(email, firstName, lastName, userType, userId, now), secret) == Signed(r.token)
      && j.sign(HS256, RefreshClaims(now), secret) == Signed(r.refreshToken)
  {
    var access := j.sign(HS256, AccessClaims(email, firstName, lastName, userType, userId, now), secret);
    if access.SignFailed? then Issued("", "", Some("failed to generate access Token: " + access.error))
    else
      var refresh := j.sign(HS256, RefreshClaims(now), secret);
      if refresh.SignFailed? then Issued("", "", Some("failed to generate access refreshToken: " + refresh.error))
      else Issued(access.token, refresh.token, None)
  }

  datatype KeyLookup = Key(key: seq<char>) | KeyRefused(error: string)

  /** The key function handed to the parser: the secret for the HMAC family, a refusal for anything else. */
  function KeyFunc(m: SigningMethod, secret: string): (r: KeyLookup)
    ensures r.Key? <==> IsHmac(m)
    ensures r.Key? ==> r.key == secret
    ensures r.KeyRefused? ==> r.error == "Invalid signing method"
  {
    if IsHmac(m) then Key(secret) else KeyRefused("Invalid signing method")
  }

  /** `ValidationError.Error()`: a validation error never renders as the empty string. */
  function ErrorText(e: string): (t: string)
    ensures t != ""
    ensures e != "" ==> t == e
  {
    if e == "" then "token is invalid" else e
  }

  datatype Parsed = ParseFailed(error: string) | ParsedOk(claims: ClaimsValue)

  /**
   * `jwt.ParseWithClaims` with the key function above: decode, look up the key, check the
   * signature. The library's own claim checks are not part of this model.
   */
  function ParseWithClaims(token: string, secret: string, j: Jwt): (r: Parsed)
    ensures r.ParseFailed? ==> r.error != ""
    ensures r.ParsedOk? <==>
      j.decode(token).Unverified? && IsHmac(j.decode(token).alg) && j.verify(token, j.decode(token).alg, secret)
    ensures r.ParsedOk? ==> r.claims == j.decode(token).claims
    ensures j.decode(token).Malformed? ==> r == ParseFailed(ErrorText(j.decode(token).error))
    ensures j.decode(token).Unverified? && !IsHmac(j.decode(token).alg) ==> r == ParseFailed("Invalid signing method")
    ensures j.decode(token).Unverified? && IsHmac(j.decode(token).alg) && !j.verify(token, j.decode(token).alg, secret) ==>
      r == ParseFailed("signature is invalid")
  {
    match j.decode(token)
    case Malformed(e) => ParseFailed(ErrorText(e))
    case Unverified(m, claims) =>
      match KeyFunc(m, secret)
      case KeyRefused(e) => ParseFailed(e)
      case Key(k) => if j.verify(token, m, k) then ParsedOk(claims) else ParseFailed("signature is invalid")
  }

  /** `(claims, msg)`; `claims == None` is a nil pointer. */
  datatype Validation = Validation(claims: Option<SignedDetails>, msg: string)

  /** `ValidateToken`: parse error, then wrong claims type, then expiry, else success. */
  function ValidateToken(token: string, now: int, secret: string, j: Jwt): (v: Validation)
    ensures ParseWithClaims(token, secret, j).ParseFailed? ==>
      v == Validation(None, ParseWithClaims(token, secret, j).error)
    ensures ParseWithClaims(token, secret, j) == ParsedOk(OtherClaims) ==> v == Validation(None, "Token is invalid")
    ensures ParseWithClaims(token, secret, j).ParsedOk? && ParseWithClaims(token, secret, j).claims.Details? ==>
      var c := ParseWithClaims(token, secret, j).claims.details;
      v.claims == Some(c) && v.msg == (if c.expiresAt < now then "Token is expired" else "")
    ensures v.msg == "" ==> v.claims.Some? && !(v.claims.value.expiresAt < now)
  {
    match ParseWithClaims(token, secret, j)
    case ParseFailed(e) => Validation(None, e)
    case ParsedOk(OtherClaims) => Validation(None, "Token is invalid")
    case ParsedOk(Details(c)) => if c.expiresAt < now then Validation(Some(c), "Token is expired") else Validation(Some(c), "")
  }

  /** A token whose header names a non-HMAC method is refused before any signature check. */
  lemma NonHmacRefused(token: string, now: int, secret: string, j: Jwt)
    requires j.decode(token).Unverified? && !IsHmac(j.decode(token).alg)
    ensures ValidateToken(token, now, secret, j) == Validation(None, "Invalid signing method")
  {
  }

  /** The expiry test is strict: a token is still accepted at the very second it expires. */
  lemma AcceptedAtExpiry(token: string, secret: string, j: Jwt, c: SignedDetails)
    requires ParseWithClaims(token, secret, j) == ParsedOk(Details(c))
    ensures ValidateToken(token, c.expiresAt, secret, j) == Validation(Some(c), "")
    ensures ValidateToken(token, c.expiresAt + 1, secret, j) == Validation(Some(c), "Token is expired")
  {
  }

  /** A JWT signs and decodes back the claims it was given. */
  lemma SoundSigned(j: Jwt, m: SigningMethod, c: SignedDetails, k: string, t: string)
    requires Sound(j) && j.sign(m, c, k) == Signed(t)
    ensures t != ""
    ensures j.decode(t) == Unverified(m, Details(c)) && j.verify(t, m, k)
    ensures forall k' :: k' != k ==> !j.verify(t, m, k')
  {
  }

  /** A freshly issued access token validates, with its claims, until and including now + 24h, and is expired after. */
  lemma AccessTokenValidUntilExpiry(email: string, firstName: string, lastName: string, userType: string,
                                    userId: string, now: int, later: int, secret: string, j: Jwt)
    requires Sound(j)
    requires GenerateAllTokens(email, firstName, lastName, userType, userId, now, secret, j).err.None?
    ensures
      var v := ValidateToken(GenerateAllTokens(email, firstName, lastName, userType, userId, now, secret, j).token,
                             later, secret, j);
      && v.claims == Some(AccessClaims(email, firstName, lastName, userType, userId, now))
      && (v.msg == "" <==> later <= now + AccessLifetime)
      && (later > now + AccessLifetime ==> v.msg == "Token is expired")
  {
    var t := GenerateAllTokens(email, firstName, lastName, userType, userId, now, secret, j).token;
    SoundSigned(j, HS256, AccessClaims(email, firstName, lastName, userType, userId, now), secret, t);
  }

  /** A freshly issued refresh token validates until now + 48h and carries empty identity claims. */
  lemma RefreshTokenValidUntilExpiry(email: string, firstName: string, lastName: string, userType: string,
                                     userId: string, now: int, later: int, secret: string, j: Jwt)
    requires Sound(j)
    requires GenerateAllTokens(email, firstName, lastName, userType, userId, now, secret, j).err.None?
    ensures
      var v := ValidateToken(GenerateAllTokens(email, firstName, lastName, userType, userId, now, secret, j).refreshToken,
                             later, secret, j);
      && v.claims == Some(RefreshClaims(now))
      && (v.msg == "" <==> later <= now + RefreshLifetime)
  {
    var t := GenerateAllTokens(email, firstName, lastName, userType, userId, now, secret, j).refreshToken;
    SoundSigned(j, HS256, RefreshClaims(now), secret, t);
  }

  /** A token signed under one secret fails validation under any other. */
  lemma ForeignSecretRejected(c: SignedDetails, signer: string, secret: string, now: int, j: Jwt)
    requires Sound(j) && signer != secret
    requires j.sign(HS256, c, signer).Signed?
    ensures ValidateToken(j.sign(HS256, c, signer).token, now, secret, j) == Validation(None, "signature is invalid")
  {
    SoundSigned(j, HS256, c, signer, j.sign(HS256, c, signer).token);
  }

  /**
   * `UpdateAllTokens`: upsert by `user_id`, setting token, refresh_token and updated_at.
   * The server error that ends in `log.Panic` is not part of this model.
   */
  method UpdateAllTokens(c: Collection, token: string, refreshToken: string, userId: string,
                         now: int, upsertId: ObjectId)
    modifies c
    ensures c.docs == Upsert(old(c.docs), userId, TokenUpdate(token, refreshToken, Some(now)), upsertId)
    ensures UniqueContacts(old(c.docs)) ==> UniqueContacts(c.docs)
  {
    ghost var before := c.docs;
    var update := TokenUpdate(token, refreshToken, Some(now));
    c.UpdateOne(userId, update, true, false, upsertId);
    if UniqueContacts(before) {
      UpsertPreservesUnique(before, userId, update, upsertId);
    }
  }
}
