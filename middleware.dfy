/**
 * The authentication gate run before every user route: read the `token` header,
 * validate it, and either reject the request or copy the token's identity into the
 * request context and continue.
 */
module Middleware {
  import opened Wrappers
  import opened Tokens
  import opened Roles

  const StatusUnauthorized: int := 401
  const NoHeaderError: string := "No authorization header provided"

  /** The gate's three-way decision. */
  datatype GateDecision = NoHeader | Rejected(error: string) | Accepted(claims: SignedDetails)

  /** The decision for one request, with the header value, the clock and the process secret as inputs. */
  function Gate(header: string, now: int, secret: string, j: Jwt): (d: GateDecision)
    ensures d.NoHeader? <==> header == ""
    ensures d.Rejected? <==> header != "" && ValidateToken(header, now, secret, j).msg != ""
    ensures d.Rejected? ==> d.error == ValidateToken(header, now, secret, j).msg
    ensures d.Accepted? ==> ValidateToken(header, now, secret, j) == Validation(Some(d.claims), "")
  {
    if header == "" then NoHeader
    else
      var v := ValidateToken(header, now, secret, j);
      if v.msg != "" then Rejected(v.msg) else Accepted(v.claims.value)
  }

  /** The five `ctx.Set` calls of an accepted request. */
  function SetIdentity(keys: Context, c: SignedDetails): (keys': Context)
    ensures keys'.Keys == keys.Keys + {"email", "first_name", "last_name", "user_type", "user_id"}
    ensures keys'["email"] == c.email && keys'["first_name"] == c.firstName && keys'["last_name"] == c.lastName
    ensures keys'["user_type"] == c.userType && keys'["user_id"] == c.uid
    ensures forall k :: k in keys && k !in {"email", "first_name", "last_name", "user_type", "user_id"} ==>
      keys'[k] == keys[k]
  {
    keys["email" := c.email]["first_name" := c.firstName]["last_name" := c.lastName]
        ["user_type" := c.userType]["user_id" := c.uid]
  }

  /** An error body written with `ctx.JSON(status, gin.H{"error": ...})`. */
  datatype ErrorReply = ErrorReply(status: int, error: string)

  /** The parts of `gin.Context` the gate touches. */
  class RequestContext {
    var keys: Context
    var aborted: bool
    var nextCalled: bool
    var reply: Option<ErrorReply>

    constructor (initial: Context)
      ensures keys == initial && !aborted && !nextCalled && reply == None
    {
      keys := initial;
      aborted := false;
      nextCalled := false;
      reply := None;
    }

    /** `Authenticate()` applied to this request. */
    method Authenticate(header: string, now: int, secret: string, j: Jwt)
      modifies this
      ensures Gate(header, now, secret, j).NoHeader? ==>
        && reply == Some(ErrorReply(StatusUnauthorized, NoHeaderError))
        && aborted && nextCalled == old(nextCalled) && keys == old(keys)
      ensures Gate(header, now, secret, j).Rejected? ==>
        && reply == Some(ErrorReply(StatusUnauthorized, Gate(header, now, secret, j).error))
        && aborted && nextCalled == old(nextCalled) && keys == old(keys)
      ensures Gate(header, now, secret, j).Accepted? ==>
        && keys == SetIdentity(old(keys), Gate(header, now, secret, j).claims)
        && nextCalled && aborted == old(aborted) && reply == old(reply)
      ensures !old(aborted) && !old(nextCalled) ==> (aborted <==> !nextCalled)
    {
      if header == "" {
        reply := Some(ErrorReply(StatusUnauthorized, NoHeaderError));
        aborted := true;
        return;
      }
      var v := ValidateToken(header, now, secret, j);
      if v.msg != "" {
        reply := Some(ErrorReply(StatusUnauthorized, v.msg));
        aborted := true;
        return;
      }
      var claims := v.claims.value;
      keys := keys["email" := claims.email];
      keys := keys["first_name" := claims.firstName];
      keys := keys["last_name" := claims.lastName];
      keys := keys["user_type" := claims.userType];
      keys := keys["user_id" := claims.uid];
      nextCalled := true;
    }
  }

  /** Continuation happens exactly when a header is present and validation reports no message. */
  lemma AcceptedIff(header: string, now: int, secret: string, j: Jwt)
    ensures Gate(header, now, secret, j).Accepted? <==> header != "" && ValidateToken(header, now, secret, j).msg == ""
  {
  }

  /** Without a header the validator is never consulted: the decision is the same for every JWT implementation and secret. */
  lemma NoHeaderIgnoresValidator(now: int, now': int, secret: string, secret': string, j: Jwt, j': Jwt)
    ensures Gate("", now, secret, j) == Gate("", now', secret', j') == NoHeader
  {
  }

  /** The gate writes "user_id", never "uid": a context without "uid" still has none afterwards. */
  lemma GateNeverSetsUid(keys: Context, c: SignedDetails)
    requires "uid" !in keys
    ensures "uid" !in SetIdentity(keys, c)
    ensures GetString(SetIdentity(keys, c), "uid") == ""
    ensures GetString(SetIdentity(keys, c), "user_id") == c.uid
  {
  }

  /** An issued access token, presented before it expires, is accepted with exactly its identity. */
  lemma IssuedTokenAccepted(email: string, firstName: string, lastName: string, userType: string,
                            userId: string, issuedAt: int, now: int, secret: string, j: Jwt)
    requires Sound(j)
    requires GenerateAllTokens(email, firstName, lastName, userType, userId, issuedAt, secret, j).err.None?
    requires now <= issuedAt + AccessLifetime
    ensures Gate(GenerateAllTokens(email, firstName, lastName, userType, userId, issuedAt, secret, j).token, now, secret, j)
      == Accepted(AccessClaims(email, firstName, lastName, userType, userId, issuedAt))
  {
    var t := GenerateAllTokens(email, firstName, lastName, userType, userId, issuedAt, secret, j).token;
    AccessTokenValidUntilExpiry(email, firstName, lastName, userType, userId, issuedAt, now, secret, j);
    SoundSigned(j, HS256, AccessClaims(email, firstName, lastName, userType, userId, issuedAt), secret, t);
  }
}
