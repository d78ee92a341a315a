/**
 * Role policy over the request-scoped key/value context that the authentication gate
 * fills in. An error is `Some(message)`; `None` is a nil error.
 */
module Roles {
  import opened Wrappers

  /** The request context's keys; every value the service stores there is a string. */
  type Context = map<string, string>

  const Unauthorized: string := "Unauthorized to access the resources"

  /** `c.GetString(key)`: the stored string, or "" when the key was never set. */
  function GetString(ctx: Context, key: string): (s: string)
    ensures key in ctx ==> s == ctx[key]
    ensures key !in ctx ==> s == ""
  {
    if key in ctx then ctx[key] else ""
  }

  /** `CheckUserType`: the caller's `user_type` must be exactly `role`. */
  function CheckUserType(ctx: Context, role: string): (err: Option<string>)
    ensures err.None? <==> GetString(ctx, "user_type") == role
    ensures err.Some? ==> err.value == Unauthorized
  {
    if GetString(ctx, "user_type") != role then Some(Unauthorized) else None
  }

  /** The self-or-not-USER test computed first inside `MatchUserTypeToUID`, keyed on "uid". */
  function SelfCheck(ctx: Context, userId: string): (err: Option<string>)
    ensures err.Some? <==> GetString(ctx, "user_type") == "USER" && GetString(ctx, "uid") != userId
    ensures err.Some? ==> err.value == Unauthorized
  {
    var userType := GetString(ctx, "user_type");
    var uid := GetString(ctx, "uid");
    if userType == "USER" && uid != userId then Some(Unauthorized) else None
  }

  /**
   * `MatchUserTypeToUID` as written: the self check's error is overwritten by
   * `CheckUserType(ctx, userType)`, which compares the caller's type with itself.
   */
  function MatchUserTypeToUID(ctx: Context, userId: string): (err: Option<string>)
    ensures err == None
  {
    var userType := GetString(ctx, "user_type");
    var selfCheck := SelfCheck(ctx, userId);
    CheckUserType(ctx, userType)
  }

  /** Whatever the context and the requested id, the policy as written admits the request. */
  lemma MatchAdmitsOtherUsersRecord(ctx: Context, userId: string)
    requires GetString(ctx, "user_type") == "USER" && GetString(ctx, "uid") != userId
    ensures SelfCheck(ctx, userId).Some?
    ensures MatchUserTypeToUID(ctx, userId) == None
  {
  }

  /**
   * A USER whose context has no "uid" key (the gate never sets one) fails the self check
   * even for their own record, unless the requested id is itself empty.
   */
  lemma SelfCheckRejectsOwnRecord(ctx: Context, userId: string)
    requires "uid" !in ctx && GetString(ctx, "user_type") == "USER"
    requires userId != "" && GetString(ctx, "user_id") == userId
    ensures SelfCheck(ctx, userId) == Some(Unauthorized)
  {
  }

  /**
   * The intended policy: a USER may reach only their own id, read from the
   * key the gate does set ("user_id"); every other role passes; the check's error is returned.
   */
  function MatchSelfOrNonUser(ctx: Context, userId: string): (err: Option<string>)
    ensures err.None? <==> GetString(ctx, "user_type") != "USER" || GetString(ctx, "user_id") == userId
    ensures err.Some? ==> err.value == Unauthorized
  {
    if GetString(ctx, "user_type") == "USER" && GetString(ctx, "user_id") != userId then Some(Unauthorized) else None
  }
}
