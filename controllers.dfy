/**
 * The account handlers: password hashing glue, Signup, Login, the paginated user listing
 * and the single-user lookup, each over the shared users collection.
 *
 * Request binding (`BindJSON`) and struct validation (`validate.Struct`) are inputs, as
 * are the random salt, the client-generated ObjectID, the clock and the outcome of each
 * server call. A handler panic is `Panic`: the router is built with `gin.New()` and no
 * recovery middleware, so no JSON reply is written.
 */
module Controllers {
  import opened Wrappers
  import opened ObjectIds
  import opened Strconv
  import opened Passwords
  import opened Store
  import opened Tokens
  import opened Roles
  import Middleware

  const StatusOK: int := 200
  const StatusBadRequest: int := 400
  const StatusUnauthorized: int := 401
  const StatusConflict: int := 409
  const StatusInternalServerError: int := 500

  const InvalidPassword: string := "Invalid password"
  const UserNotFound: string := "User not found"
  const TypeNotMatched: string := "User type not matched"

  /** The JSON payload of a reply. */
  datatype Body =
    | ErrorBody(error: string)
    | InsertedId(id: ObjectId)
    | UserBody(user: Record)
    | PageBody(totalCount: nat, usersItems: seq<Record>)

  datatype Response = Reply(status: int, body: Body) | Panic

  /** Outcome of `c.BindJSON(&v)`. */
  datatype Bound<T> = BindError(error: string) | Bound(value: T)

  // ---------------------------------------------------------------------------------
  // Passwords

  /** `HashPassword`: bcrypt at cost 10 under a random salt (an input here). */
  function HashPassword(password: string, salt: string): (h: string)
    requires |salt| == SaltLength
    ensures h != password
    ensures Compare(h, password)
  {
    CompareHashIff(salt, password, password);
    HashIsNotPlaintext(salt, password);
    Hash(salt, password)
  }

  /** `VerifyPassword(userPassword, providedPassword)`: plaintext first, stored hash second. */
  function VerifyPassword(userPassword: string, providedPassword: string): (r: (bool, string))
    ensures r.0 <==> Compare(providedPassword, userPassword)
    ensures r.1 == (if r.0 then "" else InvalidPassword)
  {
    if Compare(providedPassword, userPassword) then (true, "") else (false, InvalidPassword)
  }

  /** Verifying against a stored hash succeeds for the password it was made from and fails for any other. */
  lemma VerifyHashedPassword(password: string, candidate: string, salt: string)
    requires |salt| == SaltLength
    ensures VerifyPassword(candidate, HashPassword(password, salt)) ==
            (if candidate == password then (true, "") else (false, InvalidPassword))
  {
    CompareHashIff(salt, password, candidate);
  }

  // ---------------------------------------------------------------------------------
  // Signup

  /** The bound and validated signup body; the fields `validate.Struct` vouches for are present. */
  datatype SignupRequest = SignupRequest(
    firstName: string,
    lastName: string,
    password: string,
    email: string,
    phone: string,
    userType: string,
    token: Option<string>,
    refreshToken: Option<string>)

  /** Which server calls of one Signup fail. */
  datatype SignupFaults = SignupFaults(emailCount: bool, phoneCount: bool, insert: bool, tokenUpdate: bool)

  /** The document Signup inserts: the request with hashed password, timestamps and identifiers set. */
  function NewUser(req: SignupRequest, salt: string, now: int, id: ObjectId): (r: Record)
    requires |salt| == SaltLength
    ensures r.id == id && r.userId == Hex(id)
    ensures r.password == Some(HashPassword(req.password, salt)) && r.password != Some(req.password)
    ensures r.createdAt == r.updatedAt == Some(now)
    ensures r.email == Some(req.email) && r.phone == Some(req.phone) && r.userType == Some(req.userType)
    ensures r.firstName == Some(req.firstName) && r.lastName == Some(req.lastName)
    ensures r.token == req.token && r.refreshToken == req.refreshToken
  {
    Record(id, Hex(id), Some(req.firstName), Some(req.lastName), Some(HashPassword(req.password, salt)),
           Some(req.email), Some(req.phone), Some(req.userType), req.token, req.refreshToken, Some(now), Some(now))
  }

  /** Where a Signup stops, in the order the handler tests. */
  datatype SignupOutcome =
    | SignupBadRequest(error: string)
    | CountFailed
    | Conflict
    | InsertFailed
    | Created(req: SignupRequest)

  function SignupStage(docs: seq<Record>, input: Bound<SignupRequest>, validationError: Option<string>,
                       faults: SignupFaults, newId: ObjectId): (o: SignupOutcome)
    ensures o.SignupBadRequest? <==> input.BindError? || validationError.Some?
    ensures o.CountFailed? ==> faults.emailCount || faults.phoneCount
    ensures o.Conflict? ==>
      Count(docs, ByEmail(Some(input.value.email))) > 0 || Count(docs, ByPhone(Some(input.value.phone))) > 0
    ensures o.InsertFailed? <==>
      && input.Bound? && validationError.None? && !faults.emailCount && !faults.phoneCount
      && Count(docs, ByEmail(Some(input.value.email))) == 0 && Count(docs, ByPhone(Some(input.value.phone))) == 0
      && (faults.insert || HasId(docs, newId))
    ensures o.Created? ==> input == Bound(o.req) && !HasId(docs, newId) && !faults.insert
    ensures o.Created? ==> Count(docs, ByEmail(Some(o.req.email))) == 0 && Count(docs, ByPhone(Some(o.req.phone))) == 0
  {
    match input
    case BindError(e) => SignupBadRequest(e)
    case Bound(req) =>
      if validationError.Some? then SignupBadRequest(validationError.value)
      else if faults.emailCount || faults.phoneCount then CountFailed
      else if Count(docs, ByEmail(Some(req.email))) > 0 || Count(docs, ByPhone(Some(req.phone))) > 0 then Conflict
      else if faults.insert || HasId(docs, newId) then InsertFailed
      else Created(req)
  }

  /** A count error is reported before any conflict: an existing email cannot turn a failed count into 409. */
  lemma CountErrorBeforeConflict(docs: seq<Record>, req: SignupRequest, faults: SignupFaults, newId: ObjectId)
    requires faults.emailCount || faults.phoneCount
    ensures SignupStage(docs, Bound(req), None, faults, newId) == CountFailed
  {
  }

  /** An email or phone already in the table is a conflict whenever the counts succeed. */
  lemma TakenContactConflicts(docs: seq<Record>, req: SignupRequest, faults: SignupFaults, newId: ObjectId, i: nat)
    requires !faults.emailCount && !faults.phoneCount
    requires i < |docs| && (docs[i].email == Some(req.email) || docs[i].phone == Some(req.phone))
    ensures SignupStage(docs, Bound(req), None, faults, newId) == Conflict
  {
    CountPositiveIff(docs, ByEmail(Some(req.email)));
    CountPositiveIff(docs, ByPhone(Some(req.phone)));
  }

  /** The token `$set` after Signup lands on the new document when no older document shares its user_id. */
  lemma {:induction false} UpdateFirstOfFreshLast(docs: seq<Record>, r: Record, u: TokenUpdate)
    requires FindFirst(docs, ByUserId(r.userId)).None?
    ensures UpdateFirst(docs + [r], r.userId, u) == docs + [Apply(r, u)]
  {
    if docs != [] {
      assert (docs + [r])[1..] == docs[1..] + [r];
      assert FindFirst(docs[1..], ByUserId(r.userId)).None? by {
        forall j | 0 <= j < |docs[1..]| ensures !Matches(docs[1..][j], ByUserId(r.userId)) {
          assert docs[1..][j] == docs[j + 1];
        }
      }
      UpdateFirstOfFreshLast(docs[1..], r, u);
      assert [docs[0]] + (docs[1..] + [Apply(r, u)]) == docs + [Apply(r, u)];
    }
  }

  /** `Signup()`. */
  method Signup(c: Collection, input: Bound<SignupRequest>, validationError: Option<string>, faults: SignupFaults,
                now: int, salt: string, newId: ObjectId, secret: string, j: Jwt) returns (resp: Response)
    requires |salt| == SaltLength
    modifies c
    ensures var o := SignupStage(old(c.docs), input, validationError, faults, newId);
      && (o.SignupBadRequest? ==> resp == Reply(StatusBadRequest, ErrorBody(o.error)))
      && (o.CountFailed? ==> resp == Reply(StatusInternalServerError, ErrorBody("Error while checking email or phone")))
      && (o.Conflict? ==> resp == Reply(StatusConflict, ErrorBody("Phone or Email already exists")))
      && (o.InsertFailed? ==> resp == Reply(StatusInternalServerError, ErrorBody("User item not created")))
      && (!o.Created? ==> c.docs == old(c.docs))
    ensures var o := SignupStage(old(c.docs), input, validationError, faults, newId);
      o.Created? ==>
        var user := NewUser(o.req, salt, now, newId);
        var issued := GenerateAllTokens(o.req.email, o.req.firstName, o.req.lastName, o.req.userType, user.userId,
                                        now, secret, j);
        var update := TokenUpdate(issued.token, issued.refreshToken, None);
        && resp == Reply(StatusOK, InsertedId(newId))
        && c.docs == (if faults.tokenUpdate then old(c.docs) + [user] else UpdateFirst(old(c.docs) + [user], user.userId, update))
        && |c.docs| == |old(c.docs)| + 1
        && (!faults.tokenUpdate && FindFirst(old(c.docs), ByUserId(user.userId)).None? ==>
              c.docs == old(c.docs) + [Apply(user, update)])
    ensures UniqueContacts(old(c.docs)) ==> UniqueContacts(c.docs)
  {
    ghost var before := c.docs;
    if input.BindError? {
      return Reply(StatusBadRequest, ErrorBody(input.error));
    }
    var req := input.value;
    if validationError.Some? {
      return Reply(StatusBadRequest, ErrorBody(validationError.value));
    }

    // The two existence checks run concurrently in the Go handler; they only read.
    var emailCount, emailErr := c.CountDocuments(ByEmail(Some(req.email)), faults.emailCount);
    var phoneCount, phoneErr := c.CountDocuments(ByPhone(Some(req.phone)), faults.phoneCount);
    if emailErr || phoneErr {
      return Reply(StatusInternalServerError, ErrorBody("Error while checking email or phone"));
    }
    if emailCount > 0 || phoneCount > 0 {
      return Reply(StatusConflict, ErrorBody("Phone or Email already exists"));
    }

    var user := NewUser(req, salt, now, newId);
    var inserted := c.InsertOne(user, faults.insert);
    if !inserted {
      return Reply(StatusInternalServerError, ErrorBody("User item not created"));
    }
    if UniqueContacts(before) {
      AppendFreshPreservesUnique(before, user);
    }

    var issued := GenerateAllTokens(req.email, req.firstName, req.lastName, req.userType, user.userId, now, secret, j);
    var update := TokenUpdate(issued.token, issued.refreshToken, None);
    ghost var afterInsert := c.docs;
    c.UpdateOne(user.userId, update, false, faults.tokenUpdate, ZeroId);
    if UniqueContacts(afterInsert) {
      UpdateFirstPreservesUnique(afterInsert, user.userId, update);
    }
    if !faults.tokenUpdate && FindFirst(before, ByUserId(user.userId)).None? {
      UpdateFirstOfFreshLast(before, user, update);
    }
    resp := Reply(StatusOK, InsertedId(newId));
  }

  // ---------------------------------------------------------------------------------
  // Login

  /** The bound login body; nothing validates it, so either pointer may be nil. */
  datatype LoginRequest = LoginRequest(email: Option<string>, password: Option<string>)

  datatype LoginFaults = LoginFaults(findByEmail: bool, findByUserId: bool)

  /** Where a Login stops before the token refresh, in the order the handler tests. */
  datatype LoginOutcome =
    | LoginBadRequest(error: string)
    | NotFound
    | DerefPanic
    | BadPassword
    | Authenticated(found: Record)

  function LoginStage(docs: seq<Record>, input: Bound<LoginRequest>, faults: LoginFaults): (o: LoginOutcome)
    ensures o.LoginBadRequest? <==> input.BindError?
    ensures input.Bound? && !faults.findByEmail && Count(docs, ByEmail(input.value.email)) == 0 ==> o == NotFound
    ensures input.Bound? && faults.findByEmail ==> o == NotFound
    // Once the first document with that email is found, the handler's checks decide in order.
    ensures input.Bound? && !faults.findByEmail && FindFirst(docs, ByEmail(input.value.email)).Some? ==>
      var f := docs[FindFirst(docs, ByEmail(input.value.email)).value];
      var p := input.value.password;
      && (f.email.None? ==> o == NotFound)
      && (f.email.Some? && (p.None? || f.password.None?) ==> o == DerefPanic)
      && (f.email.Some? && p.Some? && f.password.Some? && !Compare(f.password.value, p.value) ==> o == BadPassword)
      && (f.email.Some? && p.Some? && f.password.Some? && Compare(f.password.value, p.value) ==>
            o == (if f.firstName.Some? && f.lastName.Some? && f.userType.Some? then Authenticated(f) else DerefPanic))
    ensures o.BadPassword? ==>
      exists i :: 0 <= i < |docs| && FindFirst(docs, ByEmail(input.value.email)) == Some(i) &&
        docs[i].password.Some? && input.value.password.Some? &&
        !Compare(docs[i].password.value, input.value.password.value)
    ensures o.Authenticated? ==>
      && FindFirst(docs, ByEmail(input.value.email)).Some?
      && o.found == docs[FindFirst(docs, ByEmail(input.value.email)).value]
      && o.found.email.Some? && o.found.firstName.Some? && o.found.lastName.Some? && o.found.userType.Some?
      && input.value.password.Some? && o.found.password.Some?
      && Compare(o.found.password.value, input.value.password.value)
  {
    match input
    case BindError(e) => LoginBadRequest(e)
    case Bound(req) =>
      CountZeroIffNotFound(docs, ByEmail(req.email));
      var at := FindFirst(docs, ByEmail(req.email));
      if faults.findByEmail || at.None? then NotFound
      else
        var found := docs[at.value];
        if found.email.None? then NotFound
        else if req.password.None? || found.password.None? then DerefPanic
        else if !VerifyPassword(req.password.value, found.password.value).0 then BadPassword
        else if found.firstName.None? || found.lastName.None? || found.userType.None? then DerefPanic
        else Authenticated(found)
  }

  /** A request whose email is a nil pointer finds only documents without email, and so is never authenticated. */
  lemma NilEmailNeverAuthenticates(docs: seq<Record>, password: Option<string>, faults: LoginFaults)
    ensures !LoginStage(docs, Bound(LoginRequest(None, password)), faults).Authenticated?
  {
  }

  /** Login after Signup with the same password is authenticated, as long as the lookups succeed and the email is not shadowed. */
  lemma SignupThenLogin(docs: seq<Record>, req: SignupRequest, salt: string, now: int, id: ObjectId, u: TokenUpdate)
    requires |salt| == SaltLength
    requires Count(docs, ByEmail(Some(req.email))) == 0
    ensures
      var table := docs + [Apply(NewUser(req, salt, now, id), u)];
      LoginStage(table, Bound(LoginRequest(Some(req.email), Some(req.password))), LoginFaults(false, false))
        == Authenticated(table[|docs|])
  {
    var user := Apply(NewUser(req, salt, now, id), u);
    var table := docs + [user];
    CountZeroIffNotFound(docs, ByEmail(Some(req.email)));
    FindFirstOfFreshLast(docs, user, ByEmail(Some(req.email)));
    CompareHashIff(salt, req.password, req.password);
  }

  lemma {:induction false} FindFirstOfFreshLast(docs: seq<Record>, r: Record, f: Filter)
    requires FindFirst(docs, f).None? && Matches(r, f)
    ensures FindFirst(docs + [r], f) == Some(|docs|)
  {
    if docs != [] {
      assert (docs + [r])[1..] == docs[1..] + [r];
      assert FindFirst(docs[1..], f).None? by {
        forall j | 0 <= j < |docs[1..]| ensures !Matches(docs[1..][j], f) {
          assert docs[1..][j] == docs[j + 1];
        }
      }
      FindFirstOfFreshLast(docs[1..], r, f);
    }
  }

  /** `Login()`. */
  method Login(c: Collection, input: Bound<LoginRequest>, faults: LoginFaults, now: int, secret: string, j: Jwt,
               upsertId: ObjectId) returns (resp: Response)
    modifies c
    ensures var o := LoginStage(old(c.docs), input, faults);
      && (o.LoginBadRequest? ==> resp == Reply(StatusBadRequest, ErrorBody(o.error)))
      && (o.NotFound? ==> resp == Reply(StatusInternalServerError, ErrorBody(UserNotFound)))
      && (o.DerefPanic? ==> resp == Panic)
      && (o.BadPassword? ==> resp == Reply(StatusUnauthorized, ErrorBody(InvalidPassword)))
      && (!o.Authenticated? ==> c.docs == old(c.docs))
    ensures var o := LoginStage(old(c.docs), input, faults);
      o.Authenticated? ==>
        var f := o.found;
        var issued := GenerateAllTokens(f.email.value, f.firstName.value, f.lastName.value, f.userType.value,
                                        f.userId, now, secret, j);
        var update := TokenUpdate(issued.token, issued.refreshToken, Some(now));
        var i := FindFirst(old(c.docs), ByUserId(f.userId)).value;
        && c.docs == UpdateFirst(old(c.docs), f.userId, update)
        && |c.docs| == |old(c.docs)|
        && (faults.findByUserId ==> resp == Reply(StatusInternalServerError, ErrorBody(UserNotFound)))
        && (!faults.findByUserId ==> resp == Reply(StatusOK, UserBody(Apply(old(c.docs)[i], update))))
    ensures UniqueContacts(old(c.docs)) ==> UniqueContacts(c.docs)
  {
    if input.BindError? {
      return Reply(StatusBadRequest, ErrorBody(input.error));
    }
    var req := input.value;
    CountZeroIffNotFound(c.docs, ByEmail(req.email));
    var lookup := c.FindOne(ByEmail(req.email), faults.findByEmail);
    if lookup.None? {
      return Reply(StatusInternalServerError, ErrorBody(UserNotFound));
    }
    var found := lookup.value;
    if found.email.None? {
      return Reply(StatusInternalServerError, ErrorBody(UserNotFound));
    }
    if req.password.None? || found.password.None? {
      return Panic;
    }
    var valid, msg := VerifyPassword(req.password.value, found.password.value).0,
                      VerifyPassword(req.password.value, found.password.value).1;
    if !valid {
      return Reply(StatusUnauthorized, ErrorBody(msg));
    }
    if found.firstName.None? || found.lastName.None? || found.userType.None? {
      return Panic;
    }

    var issued := GenerateAllTokens(found.email.value, found.firstName.value, found.lastName.value,
                                    found.userType.value, found.userId, now, secret, j);
    ghost var before := c.docs;
    assert FindFirst(before, ByUserId(found.userId)).Some?;
    UpdateAllTokens(c, issued.token, issued.refreshToken, found.userId, now, upsertId);
    var refreshed := c.FindOne(ByUserId(found.userId), faults.findByUserId);
    if refreshed.None? {
      return Reply(StatusInternalServerError, ErrorBody(UserNotFound));
    }
    resp := Reply(StatusOK, UserBody(refreshed.value));
  }

  // ---------------------------------------------------------------------------------
  // Listing

  const DefaultRecordPerPage: int := 10
  const DefaultPageNumber: int := 1

  /** A query parameter read with `strconv.Atoi`; an error or a value below 1 becomes the default. */
  function QueryNumber(q: string, default: int): (n: int)
    requires 1 <= default <= MaxInt64
    ensures 1 <= n <= MaxInt64
    ensures Atoi(q).Some? && Atoi(q).value >= 1 ==> n == Atoi(q).value
    ensures Atoi(q).None? || Atoi(q).value < 1 ==> n == default
  {
    var parsed := Atoi(q);
    if parsed.None? || parsed.value < 1 then default else parsed.value
  }

  /** `startIndex := (pageNumber - 1) * recordPerPage` in Go's 64-bit `int`. */
  function StartIndexWrapped(pageNumber: int, recordPerPage: int): (s: int)
    requires 1 <= pageNumber <= MaxInt64 && 1 <= recordPerPage <= MaxInt64
    ensures MinInt64 <= s <= MaxInt64
    ensures (pageNumber - 1) * recordPerPage <= MaxInt64 ==> s == (pageNumber - 1) * recordPerPage
  {
    MulNonNegative(pageNumber - 1, recordPerPage);
    Wrap64((pageNumber - 1) * recordPerPage)
  }

  /** A page number whose predecessor times 3 is 2^64 - 1. */
  const OverflowingPage: nat := 6148914691236517206

  /** A page number the parser accepts makes the 64-bit product wrap to -1. */
  lemma StartIndexCanBeNegative()
    ensures Atoi(Decimal(OverflowingPage)) == Some(OverflowingPage)
    ensures StartIndexWrapped(OverflowingPage, 3) == -1
  {
    assert StartIndexWrapped(OverflowingPage, 3) == -1 by {
      assert (OverflowingPage - 1) * 3 == Modulus64 - 1;
    }
    AtoiOfDecimal(OverflowingPage);
  }

  /** The offset the listing intends: the number of records on the earlier pages. */
  function StartIndex(pageNumber: nat, recordPerPage: nat): (s: nat)
    requires pageNumber >= 1
    ensures pageNumber == 1 ==> s == 0
    ensures pageNumber > 1 ==> s == StartIndex(pageNumber - 1, recordPerPage) + recordPerPage
  {
    if pageNumber == 1 then 0 else StartIndex(pageNumber - 1, recordPerPage) + recordPerPage
  }

  /** Where the 64-bit product does not overflow, the code computes the intended offset. */
  lemma {:induction false} StartIndexAgrees(pageNumber: nat, recordPerPage: nat)
    requires 1 <= pageNumber <= MaxInt64 && 1 <= recordPerPage <= MaxInt64
    requires (pageNumber - 1) * recordPerPage <= MaxInt64
    ensures StartIndexWrapped(pageNumber, recordPerPage) == StartIndex(pageNumber, recordPerPage)
  {
    StartIndexIsProduct(pageNumber, recordPerPage);
  }

  lemma {:induction false} StartIndexIsProduct(pageNumber: nat, recordPerPage: nat)
    requires pageNumber >= 1
    ensures StartIndex(pageNumber, recordPerPage) == (pageNumber - 1) * recordPerPage
  {
    if pageNumber > 1 {
      StartIndexIsProduct(pageNumber - 1, recordPerPage);
      MulSucc(pageNumber - 2, recordPerPage);
    }
  }

  lemma MulSucc(a: int, b: int)
    ensures (a + 1) * b == a * b + b
  {
  }

  lemma MulNonNegative(a: nat, b: nat)
    ensures a * b >= 0
  {
  }

  function Min(a: int, b: int): int { if a <= b then a else b }
  function Max(a: int, b: int): int { if a >= b then a else b }

  /**
   * The aggregation operator `$slice: [array, position, n]` with n >= 1: from `position`
   * when it is non-negative, from `|array| + position` (clamped at 0) when negative.
   */
  function SliceFrom(data: seq<Record>, position: int, n: int): (r: seq<Record>)
    requires n >= 1
    ensures |r| <= n
    ensures position >= 0 ==> |r| == Min(n, Max(|data| - position, 0)) &&
                              forall k :: 0 <= k < |r| ==> r[k] == data[position + k]
    ensures position < 0 ==> |r| == Min(n, |data| - Max(|data| + position, 0)) &&
                             forall k :: 0 <= k < |r| ==> r[k] == data[Max(|data| + position, 0) + k]
  {
    var start := if position >= 0 then Min(position, |data|) else Max(|data| + position, 0);
    data[start..Min(start + n, |data|)]
  }

  /** `GetUsers()`. `aggregateFails` and `decodeFails` are the two server-side failures. */
  method GetUsers(c: Collection, ctx: Context, recordPerPageQuery: string, pageNumberQuery: string,
                  aggregateFails: bool, decodeFails: bool) returns (resp: Response)
    ensures CheckUserType(ctx, "ADMIN").Some? ==> resp == Reply(StatusUnauthorized, ErrorBody(TypeNotMatched))
    ensures CheckUserType(ctx, "ADMIN").None? && aggregateFails ==>
      resp == Reply(StatusInternalServerError, ErrorBody("Error while fetching users"))
    ensures CheckUserType(ctx, "ADMIN").None? && !aggregateFails && (decodeFails || c.docs == []) ==> resp == Panic
    ensures resp.Reply? && resp.status == StatusOK ==>
      var perPage := QueryNumber(recordPerPageQuery, DefaultRecordPerPage);
      var page := QueryNumber(pageNumberQuery, DefaultPageNumber);
      && GetString(ctx, "user_type") == "ADMIN"
      && resp.body == PageBody(|c.docs|, SliceFrom(c.docs, StartIndexWrapped(page, perPage), perPage))
    ensures CheckUserType(ctx, "ADMIN").None? && !aggregateFails && !decodeFails && c.docs != [] ==>
      resp.Reply? && resp.status == StatusOK
  {
    var err := CheckUserType(ctx, "ADMIN");
    if err.Some? {
      return Reply(StatusUnauthorized, ErrorBody(TypeNotMatched));
    }
    var recordPerPage := QueryNumber(recordPerPageQuery, DefaultRecordPerPage);
    var pageNumber := QueryNumber(pageNumberQuery, DefaultPageNumber);
    var startIndex := StartIndexWrapped(pageNumber, recordPerPage);

    if aggregateFails {
      return Reply(StatusInternalServerError, ErrorBody("Error while fetching users"));
    }
    // `$group` over an empty collection emits no document, so `allUsers` is empty.
    var allUsers: seq<Body> := if c.docs == [] then [] else [PageBody(|c.docs|, SliceFrom(c.docs, startIndex, recordPerPage))];
    if decodeFails || |allUsers| == 0 {
      return Panic;
    }
    resp := Reply(StatusOK, allUsers[0]);
  }

  /** With no overflow, a page holds the records from (page - 1) * perPage on, at most perPage of them. */
  lemma PageIsContiguousSlice(docs: seq<Record>, page: int, perPage: int)
    requires 1 <= page <= MaxInt64 && 1 <= perPage <= MaxInt64
    requires (page - 1) * perPage <= MaxInt64
    ensures var start := (page - 1) * perPage;
      && start >= 0
      && SliceFrom(docs, StartIndexWrapped(page, perPage), perPage) == docs[Min(start, |docs|)..Min(start + perPage, |docs|)]
  {
    MulNonNegative(page - 1, perPage);
  }

  /** `pageNumber=2&recordPerPage=5` returns exactly the 6th to 10th records, with the full count. */
  lemma SecondPageOfFive(docs: seq<Record>)
    requires |docs| >= 10
    ensures
      var perPage := QueryNumber("5", DefaultRecordPerPage);
      var page := QueryNumber("2", DefaultPageNumber);
      PageBody(|docs|, SliceFrom(docs, StartIndexWrapped(page, perPage), perPage)) == PageBody(|docs|, docs[5..10])
  {
    AtoiOfDecimal(5);
    AtoiOfDecimal(2);
    assert Decimal(5) == "5" && Decimal(2) == "2";
  }

  /**
   * The listing the handler evidently intends: the page at the unbounded offset, and an
   * empty page with a zero count for an empty collection.
   */
  function Page(docs: seq<Record>, page: nat, perPage: nat): (b: Body)
    requires page >= 1 && perPage >= 1
    ensures b.PageBody? && b.totalCount == |docs|
    ensures |b.usersItems| == Min(perPage, Max(|docs| - StartIndex(page, perPage), 0))
    ensures forall k :: 0 <= k < |b.usersItems| ==> b.usersItems[k] == docs[StartIndex(page, perPage) + k]
    ensures docs == [] ==> b == PageBody(0, [])
  {
    var start := StartIndex(page, perPage);
    var items := SliceFrom(docs, start, perPage);
    assert |items| == Min(perPage, Max(|docs| - start, 0));
    PageBody(|docs|, items)
  }

  /** Where the 64-bit offset does not overflow, the handler's page is the intended one. */
  lemma GetUsersAgreesWithPage(docs: seq<Record>, page: nat, perPage: nat)
    requires 1 <= page <= MaxInt64 && 1 <= perPage <= MaxInt64
    requires (page - 1) * perPage <= MaxInt64
    ensures PageBody(|docs|, SliceFrom(docs, StartIndexWrapped(page, perPage), perPage)) == Page(docs, page, perPage)
  {
    StartIndexAgrees(page, perPage);
  }

  /** Behind the gate, the listing admits exactly the tokens whose user_type claim is "ADMIN". */
  lemma AdminGateAfterAuthentication(keys: Context, claims: SignedDetails)
    ensures CheckUserType(Middleware.SetIdentity(keys, claims), "ADMIN").None? <==> claims.userType == "ADMIN"
  {
  }

  // ---------------------------------------------------------------------------------
  // Single user

  /** What `FindOne({"user_id": userId}).Decode(&user)` leaves in `user`: the first match, or the zero user. */
  function UserOrEmpty(docs: seq<Record>, userId: string): (r: Record)
    ensures FindFirst(docs, ByUserId(userId)).Some? ==> r == docs[FindFirst(docs, ByUserId(userId)).value]
    ensures FindFirst(docs, ByUserId(userId)).None? ==> r == EmptyRecord
  {
    match FindFirst(docs, ByUserId(userId))
    case Some(i) => docs[i]
    case None => EmptyRecord
  }

  /** `GetUser()`: the policy never objects, and a failed lookup is ignored. */
  method GetUser(c: Collection, ctx: Context, userId: string, findFails: bool) returns (resp: Response)
    ensures resp.Reply? && resp.status == StatusOK
    ensures !findFails ==> resp.body == UserBody(UserOrEmpty(c.docs, userId))
    ensures findFails ==> resp.body == UserBody(EmptyRecord)
  {
    var err := MatchUserTypeToUID(ctx, userId);
    if err.Some? {
      return Reply(StatusBadRequest, ErrorBody(TypeNotMatched));
    }
    var user := c.FindOne(ByUserId(userId), findFails);
    resp := Reply(StatusOK, UserBody(if user.Some? then user.value else EmptyRecord));
  }
}
