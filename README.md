# Account service core, modelled in Dafny

This project models the decision logic of a small user-account service written in Go:
bearer-token authentication in front of signup, login, a paginated user listing and a
single-user lookup, all backed by one MongoDB collection of user documents.

What is modelled:

- **Role policy** (`Roles`, `roles.dfy`). `CheckUserType` and `MatchUserTypeToUID` work
  over the request context, a `map<string, string>` read with gin's `GetString` (a missing
  key reads as `""`).
- **Authentication gate** (`Middleware`, `middleware.dfy`). The `Gate` function makes the
  three-way decision. The `RequestContext` class is the part of `gin.Context` the gate
  writes: keys, abort, next, and the error reply. `Authenticate` is a method on that class.
- **Token issue and validation** (`Tokens`, `tokens.dfy`). This covers the claims, the
  ordered chain of `GenerateAllTokens`, the key function, `ParseWithClaims`,
  `ValidateToken`, and the `UpdateAllTokens` upsert. Tokens are JWTs (RFC 7519) signed
  with HMAC SHA-256 ("HS256", section 3.2 of RFC 7518). Signing, decoding and the MAC
  check are the three function fields of a `Jwt` value. Lemmas that need them to agree
  take `Sound(jwt)` as a hypothesis: a signed token decodes to its own method and claims,
  and its signature checks under the signing key and under no other key.
- **Handlers** (`Controllers`, `controllers.dfy`). These are `Signup`, `Login`, `GetUsers`
  and `GetUser`, written as methods over the shared `Store.Collection`. The collection is a
  class whose `docs: seq<Record>` the methods change in place. Each handler's order of
  checks is also a pure function (`SignupStage`, `LoginStage`). Lemmas are proved about
  those functions.
- **Supporting abstractions.** `Passwords` models bcrypt. `ObjectIds` holds the 12-byte
  ObjectID, its hex form and the inverse parser. `Strconv` holds Go's `strconv.Atoi`,
  decimal rendering and 64-bit wrap-around. `Store` holds documents, equality filters,
  CountDocuments, FindOne, InsertOne, and UpdateOne with and without upsert.

Inputs in place of effects:

- The clock is `now`, in Unix seconds.
- The process secret is `secret`.
- The bcrypt salt, the client-side `primitive.NewObjectID()` and the server-chosen `_id`
  of an upsert are parameters.
- The outcome of JSON binding is a `Bound<T>` value, and `validate.Struct` is an
  `Option<string>`.
- Each failing server call is a boolean in a faults record.
- A handler panic is the response `Panic`. The router is built with `gin.New()` and no
  recovery middleware (main.go:19-20), so a panic writes no JSON reply.

The handlers model the code as written, including the defects listed under "Findings".
The corrected definitions stand next to them, with the intended properties proved, and
with lemmas that link them to the as-written code where the two agree.

In three places the code does less than the service evidently intends. The model follows
the code:

- A USER is meant to read only their own record (the self check in
  helpers/authHelper.go:18-32). The code admits every request (see Findings).
- An unknown email at login is a not-found condition, but Login replies 500
  "User not found" rather than 404.
- Get-by-id ignores the lookup error. When no account has the id, it replies 200 with a
  zero-valued user instead of an error.

## Model

| member | source | states |
|---|---|---|
| `Passwords.Hash` | controllers/userController.go:25-32 | The stored hash starts with the cost-10 prefix `$2a$10$`, followed by the 22-character salt and the digest. |
| `Passwords.Compare` | controllers/userController.go:34-41 | A stored value verifies a password exactly when it is long enough, carries the prefix, and its digest part is that password. |
| `Passwords.CompareHashIff` | controllers/userController.go:25-41 | A bcrypt hash verifies the password it was made from and no other one. |
| `Passwords.HashIsNotPlaintext` | controllers/userController.go:25-32 | The stored hash never equals the plaintext. |
| `Passwords.MalformedHashRejects` | controllers/userController.go:34-39 | A stored value that is too short or lacks the version prefix verifies no password. |
| `ObjectIds.Hex` | controllers/userController.go:93-94 | `User_id` is 24 characters: each byte of the ObjectID as two lower-case hex digits, high nibble first. |
| `ObjectIds.FromHexOfHex` | controllers/userController.go:93-94 | Parsing the 24-digit hex form of an ObjectID gives back the same ID. |
| `ObjectIds.HexInjective` | controllers/userController.go:93-94 | Distinct ObjectIDs have distinct hex forms, so `User_id` is as unique as `_id`. |
| `Strconv.Atoi` | controllers/userController.go:145-153 | An accepted query value is exactly an optional sign followed by at least one decimal digit, within int64. Its value is the digits' decimal value, negated after a minus sign. Anything else, the empty string included, is an error. |
| `Strconv.AtoiOfDecimal` | controllers/userController.go:145-153 | `Atoi` reads back every non-negative int64 written in decimal. |
| `Strconv.AtoiOfNegative` | controllers/userController.go:145-153 | `Atoi` reads back every negative int64 written with a minus sign. |
| `Strconv.AtoiRejectsNonDigit` | controllers/userController.go:145-153 | A non-digit after the optional sign makes `Atoi` fail. |
| `Strconv.Wrap64` | controllers/userController.go:154 | Go's 64-bit `int` result is congruent to the exact value modulo 2^64, in range, and exact when no overflow occurs. |
| `Store.Count` | controllers/userController.go:67-71 | `CountDocuments` never exceeds the size of the collection. |
| `Store.CountPositiveIff` | controllers/userController.go:80 | A count is positive exactly when some document matches the filter. |
| `Store.FindFirst` | controllers/userController.go:198 | `FindOne` yields the first matching document in natural order, or none exactly when nothing matches. |
| `Store.CountZeroIffNotFound` | controllers/userController.go:198-203 | A zero count and a failed lookup are the same fact. |
| `Store.Apply` | helpers/tokerHelper.go:101-108 | The token `$set` changes only token, refresh_token and updated_at. |
| `Store.UpdateFirst` | controllers/userController.go:112-124 | `UpdateOne` without upsert changes only the first document with that user_id, and nothing when none matches. |
| `Store.UpsertedDoc` | helpers/tokerHelper.go:108-115 | A document created by the upsert carries the user_id, the `$set` fields and a new `_id`. It has no email, phone, password, user type, names or created_at. |
| `Store.Upsert` | helpers/tokerHelper.go:101-115 | If a document with that user_id exists, only it changes, and only its token fields change. Otherwise exactly one document is appended. |
| `Store.AppendFreshPreservesUnique` | controllers/userController.go:80-97 | Inserting a document whose email and phone both count zero keeps emails and phones unique. |
| `Store.UpdateFirstPreservesUnique` | controllers/userController.go:112-124 | A token update keeps emails and phones unique. |
| `Store.UpsertPreservesUnique` | helpers/tokerHelper.go:101-115 | A token upsert keeps emails and phones unique. |
| `Store.Collection.CountDocuments` | controllers/userController.go:64-73 | Returns the filter's count, or an error exactly when the server call fails. |
| `Store.Collection.InsertOne` | controllers/userController.go:97-101 | Appends the document unless the call fails or the `_id` is already taken. Otherwise nothing changes. |
| `Store.Collection.FindOne` | controllers/userController.go:198 | Returns the first match, and none on a failure or when nothing matches. |
| `Store.Collection.UpdateOne` | helpers/tokerHelper.go:115 | The collection becomes the upsert or the plain update of its old contents, and stays unchanged on a server error. |
| `Tokens.AccessClaims` | helpers/tokerHelper.go:38-48 | Access claims carry exactly the five identity arguments, issuer "boracay" and expiry now + 24 h. |
| `Tokens.RefreshClaims` | helpers/tokerHelper.go:50-55 | Refresh claims have empty identity fields, issuer "boracay" and expiry now + 48 h. |
| `Tokens.GenerateAllTokens` | helpers/tokerHelper.go:37-67 | The error is set exactly when either signing call fails, and then both tokens are empty and the message is not. On success the tokens are the HS256 signatures of the two claim sets. |
| `Tokens.KeyFunc` | helpers/tokerHelper.go:71-76 | The secret is released exactly for the HMAC family. Every other method is refused with "Invalid signing method". |
| `Tokens.ErrorText` | helpers/tokerHelper.go:78-81 | A parse error's text is never empty. |
| `Tokens.ParseWithClaims` | helpers/tokerHelper.go:71-81 | Parsing succeeds exactly when the token decodes, names an HMAC method and its signature checks under the secret. It then returns the claims decoded from the token. A malformed token gives the decoder's error text, which is never empty. A non-HMAC method gives "Invalid signing method". A failed signature check gives "signature is invalid". |
| `Tokens.ValidateToken` | helpers/tokerHelper.go:69-95 | Checks run in this order: a parse error gives its text and nil claims; then other claims give "Token is invalid"; then `ExpiresAt < now` gives "Token is expired" with the claims still returned; otherwise the message is "". An empty message implies claims are present and unexpired. |
| `Tokens.NonHmacRefused` | helpers/tokerHelper.go:71-76 | A token without an HMAC method fails validation with "Invalid signing method". |
| `Tokens.AcceptedAtExpiry` | helpers/tokerHelper.go:89-92 | The expiry test is strict: a token passes at `now == ExpiresAt` and is expired one second later. |
| `Tokens.SoundSigned` | helpers/tokerHelper.go:56-64 | Under a sound JWT implementation, an issued token is non-empty, decodes to its claims and verifies only under its own key. |
| `Tokens.AccessTokenValidUntilExpiry` | helpers/tokerHelper.go:37-95 | A freshly issued access token validates with its own claims exactly until now + 24 h, and is "Token is expired" after that. |
| `Tokens.RefreshTokenValidUntilExpiry` | helpers/tokerHelper.go:37-95 | A freshly issued refresh token validates exactly until now + 48 h and carries the identity-less claims. |
| `Tokens.ForeignSecretRejected` | helpers/tokerHelper.go:71-81 | A token signed under another secret fails with "signature is invalid". |
| `Tokens.UpdateAllTokens` | helpers/tokerHelper.go:97-125 | The collection becomes the upsert by user_id of token, refresh_token and updated_at = now, and uniqueness of emails and phones is kept. |
| `Roles.GetString` | helpers/authHelper.go:20-21 | Returns the stored string, or "" for a key that was never set. |
| `Roles.CheckUserType` | helpers/authHelper.go:9-16 | The result is nil exactly when the context's user_type equals the role. Otherwise it is the "Unauthorized to access the resources" error. The context is only read. |
| `Roles.SelfCheck` | helpers/authHelper.go:20-27 | The discarded intermediate check errs exactly when user_type is "USER" and the "uid" key differs from the requested id. |
| `Roles.MatchUserTypeToUID` | helpers/authHelper.go:18-32 | Always returns nil. |
| `Roles.MatchAdmitsOtherUsersRecord` | helpers/authHelper.go:25-29 | When the self check errs (a USER asking for someone else's id), the function as written still returns nil. |
| `Roles.SelfCheckRejectsOwnRecord` | helpers/authHelper.go:21 | With no "uid" key in the context, the self check rejects a USER's request for their own non-empty user_id. |
| `Roles.MatchSelfOrNonUser` | helpers/authHelper.go:18-32 | The corrected policy: the result is nil exactly when the caller is not USER or asks for their own "user_id". |
| `Middleware.Gate` | middleware/authMiddleware.go:10-36 | No header gives NoHeader. A non-empty validation message gives Rejected with that message. Otherwise the result is Accepted with the validated claims. |
| `Middleware.SetIdentity` | middleware/authMiddleware.go:30-34 | The context gains exactly email, first_name, last_name, user_type and user_id, equal to the claim fields. Every other key is kept. |
| `Middleware.RequestContext.Authenticate` | middleware/authMiddleware.go:10-36 | No header gives 401 "No authorization header provided" and a bad token gives 401 with the message. Both abort and leave the keys unchanged. Acceptance sets the five keys and calls Next. Exactly one of Abort and Next happens. |
| `Middleware.AcceptedIff` | middleware/authMiddleware.go:12-35 | Next happens exactly when the header is non-empty and validation reports "". |
| `Middleware.NoHeaderIgnoresValidator` | middleware/authMiddleware.go:12-18 | With no header the decision does not depend on the validator, the secret or the clock. |
| `Middleware.GateNeverSetsUid` | middleware/authMiddleware.go:30-34 | The gate never writes key "uid", so it still reads as "" afterwards, while "user_id" holds the claim. |
| `Middleware.IssuedTokenAccepted` | middleware/authMiddleware.go:10-36 | An access token issued by `GenerateAllTokens` and presented before expiry is accepted with exactly its claims. |
| `Controllers.HashPassword` | controllers/userController.go:25-32 | The hash differs from the plaintext and verifies it. |
| `Controllers.VerifyPassword` | controllers/userController.go:34-41 | Returns `(true, "")` exactly when the hash comparison succeeds, and `(false, "Invalid password")` otherwise. |
| `Controllers.VerifyHashedPassword` | controllers/userController.go:25-41 | Verifying against `HashPassword(p)` succeeds for `p` and fails for every other password. |
| `Controllers.NewUser` | controllers/userController.go:85-94 | The inserted document has `User_id == ID.Hex()` and the hashed password, not the plaintext. `Created_at == Updated_at == now`, and the request fields are kept. |
| `Controllers.SignupStage` | controllers/userController.go:49-101 | The order is: bad input (400); then a count error (500); then an existing email or phone (409); then a failed insert, exactly when the counts are zero and the call fails or the `_id` is taken; then creation, which needs zero counts and a fresh `_id`. |
| `Controllers.CountErrorBeforeConflict` | controllers/userController.go:75-83 | A count error on either field is reported before any conflict test. |
| `Controllers.TakenContactConflicts` | controllers/userController.go:80-83 | Any stored document with the same email or phone makes Signup a conflict. |
| `Controllers.UpdateFirstOfFreshLast` | controllers/userController.go:112-124 | If no older document shares the new user_id, the token update lands on the new document. |
| `Controllers.Signup` | controllers/userController.go:43-133 | Every rejection leaves the table unchanged, with its status and message. Success replies 200 with the inserted ID and adds exactly one document (the new user, with the signed tokens set). Email and phone uniqueness is kept. |
| `Controllers.LoginStage` | controllers/userController.go:193-215 | The order is: bad body; then a failed lookup or an unknown email (not found); then, for the first document with that email, a nil stored email (not found), nil password pointers (panic), a mismatching password (bad password), and a matching one, which authenticates unless a name or the user type is nil (panic). |
| `Controllers.NilEmailNeverAuthenticates` | controllers/userController.go:198-208 | A login body without an email is never authenticated. |
| `Controllers.SignupThenLogin` | controllers/userController.go:85-97 | After a successful signup, logging in with the same email and password authenticates the new document. |
| `Controllers.Login` | controllers/userController.go:186-228 | An unknown email gives 500 "User not found". A wrong password gives 401 "Invalid password". Both leave the table unchanged. Success upserts fresh tokens on the user's document without adding one, and replies with that updated document. |
| `Controllers.QueryNumber` | controllers/userController.go:145-153 | After normalisation the value is in `[1, MaxInt64]`. A parse error or a value below 1 becomes the default (10 per page, page 1). |
| `Controllers.StartIndexWrapped` | controllers/userController.go:154 | The 64-bit offset equals `(pageNumber - 1) * recordPerPage` whenever that product fits in int64. |
| `Controllers.StartIndexCanBeNegative` | controllers/userController.go:154 | A page number that `Atoi` accepts, 6148914691236517206, with 3 records per page, gives offset -1. |
| `Controllers.StartIndex` | controllers/userController.go:154 | The intended offset: 0 for page 1, and each page starts `recordPerPage` after the previous one. |
| `Controllers.StartIndexAgrees` | controllers/userController.go:154 | Without overflow the code's offset equals the intended one. |
| `Controllers.StartIndexIsProduct` | controllers/userController.go:154 | The intended offset is `(pageNumber - 1) * recordPerPage`. |
| `Controllers.SliceFrom` | controllers/userController.go:164-168 | `$slice` returns at most n items, contiguous from the position, or from the end for a negative position. |
| `Controllers.GetUsers` | controllers/userController.go:135-184 | A caller that is not ADMIN gets 401 "User type not matched" before any query. A failed aggregation gives 500. An empty collection or a failed decode panics. Otherwise the reply is 200 with `total_count == |docs|` and the slice at the offset. |
| `Controllers.PageIsContiguousSlice` | controllers/userController.go:154-167 | Without overflow, the page is `docs[start..start+perPage]` clamped to the table, with `start >= 0`. |
| `Controllers.SecondPageOfFive` | controllers/userController.go:145-167 | `pageNumber=2&recordPerPage=5` lists exactly the 6th to 10th records, with the full count. |
| `Controllers.Page` | controllers/userController.go:156-182 | The corrected listing returns the full count and at most perPage records from the intended offset. An empty table gives an empty page. |
| `Controllers.GetUsersAgreesWithPage` | controllers/userController.go:154-167 | Without overflow the handler's listing equals the corrected one. |
| `Controllers.AdminGateAfterAuthentication` | controllers/userController.go:137-142 | Behind the gate, the listing admits exactly tokens whose user_type claim is "ADMIN". |
| `Controllers.UserOrEmpty` | controllers/userController.go:243-244 | The decoded user is the first document with that user_id, or the zero user. |
| `Controllers.GetUser` | controllers/userController.go:230-250 | The reply is always 200: the rejection branch cannot be reached. The body is the first document with that user_id, or the zero user when none matches or the lookup fails. |

## Left out

- Bootstrap (database/databaseConnection.go, main.go, routes/userRoutes.go): env loading, connect, ping, router and port set-up, and the `log.Fatal` exits. This is process I/O outside the decision logic.
- The process-global `SECRET_KEY` initialisation and its fatal exit: the secret is a parameter.
- bcrypt internals: the cost is fixed at 10, the salt is an input, and the digest is an injective stand-in. One-wayness is not modelled.
- `Passwords.CompareHashIff`: real bcrypt keys on at most the first 72 bytes of the password (with its terminating NUL), and `CompareHashAndPassword` does not refuse longer candidates. So a hash of a 72-byte password also verifies that password followed by any suffix. The stand-in digest uses the whole password, so this collision is not modelled.
- `Controllers.HashPassword`: bcrypt's error path (passwords over 72 bytes in newer library versions) ends in `log.Panic`. It is not modelled.
- `Passwords.Compare`: other bcrypt version or cost prefixes are not accepted. This does not matter here, because every stored hash comes from `HashPassword` at cost 10.
- JWT compact serialisation, base64url and HMAC-SHA256 are the abstract `Jwt` fields.
- `Tokens.ForeignSecretRejected`: the `Sound` hypothesis is an idealised MAC, under which no other key verifies a signature. Real HMAC (RFC 2104) pads a key shorter than the block with zero bytes and replaces a longer key by its hash. So `k` and `k` followed by a zero byte give the same MAC, and this lemma claims more than HS256 guarantees for such key pairs.
- `Tokens.ValidateToken`: the parser decodes into the fresh `*SignedDetails` it is given (helpers/tokerHelper.go:71), so the type assertion at line 84 cannot fail and "Token is invalid" is dead code. The model keeps the branch by letting `decode` return `OtherClaims`, which no real parser does.
- The JWT library's own claim checks are left out. The library also rejects an expired token, so in the running program the code's own expiry check rarely decides anything. Only the code's check is modelled.
- `Tokens.GenerateAllTokens`: the two `time.Now()` reads are a single `now`. Expiry arithmetic is unbounded and does not model int64 overflow near the end of the int64 range.
- `Tokens.UpdateAllTokens`: a failing `UpdateOne` ends in `log.Panic`, so the model assumes the call succeeds. The 100-second timeout is left out.
- `Store.Collection.UpdateOne`: an upsert whose server-chosen `_id` collides with an existing one is not modelled. Such server-generated ObjectIDs are unique.
- Concurrency: the two counts in Signup run on goroutines joined by a WaitGroup. They are modelled as two sequential reads. The race between concurrent signups (check then insert, not transactional) is not modelled.
- Timeouts and request contexts, JSON binding and `validate.Struct` are inputs. The struct tags are not visible, so a valid signup body is assumed to carry every field the handler dereferences.
- Login: a nil pointer in a field the handler dereferences is modelled as `Panic`. Decoding the re-read document into the already filled struct is taken to be the plain document.
- GetUsers: the aggregation's failure, including a server that refuses `$slice` arguments outside the 32-bit range, is the input `aggregateFails`. It is not derived from the numbers.
- Token-signing failures inside Signup and Login are discarded by the code, so empty tokens are stored (`GenerateAllTokens` returns "" on error). The model keeps this behaviour and does not report it as an error.
- Logging (`log.Println`, `log.Printf`) and the HTTP encoding of replies are left out.

## Findings

| source | as written | input that shows it | evidently intended | confidence | as-written member | corrected member |
|---|---|---|---|---|---|---|
| helpers/authHelper.go:29 | The self-check error is overwritten by `CheckUserType(ctx, userType)`, which compares the caller's type with itself, so the function always returns nil. | A context with user_type "USER" and uid "a", requesting user id "b". | Return the self check's error: a USER may read only their own record. | not executed; high | `Roles.MatchAdmitsOtherUsersRecord` | `Roles.MatchSelfOrNonUser` |
| helpers/authHelper.go:21 | The self check reads key "uid", but the gate only writes "user_id", so uid is always "". | A USER authenticated with user_id "x" requests "x": the self check rejects them. | Read "user_id", which the gate sets. | not executed; high | `Roles.SelfCheckRejectsOwnRecord` | `Roles.MatchSelfOrNonUser` |
| controllers/userController.go:182 | `allUsers[0]` is indexed without a check. A `$group` over an empty collection emits no document, so the handler panics. | An ADMIN lists users while the collection is empty. | 200 with total_count 0 and an empty page. | not executed; medium | `Controllers.GetUsers` | `Controllers.Page` |
| controllers/userController.go:154 | `(pageNumber - 1) * recordPerPage` wraps around in 64-bit `int`. The offset can then be negative, and `$slice` counts a negative offset from the end of the array. | A pageNumber of 6148914691236517206 with recordPerPage 3 gives startIndex -1, so the listing shows the last record. | A non-negative offset `(pageNumber - 1) * recordPerPage`: a page past the end is empty. | not executed; medium | `Controllers.StartIndexCanBeNegative` | `Controllers.StartIndex` |
