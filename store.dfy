/**
 * The users collection as the handlers see it: a sequence of documents in the server's
 * natural order, with the handful of MongoDB operations the service issues
 * (CountDocuments, InsertOne, FindOne, UpdateOne with and without upsert).
 *
 * The query semantics are pure functions over the sequence; `Collection` is the shared,
 * mutable collection handle, whose methods change `docs` in place. A failing server call
 * is an input flag (`fails`), since its cause lies outside the service.
 */
module Store {
  import opened Wrappers
  import opened ObjectIds

  /**
   * One user document. `None` is a field missing from the document, which the Go driver
   * decodes to a nil pointer (or a zero time).
   */
  datatype Record = Record(
    id: ObjectId,
    userId: string,
    firstName: Option<string>,
    lastName: Option<string>,
    password: Option<string>,
    email: Option<string>,
    phone: Option<string>,
    userType: Option<string>,
    token: Option<string>,
    refreshToken: Option<string>,
    createdAt: Option<int>,
    updatedAt: Option<int>)

  /** The zero `models.User` a failed decode leaves behind. */
  const EmptyRecord: Record :=
    Record(ZeroId, "", None, None, None, None, None, None, None, None, None, None)

  /** The equality filters the service builds with `bson.M{...}`; a nil pointer matches a missing field. */
  datatype Filter = ByEmail(email: Option<string>) | ByPhone(phone: Option<string>) | ByUserId(userId: string)

  predicate Matches(r: Record, f: Filter)
  {
    match f
    case ByEmail(e) => r.email == e
    case ByPhone(p) => r.phone == p
    case ByUserId(u) => r.userId == u
  }

  /** `CountDocuments(filter)`. */
  function Count(docs: seq<Record>, f: Filter): (n: nat)
    ensures n <= |docs|
  {
    if docs == [] then 0 else (if Matches(docs[0], f) then 1 else 0) + Count(docs[1..], f)
  }

  lemma {:induction false} CountPositiveIff(docs: seq<Record>, f: Filter)
    ensures Count(docs, f) > 0 <==> exists i :: 0 <= i < |docs| && Matches(docs[i], f)
  {
    if docs != [] {
      CountPositiveIff(docs[1..], f);
      if Count(docs[1..], f) > 0 {
        var i :| 0 <= i < |docs[1..]| && Matches(docs[1..][i], f);
        assert Matches(docs[i + 1], f);
      }
      if !Matches(docs[0], f) && exists i :: 0 <= i < |docs| && Matches(docs[i], f) {
        var i :| 0 <= i < |docs| && Matches(docs[i], f);
        assert Matches(docs[1..][i - 1], f);
      }
    }
  }

  /** The position `FindOne(filter)` returns: the first matching document in natural order. */
  function FindFirst(docs: seq<Record>, f: Filter): (r: Option<nat>)
    ensures r.Some? ==> r.value < |docs| && Matches(docs[r.value], f)
    ensures r.Some? ==> forall j :: 0 <= j < r.value ==> !Matches(docs[j], f)
    ensures r.None? ==> forall j :: 0 <= j < |docs| ==> !Matches(docs[j], f)
  {
    if docs == [] then None
    else if Matches(docs[0], f) then Some(0)
    else match FindFirst(docs[1..], f)
      case None => None
      case Some(k) => Some(k + 1)
  }

  /** A count of zero and a failed lookup are the same fact. */
  lemma CountZeroIffNotFound(docs: seq<Record>, f: Filter)
    ensures Count(docs, f) == 0 <==> FindFirst(docs, f).None?
  {
    CountPositiveIff(docs, f);
  }

  predicate HasId(docs: seq<Record>, id: ObjectId)
  {
    exists i :: 0 <= i < |docs| && docs[i].id == id
  }

  /** The `$set` of a token refresh; `updatedAt == None` when the update leaves `updated_at` alone. */
  datatype TokenUpdate = TokenUpdate(token: string, refreshToken: string, updatedAt: Option<int>)

  /** Every field other than token, refresh_token and updated_at agrees. */
  predicate SameExceptTokens(a: Record, b: Record)
  {
    && a.id == b.id && a.userId == b.userId
    && a.firstName == b.firstName && a.lastName == b.lastName
    && a.password == b.password && a.email == b.email && a.phone == b.phone
    && a.userType == b.userType && a.createdAt == b.createdAt
  }

  /** The effect of the `$set` on one document. */
  function Apply(r: Record, u: TokenUpdate): (r': Record)
    ensures SameExceptTokens(r, r')
    ensures r'.token == Some(u.token) && r'.refreshToken == Some(u.refreshToken)
    ensures r'.updatedAt == (if u.updatedAt.Some? then u.updatedAt else r.updatedAt)
  {
    r.(token := Some(u.token), refreshToken := Some(u.refreshToken),
       updatedAt := if u.updatedAt.Some? then u.updatedAt else r.updatedAt)
  }

  /** `UpdateOne({"user_id": userId}, {"$set": u})`: the first match changes, nothing else does. */
  function UpdateFirst(docs: seq<Record>, userId: string, u: TokenUpdate): (r: seq<Record>)
    ensures |r| == |docs|
    ensures FindFirst(docs, ByUserId(userId)).None? ==> r == docs
    ensures FindFirst(docs, ByUserId(userId)).Some? ==>
      var i := FindFirst(docs, ByUserId(userId)).value;
      r[i] == Apply(docs[i], u) && forall j :: 0 <= j < |docs| && j != i ==> r[j] == docs[j]
  {
    if docs == [] then []
    else if docs[0].userId == userId then [Apply(docs[0], u)] + docs[1..]
    else [docs[0]] + UpdateFirst(docs[1..], userId, u)
  }

  /** What an upsert inserts when nothing matches: the filter's equality field, the `$set` fields and a server-chosen `_id`. */
  function UpsertedDoc(userId: string, u: TokenUpdate, id: ObjectId): (r: Record)
    ensures r.id == id && Matches(r, ByUserId(userId))
    ensures r.token == Some(u.token) && r.refreshToken == Some(u.refreshToken) && r.updatedAt == u.updatedAt
    ensures r.email.None? && r.phone.None? && r.password.None? && r.userType.None?
    ensures r.firstName.None? && r.lastName.None? && r.createdAt.None?
  {
    Apply(EmptyRecord.(id := id, userId := userId), u)
  }

  /** `UpdateOne` with `Upsert: true`. */
  function Upsert(docs: seq<Record>, userId: string, u: TokenUpdate, newId: ObjectId): (r: seq<Record>)
    ensures FindFirst(docs, ByUserId(userId)).Some? ==>
      var i := FindFirst(docs, ByUserId(userId)).value;
      && |r| == |docs| && r[i] == Apply(docs[i], u)
      && forall j :: 0 <= j < |docs| && j != i ==> r[j] == docs[j]
    ensures FindFirst(docs, ByUserId(userId)).None? ==>
      && |r| == |docs| + 1 && r[..|docs|] == docs
      && r[|docs|] == UpsertedDoc(userId, u, newId)
  {
    if FindFirst(docs, ByUserId(userId)).Some? then UpdateFirst(docs, userId, u)
    else docs + [UpsertedDoc(userId, u, newId)]
  }

  /** The invariant Signup's 409 check exists to keep: no two documents share an email, and no two share a phone. */
  ghost predicate UniqueContacts(docs: seq<Record>)
  {
    forall i, j :: 0 <= i < j < |docs| ==>
      && (docs[i].email.Some? ==> docs[i].email != docs[j].email)
      && (docs[i].phone.Some? ==> docs[i].phone != docs[j].phone)
  }

  /** Appending a document whose email and phone count zero keeps contacts unique. */
  lemma AppendFreshPreservesUnique(docs: seq<Record>, r: Record)
    requires UniqueContacts(docs)
    requires Count(docs, ByEmail(r.email)) == 0 && Count(docs, ByPhone(r.phone)) == 0
    ensures UniqueContacts(docs + [r])
  {
    CountPositiveIff(docs, ByEmail(r.email));
    CountPositiveIff(docs, ByPhone(r.phone));
    var d := docs + [r];
    forall i, j | 0 <= i < j < |d|
      ensures d[i].email.Some? ==> d[i].email != d[j].email
      ensures d[i].phone.Some? ==> d[i].phone != d[j].phone
    {
      if j == |docs| {
        assert !Matches(docs[i], ByEmail(r.email)) && !Matches(docs[i], ByPhone(r.phone));
      }
    }
  }

  /** A token update never touches email or phone, so it keeps contacts unique. */
  lemma UpdateFirstPreservesUnique(docs: seq<Record>, userId: string, u: TokenUpdate)
    requires UniqueContacts(docs)
    ensures UniqueContacts(UpdateFirst(docs, userId, u))
  {
    var r := UpdateFirst(docs, userId, u);
    forall k | 0 <= k < |docs|
      ensures r[k].email == docs[k].email && r[k].phone == docs[k].phone
    {
    }
  }

  /** A document added by an upsert has neither email nor phone, so contacts stay unique. */
  lemma UpsertPreservesUnique(docs: seq<Record>, userId: string, u: TokenUpdate, newId: ObjectId)
    requires UniqueContacts(docs)
    ensures UniqueContacts(Upsert(docs, userId, u, newId))
  {
    if FindFirst(docs, ByUserId(userId)).Some? {
      UpdateFirstPreservesUnique(docs, userId, u);
    } else {
      var r := Upsert(docs, userId, u, newId);
      assert forall k :: 0 <= k < |docs| ==> r[k] == docs[k];
    }
  }

  /** The shared collection handle. */
  class Collection {
    var docs: seq<Record>

    constructor (initial: seq<Record>)
      ensures docs == initial
    {
      docs := initial;
    }

    /** Returns the count, or `err` when the server call fails. */
    method CountDocuments(f: Filter, fails: bool) returns (n: nat, err: bool)
      ensures err == fails
      ensures !err ==> (n > 0 <==> exists i :: 0 <= i < |docs| && Matches(docs[i], f))
      ensures !err ==> n == Count(docs, f)
    {
      err := fails;
      n := if fails then 0 else Count(docs, f);
      CountPositiveIff(docs, f);
    }

    /** Fails on a server error or a duplicate `_id`; otherwise appends. */
    method InsertOne(r: Record, fails: bool) returns (ok: bool)
      modifies this
      ensures ok <==> !fails && !HasId(old(docs), r.id)
      ensures docs == if ok then old(docs) + [r] else old(docs)
    {
      ok := !fails && !HasId(docs, r.id);
      if ok {
        docs := docs + [r];
      }
    }

    /** The first document matching `f`, or `None` when there is none or the call fails. */
    method FindOne(f: Filter, fails: bool) returns (r: Option<Record>)
      ensures fails ==> r.None?
      ensures !fails ==> (r.None? <==> forall j :: 0 <= j < |docs| ==> !Matches(docs[j], f))
      ensures r.Some? ==> exists i :: 0 <= i < |docs| && r.value == docs[i] && Matches(docs[i], f) &&
                                     FindFirst(docs, f) == Some(i)
    {
      var at := FindFirst(docs, f);
      if fails || at.None? {
        r := None;
      } else {
        r := Some(docs[at.value]);
      }
    }

    /** `UpdateOne({"user_id": userId}, {"$set": u}, upsert)`; on a server error nothing changes. */
    method UpdateOne(userId: string, u: TokenUpdate, upsert: bool, fails: bool, upsertId: ObjectId)
      modifies this
      ensures docs == if fails then old(docs)
                      else if upsert then Upsert(old(docs), userId, u, upsertId)
                      else UpdateFirst(old(docs), userId, u)
    {
      if !fails {
        docs := if upsert then Upsert(docs, userId, u, upsertId) else UpdateFirst(docs, userId, u);
      }
    }
  }
}
