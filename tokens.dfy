/** The earliest user stores: one access-token record per user
    (database-memory.js, database.js and database-firestore.js at the
    repository root). All three compute the same expiry instant; the model
    records it as milliseconds in each, as the Firestore store does. */
module Tokens {
  import opened Json
  import Firestore

  type Record = map<string, Value>

  /** The expiry instant `created + expiresIn` seconds, in milliseconds. */
  function ExpiresAt(created: int, expiresIn: int): int {
    created + expiresIn * 1000
  }

  /** The record `setUserData(userId, accessToken, created, expiresIn,
      refreshToken)` leaves: the existing one (or a new one) with the access
      token and expiry overwritten, and the refresh token overwritten only
      when a truthy one is given. */
  function TokenRecord(existing: Option<Record>, accessToken: Value, created: int, expiresIn: int, refreshToken: Value): (r: Record)
    ensures "accessToken" in r && r["accessToken"] == accessToken
    ensures "expiresAt" in r && r["expiresAt"] == Num(ExpiresAt(created, expiresIn))
    ensures Truthy(refreshToken) ==> "refreshToken" in r && r["refreshToken"] == refreshToken
    ensures !Truthy(refreshToken) ==>
      ("refreshToken" in r <==> existing.Some? && "refreshToken" in existing.value) &&
      (existing.Some? && "refreshToken" in existing.value ==> r["refreshToken"] == existing.value["refreshToken"])
    ensures existing.None? ==>
      r.Keys == {"accessToken", "expiresAt"} + (if Truthy(refreshToken) then {"refreshToken"} else {})
    ensures existing.Some? ==>
      r.Keys == existing.value.Keys + {"accessToken", "expiresAt"} + (if Truthy(refreshToken) then {"refreshToken"} else {})
    ensures existing.Some? ==>
      forall k :: k in existing.value && k !in {"accessToken", "expiresAt", "refreshToken"} ==> r[k] == existing.value[k]
  {
    var base := if existing.Some? then existing.value else map[];
    var updated := base["accessToken" := accessToken]["expiresAt" := Num(ExpiresAt(created, expiresIn))];
    if Truthy(refreshToken) then updated["refreshToken" := refreshToken] else updated
  }

  /** A record just written by `setUserData` counts as expired exactly when
      its expiry instant is not after `now`. */
  lemma TokenRecordExpiry(existing: Option<Record>, accessToken: Value, created: int, expiresIn: int, refreshToken: Value, now: int)
    ensures Firestore.TokenExpired(Obj(TokenRecord(existing, accessToken, created, expiresIn, refreshToken)), now)
      <==> ExpiresAt(created, expiresIn) <= now
  {
    var r := TokenRecord(existing, accessToken, created, expiresIn, refreshToken);
    assert Get(Obj(r), "expiresAt") == Num(ExpiresAt(created, expiresIn));
  }

  /** Writing the same token twice leaves the record as writing it once. */
  lemma TokenRecordIdempotent(existing: Option<Record>, accessToken: Value, created: int, expiresIn: int, refreshToken: Value)
    ensures var once := TokenRecord(existing, accessToken, created, expiresIn, refreshToken);
      TokenRecord(Some(once), accessToken, created, expiresIn, refreshToken) == once
  {
    var once := TokenRecord(existing, accessToken, created, expiresIn, refreshToken);
    var twice := TokenRecord(Some(once), accessToken, created, expiresIn, refreshToken);
    assert twice.Keys == once.Keys;
  }

  /** The in-memory `users` hash of database-memory.js (and, synchronously,
      database.js). */
  class InMemoryTokenStore {
    var users: map<string, Record>

    constructor ()
      ensures users == map[]
    {
      users := map[];
    }

    /** `getUserData(userId)`: `users[userId]`, undefined when absent. */
    function GetUserData(userId: string): (r: Value)
      reads this
      ensures userId in users ==> r == Obj(users[userId])
      ensures userId !in users ==> r == Undefined
    {
      if userId in users then Obj(users[userId]) else Undefined
    }

    /** `setUserData(userId, accessToken, created, expiresIn, refreshToken)`:
        creates or updates the user's record and returns it. */
    method SetUserData(userId: string, accessToken: Value, created: int, expiresIn: int, refreshToken: Value) returns (r: Value)
      modifies this
      ensures users == old(users)[userId :=
        TokenRecord(if userId in old(users) then Some(old(users)[userId]) else None, accessToken, created, expiresIn, refreshToken)]
      ensures r == GetUserData(userId)
    {
      ghost var base: Record := if userId in users then users[userId] else map[];
      if userId !in users {
        users := users[userId := map["accessToken" := accessToken, "expiresAt" := Num(ExpiresAt(created, expiresIn))]];
      } else {
        users := users[userId := users[userId]["accessToken" := accessToken]["expiresAt" := Num(ExpiresAt(created, expiresIn))]];
      }
      ghost var updated := base["accessToken" := accessToken]["expiresAt" := Num(ExpiresAt(created, expiresIn))];
      assert users == old(users)[userId := updated];
      if Truthy(refreshToken) {
        users := users[userId := users[userId]["refreshToken" := refreshToken]];
        assert users == old(users)[userId := updated["refreshToken" := refreshToken]];
      }
      r := Obj(users[userId]);
    }
  }

  /** The user documents of database-firestore.js at the repository root. */
  class FirestoreTokenStore {
    var users: map<string, Record>

    constructor ()
      ensures users == map[]
    {
      users := map[];
    }

    /** `getUserData(userId)`: the document, null when it does not exist. */
    function GetUserData(userId: string): (r: Value)
      reads this
      ensures userId in users ==> r == Obj(users[userId])
      ensures userId !in users ==> r == Null
    {
      if userId in users then Obj(users[userId]) else Null
    }

    /** `setUserData(...)`: reads the document (or `{}`), overwrites the token
        fields, writes it back and returns it. */
    method SetUserData(userId: string, accessToken: Value, created: int, expiresIn: int, refreshToken: Value) returns (r: Value)
      modifies this
      ensures users == old(users)[userId :=
        TokenRecord(if userId in old(users) then Some(old(users)[userId]) else None, accessToken, created, expiresIn, refreshToken)]
      ensures r == GetUserData(userId)
    {
      var user := Or(GetUserData(userId), Obj(map[]));
      user := Put(user, "accessToken", accessToken);
      user := Put(user, "expiresAt", Num(ExpiresAt(created, expiresIn)));
      if Truthy(refreshToken) {
        user := Put(user, "refreshToken", refreshToken);
      }
      users := users[userId := user.fields];
      r := user;
    }
  }
}
