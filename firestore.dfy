/** The Firestore-backed document store of src/database-firestore.js: a root
    collection of user documents (one section per connection), and under each
    user a set of named collections of documents. */
module Firestore {
  import opened Json
  import Constants

  /** A user document under a root collection. */
  datatype UserKey = UserKey(root: string, user: string)
  /** A document in a user's collection under a root collection. */
  datatype DocKey = DocKey(root: string, user: string, coll: string, name: string)

  type Doc = map<string, Value>

  const UsersRoot := "users"
  const DevUsersRoot := "users-dev"

  /** `setEnv(env)`: only 'dev' switches the root collection. */
  function RootAfterSetEnv(root: string, env: string): (r: string)
    ensures env == "dev" ==> r == DevUsersRoot
    ensures env != "dev" ==> r == root
  {
    if env == "dev" then DevUsersRoot else root
  }

  /** The name a batch element is stored under (`element['' + key]`), or
      None when the element cannot be stored: it is not an object or its key
      is not a non-empty string (the store rejects those, and the failure
      stays inside that element's callback). */
  function BatchName(element: Value, key: string): (r: Option<string>)
    ensures r.Some? <==> element.Obj? && Get(element, key).Str? && Get(element, key).s != ""
    ensures r.Some? ==> r.value == Get(element, key).s
  {
    if element.Obj? && Get(element, key).Str? && Get(element, key).s != ""
    then Some(Get(element, key).s) else None
  }

  /** The documents one `storeBatch` writes, by name; later elements win. */
  function BatchDocs(items: seq<Value>, key: string): map<string, Doc>
    decreases |items|
  {
    if items == [] then map[]
    else
      var m := BatchDocs(items[..|items| - 1], key);
      var last := items[|items| - 1];
      match BatchName(last, key)
      case None => m
      case Some(n) => m[n := last.fields]
  }

  /** A name is written exactly when some element is stored under it. */
  lemma {:induction false} BatchDocsNames(items: seq<Value>, key: string, n: string)
    ensures n in BatchDocs(items, key) <==> exists i :: 0 <= i < |items| && BatchName(items[i], key) == Some(n)
    decreases |items|
  {
    if items != [] {
      var init := items[..|items| - 1];
      BatchDocsNames(init, key, n);
      if n in BatchDocs(init, key) {
        var i :| 0 <= i < |init| && BatchName(init[i], key) == Some(n);
        assert items[i] == init[i];
      }
      if exists i :: 0 <= i < |items| && BatchName(items[i], key) == Some(n) {
        var i :| 0 <= i < |items| && BatchName(items[i], key) == Some(n);
        if i < |items| - 1 {
          assert init[i] == items[i];
        }
      }
    }
  }

  /** The document stored under a name is the LAST element with that name:
      duplicates overwrite earlier ones. */
  lemma {:induction false} BatchLastWins(items: seq<Value>, key: string, i: nat)
    requires i < |items| && BatchName(items[i], key).Some?
    requires forall j :: i < j < |items| ==> BatchName(items[j], key) != BatchName(items[i], key)
    ensures BatchName(items[i], key).value in BatchDocs(items, key)
    ensures BatchDocs(items, key)[BatchName(items[i], key).value] == items[i].fields
    decreases |items|
  {
    if i < |items| - 1 {
      var init := items[..|items| - 1];
      assert init[i] == items[i];
      forall j | i < j < |init| ensures BatchName(init[j], key) != BatchName(init[i], key) {
        assert init[j] == items[j];
      }
      BatchLastWins(init, key, i);
    }
  }

  /** The batch documents placed under a user's collection. */
  function Placed(root: string, user: string, coll: string, batch: map<string, Doc>): (m: map<DocKey, Doc>)
    ensures forall n :: n in batch ==> DocKey(root, user, coll, n) in m && m[DocKey(root, user, coll, n)] == batch[n]
    ensures forall k :: k in m ==> k.root == root && k.user == user && k.coll == coll && k.name in batch
  {
    map n | n in batch :: DocKey(root, user, coll, n) := batch[n]
  }

  lemma BatchDocsStep(items: seq<Value>, key: string, i: nat)
    requires i < |items|
    ensures BatchDocs(items[..i + 1], key) ==
      match BatchName(items[i], key)
      case None => BatchDocs(items[..i], key)
      case Some(n) => BatchDocs(items[..i], key)[n := items[i].fields]
  {
    assert items[..i + 1][..i] == items[..i];
  }

  /** Placing a batch with one more document is placing the batch and then
      writing that document. */
  lemma PlacedUpdate(base: map<DocKey, Doc>, root: string, user: string, coll: string, batch: map<string, Doc>, n: string, d: Doc)
    ensures base + Placed(root, user, coll, batch[n := d]) == (base + Placed(root, user, coll, batch))[DocKey(root, user, coll, n) := d]
  {
    var lhs := base + Placed(root, user, coll, batch[n := d]);
    var rhs := (base + Placed(root, user, coll, batch))[DocKey(root, user, coll, n) := d];
    PlacedUpdateKeys(base, root, user, coll, batch, n, d, lhs, rhs);
    PlacedUpdateValues(base, root, user, coll, batch, n, d, lhs, rhs);
  }

  lemma PlacedUpdateKeys(base: map<DocKey, Doc>, root: string, user: string, coll: string, batch: map<string, Doc>, n: string, d: Doc,
                         lhs: map<DocKey, Doc>, rhs: map<DocKey, Doc>)
    requires lhs == base + Placed(root, user, coll, batch[n := d])
    requires rhs == (base + Placed(root, user, coll, batch))[DocKey(root, user, coll, n) := d]
    ensures lhs.Keys == rhs.Keys
  {
    var key := DocKey(root, user, coll, n);
    var before := Placed(root, user, coll, batch);
    var after := Placed(root, user, coll, batch[n := d]);
    forall k ensures k in lhs <==> k in rhs {
      if k != key && k.root == root && k.user == user && k.coll == coll {
        assert k in after <==> k.name in batch;
        assert k in before <==> k.name in batch;
      }
    }
  }

  lemma PlacedUpdateValues(base: map<DocKey, Doc>, root: string, user: string, coll: string, batch: map<string, Doc>, n: string, d: Doc,
                           lhs: map<DocKey, Doc>, rhs: map<DocKey, Doc>)
    requires lhs == base + Placed(root, user, coll, batch[n := d])
    requires rhs == (base + Placed(root, user, coll, batch))[DocKey(root, user, coll, n) := d]
    ensures forall k :: k in lhs && k in rhs ==> lhs[k] == rhs[k]
  {
    var key := DocKey(root, user, coll, n);
    var before := Placed(root, user, coll, batch);
    var after := Placed(root, user, coll, batch[n := d]);
    forall k | k in lhs && k in rhs ensures lhs[k] == rhs[k] {
      if k != key && k in after {
        assert after[k] == batch[k.name] == before[k];
      }
    }
  }

  /** Documents of (root, user, coll) may differ; all others are as before. */
  ghost predicate SameOutsideCollection(d0: map<DocKey, Doc>, d1: map<DocKey, Doc>, root: string, user: string, coll: string) {
    forall k: DocKey :: !(k.root == root && k.user == user && k.coll == coll) ==>
      (k in d0 <==> k in d1) && (k in d0 ==> d0[k] == d1[k])
  }

  /** `query`'s filter: only filter when both the field and the value are given. */
  predicate Filtered(field: Value, value: Value) {
    Truthy(field) && Truthy(value)
  }

  /** `tokenExpired(user)`: not expired only when `user.expiresAt > now`;
      reading from a missing user throws and counts as expired. (The same
      function appears in database-memory.js and database-firestore.js.) */
  function TokenExpired(user: Value, now: int): (expired: bool)
    ensures !expired <==> !Nullish(user) && GreaterThan(Get(user, "expiresAt"), now)
  {
    if Nullish(user) then true
    else if GreaterThan(Get(user, "expiresAt"), now) then false
    else true
  }

  /** `{...connectionData, ...data}` where `connectionData = user[connection] || {}`. */
  function MergeSection(current: Value, data: Value): (r: Doc)
    ensures r.Keys == Fields(current).Keys + Fields(data).Keys
    ensures forall k :: k in Fields(data) ==> r[k] == Fields(data)[k]
    ensures forall k :: k in Fields(current) && k !in Fields(data) ==> r[k] == Fields(current)[k]
  {
    Fields(Or(current, Obj(map[]))) + Fields(data)
  }

  /** Writing the same data into a section twice leaves it as writing it once. */
  lemma MergeSectionIdempotent(current: Value, data: Value)
    ensures MergeSection(Obj(MergeSection(current, data)), data) == MergeSection(current, data)
  {
    var once := MergeSection(current, data);
    var twice := MergeSection(Obj(once), data);
    assert twice.Keys == once.Keys;
    forall k | k in once ensures twice[k] == once[k] {
    }
  }

  /** A finite set as a list without repetitions, in an order the store chooses. */
  method Enumerate<T>(s: set<T>) returns (r: seq<T>)
    ensures forall x :: x in r <==> x in s
    ensures forall i, j :: 0 <= i < j < |r| ==> r[i] != r[j]
  {
    r := [];
    var rest := s;
    while rest != {}
      invariant forall x :: x in s <==> x in r || x in rest
      invariant forall x :: x in r ==> x !in rest
      invariant forall i, j :: 0 <= i < j < |r| ==> r[i] != r[j]
      decreases rest
    {
      var x :| x in rest;
      r := r + [x];
      rest := rest - {x};
    }
  }

  class FirestoreStore {
    /** The root collection of users; 'users-dev' in the dev environment. */
    var root: string
    /** User documents: one field per connection section. */
    var userDocs: map<UserKey, Doc>
    /** The documents of every user's collections. */
    var docs: map<DocKey, Doc>

    constructor ()
      ensures root == UsersRoot && userDocs == map[] && docs == map[]
    {
      root := UsersRoot;
      userDocs := map[];
      docs := map[];
    }

    /** `setEnv(env)` */
    method SetEnv(env: string)
      modifies this`root
      ensures root == RootAfterSetEnv(old(root), env)
    {
      if env == "dev" {
        root := DevUsersRoot;
      }
    }

    /** `getDocument(userId, collection, name)`: the document, or null when it does not exist. */
    function GetDocument(userId: string, collection: string, name: string): (r: Value)
      reads this
      ensures r == Null <==> DocKey(root, userId, collection, name) !in docs
      ensures r != Null ==> r.Obj? && r.fields == docs[DocKey(root, userId, collection, name)]
    {
      var k := DocKey(root, userId, collection, name);
      if k in docs then Obj(docs[k]) else Null
    }

    /** `storeDocument(userId, collection, name, data)`: only objects are documents. */
    method StoreDocument(userId: string, collection: string, name: string, data: Value)
      modifies this`docs
      ensures data.Obj? ==> docs == old(docs)[DocKey(root, userId, collection, name) := data.fields]
      ensures data.Obj? ==> GetDocument(userId, collection, name) == data
      ensures !data.Obj? ==> docs == old(docs)
    {
      if data.Obj? {
        docs := docs[DocKey(root, userId, collection, name) := data.fields];
      }
    }

    /** `storeBatch(userId, collection, data, key)`: every storable element is
        upserted under `element[key]`; nothing is deleted. A `data` that is not
        an array makes `data.forEach` throw, and nothing is written. */
    method StoreBatch(userId: string, collection: string, data: Value, key: Value)
      modifies this`docs
      ensures data.Arr? ==> docs == old(docs) + Placed(root, userId, collection, BatchDocs(data.items, PropertyKey(key)))
      ensures !data.Arr? ==> docs == old(docs)
    {
      if data.Arr? {
        var keyString := PropertyKey(key);
        var i := 0;
        while i < |data.items|
          invariant 0 <= i <= |data.items|
          invariant docs == old(docs) + Placed(root, userId, collection, BatchDocs(data.items[..i], keyString))
        {
          var element := data.items[i];
          BatchDocsStep(data.items, keyString, i);
          var name := BatchName(element, keyString);
          if name.Some? {
            PlacedUpdate(old(docs), root, userId, collection, BatchDocs(data.items[..i], keyString), name.value, element.fields);
            docs := docs[DocKey(root, userId, collection, name.value) := element.fields];
          }
          i := i + 1;
        }
        assert data.items[..i] == data.items;
      }
    }

    /** The documents `query(userId, collection, field, value)` reports: every
        document of the collection except the invocation-info record, and with
        a filter only those whose `field` equals `value`. */
    predicate Listed(userId: string, collection: string, field: Value, value: Value, n: string)
      reads this
    {
      var k := DocKey(root, userId, collection, n);
      k in docs && n != Constants.InvokeInfo &&
      (Filtered(field, value) ==> field.Str? && Get(Obj(docs[k]), field.s) == value)
    }

    /** `query(userId, collection, field, value)`. A filter on a field that is
        not a string makes the store throw: null. The order of the documents is
        the store's. */
    method Query(userId: string, collection: string, field: Value, value: Value) returns (r: Value, ghost names: seq<string>)
      ensures Filtered(field, value) && !field.Str? ==> r == Null
      ensures !(Filtered(field, value) && !field.Str?) ==> r.Arr? && |r.items| == |names|
      ensures forall i, j :: 0 <= i < j < |names| ==> names[i] != names[j]
      ensures r.Arr? ==>
        |r.items| == |names| &&
        forall i :: 0 <= i < |names| ==>
          Listed(userId, collection, field, value, names[i]) && r.items[i] == Obj(docs[DocKey(root, userId, collection, names[i])])
      ensures !(Filtered(field, value) && !field.Str?) ==>
        forall n :: Listed(userId, collection, field, value, n) ==> n in names
    {
      if Filtered(field, value) && !field.Str? {
        return Null, [];
      }
      var found := ListedNames(userId, collection, field, value);
      var ns := Enumerate(found);
      var items: seq<Value> := [];
      var j := 0;
      while j < |ns|
        invariant 0 <= j <= |ns| && |items| == j
        invariant forall i :: 0 <= i < j ==>
          Listed(userId, collection, field, value, ns[i]) && items[i] == Obj(docs[DocKey(root, userId, collection, ns[i])])
      {
        assert ns[j] in found;
        items := items + [Obj(docs[DocKey(root, userId, collection, ns[j])])];
        j := j + 1;
      }
      names := ns;
      r := Arr(items);
    }

    /** The names of the documents `query` reports. */
    function ListedNames(userId: string, collection: string, field: Value, value: Value): (found: set<string>)
      reads this
      ensures forall n :: n in found <==> Listed(userId, collection, field, value, n)
    {
      var found := set k | k in docs && k.root == root && k.user == userId && k.coll == collection &&
        Listed(userId, collection, field, value, k.name) :: k.name;
      assert forall n :: Listed(userId, collection, field, value, n) ==> DocKey(root, userId, collection, n) in docs;
      found
    }

    /** `getAllUsers()`: the ids of the existing user documents, once each. */
    method GetAllUsers() returns (users: seq<string>)
      ensures forall u :: u in users <==> UserKey(root, u) in userDocs
      ensures forall i, j :: 0 <= i < j < |users| ==> users[i] != users[j]
    {
      var ids := set k | k in userDocs && k.root == root :: k.user;
      users := Enumerate(ids);
      forall u | UserKey(root, u) in userDocs ensures u in users {
        assert UserKey(root, u).user in ids;
      }
    }

    /** `getUserCollections(userId)`: the names of the user's collections, once each. */
    method GetUserCollections(userId: string) returns (colls: seq<string>)
      ensures forall c :: c in colls <==> exists k :: k in docs && k.root == root && k.user == userId && k.coll == c
      ensures forall i, j :: 0 <= i < j < |colls| ==> colls[i] != colls[j]
    {
      var ids := set k | k in docs && k.root == root && k.user == userId :: k.coll;
      colls := Enumerate(ids);
    }

    /** `getUserData(userId, connection)`: null for a missing user, else the
        connection's section when one is named, else the whole record. */
    function GetUserData(userId: string, connection: Option<string>): (r: Value)
      reads this
      ensures UserKey(root, userId) !in userDocs ==> r == Null
      ensures UserKey(root, userId) in userDocs && Truthy(Text(connection)) ==>
        r == Get(Obj(userDocs[UserKey(root, userId)]), connection.value)
      ensures UserKey(root, userId) in userDocs && !Truthy(Text(connection)) ==>
        r == Obj(userDocs[UserKey(root, userId)])
    {
      var k := UserKey(root, userId);
      if k !in userDocs then Null
      else if Truthy(Text(connection)) then Get(Obj(userDocs[k]), connection.value)
      else Obj(userDocs[k])
    }

    /** The user record as `setUserData` and `removeConnection` read it (`{}` when missing). */
    function UserRecord(userId: string): Doc
      reads this
    {
      var k := UserKey(root, userId);
      if k in userDocs then userDocs[k] else map[]
    }

    /** `setUserData(userId, connection, data)`: shallow-merges `data` into the
        connection's section, leaves the other sections alone, and returns the
        merged section. A missing user document is created. */
    method SetUserData(userId: string, connection: string, data: Value) returns (merged: Value)
      modifies this`userDocs
      ensures merged == Obj(MergeSection(Get(Obj(old(UserRecord(userId))), connection), data))
      ensures userDocs == old(userDocs)[UserKey(root, userId) := old(UserRecord(userId))[connection := merged]]
      ensures GetUserData(userId, Some(connection)) == merged || connection == ""
    {
      var user := UserRecord(userId);
      var current := Get(Obj(user), connection);
      merged := Obj(MergeSection(current, data));
      userDocs := userDocs[UserKey(root, userId) := user[connection := merged]];
    }

    /** `removeConnection(userId, connection)`: deletes that section only and
        returns the record; a missing user is stored as `{}`. */
    method RemoveConnection(userId: string, connection: string) returns (user: Value)
      modifies this`userDocs
      ensures user == Obj(old(UserRecord(userId)) - {connection})
      ensures userDocs == old(userDocs)[UserKey(root, userId) := user.fields]
      ensures GetUserData(userId, Some(connection)) == Undefined || connection == ""
    {
      var record := UserRecord(userId) - {connection};
      userDocs := userDocs[UserKey(root, userId) := record];
      user := Obj(record);
    }
  }
}
