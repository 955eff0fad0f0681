/** The store facade of src/database.js: which backend is in use, the
    forwarding of `setEnv`, and the few operations that add logic of their
    own on top of the backend (`getAllUsers`, `setUserData`, `connections`). */
module UserDatabase {
  import opened Json
  import opened Firestore
  import Constants

  /** The two entries of the `providers` hash. */
  datatype Backend = FirestoreBackend | MemoryBackend

  /** `providers[prov]` with `prov` defaulting to 'firestore'; any other name
      selects nothing. */
  function BackendNamed(prov: Option<string>): (b: Option<Backend>)
    ensures b == Some(FirestoreBackend) <==> prov.None? || prov.value == "firestore"
    ensures b == Some(MemoryBackend) <==> prov == Some("memory")
  {
    var name := if prov.None? then "firestore" else prov.value;
    if name == "firestore" then Some(FirestoreBackend)
    else if name == "memory" then Some(MemoryBackend)
    else None
  }

  /** The module-level `provider` variable together with the Firestore
      backend it may point to. */
  class Database {
    var backend: Option<Backend>
    const firestore: FirestoreStore

    constructor (store: FirestoreStore)
      ensures backend == Some(FirestoreBackend) && firestore == store
    {
      backend := Some(FirestoreBackend);
      firestore := store;
    }

    /** `setProvider(prov = 'firestore')` */
    method SetProvider(prov: Option<string>)
      modifies this`backend
      ensures backend == BackendNamed(prov)
    {
      backend := BackendNamed(prov);
    }

    /** `setEnv(env = 'prod')`: forwarded only to a backend that has a
        `setEnv`; with no backend selected, reading `provider.setEnv` throws. */
    method SetEnv(env: Option<string>) returns (threw: bool)
      modifies firestore`root
      ensures threw <==> backend.None?
      ensures backend == Some(FirestoreBackend) ==>
        firestore.root == RootAfterSetEnv(old(firestore.root), if env.None? then "prod" else env.value)
      ensures backend != Some(FirestoreBackend) ==> firestore.root == old(firestore.root)
    {
      if backend.None? {
        return true;
      }
      threw := false;
      if backend.value.FirestoreBackend? {
        firestore.SetEnv(if env.None? then "prod" else env.value);
      }
    }
  }

  /** No element occurs twice. */
  predicate Distinct(s: seq<string>) {
    forall i, j :: 0 <= i < j < |s| ==> s[i] != s[j]
  }

  /** `users.filter(u => u !== systemInfo)` */
  function WithoutSystemInfo(users: seq<string>): (r: seq<string>)
    ensures Constants.SystemInfo !in r
    ensures forall u :: u in r <==> u in users && u != Constants.SystemInfo
    ensures |r| <= |users|
    decreases |users|
  {
    if users == [] then []
    else if users[0] == Constants.SystemInfo then WithoutSystemInfo(users[1..])
    else [users[0]] + WithoutSystemInfo(users[1..])
  }

  /** The filter keeps the relative order of the users it keeps: filtering a
      concatenation is concatenating the filtered parts. */
  lemma {:induction false} WithoutSystemInfoAppend(a: seq<string>, b: seq<string>)
    ensures WithoutSystemInfo(a + b) == WithoutSystemInfo(a) + WithoutSystemInfo(b)
    decreases |a|
  {
    if a == [] {
      assert a + b == b;
    } else {
      assert (a + b)[0] == a[0];
      assert (a + b)[1..] == a[1..] + b;
      WithoutSystemInfoAppend(a[1..], b);
      if a[0] != Constants.SystemInfo {
        assert WithoutSystemInfo(a + b) == [a[0]] + (WithoutSystemInfo(a[1..]) + WithoutSystemInfo(b));
      }
    }
  }

  /** A list without the system user is left exactly as it is. */
  lemma {:induction false} WithoutSystemInfoNoop(users: seq<string>)
    requires Constants.SystemInfo !in users
    ensures WithoutSystemInfo(users) == users
    decreases |users|
  {
    if users != [] {
      WithoutSystemInfoNoop(users[1..]);
    }
  }

  /** `getAllUsers()` over the Firestore backend. */
  method GetAllUsers(store: FirestoreStore) returns (users: seq<string>)
    ensures forall u :: u in users <==> UserKey(store.root, u) in store.userDocs && u != Constants.SystemInfo
    ensures Distinct(users)
  {
    var all := store.GetAllUsers();
    users := WithoutSystemInfo(all);
    WithoutSystemInfoDistinct(all);
  }

  lemma {:induction false} WithoutSystemInfoDistinct(users: seq<string>)
    requires Distinct(users)
    ensures Distinct(WithoutSystemInfo(users))
    decreases |users|
  {
    if users != [] {
      WithoutSystemInfoDistinct(users[1..]);
      var rest := WithoutSystemInfo(users[1..]);
      assert users[0] !in users[1..] by {
        forall k | 0 <= k < |users[1..]| ensures users[1..][k] != users[0] {
          assert users[1..][k] == users[k + 1];
        }
      }
      assert users[0] !in rest;
      if users[0] != Constants.SystemInfo {
        var r := [users[0]] + rest;
        forall i, j | 0 <= i < j < |r| ensures r[i] != r[j] {
          if i == 0 {
            assert r[j] == rest[j - 1];
          } else {
            assert r[i] == rest[i - 1] && r[j] == rest[j - 1];
          }
        }
      }
    }
  }

  /** `connection = 'google'` when the argument is left out. */
  function ConnectionOrDefault(connection: Option<string>): (c: string)
    ensures connection.Some? ==> c == connection.value
    ensures connection.None? ==> c == "google"
  {
    if connection.None? then "google" else connection.value
  }

  /** `setUserData(userId, connection = 'google', data)` over the Firestore backend. */
  method SetUserData(store: FirestoreStore, userId: string, connection: Option<string>, data: Value) returns (merged: Value)
    modifies store`userDocs
    ensures merged == Obj(MergeSection(Get(Obj(old(store.UserRecord(userId))), ConnectionOrDefault(connection)), data))
    ensures store.userDocs == old(store.userDocs)[UserKey(store.root, userId) :=
      old(store.UserRecord(userId))[ConnectionOrDefault(connection) := merged]]
  {
    merged := store.SetUserData(userId, ConnectionOrDefault(connection), data);
  }

  /** How a connection relates to the user: the base identity, a linked one, or none (null). */
  datatype Link = Base | Linked | NotConnected

  datatype Connection = Connection(provider: string, connected: Link, image: string, userId: Value)

  /** The list of connections, or `{}` when an exception was caught. */
  datatype ConnectionsResult = Entries(entries: seq<Connection>) | EmptyObject

  /** The keys of `connectionList`, in order, and their images. */
  const ConnectionKeys: seq<string> := ["google-oauth2", "facebook", "instagram", "twitter"]
  const ConnectionImages: seq<string> := ["google-logo.png", "facebook-logo.png", "instagram-logo.png", "twitter-logo.png"]

  /** `const [provider] = userId.split('|')`: the text before the first '|'. */
  function BaseProvider(userId: string): (p: string)
    ensures '|' !in p
    ensures p <= userId
    ensures '|' !in userId ==> p == userId
    ensures |p| < |userId| ==> userId[|p|] == '|'
    decreases |userId|
  {
    if userId == [] then ""
    else if userId[0] == '|' then ""
    else [userId[0]] + BaseProvider(userId[1..])
  }

  /** One entry of the `connections` list for the key at `i`. */
  function Entry(base: string, user: Value, i: nat): (c: Connection)
    requires i < |ConnectionKeys|
    ensures c.provider == ConnectionKeys[i] && c.image == ConnectionImages[i]
    ensures c.connected == Base <==> ConnectionKeys[i] == base
    ensures c.connected == Linked <==> ConnectionKeys[i] != base && Truthy(Get(user, ConnectionKeys[i]))
    ensures c.userId == And(Get(user, ConnectionKeys[i]), Get(Get(user, ConnectionKeys[i]), "userId"))
  {
    var key := ConnectionKeys[i];
    var section := Get(user, key);
    var connected := if key == base then Base else if Truthy(section) then Linked else NotConnected;
    Connection(key, connected, ConnectionImages[i], And(section, Get(section, "userId")))
  }

  /** `connections(userId)`, given what `getUserData(userId)` returned. A
      `userId` that is not a string makes the store call (and `split`) throw:
      `{}`. */
  function Connections(userId: Value, stored: Value): (r: ConnectionsResult)
    ensures !userId.Str? <==> r.EmptyObject?
    ensures r.Entries? ==> |r.entries| == |ConnectionKeys|
    ensures r.Entries? ==> forall i :: 0 <= i < |r.entries| ==>
      r.entries[i] == Entry(BaseProvider(userId.s), Or(stored, Obj(map[])), i)
  {
    if !userId.Str? then EmptyObject
    else
      var user := Or(stored, Obj(map[]));
      var base := BaseProvider(userId.s);
      Entries(seq(|ConnectionKeys|, i requires 0 <= i < |ConnectionKeys| => Entry(base, user, i)))
  }

  /** At most one connection is the base one, and it is the one the user id
      names before its '|'; a user who never stored anything has no linked
      connection. */
  lemma ConnectionsBase(userId: string, stored: Value, i: nat, j: nat)
    requires i < j < |ConnectionKeys|
    ensures var r := Connections(Str(userId), stored);
      !(r.entries[i].connected == Base && r.entries[j].connected == Base)
    ensures var r := Connections(Str(userId), stored);
      r.entries[i].connected == Base ==> BaseProvider(userId) == ConnectionKeys[i]
    ensures var r := Connections(Str(userId), stored);
      Nullish(stored) ==> r.entries[i].connected != Linked && r.entries[j].connected != Linked
  {
    var r := Connections(Str(userId), stored);
    var user := Or(stored, Obj(map[]));
    assert r.entries[i] == Entry(BaseProvider(userId), user, i);
    assert r.entries[j] == Entry(BaseProvider(userId), user, j);
    // the keys have pairwise different lengths
    assert |ConnectionKeys[i]| != |ConnectionKeys[j]|;
  }

  /** `connections` as the store answers it. */
  function ConnectionsOf(store: FirestoreStore, userId: Value): (r: ConnectionsResult)
    reads store
    ensures !userId.Str? ==> r == EmptyObject
    ensures userId.Str? && UserKey(store.root, userId.s) !in store.userDocs ==>
      r.Entries? && forall i :: 0 <= i < |r.entries| ==> r.entries[i].connected != Linked && r.entries[i].userId == Undefined
  {
    if !userId.Str? then EmptyObject
    else Connections(userId, store.GetUserData(userId.s, None))
  }
}
