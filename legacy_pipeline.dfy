/** The earlier load pipeline of src/datapipeline.js, over the storage layer
    of src/storage.js. The guard reads the same `dataPipeline` section as the
    newer pipeline, but the facade it uses (src/database.js) has no
    `inProgress` constant, so the flag is written under the key "undefined"
    and never seen by the guard. Collections are refreshed only when their
    invocation info is stale, and the reset is written before the per-user
    work, which is not awaited. */
module LegacyPipeline {
  import opened Json
  import opened Providers
  import opened Firestore
  import Constants
  import UserDatabase
  import Storage
  import Dal
  import Pipeline

  /** `database.inProgress`, a property the facade does not define: as a
      property key, undefined is the string "undefined". */
  const FlagKey := PropertyKey(Undefined)

  /** The section stored when a run starts: the record with `undefined = true`. */
  function Flagged(section: Value): (r: Doc)
    ensures section.Obj? ==> r == section.fields[FlagKey := Bool(true)]
  {
    MergeSection(section, Put(section, FlagKey, Bool(true)))
  }

  /** `{lastUpdatedTimestamp: resetAt, undefined: false}` */
  function ResetRecord(resetAt: int): (r: Value)
    ensures r.Obj? && r.fields.Keys == {Constants.LastUpdatedTimestamp, FlagKey}
    ensures Get(r, Constants.LastUpdatedTimestamp) == Num(resetAt) && Get(r, Constants.InProgress) == Undefined
  {
    Obj(map[Constants.LastUpdatedTimestamp := Num(resetAt), FlagKey := Bool(false)])
  }

  /** The flag this pipeline writes does not change what the guard decides:
      a trigger delivered while a run is in progress starts another run
      whenever the first one would have run. */
  lemma FlagNeverBlocks(section: Value, later: int)
    requires section.Obj?
    ensures Pipeline.Decide(Obj(Flagged(section)), later) == Pipeline.Decide(section, later)
    ensures Pipeline.Decide(section, later) == Pipeline.Ran ==> Pipeline.Decide(Obj(Flagged(section)), later) == Pipeline.Ran
  {
    assert FlagKey == "undefined";
    assert Get(Obj(Flagged(section)), Constants.InProgress) == Get(section, Constants.InProgress);
    assert Get(Obj(Flagged(section)), Constants.LastUpdatedTimestamp) == Get(section, Constants.LastUpdatedTimestamp);
  }

  /** Nor does the reset touch the field the guard reads: an `inProgress`
      written by anyone else survives every run. */
  lemma ResetKeepsGuardField(section: Value, resetAt: int)
    ensures Get(Obj(MergeSection(section, ResetRecord(resetAt))), Constants.InProgress) == Get(section, Constants.InProgress)
  {
    assert FlagKey == "undefined";
  }

  /** The per-collection test, for the invocation info `info` (null when
      missing) of `collection` of `userId` at time `now`: the info exists,
      its `lastRetrieved` is stale, it names a provider and a function, the
      registry has that function, and the user id, the collection and the
      parameters are all truthy. */
  predicate Selected(registry: Registry, info: Value, userId: string, collection: string, now: int) {
    info.Obj? && Pipeline.IsStale(Get(info, Constants.LastRetrievedField), now) &&
    Truthy(Get(info, Constants.ProviderField)) && Truthy(Get(info, Constants.NameField)) &&
    userId != "" && Pipeline.ProviderFor(registry, info).Some? && collection != "" &&
    Truthy(Get(info, Constants.ParamsField))
  }

  /** The records the storage layer writes carry no `lastRetrieved`, which
      compares as NaN and is never stale: this pipeline never refreshes a
      collection that storage layer cached. */
  lemma StorageRecordsNeverRefreshed(registry: Registry, p: Provider, params: Value, userId: string, collection: string, now: int)
    ensures !Selected(registry, Obj(Storage.InvocationRecord(p, params)), userId, collection, now)
  {
    assert Get(Obj(Storage.InvocationRecord(p, params)), Constants.LastRetrievedField) == Undefined;
  }

  /** A user document is as it was. */
  predicate UserKept(u0: map<UserKey, Doc>, u1: map<UserKey, Doc>, k: UserKey) {
    (k in u0 <==> k in u1) && (k in u0 ==> u0[k] == u1[k])
  }

  /** The collection `collection` of `userId` was re-fetched from `docs`:
      the provider its invocation info names answered with an array. */
  predicate Refetched(registry: Registry, docs: map<DocKey, Doc>, root: string, userId: string, collection: string) {
    var info := Pipeline.InfoIn(docs, root, userId, collection);
    !Storage.CallFails(Pipeline.ProviderFor(registry, info), Get(info, Constants.ParamsField))
  }

  /** Every document changed from `d0` to `d1` is in one of the collections
      `colls` of `userId`, each re-fetched from `d0`. */
  ghost predicate UserDocsChanged(registry: Registry, d0: map<DocKey, Doc>, d1: map<DocKey, Doc>, root: string,
                                  userId: string, colls: set<string>) {
    forall k :: !Pipeline.Kept(d0, d1, k) ==>
      k.root == root && k.user == userId && k.coll in colls && Refetched(registry, d0, root, userId, k.coll)
  }

  /** Refreshing one more collection `c`, whose invocation info was not
      touched before, extends the changed documents by that collection. */
  lemma UserDocsChangedStep(registry: Registry, d0: map<DocKey, Doc>, d1: map<DocKey, Doc>, d2: map<DocKey, Doc>,
                            root: string, userId: string, colls: set<string>, c: string, selected: bool)
    requires UserDocsChanged(registry, d0, d1, root, userId, colls)
    requires Pipeline.InfoIn(d1, root, userId, c) == Pipeline.InfoIn(d0, root, userId, c)
    requires UserDocsChanged(registry, d1, d2, root, userId, if selected then {c} else {})
    ensures UserDocsChanged(registry, d0, d2, root, userId, if selected then colls + {c} else colls)
  {
    forall k | !Pipeline.Kept(d0, d2, k)
      ensures k.root == root && k.user == userId && k.coll in (if selected then colls + {c} else colls) &&
        Refetched(registry, d0, root, userId, k.coll)
    {
      if Pipeline.Kept(d1, d2, k) {
        assert !Pipeline.Kept(d0, d1, k);
      }
    }
  }

  /** `refreshed` holds exactly the collections in `done` that pass
      `Selected` in `docs`. */
  ghost predicate SelectedIn(registry: Registry, docs: map<DocKey, Doc>, root: string, userId: string, now: int,
                             done: seq<string>, refreshed: set<string>) {
    forall c :: c in refreshed <==> c in done && Selected(registry, Pipeline.InfoIn(docs, root, userId, c), userId, c, now)
  }

  lemma SelectedInStep(registry: Registry, d0: map<DocKey, Doc>, d1: map<DocKey, Doc>, root: string, userId: string,
                       now: int, collections: seq<string>, j: nat, refreshed: set<string>, selected: bool)
    requires j < |collections| && collections[j] !in collections[..j]
    requires SelectedIn(registry, d0, root, userId, now, collections[..j], refreshed)
    requires Pipeline.InfoIn(d1, root, userId, collections[j]) == Pipeline.InfoIn(d0, root, userId, collections[j])
    requires selected <==> Selected(registry, Pipeline.InfoIn(d1, root, userId, collections[j]), userId, collections[j], now)
    ensures SelectedIn(registry, d0, root, userId, now, collections[..j + 1],
      if selected then refreshed + {collections[j]} else refreshed)
  {
    assert collections[..j + 1] == collections[..j] + [collections[j]];
  }

  /** Every document changed from `d0` to `d1` belongs to a (user,
      collection) pair in `refreshed`, re-fetched from `d0`. */
  ghost predicate DocsChanged(registry: Registry, d0: map<DocKey, Doc>, d1: map<DocKey, Doc>, root: string,
                              refreshed: set<(string, string)>) {
    forall k :: !Pipeline.Kept(d0, d1, k) ==>
      (k.user, k.coll) in refreshed && k.root == root && Refetched(registry, d0, root, k.user, k.coll)
  }

  /** Refreshing one more user, none of whose invocation info was touched
      before, extends the changed documents by that user's collections. */
  lemma DocsChangedStep(registry: Registry, d0: map<DocKey, Doc>, d1: map<DocKey, Doc>, d2: map<DocKey, Doc>,
                        root: string, refreshed: set<(string, string)>, userId: string, colls: set<string>)
    requires DocsChanged(registry, d0, d1, root, refreshed)
    requires forall c :: Pipeline.InfoIn(d1, root, userId, c) == Pipeline.InfoIn(d0, root, userId, c)
    requires UserDocsChanged(registry, d1, d2, root, userId, colls)
    ensures DocsChanged(registry, d0, d2, root, refreshed + set c | c in colls :: (userId, c))
  {
    forall k | !Pipeline.Kept(d0, d2, k)
      ensures (k.user, k.coll) in refreshed + set c | c in colls :: (userId, c)
      ensures k.root == root && Refetched(registry, d0, root, k.user, k.coll)
    {
      if Pipeline.Kept(d1, d2, k) {
        assert !Pipeline.Kept(d0, d1, k);
      } else {
        assert Pipeline.InfoIn(d1, root, userId, k.coll) == Pipeline.InfoIn(d0, root, userId, k.coll);
      }
    }
  }

  /** `refreshed` holds exactly the pairs of a user in `done` and a
      collection that passes `Selected` in `docs`. */
  ghost predicate SelectedPairs(registry: Registry, docs: map<DocKey, Doc>, root: string, now: int,
                                done: seq<string>, refreshed: set<(string, string)>) {
    forall u, c :: (u, c) in refreshed <==> u in done && Selected(registry, Pipeline.InfoIn(docs, root, u, c), u, c, now)
  }

  lemma SelectedPairsStep(registry: Registry, d0: map<DocKey, Doc>, d1: map<DocKey, Doc>, root: string, now: int,
                          users: seq<string>, i: nat, refreshed: set<(string, string)>, colls: set<string>)
    requires i < |users| && users[i] !in users[..i]
    requires SelectedPairs(registry, d0, root, now, users[..i], refreshed)
    requires forall c :: Pipeline.InfoIn(d1, root, users[i], c) == Pipeline.InfoIn(d0, root, users[i], c)
    requires forall c :: c in colls <==> Selected(registry, Pipeline.InfoIn(d1, root, users[i], c), users[i], c, now)
    ensures SelectedPairs(registry, d0, root, now, users[..i + 1], refreshed + set c | c in colls :: (users[i], c))
  {
    var done, userId := users[..i], users[i];
    assert users[..i + 1] == done + [userId];
    forall u, c
      ensures (u, c) in refreshed + (set c | c in colls :: (userId, c)) <==>
        u in done + [userId] && Selected(registry, Pipeline.InfoIn(d0, root, u, c), u, c, now)
    {
      if u == userId {
        assert Pipeline.InfoIn(d1, root, userId, c) == Pipeline.InfoIn(d0, root, userId, c);
        assert (u, c) !in refreshed;
      }
    }
  }

  /** Every user document but `key` is as it was. */
  ghost predicate OthersKept(u0: map<UserKey, Doc>, u1: map<UserKey, Doc>, key: UserKey) {
    forall k :: k != key ==> UserKept(u0, u1, k)
  }

  lemma OthersKeptTrans(u0: map<UserKey, Doc>, u1: map<UserKey, Doc>, u2: map<UserKey, Doc>, key: UserKey)
    requires OthersKept(u0, u1, key) && OthersKept(u1, u2, key)
    ensures OthersKept(u0, u2, key)
  {
    forall k | k != key ensures UserKept(u0, u2, k) {
      assert UserKept(u0, u1, k) && UserKept(u1, u2, k);
    }
  }

  /** Every user document is as it was, except those of the users in
      `done`. */
  ghost predicate KeptOutside(u0: map<UserKey, Doc>, u1: map<UserKey, Doc>, root: string, done: seq<string>) {
    forall k: UserKey :: !(k.root == root && k.user in done) ==> UserKept(u0, u1, k)
  }

  lemma KeptOutsideStep(u0: map<UserKey, Doc>, u1: map<UserKey, Doc>, u2: map<UserKey, Doc>, root: string,
                        users: seq<string>, i: nat)
    requires i < |users|
    requires KeptOutside(u0, u1, root, users[..i]) && OthersKept(u1, u2, UserKey(root, users[i]))
    ensures KeptOutside(u0, u2, root, users[..i + 1])
  {
    var done, userId := users[..i], users[i];
    assert users[..i + 1] == done + [userId];
    forall k: UserKey | !(k.root == root && k.user in done + [userId])
      ensures UserKept(u0, u2, k)
    {
      assert UserKept(u0, u1, k) && UserKept(u1, u2, k);
    }
  }

  /** Recording the access changes only the user's own document. */
  lemma TouchKeepsOthers(userDocs: map<UserKey, Doc>, key: UserKey, providerName: string, section: Value,
                         entity: string, now: int)
    ensures OthersKept(userDocs, Storage.TouchedUserDocs(userDocs, key, providerName, section, entity, now), key)
  {
    var r := Storage.TouchedUserDocs(userDocs, key, providerName, section, entity, now);
    forall k | k != key ensures UserKept(userDocs, r, k) {
    }
  }

  /** The documents a re-fetch through the storage layer leaves behind when
      `Refetched` holds: the invocation info replaced by the storage
      layer's record (provider, function and parameters, no timestamp), and
      then the fetched array shredded into the collection by `itemKey`. */
  function RefreshResult(registry: Registry, docs: map<DocKey, Doc>, root: string, userId: string, collection: string)
    : map<DocKey, Doc>
  {
    var info := Pipeline.InfoIn(docs, root, userId, collection);
    var provider := Pipeline.ProviderFor(registry, info);
    var params := Get(info, Constants.ParamsField);
    if Storage.CallFails(provider, params) then docs
    else
      var p := provider.value;
      docs[DocKey(root, userId, collection, Constants.InvokeInfo) := Storage.InvocationRecord(p, params)] +
      Dal.BatchWrites(root, userId, collection, Project(p, p.func.value(params).data), KeyName(p.itemKey))
  }

  /** What a re-fetch stores: every fetched document and, unless an item is
      itself keyed like the invocation info, the storage layer's record,
      which has no `lastRetrieved`; every other collection is as it was. */
  lemma RefreshStamps(registry: Registry, docs: map<DocKey, Doc>, root: string, userId: string, collection: string)
    requires Refetched(registry, docs, root, userId, collection)
    ensures var info := Pipeline.InfoIn(docs, root, userId, collection);
      var p := Pipeline.ProviderFor(registry, info).value;
      var params := Get(info, Constants.ParamsField);
      var batch := Dal.BatchWrites(root, userId, collection, Project(p, p.func.value(params).data), KeyName(p.itemKey));
      var r := RefreshResult(registry, docs, root, userId, collection);
      (forall k :: k in batch ==> k in r && r[k] == batch[k]) &&
      (DocKey(root, userId, collection, Constants.InvokeInfo) !in batch ==>
        Pipeline.InfoIn(r, root, userId, collection) == Obj(Storage.InvocationRecord(p, params)) &&
        Get(Pipeline.InfoIn(r, root, userId, collection), Constants.LastRetrievedField) == Undefined) &&
      (forall k: DocKey :: !(k.root == root && k.user == userId && k.coll == collection) ==> Pipeline.Kept(docs, r, k))
  {
    var info := Pipeline.InfoIn(docs, root, userId, collection);
    var p := Pipeline.ProviderFor(registry, info).value;
    var params := Get(info, Constants.ParamsField);
    Pipeline.StoreOnlyInCollection(docs, root, userId, collection, Storage.InvocationRecord(p, params),
      Project(p, p.func.value(params).data), KeyName(p.itemKey));
  }

  /** The documents of `userId`'s `collection` in `d1` are those its
      re-fetch leaves from `d0`. */
  ghost predicate Refreshed(registry: Registry, d0: map<DocKey, Doc>, d1: map<DocKey, Doc>, root: string, userId: string,
                            collection: string) {
    forall n :: Pipeline.Kept(RefreshResult(registry, d0, root, userId, collection), d1, DocKey(root, userId, collection, n))
  }

  /** A re-fetch depends on nothing outside its own collection. */
  lemma RefreshResultLocal(registry: Registry, d0: map<DocKey, Doc>, d1: map<DocKey, Doc>, root: string, userId: string,
                           collection: string)
    requires forall n :: Pipeline.Kept(d0, d1, DocKey(root, userId, collection, n))
    ensures forall n :: Pipeline.Kept(RefreshResult(registry, d0, root, userId, collection),
      RefreshResult(registry, d1, root, userId, collection), DocKey(root, userId, collection, n))
  {
    assert Pipeline.Kept(d0, d1, DocKey(root, userId, collection, Constants.InvokeInfo));
    var info := Pipeline.InfoIn(d0, root, userId, collection);
    assert info == Pipeline.InfoIn(d1, root, userId, collection);
    var provider := Pipeline.ProviderFor(registry, info);
    var params := Get(info, Constants.ParamsField);
    if !Storage.CallFails(provider, params) {
      var p := provider.value;
      var stored := Storage.InvocationRecord(p, params);
      var batch := Dal.BatchWrites(root, userId, collection, Project(p, p.func.value(params).data), KeyName(p.itemKey));
      forall n ensures Pipeline.Kept(d0[DocKey(root, userId, collection, Constants.InvokeInfo) := stored] + batch,
                                     d1[DocKey(root, userId, collection, Constants.InvokeInfo) := stored] + batch,
                                     DocKey(root, userId, collection, n)) {
        Pipeline.KeptUnderWrites(d0, d1, DocKey(root, userId, collection, Constants.InvokeInfo), stored, batch,
          DocKey(root, userId, collection, n));
      }
    }
  }

  /** The store a re-fetch leaves is refreshed. */
  lemma RefreshedExactly(registry: Registry, d0: map<DocKey, Doc>, d1: map<DocKey, Doc>, root: string,
                         userId: string, collection: string)
    requires d1 == RefreshResult(registry, d0, root, userId, collection)
    ensures Refreshed(registry, d0, d1, root, userId, collection)
  {
  }

  /** A re-fetch stays in place while its collection is left alone. */
  lemma RefreshedThen(registry: Registry, d0: map<DocKey, Doc>, d1: map<DocKey, Doc>, d2: map<DocKey, Doc>, root: string,
                      userId: string, collection: string)
    requires Refreshed(registry, d0, d1, root, userId, collection)
    requires forall n :: Pipeline.Kept(d1, d2, DocKey(root, userId, collection, n))
    ensures Refreshed(registry, d0, d2, root, userId, collection)
  {
    forall n ensures Pipeline.Kept(RefreshResult(registry, d0, root, userId, collection), d2, DocKey(root, userId, collection, n)) {
      assert Pipeline.Kept(d1, d2, DocKey(root, userId, collection, n));
    }
  }

  /** A re-fetch of a collection left alone since `d0` is the re-fetch from `d0`. */
  lemma RefreshedAfter(registry: Registry, d0: map<DocKey, Doc>, d1: map<DocKey, Doc>, d2: map<DocKey, Doc>, root: string,
                       userId: string, collection: string)
    requires forall n :: Pipeline.Kept(d0, d1, DocKey(root, userId, collection, n))
    requires Refreshed(registry, d1, d2, root, userId, collection)
    ensures Refreshed(registry, d0, d2, root, userId, collection)
  {
    RefreshResultLocal(registry, d0, d1, root, userId, collection);
    forall n ensures Pipeline.Kept(RefreshResult(registry, d0, root, userId, collection), d2, DocKey(root, userId, collection, n)) {
      assert Pipeline.Kept(RefreshResult(registry, d1, root, userId, collection), d2, DocKey(root, userId, collection, n));
    }
  }

  /** Every collection in `colls` re-fetched from `d0` is, in `d1`, as that
      re-fetch leaves it. */
  ghost predicate AllRefreshed(registry: Registry, d0: map<DocKey, Doc>, d1: map<DocKey, Doc>, root: string, userId: string,
                               colls: set<string>) {
    forall c :: c in colls && Refetched(registry, d0, root, userId, c) ==> Refreshed(registry, d0, d1, root, userId, c)
  }

  /** A collection outside the changed ones is left alone. */
  lemma CollectionKept(registry: Registry, d0: map<DocKey, Doc>, d1: map<DocKey, Doc>, root: string, userId: string,
                       colls: set<string>, c: string)
    requires UserDocsChanged(registry, d0, d1, root, userId, colls)
    requires c !in colls
    ensures forall n :: Pipeline.Kept(d0, d1, DocKey(root, userId, c, n))
  {
    forall n ensures Pipeline.Kept(d0, d1, DocKey(root, userId, c, n)) {
    }
  }

  /** A re-fetch of `c` leaves every other collection alone. */
  lemma OtherCollectionsKept(registry: Registry, d1: map<DocKey, Doc>, d2: map<DocKey, Doc>, root: string, userId: string,
                             c: string, selected: bool)
    requires UserDocsChanged(registry, d1, d2, root, userId, if selected then {c} else {})
    ensures forall c', n :: c' != c ==> Pipeline.Kept(d1, d2, DocKey(root, userId, c', n))
  {
    forall c', n | c' != c ensures Pipeline.Kept(d1, d2, DocKey(root, userId, c', n)) {
    }
  }

  /** Re-fetching one more collection `c`, untouched so far, keeps the
      collections re-fetched before and adds `c`. */
  lemma AllRefreshedStep(registry: Registry, d0: map<DocKey, Doc>, d1: map<DocKey, Doc>, d2: map<DocKey, Doc>,
                         root: string, userId: string, colls: set<string>, c: string, selected: bool)
    requires AllRefreshed(registry, d0, d1, root, userId, colls)
    requires c !in colls
    requires forall n :: Pipeline.Kept(d0, d1, DocKey(root, userId, c, n))
    requires forall c', n :: c' != c ==> Pipeline.Kept(d1, d2, DocKey(root, userId, c', n))
    requires selected && Refetched(registry, d1, root, userId, c) ==> Refreshed(registry, d1, d2, root, userId, c)
    ensures AllRefreshed(registry, d0, d2, root, userId, if selected then colls + {c} else colls)
  {
    assert Pipeline.Kept(d0, d1, DocKey(root, userId, c, Constants.InvokeInfo));
    assert Pipeline.InfoIn(d1, root, userId, c) == Pipeline.InfoIn(d0, root, userId, c);
    if selected && Refetched(registry, d0, root, userId, c) {
      RefreshedAfter(registry, d0, d1, d2, root, userId, c);
    }
    forall c' | c' in colls && Refetched(registry, d0, root, userId, c')
      ensures Refreshed(registry, d0, d2, root, userId, c')
    {
      RefreshedThen(registry, d0, d1, d2, root, userId, c');
    }
  }

  /** Every (user, collection) pair in `refreshed` re-fetched from `d0` is,
      in `d1`, as that re-fetch leaves it. */
  ghost predicate PairsRefreshed(registry: Registry, d0: map<DocKey, Doc>, d1: map<DocKey, Doc>, root: string,
                                 refreshed: set<(string, string)>) {
    forall u, c :: (u, c) in refreshed && Refetched(registry, d0, root, u, c) ==> Refreshed(registry, d0, d1, root, u, c)
  }

  /** Refreshing one more user, untouched so far, keeps the pairs re-fetched
      before and adds that user's collections. */
  lemma PairsRefreshedStep(registry: Registry, d0: map<DocKey, Doc>, d1: map<DocKey, Doc>, d2: map<DocKey, Doc>,
                           root: string, refreshed: set<(string, string)>, userId: string, colls: set<string>)
    requires PairsRefreshed(registry, d0, d1, root, refreshed)
    requires DocsChanged(registry, d0, d1, root, refreshed)
    requires forall c :: (userId, c) !in refreshed
    requires UserDocsChanged(registry, d1, d2, root, userId, colls)
    requires AllRefreshed(registry, d1, d2, root, userId, colls)
    ensures PairsRefreshed(registry, d0, d2, root, refreshed + set c | c in colls :: (userId, c))
  {
    forall u, c | (u, c) in refreshed + (set c | c in colls :: (userId, c)) && Refetched(registry, d0, root, u, c)
      ensures Refreshed(registry, d0, d2, root, u, c)
    {
      if u == userId {
        assert (u, c) !in refreshed;
        forall n ensures Pipeline.Kept(d0, d1, DocKey(root, userId, c, n)) {
        }
        assert Pipeline.Kept(d0, d1, DocKey(root, userId, c, Constants.InvokeInfo));
        RefreshedAfter(registry, d0, d1, d2, root, userId, c);
      } else {
        forall n ensures Pipeline.Kept(d1, d2, DocKey(root, u, c, n)) {
        }
        RefreshedThen(registry, d0, d1, d2, root, u, c);
      }
    }
  }

  /** One collection: when it passes `Selected`,
      `invokeProviderAndStoreData(userId, provider, collection, params)` at
      time `now`. A missing info document makes reading its `lastRetrieved`
      throw inside the collection's callback, which only skips it. Only the
      collection's documents and the user's own document can change. */
  method RefreshCollection(fs: FirestoreStore, registry: Registry, userId: string, collection: string, now: int)
    returns (ghost selected: bool)
    modifies fs`docs, fs`userDocs
    ensures selected <==> Selected(registry, old(Pipeline.InfoIn(fs.docs, fs.root, userId, collection)), userId, collection, now)
    ensures UserDocsChanged(registry, old(fs.docs), fs.docs, fs.root, userId, if selected then {collection} else {})
    ensures OthersKept(old(fs.userDocs), fs.userDocs, UserKey(fs.root, userId))
    ensures selected && Refetched(registry, old(fs.docs), fs.root, userId, collection) ==>
      fs.docs == RefreshResult(registry, old(fs.docs), fs.root, userId, collection) &&
      var p := Pipeline.ProviderFor(registry, old(Pipeline.InfoIn(fs.docs, fs.root, userId, collection))).value;
      fs.userDocs == Storage.TouchedUserDocs(old(fs.userDocs), UserKey(fs.root, userId), p.provider.value,
        old(fs.GetUserData(userId, Some(p.provider.value))), collection, now)
    ensures !(selected && Refetched(registry, old(fs.docs), fs.root, userId, collection)) ==>
      fs.docs == old(fs.docs) && fs.userDocs == old(fs.userDocs)
  {
    selected := false;
    var invokeInfo := fs.GetDocument(userId, collection, Constants.InvokeInfo);
    if invokeInfo == Null {
      // reading `invokeInfo.lastRetrieved` throws
      return;
    }
    if !Pipeline.IsStale(Get(invokeInfo, Constants.LastRetrievedField), now) {
      return;
    }
    if Truthy(invokeInfo) && Truthy(Get(invokeInfo, Constants.ProviderField)) && Truthy(Get(invokeInfo, Constants.NameField)) {
      var provider := Lookup(registry, Get(invokeInfo, Constants.ProviderField), Get(invokeInfo, Constants.NameField));
      var params := Get(invokeInfo, Constants.ParamsField);
      if userId != "" && provider.Some? && collection != "" && Truthy(params) {
        selected := true;
        var r := Storage.InvokeProviderAndStoreData(fs, userId, provider, collection, params, now);
        if !Storage.CallFails(provider, params) {
          var p := provider.value;
          Pipeline.StoreOnlyInCollection(old(fs.docs), fs.root, userId, collection, Storage.InvocationRecord(p, params),
            r, KeyName(p.itemKey));
          TouchKeepsOthers(old(fs.userDocs), UserKey(fs.root, userId), p.provider.value,
            old(fs.GetUserData(userId, Some(p.provider.value))), collection, now);
        }
      }
    }
  }

  /** One user: each of the user's collections, one after the other. */
  method RefreshUser(fs: FirestoreStore, registry: Registry, userId: string, now: int)
    returns (ghost refreshed: set<string>)
    modifies fs`docs, fs`userDocs
    ensures forall c :: c in refreshed <==> Selected(registry, old(Pipeline.InfoIn(fs.docs, fs.root, userId, c)), userId, c, now)
    ensures UserDocsChanged(registry, old(fs.docs), fs.docs, fs.root, userId, refreshed)
    ensures OthersKept(old(fs.userDocs), fs.userDocs, UserKey(fs.root, userId))
    ensures AllRefreshed(registry, old(fs.docs), fs.docs, fs.root, userId, refreshed)
  {
    refreshed := {};
    var collections := fs.GetUserCollections(userId);
    forall c | Pipeline.InfoIn(fs.docs, fs.root, userId, c) != Null ensures c in collections {
      assert DocKey(fs.root, userId, c, Constants.InvokeInfo) in fs.docs;
    }
    var j := 0;
    while j < |collections|
      invariant 0 <= j <= |collections|
      invariant SelectedIn(registry, old(fs.docs), fs.root, userId, now, collections[..j], refreshed)
      invariant UserDocsChanged(registry, old(fs.docs), fs.docs, fs.root, userId, refreshed)
      invariant OthersKept(old(fs.userDocs), fs.userDocs, UserKey(fs.root, userId))
      invariant AllRefreshed(registry, old(fs.docs), fs.docs, fs.root, userId, refreshed)
    {
      var collection := collections[j];
      assert collection !in collections[..j];
      assert Pipeline.Kept(old(fs.docs), fs.docs, DocKey(fs.root, userId, collection, Constants.InvokeInfo));
      ghost var before := fs.docs;
      ghost var users0 := fs.userDocs;
      ghost var selected := RefreshCollection(fs, registry, userId, collection, now);
      OthersKeptTrans(old(fs.userDocs), users0, fs.userDocs, UserKey(fs.root, userId));
      CollectionKept(registry, old(fs.docs), before, fs.root, userId, refreshed, collection);
      OtherCollectionsKept(registry, before, fs.docs, fs.root, userId, collection, selected);
      if selected && Refetched(registry, before, fs.root, userId, collection) {
        RefreshedExactly(registry, before, fs.docs, fs.root, userId, collection);
      }
      AllRefreshedStep(registry, old(fs.docs), before, fs.docs, fs.root, userId, refreshed, collection, selected);
      UserDocsChangedStep(registry, old(fs.docs), before, fs.docs, fs.root, userId, refreshed, collection, selected);
      SelectedInStep(registry, old(fs.docs), before, fs.root, userId, now, collections, j, refreshed, selected);
      if selected {
        refreshed := refreshed + {collection};
      }
      j := j + 1;
    }
    assert collections[..j] == collections;
  }

  /** `invokeDataPipeline()` at time `now`: the reset record (stamped
      `resetAt`) is written first, since the per-user work is not awaited;
      then every collection of every user (the system-info user excluded)
      that passes `Selected` is re-fetched through the storage layer.
      `refreshed` lists the (user, collection) pairs that were re-fetched. */
  method InvokeDataPipeline(fs: FirestoreStore, registry: Registry, now: int, resetAt: int)
    returns (ghost refreshed: set<(string, string)>)
    modifies fs`docs, fs`userDocs
    ensures forall u, c :: (u, c) in refreshed <==>
      Pipeline.PipelineUser(old(fs.userDocs), fs.root, u) &&
      Selected(registry, old(Pipeline.InfoIn(fs.docs, fs.root, u, c)), u, c, now)
    ensures DocsChanged(registry, old(fs.docs), fs.docs, fs.root, refreshed)
    ensures PairsRefreshed(registry, old(fs.docs), fs.docs, fs.root, refreshed)
    ensures UserKey(fs.root, Constants.SystemInfo) in fs.userDocs
    ensures fs.userDocs[UserKey(fs.root, Constants.SystemInfo)] ==
      old(fs.UserRecord(Constants.SystemInfo))[Constants.DataPipelineSection :=
        Obj(MergeSection(Get(Obj(old(fs.UserRecord(Constants.SystemInfo))), Constants.DataPipelineSection), ResetRecord(resetAt)))]
    ensures forall k: UserKey ::
      !(k.root == fs.root && (k.user == Constants.SystemInfo || Pipeline.PipelineUser(old(fs.userDocs), fs.root, k.user))) ==>
        UserKept(old(fs.userDocs), fs.userDocs, k)
  {
    var users := UserDatabase.GetAllUsers(fs);
    var _ := fs.SetUserData(Constants.SystemInfo, Constants.DataPipelineSection, ResetRecord(resetAt));
    ghost var reset := fs.userDocs;
    refreshed := RefreshUsers(fs, registry, users, now);
    assert UserKept(reset, fs.userDocs, UserKey(fs.root, Constants.SystemInfo));
    forall k: UserKey | !(k.root == fs.root && (k.user == Constants.SystemInfo || Pipeline.PipelineUser(old(fs.userDocs), fs.root, k.user)))
      ensures UserKept(old(fs.userDocs), fs.userDocs, k)
    {
      assert UserKept(old(fs.userDocs), reset, k) && UserKept(reset, fs.userDocs, k);
    }
  }

  /** The loop over the users of `invokeDataPipeline()`: each user's
      collections, one user after the other. Only the documents of those
      users change, and only in collections re-fetched from their stale
      invocation info. */
  method RefreshUsers(fs: FirestoreStore, registry: Registry, users: seq<string>, now: int)
    returns (ghost refreshed: set<(string, string)>)
    requires UserDatabase.Distinct(users)
    modifies fs`docs, fs`userDocs
    ensures SelectedPairs(registry, old(fs.docs), fs.root, now, users, refreshed)
    ensures DocsChanged(registry, old(fs.docs), fs.docs, fs.root, refreshed)
    ensures KeptOutside(old(fs.userDocs), fs.userDocs, fs.root, users)
    ensures PairsRefreshed(registry, old(fs.docs), fs.docs, fs.root, refreshed)
  {
    refreshed := {};
    var i := 0;
    while i < |users|
      invariant 0 <= i <= |users|
      invariant SelectedPairs(registry, old(fs.docs), fs.root, now, users[..i], refreshed)
      invariant DocsChanged(registry, old(fs.docs), fs.docs, fs.root, refreshed)
      invariant KeptOutside(old(fs.userDocs), fs.userDocs, fs.root, users[..i])
      invariant PairsRefreshed(registry, old(fs.docs), fs.docs, fs.root, refreshed)
    {
      var userId := users[i];
      assert forall j :: 0 <= j < i ==> users[j] != users[i];
      assert userId !in users[..i];
      forall c ensures Pipeline.InfoIn(fs.docs, fs.root, userId, c) == old(Pipeline.InfoIn(fs.docs, fs.root, userId, c)) {
        assert Pipeline.Kept(old(fs.docs), fs.docs, DocKey(fs.root, userId, c, Constants.InvokeInfo));
      }
      ghost var before := fs.docs;
      ghost var users0 := fs.userDocs;
      ghost var colls := RefreshUser(fs, registry, userId, now);
      KeptOutsideStep(old(fs.userDocs), users0, fs.userDocs, fs.root, users, i);
      assert forall c :: (userId, c) !in refreshed;
      PairsRefreshedStep(registry, old(fs.docs), before, fs.docs, fs.root, refreshed, userId, colls);
      DocsChangedStep(registry, old(fs.docs), before, fs.docs, fs.root, refreshed, userId, colls);
      SelectedPairsStep(registry, old(fs.docs), before, fs.root, now, users, i, refreshed, colls);
      refreshed := refreshed + set c | c in colls :: (userId, c);
      i := i + 1;
    }
    assert users[..i] == users;
  }

  /** Flagging the system record before a run keeps the run's frame: a
      record that is neither the system record nor a pipeline user's is
      kept across both. */
  lemma FlagKeepsFrame(u0: map<UserKey, Doc>, u1: map<UserKey, Doc>, u2: map<UserKey, Doc>, root: string, flagged: Doc)
    requires u1 == u0[UserKey(root, Constants.SystemInfo) := flagged]
    requires forall k: UserKey ::
      !(k.root == root && (k.user == Constants.SystemInfo || Pipeline.PipelineUser(u1, root, k.user))) ==> UserKept(u1, u2, k)
    ensures forall k: UserKey ::
      !(k.root == root && (k.user == Constants.SystemInfo || Pipeline.PipelineUser(u0, root, k.user))) ==> UserKept(u0, u2, k)
  {
    forall k: UserKey | !(k.root == root && (k.user == Constants.SystemInfo || Pipeline.PipelineUser(u0, root, k.user)))
      ensures UserKept(u0, u2, k)
    {
      assert UserKept(u0, u1, k) && UserKept(u1, u2, k);
    }
  }

  /** The body of the handler once the guard let it through: the section is
      stored with the flag under "undefined" (`during`, which leaves the
      decision for any later trigger as it was), then `invokeDataPipeline`
      runs. */
  method FlagAndRun(fs: FirestoreStore, registry: Registry, now: int, resetAt: int)
    returns (ghost during: Value, ghost refreshed: set<(string, string)>)
    requires !Nullish(fs.GetUserData(Constants.SystemInfo, Some(Constants.DataPipelineSection)))
    modifies fs`docs, fs`userDocs
    ensures var section := old(fs.GetUserData(Constants.SystemInfo, Some(Constants.DataPipelineSection)));
      during == Obj(Flagged(section)) &&
      (section.Obj? ==> forall later :: Pipeline.Decide(during, later) == Pipeline.Decide(section, later))
    ensures forall u, c :: (u, c) in refreshed <==>
      Pipeline.PipelineUser(old(fs.userDocs), fs.root, u) &&
      Selected(registry, old(Pipeline.InfoIn(fs.docs, fs.root, u, c)), u, c, now)
    ensures forall k :: !Pipeline.Kept(old(fs.docs), fs.docs, k) ==>
      (k.user, k.coll) in refreshed && k.root == fs.root &&
      !Storage.CallFails(Pipeline.ProviderFor(registry, old(Pipeline.InfoIn(fs.docs, fs.root, k.user, k.coll))),
        Get(old(Pipeline.InfoIn(fs.docs, fs.root, k.user, k.coll)), Constants.ParamsField))
    ensures forall u, c :: (u, c) in refreshed && Refetched(registry, old(fs.docs), fs.root, u, c) ==>
      Refreshed(registry, old(fs.docs), fs.docs, fs.root, u, c)
    ensures UserKey(fs.root, Constants.SystemInfo) in fs.userDocs
    ensures fs.userDocs[UserKey(fs.root, Constants.SystemInfo)] ==
      old(fs.UserRecord(Constants.SystemInfo))[Constants.DataPipelineSection :=
        Obj(MergeSection(Obj(Flagged(old(fs.GetUserData(Constants.SystemInfo, Some(Constants.DataPipelineSection))))),
          ResetRecord(resetAt)))]
    ensures forall k: UserKey ::
      !(k.root == fs.root && (k.user == Constants.SystemInfo || Pipeline.PipelineUser(old(fs.userDocs), fs.root, k.user))) ==>
        UserKept(old(fs.userDocs), fs.userDocs, k)
  {
    var dataPipelineObject := fs.GetUserData(Constants.SystemInfo, Some(Constants.DataPipelineSection));
    ghost var section := dataPipelineObject;
    ghost var record := fs.UserRecord(Constants.SystemInfo);
    assert section == Get(Obj(record), Constants.DataPipelineSection);
    dataPipelineObject := Put(dataPipelineObject, FlagKey, Bool(true));
    var _ := fs.SetUserData(Constants.SystemInfo, Constants.DataPipelineSection, dataPipelineObject);
    during := fs.GetUserData(Constants.SystemInfo, Some(Constants.DataPipelineSection));
    assert during == Obj(Flagged(section));
    forall later | section.Obj?
      ensures Pipeline.Decide(during, later) == Pipeline.Decide(section, later)
    {
      FlagNeverBlocks(section, later);
    }
    ghost var flagged := fs.userDocs;
    assert forall u :: Pipeline.PipelineUser(flagged, fs.root, u) == Pipeline.PipelineUser(old(fs.userDocs), fs.root, u);
    ghost var flaggedRecord := record[Constants.DataPipelineSection := during];
    assert flagged == old(fs.userDocs)[UserKey(fs.root, Constants.SystemInfo) := flaggedRecord];
    assert fs.UserRecord(Constants.SystemInfo) == flaggedRecord;
    refreshed := InvokeDataPipeline(fs, registry, now, resetAt);
    FlagKeepsFrame(old(fs.userDocs), flagged, fs.userDocs, fs.root, flaggedRecord);
    assert Get(Obj(flaggedRecord), Constants.DataPipelineSection) == during;
    Pipeline.WriteTwice(record, Constants.DataPipelineSection, during, Obj(MergeSection(during, ResetRecord(resetAt))));
  }

  /** `dataPipelineHandler()` at time `now`: the same decision as the newer
      handler; a run stores the section with the flag under "undefined"
      (`during`, which leaves the decision for any later trigger as it was),
      then runs `invokeDataPipeline`. Otherwise nothing is written. */
  method DataPipelineHandler(fs: FirestoreStore, registry: Registry, now: int, resetAt: int)
    returns (outcome: Pipeline.Outcome, ghost during: Value, ghost refreshed: set<(string, string)>)
    modifies fs`docs, fs`userDocs
    ensures outcome == Pipeline.Decide(old(fs.GetUserData(Constants.SystemInfo, Some(Constants.DataPipelineSection))), now)
    ensures outcome != Pipeline.Ran ==> fs.docs == old(fs.docs) && fs.userDocs == old(fs.userDocs)
    ensures outcome == Pipeline.Ran ==>
      var section := old(fs.GetUserData(Constants.SystemInfo, Some(Constants.DataPipelineSection)));
      during == Obj(Flagged(section)) &&
      (section.Obj? ==> forall later :: Pipeline.Decide(during, later) == Pipeline.Decide(section, later)) &&
      (forall u, c :: (u, c) in refreshed <==>
        Pipeline.PipelineUser(old(fs.userDocs), fs.root, u) &&
        Selected(registry, old(Pipeline.InfoIn(fs.docs, fs.root, u, c)), u, c, now)) &&
      (forall k :: !Pipeline.Kept(old(fs.docs), fs.docs, k) ==>
        (k.user, k.coll) in refreshed && k.root == fs.root &&
        !Storage.CallFails(Pipeline.ProviderFor(registry, old(Pipeline.InfoIn(fs.docs, fs.root, k.user, k.coll))),
          Get(old(Pipeline.InfoIn(fs.docs, fs.root, k.user, k.coll)), Constants.ParamsField))) &&
      (forall u, c :: (u, c) in refreshed && Refetched(registry, old(fs.docs), fs.root, u, c) ==>
        Refreshed(registry, old(fs.docs), fs.docs, fs.root, u, c)) &&
      UserKey(fs.root, Constants.SystemInfo) in fs.userDocs &&
      fs.userDocs[UserKey(fs.root, Constants.SystemInfo)] ==
        old(fs.UserRecord(Constants.SystemInfo))[Constants.DataPipelineSection :=
          Obj(MergeSection(Obj(Flagged(section)), ResetRecord(resetAt)))] &&
      (forall k: UserKey ::
        !(k.root == fs.root && (k.user == Constants.SystemInfo || Pipeline.PipelineUser(old(fs.userDocs), fs.root, k.user))) ==>
          UserKept(old(fs.userDocs), fs.userDocs, k))
  {
    during := Null;
    refreshed := {};
    var dataPipelineObject := fs.GetUserData(Constants.SystemInfo, Some(Constants.DataPipelineSection));
    var timestamp := Or(And(dataPipelineObject, Get(dataPipelineObject, Constants.LastUpdatedTimestamp)),
      Num(now - Constants.OneHour));
    if !Pipeline.IsStale(timestamp, now) {
      return Pipeline.NotDue, during, refreshed;
    }
    if Nullish(dataPipelineObject) {
      // reading `.inProgress` of a missing record throws; the handler catches it
      return Pipeline.Crashed, during, refreshed;
    }
    if Truthy(Get(dataPipelineObject, Constants.InProgress)) {
      return Pipeline.Busy, during, refreshed;
    }
    during, refreshed := FlagAndRun(fs, registry, now, resetAt);
    outcome := Pipeline.Ran;
  }
}
