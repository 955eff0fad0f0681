/** The earliest storage layer (storage.js at the repository root): the same
    last-access bookkeeping as src/storage.js, but an entity's documents live
    in a collection named `{provider}:{entity}` and the provider function is
    called with the parameters spread out. */
module EarlyStorage {
  import opened Json
  import opened Providers
  import opened CachePolicy
  import opened Firestore
  import Storage
  import Dal

  /** `${providerName}:${entity}` */
  function CollectionName(providerName: string, entity: string): (c: string)
    ensures |c| == |providerName| + 1 + |entity|
    ensures c[..|providerName|] == providerName && c[|providerName|] == ':' && c[|providerName| + 1..] == entity
  {
    providerName + ":" + entity
  }

  /** Provider names without a ':' give every (provider, entity) pair its own
      collection. */
  lemma CollectionNameInjective(p1: string, e1: string, p2: string, e2: string)
    requires ':' !in p1 && ':' !in p2
    requires CollectionName(p1, e1) == CollectionName(p2, e2)
    ensures p1 == p2 && e1 == e2
  {
  }

  /** `getLastAccessTime(userId, providerName, entity)`: null when the user has
      no section for the provider, else `lastAccessTimes[entity]` (falsy when
      there is no such map). */
  function GetLastAccessTime(fs: FirestoreStore, userId: string, providerName: string, entity: string): (r: Value)
    reads fs
    ensures !Truthy(fs.GetUserData(userId, Some(providerName))) ==> r == Null
    ensures Truthy(fs.GetUserData(userId, Some(providerName))) ==>
      r == Storage.LastAccessTime(fs.GetUserData(userId, Some(providerName)), entity)
  {
    var user := fs.GetUserData(userId, Some(providerName));
    if !Truthy(user) then Null
    else
      var times := Get(user, Storage.LastAccessTimes);
      And(times, Get(times, entity))
  }

  /** Why `getData` produced no array: a missing provider name or function,
      a call that threw, or an `arrayKey` over a nullish response. */
  predicate FetchFails(provider: Option<Provider>, args: seq<Value>) {
    provider.None? || !Truthy(Text(provider.value.provider)) || provider.value.func.None? ||
    provider.value.func.value(Arr(args)).Threw? ||
    (Truthy(Text(provider.value.arrayKey)) && Nullish(provider.value.func.value(Arr(args)).data))
  }

  /** `getData(userId, provider, entity, forceRefresh, ...params)` at time
      `now`. The provider function receives the argument list `args` (modelled
      as one array value). The last access is keyed by the entity, the
      documents by `{provider}:{entity}`. */
  method GetData(fs: FirestoreStore, userId: string, provider: Option<Provider>, entity: string, forceRefresh: bool,
                 args: seq<Value>, now: int)
    returns (r: Value, ghost cached: seq<string>)
    modifies fs`docs, fs`userDocs
    ensures provider.None? || !Truthy(Text(provider.value.provider)) || provider.value.func.None? ==>
      r == Null && fs.docs == old(fs.docs) && fs.userDocs == old(fs.userDocs)
    ensures !(provider.None? || !Truthy(Text(provider.value.provider)) || provider.value.func.None?) ==>
      var name := provider.value.provider.value;
      var coll := CollectionName(name, entity);
      ServeFromCache(forceRefresh, old(GetLastAccessTime(fs, userId, name, entity)), now) ==>
        fs.docs == old(fs.docs) && fs.userDocs == old(fs.userDocs) && r.Arr? && |r.items| == |cached| &&
        (forall n :: fs.Listed(userId, coll, Null, Null, n) <==> n in cached) &&
        forall i :: 0 <= i < |cached| ==>
          fs.Listed(userId, coll, Null, Null, cached[i]) && r.items[i] == Obj(fs.docs[DocKey(fs.root, userId, coll, cached[i])])
    ensures !(provider.None? || !Truthy(Text(provider.value.provider)) || provider.value.func.None?) ==>
      var p := provider.value;
      var name := p.provider.value;
      !ServeFromCache(forceRefresh, old(GetLastAccessTime(fs, userId, name, entity)), now) ==>
        (FetchFails(provider, args) ==> r == Null && fs.docs == old(fs.docs) && fs.userDocs == old(fs.userDocs)) &&
        (!FetchFails(provider, args) ==>
          r == Project(p, p.func.value(Arr(args)).data) &&
          fs.docs == old(fs.docs) + Dal.BatchWrites(fs.root, userId, CollectionName(name, entity), r, KeyName(p.itemKey)) &&
          fs.userDocs == Storage.TouchedUserDocs(old(fs.userDocs), UserKey(fs.root, userId), name,
            old(fs.GetUserData(userId, Some(name))), entity, now))
  {
    cached := [];
    if provider.None? || !Truthy(Text(provider.value.provider)) || provider.value.func.None? {
      return Null, [];
    }
    var p := provider.value;
    var providerName := p.provider.value;
    var lastAccessTime := GetLastAccessTime(fs, userId, providerName, entity);
    var collectionName := CollectionName(providerName, entity);
    if ServeFromCache(forceRefresh, lastAccessTime, now) {
      r, cached := fs.Query(userId, collectionName, Null, Null);
      return;
    }
    var reply := p.func.value(Arr(args));
    if reply.Threw? {
      return Null, [];
    }
    if Truthy(Text(p.arrayKey)) && Nullish(reply.data) {
      // reading `data[provider.arrayKey]` throws
      return Null, [];
    }
    var items := Project(p, reply.data);
    fs.StoreBatch(userId, collectionName, items, Text(p.itemKey));
    var _ := Storage.SetLastAccessTime(fs, userId, providerName, entity, now);
    r := items;
  }
}
