/** The cache layer of src/data/cache.js: an entity is served from its
    collection while the collection's invocation info is less than an hour
    old, and otherwise fetched from its provider and written back. */
module Cache {
  import opened Json
  import opened Providers
  import opened CachePolicy
  import opened Firestore
  import Constants
  import Dal

  /** The invocation-info record `storeData` creates: exactly the provider,
      the function name, the parameters and the fetch time. */
  function FreshInvocationInfo(p: Provider, params: Value, now: int): (r: Doc)
    ensures r.Keys == Dal.InvocationFields
    ensures r[Constants.ProviderField] == Text(p.provider) && r[Constants.NameField] == Text(p.name)
    ensures r[Constants.ParamsField] == params && r[Constants.LastRetrievedField] == Num(now)
  {
    Dal.InvocationInfo(map[], p, params, now)
  }

  /** A record just written by `storeData` is served from the cache for the
      hour that follows, and not afterwards. */
  lemma FreshRecordServed(p: Provider, params: Value, stamped: int, now: int)
    ensures var info := Obj(FreshInvocationInfo(p, params, stamped));
      ServeFromCache(false, And(info, Get(info, Constants.LastRetrievedField)), now) <==> now - stamped < Constants.OneHour
  {
  }

  /** `storeData(userId, provider, entity, params, data)` at time `now`. */
  method StoreData(fs: FirestoreStore, userId: string, p: Provider, entity: string, params: Value, data: Value, now: int)
    modifies fs`docs
    ensures fs.docs == old(fs.docs)[DocKey(fs.root, userId, entity, Constants.InvokeInfo) := FreshInvocationInfo(p, params, now)] +
      Dal.BatchWrites(fs.root, userId, entity, data, KeyName(p.itemKey))
  {
    var invokeInfo := Obj(map[
      Constants.ProviderField := Text(p.provider),
      Constants.NameField := Text(p.name),
      Constants.ParamsField := params,
      Constants.LastRetrievedField := Num(now)]);
    fs.StoreDocument(userId, entity, Constants.InvokeInfo, invokeInfo);
    fs.StoreBatch(userId, entity, data, Text(p.itemKey));
  }

  /** `getData(userId, provider, entity, params, forceRefresh)` at time `now`:
      null for an invalid request; the collection's documents when the stored
      invocation info is fresh and no refresh is forced (a missing record
      compares as `null`, i.e. 0); otherwise exactly what the provider call
      returned, stored only when it is not null. `cached` lists the documents
      served from the cache. */
  method GetData(fs: FirestoreStore, userId: string, provider: Option<Provider>, entity: Option<string>, params: Value,
                 forceRefresh: bool, now: int)
    returns (r: Value, ghost cached: seq<string>)
    modifies fs`docs
    ensures Resolve(provider, entity).Invalid? ==> r == Null && fs.docs == old(fs.docs)
    ensures Resolve(provider, entity).Resolved? ==>
      var e := Resolve(provider, entity).entityName;
      var info := old(fs.GetDocument(userId, e, Constants.InvokeInfo));
      ServeFromCache(forceRefresh, And(info, Get(info, Constants.LastRetrievedField)), now) ==>
        fs.docs == old(fs.docs) && r.Arr? && |r.items| == |cached| &&
        (forall n :: fs.Listed(userId, e, Null, Null, n) <==> n in cached) &&
        forall i :: 0 <= i < |cached| ==>
          fs.Listed(userId, e, Null, Null, cached[i]) && r.items[i] == Obj(fs.docs[DocKey(fs.root, userId, e, cached[i])])
    ensures Resolve(provider, entity).Resolved? ==>
      var e := Resolve(provider, entity).entityName;
      var info := old(fs.GetDocument(userId, e, Constants.InvokeInfo));
      !ServeFromCache(forceRefresh, And(info, Get(info, Constants.LastRetrievedField)), now) ==>
        r == CallProvider(provider, params) &&
        (!Truthy(r) ==> fs.docs == old(fs.docs)) &&
        (Truthy(r) ==>
          var infoKey := DocKey(fs.root, userId, e, Constants.InvokeInfo);
          fs.docs == old(fs.docs)[infoKey := FreshInvocationInfo(provider.value, params, now)] + Dal.BatchWrites(fs.root, userId, e, r, KeyName(provider.value.itemKey)))
  {
    cached := [];
    var res := Resolve(provider, entity);
    if res.Invalid? {
      return Null, [];
    }
    var entityName := res.entityName;
    var invokeInfo := fs.GetDocument(userId, entityName, Constants.InvokeInfo);
    var lastRetrieved := And(invokeInfo, Get(invokeInfo, Constants.LastRetrievedField));
    if ServeFromCache(forceRefresh, lastRetrieved, now) {
      r, cached := fs.Query(userId, entityName, Null, Null);
      return;
    }
    r := CallProvider(provider, params);
    if Truthy(r) {
      StoreData(fs, userId, provider.value, entityName, params, r, now);
    }
  }
}
