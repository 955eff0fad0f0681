/** The storage layer of src/storage.js: an entity's collection is fresh while
    the user's provider section records an access less than an hour ago
    (`lastAccessTimes[entity]`); otherwise the provider is called and the
    result shredded into the collection. */
module Storage {
  import opened Json
  import opened Providers
  import opened CachePolicy
  import opened Firestore
  import Constants
  import Dal

  const LastAccessTimes := "lastAccessTimes"

  /** `providerSection.lastAccessTimes && providerSection.lastAccessTimes[entity]`;
      a nullish section makes the read throw: null. */
  function LastAccessTime(section: Value, entity: string): (r: Value)
    ensures Nullish(section) ==> r == Null
    ensures !Nullish(section) && Get(section, LastAccessTimes).Obj? ==> r == Get(Get(section, LastAccessTimes), entity)
    ensures !Nullish(section) && !Truthy(Get(section, LastAccessTimes)) ==> !Truthy(r)
  {
    if Nullish(section) then Null
    else
      var times := Get(section, LastAccessTimes);
      And(times, Get(times, entity))
  }

  /** The section `setLastAccessTime` hands to `setUserData`: the user's
      section with `lastAccessTimes[entity] = now` (a new map when it had none). */
  function Touched(section: Value, entity: string, now: int): (r: Value)
    ensures section.Obj? ==> r.Obj? && r.fields.Keys == section.fields.Keys + {LastAccessTimes}
    ensures section.Obj? ==> forall k :: k != LastAccessTimes ==> Get(r, k) == Get(section, k)
  {
    var times := Or(Get(section, LastAccessTimes), Obj(map[]));
    Put(section, LastAccessTimes, Put(times, entity, Num(now)))
  }

  /** After the access is recorded the entity's time is `now`, and every other
      entity's time is as before, when the section's `lastAccessTimes` was a
      map or absent. */
  lemma TouchRecordsAccess(section: Value, entity: string, now: int, other: string)
    requires section.Obj? && (Get(section, LastAccessTimes).Obj? || Get(section, LastAccessTimes) == Undefined)
    ensures LastAccessTime(Obj(MergeSection(section, Touched(section, entity, now))), entity) == Num(now)
    ensures other != entity ==>
      LastAccessTime(Obj(MergeSection(section, Touched(section, entity, now))), other) == LastAccessTime(section, other)
  {
    var merged := Obj(MergeSection(section, Touched(section, entity, now)));
    assert Get(merged, LastAccessTimes) == Get(Touched(section, entity, now), LastAccessTimes);
  }

  /** The user documents after `setLastAccessTime(userId, providerName, entity)`,
      given the section `getUserData` returned: unchanged when that section is
      falsy, otherwise the touched section merged into the provider's section. */
  function TouchedUserDocs(userDocs: map<UserKey, Doc>, key: UserKey, providerName: string, section: Value, entity: string, now: int)
    : (r: map<UserKey, Doc>)
    ensures !Truthy(section) ==> r == userDocs
    ensures Truthy(section) ==> r.Keys == userDocs.Keys + {key}
    ensures forall k :: k != key && k in userDocs ==> r[k] == userDocs[k]
  {
    if !Truthy(section) then userDocs
    else
      var record := if key in userDocs then userDocs[key] else map[];
      userDocs[key := record[providerName := Obj(MergeSection(Get(Obj(record), providerName), Touched(section, entity, now)))]]
  }

  /** `setLastAccessTime(userId, providerName, entity)` at time `now`: null
      without a section for the provider, undefined otherwise. */
  method SetLastAccessTime(fs: FirestoreStore, userId: string, providerName: string, entity: string, now: int) returns (r: Value)
    modifies fs`userDocs
    ensures fs.userDocs == TouchedUserDocs(old(fs.userDocs), UserKey(fs.root, userId), providerName,
      old(fs.GetUserData(userId, Some(providerName))), entity, now)
    ensures r == (if Truthy(old(fs.GetUserData(userId, Some(providerName)))) then Undefined else Null)
  {
    var userData := fs.GetUserData(userId, Some(providerName));
    if !Truthy(userData) {
      return Null;
    }
    var lastAccessTimes := Or(Get(userData, LastAccessTimes), Obj(map[]));
    lastAccessTimes := Put(lastAccessTimes, entity, Num(now));
    userData := Put(userData, LastAccessTimes, lastAccessTimes);
    var _ := fs.SetUserData(userId, providerName, userData);
    r := Undefined;
  }

  /** The invocation-info record of this layer: no timestamp. */
  function InvocationRecord(p: Provider, params: Value): (r: Doc)
    ensures r.Keys == {Constants.ProviderField, Constants.NameField, Constants.ParamsField}
    ensures r[Constants.ProviderField] == Text(p.provider) && r[Constants.NameField] == Text(p.name)
    ensures r[Constants.ParamsField] == params
  {
    map[Constants.ProviderField := Text(p.provider), Constants.NameField := Text(p.name), Constants.ParamsField := params]
  }

  /** Why a provider call produced no array: it has no function or provider
      name, it threw, or there is an `arrayKey` and the response is nullish. */
  predicate CallFails(provider: Option<Provider>, params: Value) {
    provider.None? || provider.value.func.None? || !Truthy(Text(provider.value.provider)) ||
    provider.value.func.value(params).Threw? ||
    (Truthy(Text(provider.value.arrayKey)) && Nullish(provider.value.func.value(params).data))
  }

  /** `invokeProviderAndStoreData(userId, provider, entity, params)` at time
      `now`: calls the provider function once, stores the invocation info
      (without a timestamp) and the array shredded by `itemKey`, records the
      access, and returns the array. */
  method InvokeProviderAndStoreData(fs: FirestoreStore, userId: string, provider: Option<Provider>, entity: string, params: Value, now: int)
    returns (r: Value)
    modifies fs`docs, fs`userDocs
    ensures CallFails(provider, params) ==> r == Null && fs.docs == old(fs.docs) && fs.userDocs == old(fs.userDocs)
    ensures !CallFails(provider, params) ==>
      var p := provider.value;
      r == Project(p, p.func.value(params).data) &&
      fs.docs == old(fs.docs)[DocKey(fs.root, userId, entity, Constants.InvokeInfo) := InvocationRecord(p, params)] +
        Dal.BatchWrites(fs.root, userId, entity, r, KeyName(p.itemKey)) &&
      fs.userDocs == TouchedUserDocs(old(fs.userDocs), UserKey(fs.root, userId), p.provider.value,
        old(fs.GetUserData(userId, Some(p.provider.value))), entity, now)
  {
    if provider.None? || provider.value.func.None? || !Truthy(Text(provider.value.provider)) {
      return Null;
    }
    var p := provider.value;
    var reply := p.func.value(params);
    if reply.Threw? {
      return Null;
    }
    var data := reply.data;
    if Truthy(Text(p.arrayKey)) && Nullish(data) {
      // reading `data[provider.arrayKey]` throws
      return Null;
    }
    var items := Project(p, data);
    fs.StoreDocument(userId, entity, Constants.InvokeInfo, Obj(InvocationRecord(p, params)));
    fs.StoreBatch(userId, entity, items, Text(p.itemKey));
    var _ := SetLastAccessTime(fs, userId, p.provider.value, entity, now);
    r := items;
  }

  /** `getData(userId, provider, entity, forceRefresh, params)` at time `now`:
      null without a provider name or without the user's section for the
      provider; the collection when the recorded access is fresh and no
      refresh is forced; otherwise the result of
      `invokeProviderAndStoreData`. */
  method GetData(fs: FirestoreStore, userId: string, provider: Option<Provider>, entity: string, forceRefresh: bool, params: Value, now: int)
    returns (r: Value, ghost cached: seq<string>)
    modifies fs`docs, fs`userDocs
    ensures provider.None? || !Truthy(Text(provider.value.provider)) ==>
      r == Null && fs.docs == old(fs.docs) && fs.userDocs == old(fs.userDocs)
    ensures provider.Some? && Truthy(Text(provider.value.provider)) ==>
      var section := old(fs.GetUserData(userId, Some(provider.value.provider.value)));
      (!Truthy(section) ==> r == Null && fs.docs == old(fs.docs) && fs.userDocs == old(fs.userDocs)) &&
      (Truthy(section) && ServeFromCache(forceRefresh, LastAccessTime(section, entity), now) ==>
        fs.docs == old(fs.docs) && fs.userDocs == old(fs.userDocs) && r.Arr? && |r.items| == |cached| &&
        (forall n :: fs.Listed(userId, entity, Null, Null, n) <==> n in cached) &&
        forall i :: 0 <= i < |cached| ==>
          fs.Listed(userId, entity, Null, Null, cached[i]) && r.items[i] == Obj(fs.docs[DocKey(fs.root, userId, entity, cached[i])]))
    ensures provider.Some? && Truthy(Text(provider.value.provider)) ==>
      var section := old(fs.GetUserData(userId, Some(provider.value.provider.value)));
      Truthy(section) && !ServeFromCache(forceRefresh, LastAccessTime(section, entity), now) ==>
        (CallFails(provider, params) ==> r == Null && fs.docs == old(fs.docs) && fs.userDocs == old(fs.userDocs)) &&
        (!CallFails(provider, params) ==>
          var p := provider.value;
          r == Project(p, p.func.value(params).data) &&
          fs.docs == old(fs.docs)[DocKey(fs.root, userId, entity, Constants.InvokeInfo) := InvocationRecord(p, params)] +
            Dal.BatchWrites(fs.root, userId, entity, r, KeyName(p.itemKey)) &&
          fs.userDocs == TouchedUserDocs(old(fs.userDocs), UserKey(fs.root, userId), p.provider.value, section, entity, now))
  {
    cached := [];
    if provider.None? || !Truthy(Text(provider.value.provider)) {
      return Null, [];
    }
    var providerName := provider.value.provider.value;
    var section := fs.GetUserData(userId, Some(providerName));
    if !Truthy(section) {
      return Null, [];
    }
    var lastAccessTime := LastAccessTime(section, entity);
    if ServeFromCache(forceRefresh, lastAccessTime, now) {
      r, cached := fs.Query(userId, entity, Null, Null);
      return;
    }
    r := InvokeProviderAndStoreData(fs, userId, provider, entity, params, now);
  }
}
