/** Provider descriptors and the call into a provider function
    (src/providers/provider.js; src/data/dal.js keeps a private copy of the
    same function). */
module Providers {
  import opened Json

  /** What an awaited provider function produced: a value, or a rejection. */
  datatype Reply = Returned(data: Value) | Threw

  /** A provider function, applied to the invocation's `params`. */
  type ProviderFunc = Value -> Reply

  /** A provider descriptor: which provider and function it names, the entity
      it fills, where the array sits in the response, which field keys an item
      and which field holds the text to score. */
  datatype Provider = Provider(
    provider: Option<string>,
    name: Option<string>,
    entity: Option<string>,
    arrayKey: Option<string>,
    itemKey: Option<string>,
    sentimentTextField: Option<string>,
    func: Option<ProviderFunc>)

  /** provider name -> function name -> descriptor */
  type Registry = map<string, map<string, Provider>>

  /** `provider.arrayKey ? data[provider.arrayKey] : data` */
  function Project(p: Provider, data: Value): Value {
    if Truthy(Text(p.arrayKey)) then Get(data, p.arrayKey.value) else data
  }

  /** `callProvider(provider, params)`: null when there is no function, when
      the function throws or returns a falsy value; otherwise the projected
      response. */
  function CallProvider(provider: Option<Provider>, params: Value): (r: Value)
    ensures provider.None? || provider.value.func.None? ==> r == Null
    ensures provider.Some? && provider.value.func.Some? ==>
      match provider.value.func.value(params)
      case Threw => r == Null
      case Returned(d) =>
        (!Truthy(d) ==> r == Null) &&
        (Truthy(d) && !Truthy(Text(provider.value.arrayKey)) ==> r == d) &&
        (Truthy(d) && Truthy(Text(provider.value.arrayKey)) ==> r == Get(d, provider.value.arrayKey.value))
  {
    if provider.None? || provider.value.func.None? then Null
    else
      match provider.value.func.value(params)
      case Threw => Null
      case Returned(d) => if Truthy(d) then Project(provider.value, d) else Null
  }

  /** A non-null result always comes from a call that returned a truthy
      response, and is that response or its `arrayKey` field. */
  lemma CallProviderSucceeded(provider: Option<Provider>, params: Value)
    requires Truthy(CallProvider(provider, params))
    ensures provider.Some? && provider.value.func.Some?
    ensures provider.value.func.value(params).Returned?
    ensures Truthy(provider.value.func.value(params).data)
    ensures CallProvider(provider, params) == Project(provider.value, provider.value.func.value(params).data)
  {
  }

  /** `providerObject = dataProviders[providerName]; providerObject && providerObject[funcName]` */
  function Lookup(registry: Registry, providerName: Value, funcName: Value): (r: Option<Provider>)
    ensures r.Some? <==> PropertyKey(providerName) in registry && PropertyKey(funcName) in registry[PropertyKey(providerName)]
    ensures r.Some? ==> r.value == registry[PropertyKey(providerName)][PropertyKey(funcName)]
  {
    var p := PropertyKey(providerName);
    var f := PropertyKey(funcName);
    if p in registry && f in registry[p] then Some(registry[p][f]) else None
  }
}

/** The two decisions every cache front end of the repository makes before
    touching the store: which provider and entity a request names, and
    whether the cached copy is fresh enough to serve. */
module CachePolicy {
  import opened Json
  import opened Providers
  import Constants

  /** The outcome of validating a request: the provider's name and the
      entity (collection) name, or nothing. */
  datatype Resolution = Resolved(providerName: string, entityName: string) | Invalid

  /** `providerName = provider && provider.provider; entityName = entity ||
      provider.entity`, failing when either is missing. With no descriptor and
      no entity, reading `provider.entity` throws; that too ends in null. */
  function Resolve(provider: Option<Provider>, entity: Option<string>): (r: Resolution)
    ensures r.Resolved? <==>
      provider.Some? && Truthy(Text(provider.value.provider)) &&
      (Truthy(Text(entity)) || Truthy(Text(provider.value.entity)))
    ensures r.Resolved? ==> r.providerName == provider.value.provider.value
    ensures r.Resolved? && Truthy(Text(entity)) ==> r.entityName == entity.value
    ensures r.Resolved? && !Truthy(Text(entity)) ==> r.entityName == provider.value.entity.value
    ensures r.Resolved? ==> r.providerName != "" && r.entityName != ""
  {
    if provider.None? then Invalid
    else
      var entityName := if Truthy(Text(entity)) then entity else provider.value.entity;
      if Truthy(Text(provider.value.provider)) && Truthy(Text(entityName))
      then Resolved(provider.value.provider.value, entityName.value)
      else Invalid
  }

  /** `!forceRefresh && lastRetrieved > now - 3600000` */
  predicate ServeFromCache(forceRefresh: bool, lastRetrieved: Value, now: int) {
    !forceRefresh && GreaterThan(lastRetrieved, now - Constants.OneHour)
  }

  /** For a numeric timestamp the cache is served exactly when no refresh is
      forced and the timestamp is less than an hour old; a record without a
      timestamp is never served, and a null record only at the epoch's first
      hour (where `null > now - 3600000` compares 0). */
  lemma ServeFromCacheCases(forceRefresh: bool, lastRetrieved: Value, now: int)
    ensures lastRetrieved.Num? ==>
      (ServeFromCache(forceRefresh, lastRetrieved, now) <==> !forceRefresh && now - lastRetrieved.n < 3600000)
    ensures lastRetrieved.Undefined? ==> !ServeFromCache(forceRefresh, lastRetrieved, now)
    ensures lastRetrieved.Null? && now >= 3600000 ==> !ServeFromCache(forceRefresh, lastRetrieved, now)
    ensures forceRefresh ==> !ServeFromCache(forceRefresh, lastRetrieved, now)
  {
  }
}
