/** The load pipeline of src/data/datapipeline.js: a guard over the
    `dataPipeline` section of the system-info user that lets at most one
    refresh run at a time, the refresh itself (every cached collection of
    every user re-fetched through the data access layer), and the pub/sub
    resources that deliver the trigger. */
module Pipeline {
  import opened Json
  import opened Providers
  import opened CachePolicy
  import opened Firestore
  import Constants
  import UserDatabase
  import Dal

  // ---------------------------------------------------------------------
  // The run guard

  /** `now - timestamp > 59 * 60000`; a timestamp that is not a number
      compares as NaN and is never stale. */
  predicate IsStale(timestamp: Value, now: int) {
    ToNumber(timestamp).Some? && now - ToNumber(timestamp).value > Constants.FiftyNineMinutes
  }

  /** `record && record[lastUpdatedTimestamp] || now - hr1` */
  function TimestampOf(record: Value, now: int): (t: Value)
    ensures Nullish(record) ==> t == Num(now - Constants.OneHour)
    ensures Truthy(record) && Truthy(Get(record, Constants.LastUpdatedTimestamp)) ==>
      t == Get(record, Constants.LastUpdatedTimestamp)
    ensures !Truthy(record) || !Truthy(Get(record, Constants.LastUpdatedTimestamp)) ==>
      t == Num(now - Constants.OneHour)
  {
    Or(And(record, Get(record, Constants.LastUpdatedTimestamp)), Num(now - Constants.OneHour))
  }

  /** A record without a usable timestamp counts as last run an hour ago,
      which is always stale. */
  lemma DefaultTimestampStale(now: int)
    ensures IsStale(Num(now - Constants.OneHour), now)
  {
  }

  /** For a numeric timestamp, stale means older than 59 minutes. */
  lemma IsStaleNumeric(t: int, now: int)
    ensures IsStale(Num(t), now) <==> now - t > 59 * 60000
    ensures !IsStale(Num(now - 59 * 60000), now) && IsStale(Num(now - 59 * 60000 - 1), now)
  {
  }

  /** What one delivery of the trigger does: nothing because the last run is
      recent, nothing because a run is in progress, nothing because reading
      `.inProgress` of a missing record threw, or a run. */
  datatype Outcome = NotDue | Busy | Crashed | Ran

  /** The handler's decision for the stored `dataPipeline` section at `now`. */
  function Decide(record: Value, now: int): (o: Outcome)
    ensures o == Ran <==>
      !Nullish(record) && IsStale(TimestampOf(record, now), now) && !Truthy(Get(record, Constants.InProgress))
    ensures o == Crashed <==> Nullish(record)
    ensures o == Busy <==>
      !Nullish(record) && IsStale(TimestampOf(record, now), now) && Truthy(Get(record, Constants.InProgress))
  {
    if !IsStale(TimestampOf(record, now), now) then NotDue
    else if Nullish(record) then Crashed
    else if Truthy(Get(record, Constants.InProgress)) then Busy
    else Ran
  }

  /** Without a system-info record the pipeline never runs, whatever the time. */
  lemma MissingRecordNeverRuns(record: Value, now: int)
    requires Nullish(record)
    ensures Decide(record, now) == Crashed
  {
    DefaultTimestampStale(now);
  }

  /** The section stored while the body runs: the record with `inProgress = true`. */
  function Flagged(section: Value): (r: Doc)
    ensures section.Obj? ==> r == section.fields[Constants.InProgress := Bool(true)]
  {
    MergeSection(section, Put(section, Constants.InProgress, Bool(true)))
  }

  /** `{lastUpdatedTimestamp: finishedAt, inProgress: false}` */
  function ResetRecord(finishedAt: int): (r: Value)
    ensures r.Obj? && r.fields.Keys == {Constants.LastUpdatedTimestamp, Constants.InProgress}
    ensures Get(r, Constants.LastUpdatedTimestamp) == Num(finishedAt) && Get(r, Constants.InProgress) == Bool(false)
  {
    Obj(map[Constants.LastUpdatedTimestamp := Num(finishedAt), Constants.InProgress := Bool(false)])
  }

  /** While a run is in progress every further trigger is turned away: the
      flagged record is busy or not yet due, at any time. */
  lemma SecondTriggerSkipped(section: Value, later: int)
    requires section.Obj?
    ensures Decide(Obj(Flagged(section)), later) != Ran
    ensures Decide(Obj(Flagged(section)), later) != Crashed
  {
    assert Get(Obj(Flagged(section)), Constants.InProgress) == Bool(true);
  }

  /** After the reset the next run is due exactly when the completion time
      is more than 59 minutes past; every other field of the section is kept. */
  lemma ResetAllowsNextRun(section: Value, finishedAt: int, later: int)
    requires finishedAt != 0
    ensures var after := Obj(MergeSection(Obj(Flagged(section)), ResetRecord(finishedAt)));
      (Decide(after, later) == Ran <==> later - finishedAt > Constants.FiftyNineMinutes) &&
      (Decide(after, later) != Ran ==> Decide(after, later) == NotDue)
    ensures section.Obj? ==>
      forall k :: k != Constants.LastUpdatedTimestamp && k != Constants.InProgress ==>
        Get(Obj(MergeSection(Obj(Flagged(section)), ResetRecord(finishedAt))), k) == Get(section, k)
  {
    var after := Obj(MergeSection(Obj(Flagged(section)), ResetRecord(finishedAt)));
    assert Get(after, Constants.LastUpdatedTimestamp) == Num(finishedAt);
    assert Get(after, Constants.InProgress) == Bool(false);
    assert TimestampOf(after, later) == Num(finishedAt);
  }

  // ---------------------------------------------------------------------
  // The refresh

  /** A document is as it was: present in both or in neither, and the same. */
  predicate Kept(d0: map<DocKey, Doc>, d1: map<DocKey, Doc>, k: DocKey) {
    (k in d0 <==> k in d1) && (k in d0 ==> d0[k] == d1[k])
  }

  /** Every collection of the store has a non-empty name (the store refuses
      an empty collection id). */
  predicate CollectionsNamed(docs: map<DocKey, Doc>) {
    forall k :: k in docs ==> k.coll != ""
  }

  /** The invocation info of a user's collection, null when there is none. */
  function InfoIn(docs: map<DocKey, Doc>, root: string, userId: string, collection: string): (r: Value)
    ensures r == Null <==> DocKey(root, userId, collection, Constants.InvokeInfo) !in docs
    ensures r != Null ==> r == Obj(docs[DocKey(root, userId, collection, Constants.InvokeInfo)])
  {
    var k := DocKey(root, userId, collection, Constants.InvokeInfo);
    if k in docs then Obj(docs[k]) else Null
  }

  /** `invokeInfo && invokeInfo.provider && invokeInfo.name` */
  predicate Selected(info: Value) {
    Truthy(info) && Truthy(Get(info, Constants.ProviderField)) && Truthy(Get(info, Constants.NameField))
  }

  /** `dataProviders[info.provider] && dataProviders[info.provider][info.name]` */
  function ProviderFor(registry: Registry, info: Value): (r: Option<Provider>)
    ensures r == Lookup(registry, Get(info, Constants.ProviderField), Get(info, Constants.NameField))
  {
    Lookup(registry, Get(info, Constants.ProviderField), Get(info, Constants.NameField))
  }

  /** The forced `getData` of a collection can write: its provider resolves
      and the provider call yields data. Otherwise it leaves the store alone. */
  predicate RefreshWrites(registry: Registry, info: Value, collection: string) {
    var p := ProviderFor(registry, info);
    Resolve(p, Some(collection)).Resolved? && Truthy(CallProvider(p, Get(info, Constants.ParamsField)))
  }

  /** The documents the forced `getData` of a collection leaves behind: when
      `RefreshWrites` holds, the invocation info, with the sentiment entries
      of the pass, restamped with the provider, the function, the parameters
      and `now`, and then the fetched array shredded into the collection by
      `itemKey` (an item keyed like the invocation info overwrites it);
      otherwise the documents as they were. */
  function RefreshResult(registry: Registry, docs: map<DocKey, Doc>, root: string, userId: string, collection: string,
                         now: int, analyze: Dal.Analyzer): map<DocKey, Doc>
  {
    var info := InfoIn(docs, root, userId, collection);
    var provider := ProviderFor(registry, info);
    if !RefreshWrites(registry, info, collection) then docs
    else
      var p := provider.value;
      var params := Get(info, Constants.ParamsField);
      var data := CallProvider(provider, params);
      docs[DocKey(root, userId, collection, Constants.InvokeInfo) :=
        Dal.InvocationInfo(Dal.SentimentPass(p, data, Fields(info), analyze).info, p, params, now)] +
      Dal.BatchWrites(root, userId, collection, data, KeyName(p.itemKey))
  }

  /** What a refresh stores: every fetched document and, unless an item is
      itself keyed like the invocation info, the invocation info stamped
      with the provider, the function, the same parameters and the time of
      the refresh; every other collection is as it was. */
  lemma RefreshStamps(registry: Registry, docs: map<DocKey, Doc>, root: string, userId: string, collection: string,
                      now: int, analyze: Dal.Analyzer)
    requires RefreshWrites(registry, InfoIn(docs, root, userId, collection), collection)
    ensures var info := InfoIn(docs, root, userId, collection);
      var provider := ProviderFor(registry, info);
      var data := CallProvider(provider, Get(info, Constants.ParamsField));
      var batch := Dal.BatchWrites(root, userId, collection, data, KeyName(provider.value.itemKey));
      var r := RefreshResult(registry, docs, root, userId, collection, now, analyze);
      (forall k :: k in batch ==> k in r && r[k] == batch[k]) &&
      (DocKey(root, userId, collection, Constants.InvokeInfo) !in batch ==>
        var stamped := InfoIn(r, root, userId, collection);
        Get(stamped, Constants.ProviderField) == Text(provider.value.provider) &&
        Get(stamped, Constants.NameField) == Text(provider.value.name) &&
        Get(stamped, Constants.ParamsField) == Get(info, Constants.ParamsField) &&
        Get(stamped, Constants.LastRetrievedField) == Num(now)) &&
      (forall k: DocKey :: !(k.root == root && k.user == userId && k.coll == collection) ==> Kept(docs, r, k))
  {
    var info := InfoIn(docs, root, userId, collection);
    var p := ProviderFor(registry, info).value;
    var params := Get(info, Constants.ParamsField);
    var data := CallProvider(ProviderFor(registry, info), params);
    var stored := Dal.InvocationInfo(Dal.SentimentPass(p, data, Fields(info), analyze).info, p, params, now);
    StoreOnlyInCollection(docs, root, userId, collection, stored, data, KeyName(p.itemKey));
  }

  /** The documents of `userId`'s `collection` in `d1` are those its refresh
      leaves from `d0`. */
  ghost predicate Refreshed(registry: Registry, d0: map<DocKey, Doc>, d1: map<DocKey, Doc>, root: string, userId: string,
                            collection: string, now: int, analyze: Dal.Analyzer) {
    forall n :: Kept(RefreshResult(registry, d0, root, userId, collection, now, analyze), d1, DocKey(root, userId, collection, n))
  }

  /** A refresh depends on nothing outside its own collection. */
  lemma RefreshResultLocal(registry: Registry, d0: map<DocKey, Doc>, d1: map<DocKey, Doc>, root: string, userId: string,
                           collection: string, now: int, analyze: Dal.Analyzer)
    requires forall n :: Kept(d0, d1, DocKey(root, userId, collection, n))
    ensures forall n :: Kept(RefreshResult(registry, d0, root, userId, collection, now, analyze),
      RefreshResult(registry, d1, root, userId, collection, now, analyze), DocKey(root, userId, collection, n))
  {
    assert Kept(d0, d1, DocKey(root, userId, collection, Constants.InvokeInfo));
    var info := InfoIn(d0, root, userId, collection);
    assert info == InfoIn(d1, root, userId, collection);
    var provider := ProviderFor(registry, info);
    if RefreshWrites(registry, info, collection) {
      var p := provider.value;
      var params := Get(info, Constants.ParamsField);
      var data := CallProvider(provider, params);
      var stored := Dal.InvocationInfo(Dal.SentimentPass(p, data, Fields(info), analyze).info, p, params, now);
      var batch := Dal.BatchWrites(root, userId, collection, data, KeyName(p.itemKey));
      forall n ensures Kept(d0[DocKey(root, userId, collection, Constants.InvokeInfo) := stored] + batch,
                            d1[DocKey(root, userId, collection, Constants.InvokeInfo) := stored] + batch,
                            DocKey(root, userId, collection, n)) {
        KeptUnderWrites(d0, d1, DocKey(root, userId, collection, Constants.InvokeInfo), stored, batch,
          DocKey(root, userId, collection, n));
      }
    }
  }

  /** The same writes over two stores keep a document both stores agree on. */
  lemma KeptUnderWrites(d0: map<DocKey, Doc>, d1: map<DocKey, Doc>, key: DocKey, doc: Doc, batch: map<DocKey, Doc>, k: DocKey)
    requires Kept(d0, d1, k)
    ensures Kept(d0[key := doc] + batch, d1[key := doc] + batch, k)
  {
  }

  /** Every collection in `colls` whose refresh writes from `d0` is, in
      `d1`, as that refresh leaves it. */
  ghost predicate AllRefreshed(registry: Registry, d0: map<DocKey, Doc>, d1: map<DocKey, Doc>, root: string, userId: string,
                               colls: set<string>, now: int, analyze: Dal.Analyzer) {
    forall c :: c in colls && RefreshWrites(registry, InfoIn(d0, root, userId, c), c) ==>
      Refreshed(registry, d0, d1, root, userId, c, now, analyze)
  }

  /** The store a refresh leaves is refreshed. */
  lemma RefreshedExactly(registry: Registry, d0: map<DocKey, Doc>, d1: map<DocKey, Doc>, root: string,
                         userId: string, collection: string, now: int, analyze: Dal.Analyzer)
    requires d1 == RefreshResult(registry, d0, root, userId, collection, now, analyze)
    ensures Refreshed(registry, d0, d1, root, userId, collection, now, analyze)
  {
  }

  /** A refresh stays in place while its collection is left alone. */
  lemma RefreshedThen(registry: Registry, d0: map<DocKey, Doc>, d1: map<DocKey, Doc>, d2: map<DocKey, Doc>, root: string,
                      userId: string, collection: string, now: int, analyze: Dal.Analyzer)
    requires Refreshed(registry, d0, d1, root, userId, collection, now, analyze)
    requires forall n :: Kept(d1, d2, DocKey(root, userId, collection, n))
    ensures Refreshed(registry, d0, d2, root, userId, collection, now, analyze)
  {
    forall n ensures Kept(RefreshResult(registry, d0, root, userId, collection, now, analyze), d2, DocKey(root, userId, collection, n)) {
      assert Kept(d1, d2, DocKey(root, userId, collection, n));
    }
  }

  /** A refresh of a collection left alone since `d0` is the refresh from `d0`. */
  lemma RefreshedAfter(registry: Registry, d0: map<DocKey, Doc>, d1: map<DocKey, Doc>, d2: map<DocKey, Doc>, root: string,
                       userId: string, collection: string, now: int, analyze: Dal.Analyzer)
    requires forall n :: Kept(d0, d1, DocKey(root, userId, collection, n))
    requires Refreshed(registry, d1, d2, root, userId, collection, now, analyze)
    ensures Refreshed(registry, d0, d2, root, userId, collection, now, analyze)
  {
    RefreshResultLocal(registry, d0, d1, root, userId, collection, now, analyze);
    forall n ensures Kept(RefreshResult(registry, d0, root, userId, collection, now, analyze), d2, DocKey(root, userId, collection, n)) {
      assert Kept(RefreshResult(registry, d1, root, userId, collection, now, analyze), d2, DocKey(root, userId, collection, n));
    }
  }

  /** A collection outside the changed ones is left alone. */
  lemma CollectionKept(registry: Registry, d0: map<DocKey, Doc>, d1: map<DocKey, Doc>, root: string, userId: string,
                       colls: set<string>, c: string)
    requires UserDocsChanged(registry, d0, d1, root, userId, colls)
    requires c !in colls
    ensures forall n :: Kept(d0, d1, DocKey(root, userId, c, n))
  {
    forall n ensures Kept(d0, d1, DocKey(root, userId, c, n)) {
    }
  }

  /** A refresh of `c` leaves every other collection alone. */
  lemma OtherCollectionsKept(registry: Registry, d1: map<DocKey, Doc>, d2: map<DocKey, Doc>, root: string, userId: string,
                             c: string, selected: bool)
    requires UserDocsChanged(registry, d1, d2, root, userId, if selected then {c} else {})
    ensures forall c', n :: c' != c ==> Kept(d1, d2, DocKey(root, userId, c', n))
  {
    forall c', n | c' != c ensures Kept(d1, d2, DocKey(root, userId, c', n)) {
    }
  }

  /** Refreshing one more collection `c`, untouched so far, keeps the
      collections refreshed before and adds `c`. */
  lemma AllRefreshedStep(registry: Registry, d0: map<DocKey, Doc>, d1: map<DocKey, Doc>, d2: map<DocKey, Doc>,
                         root: string, userId: string, colls: set<string>, c: string, selected: bool,
                         now: int, analyze: Dal.Analyzer)
    requires AllRefreshed(registry, d0, d1, root, userId, colls, now, analyze)
    requires c !in colls
    requires forall n :: Kept(d0, d1, DocKey(root, userId, c, n))
    requires forall c', n :: c' != c ==> Kept(d1, d2, DocKey(root, userId, c', n))
    requires selected && RefreshWrites(registry, InfoIn(d1, root, userId, c), c) ==>
      Refreshed(registry, d1, d2, root, userId, c, now, analyze)
    ensures AllRefreshed(registry, d0, d2, root, userId, if selected then colls + {c} else colls, now, analyze)
  {
    assert Kept(d0, d1, DocKey(root, userId, c, Constants.InvokeInfo));
    assert InfoIn(d1, root, userId, c) == InfoIn(d0, root, userId, c);
    if selected && RefreshWrites(registry, InfoIn(d0, root, userId, c), c) {
      RefreshedAfter(registry, d0, d1, d2, root, userId, c, now, analyze);
    }
    forall c' | c' in colls && RefreshWrites(registry, InfoIn(d0, root, userId, c'), c')
      ensures Refreshed(registry, d0, d2, root, userId, c', now, analyze)
    {
      RefreshedThen(registry, d0, d1, d2, root, userId, c', now, analyze);
    }
  }

  /** Every (user, collection) pair in `refreshed` whose refresh writes from
      `d0` is, in `d1`, as that refresh leaves it. */
  ghost predicate PairsRefreshed(registry: Registry, d0: map<DocKey, Doc>, d1: map<DocKey, Doc>, root: string,
                                 refreshed: set<(string, string)>, now: int, analyze: Dal.Analyzer) {
    forall u, c :: (u, c) in refreshed && RefreshWrites(registry, InfoIn(d0, root, u, c), c) ==>
      Refreshed(registry, d0, d1, root, u, c, now, analyze)
  }

  /** Refreshing one more user, untouched so far, keeps the pairs refreshed
      before and adds that user's collections. */
  lemma PairsRefreshedStep(registry: Registry, d0: map<DocKey, Doc>, d1: map<DocKey, Doc>, d2: map<DocKey, Doc>,
                           root: string, refreshed: set<(string, string)>, userId: string, colls: set<string>,
                           now: int, analyze: Dal.Analyzer)
    requires PairsRefreshed(registry, d0, d1, root, refreshed, now, analyze)
    requires DocsChanged(registry, d0, d1, root, refreshed)
    requires forall c :: (userId, c) !in refreshed
    requires UserDocsChanged(registry, d1, d2, root, userId, colls)
    requires AllRefreshed(registry, d1, d2, root, userId, colls, now, analyze)
    ensures PairsRefreshed(registry, d0, d2, root, refreshed + set c | c in colls :: (userId, c), now, analyze)
  {
    forall u, c | (u, c) in refreshed + (set c | c in colls :: (userId, c)) && RefreshWrites(registry, InfoIn(d0, root, u, c), c)
      ensures Refreshed(registry, d0, d2, root, u, c, now, analyze)
    {
      if u == userId {
        assert (u, c) !in refreshed;
        forall n ensures Kept(d0, d1, DocKey(root, userId, c, n)) {
        }
        assert Kept(d0, d1, DocKey(root, userId, c, Constants.InvokeInfo));
        RefreshedAfter(registry, d0, d1, d2, root, userId, c, now, analyze);
      } else {
        forall n ensures Kept(d1, d2, DocKey(root, u, c, n)) {
        }
        RefreshedThen(registry, d0, d1, d2, root, u, c, now, analyze);
      }
    }
  }

  /** A user the pipeline visits: a stored user other than the system-info user. */
  predicate PipelineUser(userDocs: map<UserKey, Doc>, root: string, userId: string) {
    UserKey(root, userId) in userDocs && userId != Constants.SystemInfo
  }

  /** A refresh through the data-access layer writes the collection's
      invocation info and documents and nothing else. */
  lemma StoreOnlyInCollection(d0: map<DocKey, Doc>, root: string, userId: string, collection: string, info: Doc,
                              data: Value, key: string)
    ensures forall k: DocKey :: !(k.root == root && k.user == userId && k.coll == collection) ==>
      Kept(d0, d0[DocKey(root, userId, collection, Constants.InvokeInfo) := info] +
        Dal.BatchWrites(root, userId, collection, data, key), k)
  {
    forall k: DocKey | !(k.root == root && k.user == userId && k.coll == collection)
      ensures k !in Dal.BatchWrites(root, userId, collection, data, key)
    {
    }
  }

  /** Every document changed from `d0` to `d1` is in one of the collections
      `colls` of `userId`, each of which `RefreshWrites` from its invocation
      info in `d0`. */
  ghost predicate UserDocsChanged(registry: Registry, d0: map<DocKey, Doc>, d1: map<DocKey, Doc>, root: string,
                                  userId: string, colls: set<string>) {
    forall k :: !Kept(d0, d1, k) ==>
      k.root == root && k.user == userId && k.coll in colls && RefreshWrites(registry, InfoIn(d0, root, userId, k.coll), k.coll)
  }

  /** Refreshing one more collection `c`, whose invocation info was not
      touched before, extends the changed documents by that collection. */
  lemma UserDocsChangedStep(registry: Registry, d0: map<DocKey, Doc>, d1: map<DocKey, Doc>, d2: map<DocKey, Doc>,
                            root: string, userId: string, colls: set<string>, c: string, selected: bool)
    requires UserDocsChanged(registry, d0, d1, root, userId, colls)
    requires InfoIn(d1, root, userId, c) == InfoIn(d0, root, userId, c)
    requires UserDocsChanged(registry, d1, d2, root, userId, if selected then {c} else {})
    ensures UserDocsChanged(registry, d0, d2, root, userId, if selected then colls + {c} else colls)
  {
    forall k | !Kept(d0, d2, k)
      ensures k.root == root && k.user == userId && k.coll in (if selected then colls + {c} else colls) &&
        RefreshWrites(registry, InfoIn(d0, root, userId, k.coll), k.coll)
    {
      if Kept(d1, d2, k) {
        assert !Kept(d0, d1, k);
      }
    }
  }

  /** `refreshed` holds exactly the collections in `done` that pass
      `Selected` in `docs`. */
  ghost predicate SelectedIn(docs: map<DocKey, Doc>, root: string, userId: string, done: seq<string>, refreshed: set<string>) {
    forall c :: c in refreshed <==> c in done && Selected(InfoIn(docs, root, userId, c))
  }

  lemma SelectedInStep(d0: map<DocKey, Doc>, d1: map<DocKey, Doc>, root: string, userId: string,
                       collections: seq<string>, j: nat, refreshed: set<string>, selected: bool)
    requires j < |collections| && collections[j] !in collections[..j]
    requires SelectedIn(d0, root, userId, collections[..j], refreshed)
    requires InfoIn(d1, root, userId, collections[j]) == InfoIn(d0, root, userId, collections[j])
    requires selected <==> Selected(InfoIn(d1, root, userId, collections[j]))
    ensures SelectedIn(d0, root, userId, collections[..j + 1], if selected then refreshed + {collections[j]} else refreshed)
  {
    assert collections[..j + 1] == collections[..j] + [collections[j]];
  }

  /** Every document changed from `d0` to `d1` belongs to a (user,
      collection) pair in `refreshed` that `RefreshWrites` from `d0`. */
  ghost predicate DocsChanged(registry: Registry, d0: map<DocKey, Doc>, d1: map<DocKey, Doc>, root: string,
                              refreshed: set<(string, string)>) {
    forall k :: !Kept(d0, d1, k) ==>
      (k.user, k.coll) in refreshed && k.root == root && RefreshWrites(registry, InfoIn(d0, root, k.user, k.coll), k.coll)
  }

  /** Refreshing one more user, none of whose invocation info was touched
      before, extends the changed documents by that user's collections. */
  lemma DocsChangedStep(registry: Registry, d0: map<DocKey, Doc>, d1: map<DocKey, Doc>, d2: map<DocKey, Doc>,
                        root: string, refreshed: set<(string, string)>, userId: string, colls: set<string>)
    requires DocsChanged(registry, d0, d1, root, refreshed)
    requires forall c :: InfoIn(d1, root, userId, c) == InfoIn(d0, root, userId, c)
    requires UserDocsChanged(registry, d1, d2, root, userId, colls)
    ensures DocsChanged(registry, d0, d2, root, refreshed + set c | c in colls :: (userId, c))
  {
    forall k | !Kept(d0, d2, k)
      ensures (k.user, k.coll) in refreshed + set c | c in colls :: (userId, c)
      ensures k.root == root && RefreshWrites(registry, InfoIn(d0, root, k.user, k.coll), k.coll)
    {
      if Kept(d1, d2, k) {
        assert !Kept(d0, d1, k);
      } else {
        assert InfoIn(d1, root, userId, k.coll) == InfoIn(d0, root, userId, k.coll);
      }
    }
  }

  /** `refreshed` holds exactly the pairs of a user in `done` and a
      collection that passes `Selected` in `docs`. */
  ghost predicate SelectedPairs(docs: map<DocKey, Doc>, root: string, done: seq<string>, refreshed: set<(string, string)>) {
    forall u, c :: (u, c) in refreshed <==> u in done && Selected(InfoIn(docs, root, u, c))
  }

  lemma SelectedPairsStep(d0: map<DocKey, Doc>, d1: map<DocKey, Doc>, root: string,
                          users: seq<string>, i: nat, refreshed: set<(string, string)>, colls: set<string>)
    requires i < |users| && users[i] !in users[..i]
    requires SelectedPairs(d0, root, users[..i], refreshed)
    requires forall c :: InfoIn(d1, root, users[i], c) == InfoIn(d0, root, users[i], c)
    requires forall c :: c in colls <==> Selected(InfoIn(d1, root, users[i], c))
    ensures SelectedPairs(d0, root, users[..i + 1], refreshed + set c | c in colls :: (users[i], c))
  {
    var done, userId := users[..i], users[i];
    assert users[..i + 1] == done + [userId];
    forall u, c
      ensures (u, c) in refreshed + (set c | c in colls :: (userId, c)) <==>
        u in done + [userId] && Selected(InfoIn(d0, root, u, c))
    {
      if u == userId {
        assert InfoIn(d1, root, userId, c) == InfoIn(d0, root, userId, c);
        assert (u, c) !in refreshed;
      }
    }
  }

  /** One collection of the fan-out: when its invocation info names a
      provider and a function, `getData(userId, provider, collection,
      info.params, true)` at time `now`. Only that collection can change, and
      only when the forced fetch yields data. */
  method RefreshCollection(fs: FirestoreStore, registry: Registry, userId: string, collection: string, now: int,
                           analyze: Dal.Analyzer)
    returns (ghost selected: bool)
    requires collection != ""
    modifies fs`docs
    ensures selected <==> Selected(old(InfoIn(fs.docs, fs.root, userId, collection)))
    ensures UserDocsChanged(registry, old(fs.docs), fs.docs, fs.root, userId, if selected then {collection} else {})
    ensures selected ==> fs.docs == RefreshResult(registry, old(fs.docs), fs.root, userId, collection, now, analyze)
  {
    var invokeInfo := fs.GetDocument(userId, collection, Constants.InvokeInfo);
    selected := false;
    if Truthy(invokeInfo) && Truthy(Get(invokeInfo, Constants.ProviderField)) && Truthy(Get(invokeInfo, Constants.NameField)) {
      selected := true;
      var provider := Lookup(registry, Get(invokeInfo, Constants.ProviderField), Get(invokeInfo, Constants.NameField));
      var params := Get(invokeInfo, Constants.ParamsField);
      var r, analyzed;
      ghost var cached;
      r, analyzed, cached := Dal.GetData(fs, userId, provider, Some(collection), params, true, now, analyze);
      if Resolve(provider, Some(collection)).Resolved? && Truthy(CallProvider(provider, params)) {
        var p := provider.value;
        var d := CallProvider(provider, params);
        ghost var info := old(Dal.StoredInfo(fs, userId, collection));
        assert info == Fields(old(InfoIn(fs.docs, fs.root, userId, collection)));
        ghost var stored := Dal.InvocationInfo(Dal.SentimentPass(p, d, info, analyze).info, p, params, now);
        StoreOnlyInCollection(old(fs.docs), fs.root, userId, collection, stored, d, KeyName(p.itemKey));
      }
    }
  }

  /** One user of the fan-out: every collection of the user, one after the
      other; a user without collections is skipped. */
  method RefreshUser(fs: FirestoreStore, registry: Registry, userId: string, now: int, analyze: Dal.Analyzer)
    returns (ghost refreshed: set<string>)
    requires CollectionsNamed(fs.docs)
    modifies fs`docs
    ensures CollectionsNamed(fs.docs)
    ensures forall c :: c in refreshed <==> Selected(old(InfoIn(fs.docs, fs.root, userId, c)))
    ensures UserDocsChanged(registry, old(fs.docs), fs.docs, fs.root, userId, refreshed)
    ensures AllRefreshed(registry, old(fs.docs), fs.docs, fs.root, userId, refreshed, now, analyze)
  {
    refreshed := {};
    var collections := fs.GetUserCollections(userId);
    forall c | Selected(InfoIn(fs.docs, fs.root, userId, c)) ensures c in collections {
      assert DocKey(fs.root, userId, c, Constants.InvokeInfo) in fs.docs;
    }
    if |collections| == 0 {
      return;
    }
    var j := 0;
    while j < |collections|
      invariant 0 <= j <= |collections|
      invariant CollectionsNamed(fs.docs)
      invariant SelectedIn(old(fs.docs), fs.root, userId, collections[..j], refreshed)
      invariant UserDocsChanged(registry, old(fs.docs), fs.docs, fs.root, userId, refreshed)
      invariant AllRefreshed(registry, old(fs.docs), fs.docs, fs.root, userId, refreshed, now, analyze)
    {
      var collection := collections[j];
      assert collection !in collections[..j];
      assert collection != "" by {
        assert collection in collections;
        var k :| k in old(fs.docs) && k.root == fs.root && k.user == userId && k.coll == collection;
      }
      assert Kept(old(fs.docs), fs.docs, DocKey(fs.root, userId, collection, Constants.InvokeInfo));
      assert InfoIn(fs.docs, fs.root, userId, collection) == old(InfoIn(fs.docs, fs.root, userId, collection));
      ghost var before := fs.docs;
      ghost var selected := RefreshCollection(fs, registry, userId, collection, now, analyze);
      CollectionKept(registry, old(fs.docs), before, fs.root, userId, refreshed, collection);
      OtherCollectionsKept(registry, before, fs.docs, fs.root, userId, collection, selected);
      if selected && RefreshWrites(registry, InfoIn(before, fs.root, userId, collection), collection) {
        RefreshedExactly(registry, before, fs.docs, fs.root, userId, collection, now, analyze);
      }
      AllRefreshedStep(registry, old(fs.docs), before, fs.docs, fs.root, userId, refreshed, collection, selected, now, analyze);
      UserDocsChangedStep(registry, old(fs.docs), before, fs.docs, fs.root, userId, refreshed, collection, selected);
      SelectedInStep(old(fs.docs), before, fs.root, userId, collections, j, refreshed, selected);
      if selected {
        refreshed := refreshed + {collection};
      }
      j := j + 1;
    }
    assert collections[..j] == collections;
  }

  /** `invokeDataPipeline()` with the completion time `finishedAt`: every
      collection of every user (the system-info user excluded) whose
      invocation info names a provider and a function is re-fetched with
      `forceRefresh = true`, and then the section is stamped with the
      completion time and `inProgress = false`. `refreshed` lists the
      (user, collection) pairs handed to `getData`. */
  method InvokeDataPipeline(fs: FirestoreStore, registry: Registry, now: int, finishedAt: int, analyze: Dal.Analyzer)
    returns (ghost refreshed: set<(string, string)>)
    requires CollectionsNamed(fs.docs)
    modifies fs`docs, fs`userDocs
    ensures CollectionsNamed(fs.docs)
    ensures forall u, c :: (u, c) in refreshed <==>
      PipelineUser(old(fs.userDocs), fs.root, u) && Selected(old(InfoIn(fs.docs, fs.root, u, c)))
    ensures DocsChanged(registry, old(fs.docs), fs.docs, fs.root, refreshed)
    ensures PairsRefreshed(registry, old(fs.docs), fs.docs, fs.root, refreshed, now, analyze)
    ensures fs.userDocs == old(fs.userDocs)[UserKey(fs.root, Constants.SystemInfo) :=
      old(fs.UserRecord(Constants.SystemInfo))[Constants.DataPipelineSection :=
        Obj(MergeSection(Get(Obj(old(fs.UserRecord(Constants.SystemInfo))), Constants.DataPipelineSection), ResetRecord(finishedAt)))]]
  {
    var users := UserDatabase.GetAllUsers(fs);
    refreshed := RefreshUsers(fs, registry, users, now, analyze);
    assert fs.UserRecord(Constants.SystemInfo) == old(fs.UserRecord(Constants.SystemInfo));
    ghost var record := fs.UserRecord(Constants.SystemInfo);
    var _ := fs.SetUserData(Constants.SystemInfo, Constants.DataPipelineSection, ResetRecord(finishedAt));
    assert fs.userDocs == old(fs.userDocs)[UserKey(fs.root, Constants.SystemInfo) := record[Constants.DataPipelineSection :=
        Obj(MergeSection(Get(Obj(record), Constants.DataPipelineSection), ResetRecord(finishedAt)))]];
  }

  /** The loop over the users of `invokeDataPipeline()`: each user's
      collections, one user after the other. */
  method RefreshUsers(fs: FirestoreStore, registry: Registry, users: seq<string>, now: int, analyze: Dal.Analyzer)
    returns (ghost refreshed: set<(string, string)>)
    requires UserDatabase.Distinct(users)
    requires CollectionsNamed(fs.docs)
    modifies fs`docs
    ensures CollectionsNamed(fs.docs)
    ensures SelectedPairs(old(fs.docs), fs.root, users, refreshed)
    ensures DocsChanged(registry, old(fs.docs), fs.docs, fs.root, refreshed)
    ensures PairsRefreshed(registry, old(fs.docs), fs.docs, fs.root, refreshed, now, analyze)
  {
    refreshed := {};
    var i := 0;
    while i < |users|
      invariant 0 <= i <= |users|
      invariant CollectionsNamed(fs.docs)
      invariant SelectedPairs(old(fs.docs), fs.root, users[..i], refreshed)
      invariant DocsChanged(registry, old(fs.docs), fs.docs, fs.root, refreshed)
      invariant PairsRefreshed(registry, old(fs.docs), fs.docs, fs.root, refreshed, now, analyze)
    {
      var userId := users[i];
      assert forall j :: 0 <= j < i ==> users[j] != users[i];
      assert userId !in users[..i];
      forall c ensures InfoIn(fs.docs, fs.root, userId, c) == old(InfoIn(fs.docs, fs.root, userId, c)) {
        assert Kept(old(fs.docs), fs.docs, DocKey(fs.root, userId, c, Constants.InvokeInfo));
      }
      ghost var before := fs.docs;
      ghost var colls := RefreshUser(fs, registry, userId, now, analyze);
      assert forall c :: (userId, c) !in refreshed;
      PairsRefreshedStep(registry, old(fs.docs), before, fs.docs, fs.root, refreshed, userId, colls, now, analyze);
      DocsChangedStep(registry, old(fs.docs), before, fs.docs, fs.root, refreshed, userId, colls);
      SelectedPairsStep(old(fs.docs), before, fs.root, users, i, refreshed, colls);
      refreshed := refreshed + set c | c in colls :: (userId, c);
      i := i + 1;
    }
    assert users[..i] == users;
  }

  /** Overwriting a key twice leaves the second value. */
  lemma WriteTwice<K, V>(m: map<K, V>, k: K, a: V, b: V)
    ensures m[k := a][k := b] == m[k := b]
  {
  }

  /** The body of the handler once the guard let it through: the section is
      stored with `inProgress = true` (`during` is what a trigger delivered
      while the pipeline runs reads), the pipeline runs, and the section is
      reset. */
  method FlagAndRun(fs: FirestoreStore, registry: Registry, now: int, finishedAt: int, analyze: Dal.Analyzer)
    returns (ghost during: Value, ghost refreshed: set<(string, string)>)
    requires CollectionsNamed(fs.docs)
    requires !Nullish(fs.GetUserData(Constants.SystemInfo, Some(Constants.DataPipelineSection)))
    modifies fs`docs, fs`userDocs
    ensures var section := old(fs.GetUserData(Constants.SystemInfo, Some(Constants.DataPipelineSection)));
      during == Obj(Flagged(section)) &&
      (section.Obj? ==> forall later :: Decide(during, later) != Ran)
    ensures forall u, c :: (u, c) in refreshed <==>
      PipelineUser(old(fs.userDocs), fs.root, u) && Selected(old(InfoIn(fs.docs, fs.root, u, c)))
    ensures forall k :: !Kept(old(fs.docs), fs.docs, k) ==>
      ((k.user, k.coll) in refreshed && k.root == fs.root &&
       RefreshWrites(registry, old(InfoIn(fs.docs, fs.root, k.user, k.coll)), k.coll))
    ensures forall u, c :: (u, c) in refreshed && RefreshWrites(registry, old(InfoIn(fs.docs, fs.root, u, c)), c) ==>
      Refreshed(registry, old(fs.docs), fs.docs, fs.root, u, c, now, analyze)
    ensures fs.userDocs == old(fs.userDocs)[UserKey(fs.root, Constants.SystemInfo) :=
      old(fs.UserRecord(Constants.SystemInfo))[Constants.DataPipelineSection :=
        Obj(MergeSection(Obj(Flagged(old(fs.GetUserData(Constants.SystemInfo, Some(Constants.DataPipelineSection))))),
          ResetRecord(finishedAt)))]]
  {
    var dataPipelineObject := fs.GetUserData(Constants.SystemInfo, Some(Constants.DataPipelineSection));
    ghost var section := dataPipelineObject;
    ghost var record := fs.UserRecord(Constants.SystemInfo);
    ghost var key := UserKey(fs.root, Constants.SystemInfo);
    assert section == Get(Obj(record), Constants.DataPipelineSection);
    dataPipelineObject := Put(dataPipelineObject, Constants.InProgress, Bool(true));
    var _ := fs.SetUserData(Constants.SystemInfo, Constants.DataPipelineSection, dataPipelineObject);
    during := fs.GetUserData(Constants.SystemInfo, Some(Constants.DataPipelineSection));
    assert during == Obj(Flagged(section));
    forall later | section.Obj?
      ensures Decide(during, later) != Ran
    {
      SecondTriggerSkipped(section, later);
    }
    ghost var flagged := fs.userDocs;
    ghost var flaggedRecord := record[Constants.DataPipelineSection := during];
    assert flagged == old(fs.userDocs)[key := flaggedRecord];
    assert forall u :: PipelineUser(flagged, fs.root, u) == PipelineUser(old(fs.userDocs), fs.root, u);
    assert fs.UserRecord(Constants.SystemInfo) == flaggedRecord;
    refreshed := InvokeDataPipeline(fs, registry, now, finishedAt, analyze);
    assert Get(Obj(flaggedRecord), Constants.DataPipelineSection) == during;
    ghost var final := Obj(MergeSection(during, ResetRecord(finishedAt)));
    WriteTwice(record, Constants.DataPipelineSection, during, final);
    WriteTwice(old(fs.userDocs), key, flaggedRecord, record[Constants.DataPipelineSection := final]);
  }

  /** `dataPipelineHandler()` at time `now`, with the refresh completing at
      `finishedAt`. The run happens exactly as `Decide` says; before the body
      the section is stored with `inProgress = true` (`during` is what a
      trigger delivered while the body runs reads), and afterwards it is
      reset. Otherwise nothing is written. */
  method DataPipelineHandler(fs: FirestoreStore, registry: Registry, now: int, finishedAt: int, analyze: Dal.Analyzer)
    returns (outcome: Outcome, ghost during: Value, ghost refreshed: set<(string, string)>)
    requires CollectionsNamed(fs.docs)
    modifies fs`docs, fs`userDocs
    ensures outcome == Decide(old(fs.GetUserData(Constants.SystemInfo, Some(Constants.DataPipelineSection))), now)
    ensures outcome != Ran ==> fs.docs == old(fs.docs) && fs.userDocs == old(fs.userDocs)
    ensures outcome == Ran ==>
      var section := old(fs.GetUserData(Constants.SystemInfo, Some(Constants.DataPipelineSection)));
      during == Obj(Flagged(section)) &&
      (section.Obj? ==> forall later :: Decide(during, later) != Ran) &&
      (forall u, c :: (u, c) in refreshed <==>
        PipelineUser(old(fs.userDocs), fs.root, u) && Selected(old(InfoIn(fs.docs, fs.root, u, c)))) &&
      (forall k :: !Kept(old(fs.docs), fs.docs, k) ==>
        ((k.user, k.coll) in refreshed && k.root == fs.root &&
         RefreshWrites(registry, old(InfoIn(fs.docs, fs.root, k.user, k.coll)), k.coll))) &&
      (forall u, c :: (u, c) in refreshed && RefreshWrites(registry, old(InfoIn(fs.docs, fs.root, u, c)), c) ==>
        Refreshed(registry, old(fs.docs), fs.docs, fs.root, u, c, now, analyze)) &&
      fs.userDocs == old(fs.userDocs)[UserKey(fs.root, Constants.SystemInfo) :=
        old(fs.UserRecord(Constants.SystemInfo))[Constants.DataPipelineSection :=
          Obj(MergeSection(Obj(Flagged(section)), ResetRecord(finishedAt)))]]
  {
    during := Null;
    refreshed := {};
    var dataPipelineObject := fs.GetUserData(Constants.SystemInfo, Some(Constants.DataPipelineSection));
    var timestamp := Or(And(dataPipelineObject, Get(dataPipelineObject, Constants.LastUpdatedTimestamp)),
      Num(now - Constants.OneHour));
    if !IsStale(timestamp, now) {
      return NotDue, during, refreshed;
    }
    if Nullish(dataPipelineObject) {
      // reading `.inProgress` of a missing record throws; the handler catches it
      return Crashed, during, refreshed;
    }
    if Truthy(Get(dataPipelineObject, Constants.InProgress)) {
      return Busy, during, refreshed;
    }
    during, refreshed := FlagAndRun(fs, registry, now, finishedAt, analyze);
    outcome := Ran;
  }

  // ---------------------------------------------------------------------
  // The pub/sub resources

  const InvokeLoad := "invoke-load"
  const Endpoint := "https://saasmaster-api-rlxsdnkh6a-uc.a.run.app/invoke-load"
  const ServiceAccount := "cloud-run-pubsub-invoker@saasmaster.iam.gserviceaccount.com"

  /** `invoke-load-${env}` */
  function TopicName(env: string): string {
    InvokeLoad + "-" + env
  }

  /** `invoke-load-sub-${env}` */
  function SubName(env: string): string {
    InvokeLoad + "-sub-" + env
  }

  /** `invoke-load-job-${env}` */
  function JobName(env: string): string {
    InvokeLoad + "-job-" + env
  }

  /** Each environment gets its own topic, subscription and job, and within
      one environment the three names differ. */
  lemma PipelineNamesDistinct(a: string, b: string)
    ensures TopicName(a) == TopicName(b) ==> a == b
    ensures SubName(a) == SubName(b) ==> a == b
    ensures JobName(a) == JobName(b) ==> a == b
    ensures TopicName(a) != SubName(a) && TopicName(a) != JobName(a) && SubName(a) != JobName(a)
  {
    if TopicName(a) == TopicName(b) {
      assert a == TopicName(a)[|InvokeLoad| + 1..] && b == TopicName(b)[|InvokeLoad| + 1..];
    }
    if SubName(a) == SubName(b) {
      assert a == SubName(a)[|InvokeLoad| + 5..] && b == SubName(b)[|InvokeLoad| + 5..];
    }
    if JobName(a) == JobName(b) {
      assert a == JobName(a)[|InvokeLoad| + 5..] && b == JobName(b)[|InvokeLoad| + 5..];
    }
    assert |TopicName(a)| != |SubName(a)| && |TopicName(a)| != |JobName(a)|;
    assert SubName(a)[|InvokeLoad| + 1] == 's' && JobName(a)[|InvokeLoad| + 1] == 'j';
  }

  /** A call into the messaging or scheduling service. */
  datatype CloudCall =
    | CreateTopic(topicName: string)
    | CreatePushSubscription(topic: string, subName: string, endpoint: string, serviceAccount: string)
    | CreatePullSubscription(topic: string, subName: string, action: string)
    | CreateJob(jobName: string, topic: string)

  /** The section records the environment's three resource names. */
  predicate NamesRecorded(section: Value, env: string) {
    Get(section, "topicName") == Str(TopicName(env)) &&
    Get(section, "subName") == Str(SubName(env)) &&
    Get(section, "jobName") == Str(JobName(env))
  }

  /** Recording the three names puts them into an object section. */
  lemma RecordNames(section: Value, env: string)
    requires section.Obj?
    ensures var r := Put(Put(Put(section, "topicName", Str(TopicName(env))), "subName", Str(SubName(env))), "jobName", Str(JobName(env)));
      r.Obj? && NamesRecorded(r, env)
  {
  }

  /** A section that records the names passes them on through a merge write. */
  lemma NamesRecordedMerge(current: Value, data: Value, env: string)
    requires data.Obj? && NamesRecorded(data, env)
    ensures NamesRecorded(Obj(MergeSection(current, data)), env)
  {
    var merged := Obj(MergeSection(current, data));
    assert Get(merged, "topicName") == Get(data, "topicName");
    assert Get(merged, "subName") == Get(data, "subName");
    assert Get(merged, "jobName") == Get(data, "jobName");
  }

  /** The 'prod' branch of `createDataPipeline`, given the stored section:
      the service calls made, and the section to store (None when the
      operation ends first: a missing record makes reading its names throw,
      and a topic that cannot be created stops it). */
  method ProdResources(section: Value, topic: Option<string>) returns (calls: seq<CloudCall>, updated: Option<Value>)
    ensures Nullish(section) ==> calls == [] && updated.None?
    ensures !Nullish(section) && NamesRecorded(section, "prod") ==> calls == [] && updated == Some(section)
    ensures !Nullish(section) && !NamesRecorded(section, "prod") && topic.None? ==>
      calls == [CreateTopic(TopicName("prod"))] && updated.None?
    ensures !Nullish(section) && !NamesRecorded(section, "prod") && topic.Some? ==>
      calls == [CreateTopic(TopicName("prod")),
        CreatePushSubscription(topic.value, SubName("prod"), Endpoint, ServiceAccount),
        CreateJob(JobName("prod"), topic.value)] &&
      updated.Some?
    ensures updated.Some? && section.Obj? ==> updated.value.Obj? && NamesRecorded(updated.value, "prod")
  {
    if Nullish(section) {
      // reading `.topicName` of a missing record throws
      return [], None;
    }
    var topicName := TopicName("prod");
    var subName := SubName("prod");
    var jobName := JobName("prod");
    var dataPipelineObject := section;
    calls := [];
    if Get(dataPipelineObject, "topicName") != Str(topicName) ||
       Get(dataPipelineObject, "subName") != Str(subName) ||
       Get(dataPipelineObject, "jobName") != Str(jobName) {
      calls := calls + [CreateTopic(topicName)];
      if topic.None? {
        return calls, None;
      }
      dataPipelineObject := Put(dataPipelineObject, "topicName", Str(topicName));
      calls := calls + [CreatePushSubscription(topic.value, subName, Endpoint, ServiceAccount)];
      dataPipelineObject := Put(dataPipelineObject, "subName", Str(subName));
      calls := calls + [CreateJob(jobName, topic.value)];
      dataPipelineObject := Put(dataPipelineObject, "jobName", Str(jobName));
      if section.Obj? {
        RecordNames(section, "prod");
      }
    }
    updated := Some(dataPipelineObject);
  }

  /** The 'dev' branch of `createDataPipeline`, given the stored section: the
      topic and a pull subscription are always set up, the job only when the
      section does not record it; None when the operation ends first. */
  method DevResources(section: Value, topic: Option<string>) returns (calls: seq<CloudCall>, updated: Option<Value>)
    ensures |calls| >= 1 && calls[0] == CreateTopic(TopicName("dev"))
    ensures topic.None? || Nullish(section) ==> calls == [CreateTopic(TopicName("dev"))] && updated.None?
    ensures topic.Some? && !Nullish(section) ==>
      updated.Some? && |calls| >= 2 &&
      calls[..2] == [CreateTopic(TopicName("dev")), CreatePullSubscription(topic.value, SubName("dev"), InvokeLoad)] &&
      (Get(section, "jobName") == Str(JobName("dev")) <==> |calls| == 2) &&
      (Get(section, "jobName") != Str(JobName("dev")) ==> calls[2..] == [CreateJob(JobName("dev"), topic.value)])
    ensures updated.Some? && section.Obj? ==> updated.value.Obj? && NamesRecorded(updated.value, "dev")
  {
    var topicName := TopicName("dev");
    var subName := SubName("dev");
    var jobName := JobName("dev");
    calls := [CreateTopic(topicName)];
    if topic.None? {
      return calls, None;
    }
    if Nullish(section) {
      // assigning `.topicName` on a missing record throws
      return calls, None;
    }
    var dataPipelineObject := Put(section, "topicName", Str(topicName));
    calls := calls + [CreatePullSubscription(topic.value, subName, InvokeLoad)];
    dataPipelineObject := Put(dataPipelineObject, "subName", Str(subName));
    if Get(dataPipelineObject, "jobName") != Str(jobName) {
      calls := calls + [CreateJob(jobName, topic.value)];
      dataPipelineObject := Put(dataPipelineObject, "jobName", Str(jobName));
    }
    if section.Obj? {
      RecordNames(section, "dev");
    }
    updated := Some(dataPipelineObject);
  }

  /** `createDataPipeline(env)`. `topic` is what creating (or finding) the
      topic yields: its name, or None when it could not be created; `calls`
      are the service calls made, in order. In 'prod' the topic, a push
      subscription and the job are created only when a recorded name
      differs; in 'dev' the topic and a pull subscription are always set
      up and the job only when its recorded name differs. A missing topic
      ends the operation before anything is stored; so does a missing
      record in 'prod' or 'dev', where reading its fields throws. Any other
      environment writes the section back unchanged. */
  method CreateDataPipeline(fs: FirestoreStore, env: string, topic: Option<string>) returns (calls: seq<CloudCall>)
    modifies fs`userDocs
    ensures var section := old(fs.GetUserData(Constants.SystemInfo, Some(Constants.DataPipelineSection)));
      env == "prod" && !Nullish(section) && NamesRecorded(section, env) ==> calls == []
    ensures var section := old(fs.GetUserData(Constants.SystemInfo, Some(Constants.DataPipelineSection)));
      env == "prod" && !Nullish(section) && !NamesRecorded(section, env) ==>
        |calls| >= 1 && calls[0] == CreateTopic(TopicName(env)) &&
        (topic.Some? ==> calls == [CreateTopic(TopicName(env)),
          CreatePushSubscription(topic.value, SubName(env), Endpoint, ServiceAccount),
          CreateJob(JobName(env), topic.value)])
    ensures var section := old(fs.GetUserData(Constants.SystemInfo, Some(Constants.DataPipelineSection)));
      env == "dev" && topic.Some? && !Nullish(section) ==>
        |calls| >= 2 && calls[..2] == [CreateTopic(TopicName(env)), CreatePullSubscription(topic.value, SubName(env), InvokeLoad)] &&
        (Get(section, "jobName") == Str(JobName(env)) <==> |calls| == 2) &&
        (Get(section, "jobName") != Str(JobName(env)) ==> calls[2..] == [CreateJob(JobName(env), topic.value)])
    ensures env == "dev" ==> |calls| >= 1 && calls[0] == CreateTopic(TopicName(env))
    ensures env != "prod" && env != "dev" ==> calls == []
    ensures var section := old(fs.GetUserData(Constants.SystemInfo, Some(Constants.DataPipelineSection)));
      (env == "prod" || env == "dev") && Nullish(section) ==> fs.userDocs == old(fs.userDocs)
    ensures topic.None? && CreateTopic(TopicName(env)) in calls ==> fs.userDocs == old(fs.userDocs)
    ensures var section := old(fs.GetUserData(Constants.SystemInfo, Some(Constants.DataPipelineSection)));
      (env == "prod" || env == "dev") && section.Obj? && topic.Some? ==>
        NamesRecorded(fs.GetUserData(Constants.SystemInfo, Some(Constants.DataPipelineSection)), env)
    ensures var section := old(fs.GetUserData(Constants.SystemInfo, Some(Constants.DataPipelineSection)));
      env != "prod" && env != "dev" ==>
        fs.userDocs == old(fs.userDocs)[UserKey(fs.root, Constants.SystemInfo) :=
          old(fs.UserRecord(Constants.SystemInfo))[Constants.DataPipelineSection := Obj(MergeSection(section, section))]]
    ensures forall k :: k != UserKey(fs.root, Constants.SystemInfo) ==>
      (k in fs.userDocs <==> k in old(fs.userDocs)) && (k in old(fs.userDocs) ==> fs.userDocs[k] == old(fs.userDocs)[k])
  {
    var dataPipelineObject := fs.GetUserData(Constants.SystemInfo, Some(Constants.DataPipelineSection));
    var updated: Option<Value>;
    if env == "prod" {
      calls, updated := ProdResources(dataPipelineObject, topic);
    } else if env == "dev" {
      calls, updated := DevResources(dataPipelineObject, topic);
    } else {
      calls, updated := [], Some(dataPipelineObject);
    }
    if updated.Some? {
      var _ := fs.SetUserData(Constants.SystemInfo, Constants.DataPipelineSection, updated.value);
      if (env == "prod" || env == "dev") && dataPipelineObject.Obj? {
        NamesRecordedMerge(dataPipelineObject, updated.value, env);
      }
    }
  }

  /** Once the production resources are recorded, running the set-up again
      creates nothing. */
  lemma ProdSetupIdempotent(section: Value, topic: string)
    requires section.Obj?
    ensures NamesRecorded(Obj(MergeSection(section,
      Put(Put(Put(section, "topicName", Str(TopicName("prod"))), "subName", Str(SubName("prod"))), "jobName", Str(JobName("prod"))))),
      "prod")
  {
    RecordNames(section, "prod");
    NamesRecordedMerge(section,
      Put(Put(Put(section, "topicName", Str(TopicName("prod"))), "subName", Str(SubName("prod"))), "jobName", Str(JobName("prod"))),
      "prod");
  }
}
