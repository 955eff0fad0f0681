# saasmaster-api core, modelled in Dafny

This project models the data-access core of saasmaster-api, a Node.js
service. The service fetches a user's entities (reviews, posts, pages) from
third-party providers and caches them as documents in a Firestore store.
Periodically, a pub/sub-triggered data pipeline re-fetches every cached
collection. The model covers these parts:

- **The document store** (`Firestore`, `firestore.dfy`). This is
  `src/database-firestore.js` as a class over two maps:
  - user records, one section per connection;
  - collection documents, keyed by root, user, collection and name.

  The store's methods get and store documents, shred batches by an item key,
  query collections, list users and collections, merge a connection section
  into a user record, and remove a connection. `Tokens` (`tokens.dfy`) holds
  the two early token stores: the in-memory one and the Firestore one.
  `UserDatabase` (`database.dfy`) is the dispatching facade of
  `src/database.js`. It covers:
  - backend selection and the environment switch;
  - the system-info filter of `getAllUsers`;
  - the default connection of `setUserData`;
  - the `connections` report.
- **The entity caches.** A collection is served from the store while its
  invocation-info document (`__invoke_info`) records a fetch less than an hour
  old. Otherwise the provider is called and the result is written back.
  - `Cache` (`cache.dfy`) is `src/data/cache.js`.
  - `Dal` (`dal.dfy`) is `src/data/dal.js`. It adds:
    - sentiment scores kept per item in the invocation info;
    - their merge into the returned items;
    - `storeMetadata`, whose deep merge is also modelled.
  - `Storage` (`storage.dfy`) is `src/storage.js`, which keys freshness on
    `lastAccessTimes` in the user's provider section.
  - `EarlyStorage` (`early_storage.dfy`) is the root `storage.js`.

  `Providers` and `CachePolicy` (`provider.dfy`) hold three things shared by
  the caches:
  - calling a provider function;
  - resolving the provider and entity names;
  - the one-hour freshness test.
- **The data pipeline guard.** `Pipeline` (`pipeline.dfy`) is
  `src/data/datapipeline.js`. The handler runs only when the system-info
  `dataPipeline` section is more than 59 minutes old and not flagged
  `inProgress`. It flags the section, force-refreshes every selected
  collection of every user, then resets the section with the finishing time.
  `createDataPipeline` is modelled too: it sets up the topic, the
  subscription and the scheduler job, keeping their names idempotent.
  `LegacyPipeline` (`legacy_pipeline.dfy`) is the older `src/datapipeline.js`.
- **Environment helpers** (`Environment`, `environment.dfy`). These are
  `src/services/environment.js`: the current environment, per-environment
  OAuth configuration, the cloud-platform config file and the project id.

JavaScript values are modelled by `Json.Value` (`json.dfy`), with JavaScript's
truthiness, `||`, `&&`, property reads and writes, spread, and `>` on numbers.
Three things come in as parameters:
- the clock, as `now`, the pipeline's finishing time and the legacy reset time;
- provider functions, as `Value -> Reply`, where a reply either returns data
  or throws;
- the sentiment analyser, as `Value -> Option<int>`.

Three behaviours of the code are modelled as written, though they may look
unintended:
- on a merge, stored metadata overrides the item's own fields;
- the handler throws on a missing `dataPipeline` record, and the pipeline
  then does nothing;
- the legacy pipeline writes its `inProgress` flag under the key
  `"undefined"`, so the flag never blocks a run.

## Model

| member | source | states |
|---|---|---|
| Providers.CallProvider | src/providers/provider.js:6-31 | `callProvider` gives null with no function, on a throw or on a falsy response; otherwise the response, projected through `arrayKey` when one is set |
| Providers.CallProviderSucceeded | src/providers/provider.js:6-31 | a truthy result means the function exists, returned a truthy response, and the result is that response's projection |
| Providers.Lookup | src/data/datapipeline.js:142-145 | `dataProviders[name][func]` is found exactly when both keys exist, and is that entry |
| CachePolicy.Resolve | src/data/dal.js:11-17 | a request resolves iff there is a provider name and an entity, given or taken from the provider; the given entity wins; both resolved names are non-empty |
| CachePolicy.ServeFromCacheCases | src/data/cache.js:22-27 | with a numeric timestamp the cache serves iff no refresh is forced and it is less than an hour old; it never serves an undefined timestamp, never serves null after the epoch's first hour, and never serves a forced refresh |
| Firestore.RootAfterSetEnv | src/database-firestore.js:15-20 | the `dev` environment switches to the dev users root; any other keeps the root |
| Firestore.BatchName | src/database-firestore.js:50-68 | a batch element is stored under its key field exactly when it is an object whose key is a non-empty string |
| Firestore.BatchDocsNames | src/database-firestore.js:50-68 | the batch holds a document named `n` iff some element names itself `n` |
| Firestore.BatchLastWins | src/database-firestore.js:50-68 | when several elements share a name, the last one's fields are stored |
| Firestore.TokenExpired | src/database-firestore.js:189-201 | a token is not expired iff the user exists and `expiresAt > now` |
| Firestore.MergeSection | src/database-firestore.js:140-163 | a merge write keeps the old section's keys, adds the new keys, and the new values win |
| Firestore.MergeSectionIdempotent | src/database-firestore.js:140-163 | merging the same data twice equals merging it once |
| Firestore.FirestoreStore.constructor | src/database-firestore.js:7-13 | the store starts on the production users root with no data |
| Firestore.FirestoreStore.SetEnv | src/database-firestore.js:15-20 | the root becomes `RootAfterSetEnv` of the old root |
| Firestore.FirestoreStore.GetDocument | src/database-firestore.js:23-35 | null exactly when the document is missing, otherwise the stored fields |
| Firestore.FirestoreStore.StoreDocument | src/database-firestore.js:38-47 | an object is written under its key and read back unchanged; anything else is not stored |
| Firestore.FirestoreStore.StoreBatch | src/database-firestore.js:50-68 | an array adds exactly its named elements to the collection and changes nothing else; a non-array stores nothing |
| Firestore.FirestoreStore.Query | src/database-firestore.js:72-95 | the result lists each matching document of the collection once, with its stored contents; an unusable filter field gives null |
| Firestore.FirestoreStore.ListedNames | src/database-firestore.js:72-95 | the names the query returns are exactly the documents it matches |
| Firestore.FirestoreStore.GetAllUsers | src/database-firestore.js:98-106 | lists every stored user under the root, each once |
| Firestore.FirestoreStore.GetUserCollections | src/database-firestore.js:109-118 | lists every collection holding a document of the user, each once |
| Firestore.FirestoreStore.GetUserData | src/database-firestore.js:121-137 | null for a missing user; the connection's section when a connection is named; otherwise the whole record |
| Firestore.FirestoreStore.SetUserData | src/database-firestore.js:140-163 | the connection's section becomes the merge of the old section with the data; nothing else in the store changes |
| Firestore.FirestoreStore.RemoveConnection | src/database-firestore.js:166-186 | the user's record loses exactly that connection, and the section then reads as undefined |
| Tokens.TokenRecord | database-memory.js:12-49 | the stored record has the new access token and `created + expiresIn*1000` as expiry; the refresh token changes only when a truthy one is given; every other field is kept |
| Tokens.TokenRecordExpiry | database-memory.js:51-63 | a record just written is expired at `now` iff its computed expiry is not after `now` |
| Tokens.TokenRecordIdempotent | database-memory.js:12-49 | storing the same token data twice leaves the record as storing it once |
| Tokens.InMemoryTokenStore.GetUserData | database-memory.js:7-9 | the stored record, undefined for an unknown user |
| Tokens.InMemoryTokenStore.SetUserData | database.js:14-51 | only that user's record changes, to `TokenRecord` of the old one, and the new record is returned |
| Tokens.FirestoreTokenStore.GetUserData | database-firestore.js:13-25 | the stored record, null for an unknown user |
| Tokens.FirestoreTokenStore.SetUserData | database-firestore.js:28-59 | only that user's record changes, to `TokenRecord` of the old one, and the new record is returned |
| UserDatabase.BackendNamed | src/database.js:39-41 | no name or `firestore` selects Firestore, `memory` the memory backend, anything else none |
| UserDatabase.Database.constructor | src/database.js:20-27 | the facade starts on the Firestore backend |
| UserDatabase.Database.SetProvider | src/database.js:39-41 | the backend becomes `BackendNamed(prov)` |
| UserDatabase.Database.SetEnv | src/database.js:44-47 | throws iff no backend is selected; on Firestore the root follows the environment, defaulting to `prod` |
| UserDatabase.WithoutSystemInfo | src/database.js:71-76 | the filtered list holds exactly the users other than the system-info user |
| UserDatabase.WithoutSystemInfoAppend | src/database.js:71-76 | filtering distributes over concatenation |
| UserDatabase.WithoutSystemInfoNoop | src/database.js:71-76 | a list without the system-info user is unchanged |
| UserDatabase.WithoutSystemInfoDistinct | src/database.js:71-76 | filtering keeps a list duplicate-free |
| UserDatabase.GetAllUsers | src/database.js:71-76 | lists every stored user except the system-info user, each once |
| UserDatabase.ConnectionOrDefault | src/database.js:89-94 | the connection defaults to `google` |
| UserDatabase.SetUserData | src/database.js:89-94 | merges the data into the connection's section, defaulting to `google` |
| UserDatabase.BaseProvider | src/database.js:124 | the part of a user id before the first `\|`, or the whole id when it has none |
| UserDatabase.Entry | src/database.js:126-143 | one connection entry: its key and image; `base` exactly for the user's own provider; `linked` exactly for another connection the user holds; that connection's user id |
| UserDatabase.Connections | src/database.js:107-150 | a non-string user id gives `{}`; otherwise one entry per known connection, in order |
| UserDatabase.ConnectionsBase | src/database.js:126-143 | at most one entry is `base`, it is the user's provider, and with no stored user nothing is `linked` |
| UserDatabase.ConnectionsOf | src/database.js:107-150 | for a user with no record, no entry is `linked` and none has a user id |
| Environment.EnvText | src/services/environment.js:44-47 | an unset environment is spelled `undefined` in keys and file names |
| Environment.ConfigFileFor | src/services/environment.js:50-53 | the config file name is exactly the prefix, then the environment name, then the `.json` suffix |
| Environment.ConfigFileInjective | src/services/environment.js:50-53 | different environments use different config files |
| Environment.ProjectIdFor | src/services/environment.js:55-58 | `dev` maps to `saasmaster`, every other environment to `saasmaster-<env>` |
| Environment.ProjectIdInjective | src/services/environment.js:55-58 | different environments use different project ids |
| Environment.Environment.constructor | src/services/environment.js:10-34 | the environment starts unset, over the given per-kind, per-environment configuration table |
| Environment.Environment.SetEnv | src/services/environment.js:40-42 | the environment becomes the given one and reads back as it |
| Environment.Environment.GetEnv | src/services/environment.js:37 | the current environment, unset until `setEnv` |
| Environment.Environment.GetConfig | src/services/environment.js:44-47 | an unknown kind throws (None); otherwise the kind's entry for the environment, undefined when it has none |
| Environment.Environment.CloudPlatformConfigFile | src/services/environment.js:50-53 | the config file of the current environment |
| Environment.Environment.ProjectId | src/services/environment.js:55-58 | the project id of the current environment; `saasmaster` exactly in `dev` |
| Cache.FreshInvocationInfo | src/data/cache.js:49-68 | the record written holds exactly provider, function name, parameters and fetch time |
| Cache.FreshRecordServed | src/data/cache.js:22-30 | a record just written is served from the cache for one hour and not afterwards |
| Cache.StoreData | src/data/cache.js:49-68 | writes the fresh invocation info and shreds the data into the collection, nothing else |
| Cache.GetData | src/data/cache.js:10-47 | invalid requests give null; a fresh record serves exactly the collection's documents; otherwise the provider's result, stored only when truthy |
| Dal.ScoreValue | src/data/dal.js:156-160 | a failed analysis stores undefined, a successful one its score |
| Dal.EntryOf | src/data/dal.js:152 | `invokeInfo[id] \|\| {}` is always truthy |
| Dal.SentimentStep | src/data/dal.js:149-162 | analysis runs iff the item has no stored score; only that item's entry changes, to the new score |
| Dal.SentimentLoop | src/data/dal.js:148-163 | only analysed keys change, and each belongs to an item |
| Dal.Elements | src/data/dal.js:147 | what `for…of` visits: an array's items, a string's characters as one-character strings, nothing for any other value |
| Dal.SentimentPass | src/data/dal.js:138-168 | without a sentiment field or an iterable response, nothing changes; otherwise the loop runs over the response's elements |
| Dal.StringResponseScoresUndefined | src/data/dal.js:147-162 | a string response is scored under the key `"undefined"` only, since its characters carry no item key; unless that entry already has a score, the first character is analysed |
| Dal.RetrieveSentimentMetadata | src/data/dal.js:138-168 | the loop computes `SentimentPass`, and leaves the info unchanged without a sentiment field |
| Dal.ScoredEntryKept | src/data/dal.js:152-154 | an item already scored is never re-analysed and its entry is kept |
| Dal.UnscoredItemAnalyzed | src/data/dal.js:152-161 | an item before any nullish element is analysed iff it had no score |
| Dal.UntouchedKeyKept | src/data/dal.js:148-163 | entries of keys no item carries are kept |
| Dal.FailedAnalysisRetried | src/data/dal.js:152-161 | a failed analysis leaves the item unscored, so the next pass analyses it again |
| Dal.FailedStaysUnscored | src/data/dal.js:154-161 | an item whose analysis keeps failing stays unscored |
| Dal.Enrich | src/data/dal.js:175-181 | every enriched item is an object |
| Dal.MergeMetadataWithData | src/data/dal.js:171-189 | an array without nullish items maps item by item, anything else gives null |
| Dal.MetadataWins | src/data/dal.js:179-180 | in an enriched item, the stored metadata's fields override the item's own |
| Dal.MergeWithoutMetadata | src/data/dal.js:171-189 | without metadata for any item, the data comes back unchanged |
| Dal.DeepMerge | src/data/dal.js:191-197 | keeps `data1`'s other keys and spreads each key of `data2` over `data1`'s value |
| Dal.DeepMergeKeys | src/data/dal.js:191-197 | the key loop computes `DeepMerge` |
| Dal.DeepMergeIdempotent | src/data/dal.js:191-197 | merging the same metadata twice equals merging it once |
| Dal.DeepMergeDisjoint | src/data/dal.js:191-197 | merging two disjoint metadata maps in turn equals merging their union |
| Dal.InvocationInfo | src/data/dal.js:118-125 | the record gains provider, function name, parameters and fetch time, and keeps every other field |
| Dal.StoredInfo | src/data/dal.js:20 | the stored invocation info, `{}` when there is none |
| Dal.StoreData | src/data/dal.js:118-135 | writes the stamped info and the shredded data, nothing else |
| Dal.GetData | src/data/dal.js:9-58 | invalid requests give null; a fresh record serves the collection enriched with metadata; otherwise a falsy fetch gives null and changes nothing; a truthy one is scored, stored and returned enriched |
| Dal.StoreMetadata | src/data/dal.js:60-87 | invalid requests give null; with no info document nothing changes; otherwise the metadata is deep-merged into the document |
| Storage.LastAccessTime | src/storage.js:4-14 | `lastAccessTimes[entity]` of the section, null without a section, falsy without times |
| Storage.Touched | src/storage.js:16-31 | the section gains `lastAccessTimes` and keeps every other field |
| Storage.TouchRecordsAccess | src/storage.js:16-31 | after recording, the entity's last access is `now` and every other entity's is unchanged |
| Storage.TouchedUserDocs | src/storage.js:16-31 | only the user's record changes, and only when the section exists |
| Storage.SetLastAccessTime | src/storage.js:16-31 | the user records become `TouchedUserDocs`; null without a section |
| Storage.InvocationRecord | src/storage.js:49-53 | the record holds exactly provider, function name and parameters, with no timestamp |
| Storage.InvokeProviderAndStoreData | src/storage.js:33-70 | a failing call changes nothing and gives null; otherwise the record, the shredded data and the access time are written and the array returned |
| Storage.GetData | src/storage.js:72-107 | null without a provider name or section, with nothing written; a fresh access serves the collection and writes nothing; otherwise a failed call returns null and writes nothing, and a successful one returns the projected array, stores the invocation record and the shredded array, and records the access time |
| EarlyStorage.CollectionName | storage.js:49 | the collection name is the provider name, `:`, then the entity |
| EarlyStorage.CollectionNameInjective | storage.js:49 | provider names without `:` give each provider and entity pair its own collection |
| EarlyStorage.GetLastAccessTime | storage.js:4-17 | null without the user's section, otherwise that section's last access to the entity |
| EarlyStorage.GetData | storage.js:36-72 | null for an invalid provider; a fresh access serves the `provider:entity` collection; otherwise the fetched array is stored and returned |
| Pipeline.TimestampOf | src/data/datapipeline.js:95-96 | the recorded timestamp when the record and it are truthy, otherwise an hour before `now` |
| Pipeline.DefaultTimestampStale | src/data/datapipeline.js:95-99 | the default timestamp is always stale |
| Pipeline.IsStaleNumeric | src/data/datapipeline.js:172-177 | a timestamp is stale iff it is more than 59 minutes old; exactly 59 minutes is not |
| Pipeline.Decide | src/data/datapipeline.js:87-112 | the handler runs iff the record exists, its timestamp is stale and it is not in progress; a missing record throws; a flagged stale record is busy |
| Pipeline.MissingRecordNeverRuns | src/data/datapipeline.js:94-99 | without a `dataPipeline` record the handler throws and never runs |
| Pipeline.Flagged | src/data/datapipeline.js:103 | the flagged section is the old one with `inProgress` set to true |
| Pipeline.ResetRecord | src/data/datapipeline.js:159-162 | the reset holds exactly the finishing time and `inProgress: false` |
| Pipeline.SecondTriggerSkipped | src/data/datapipeline.js:99-104 | once flagged, no later trigger runs the pipeline again until the reset |
| Pipeline.ResetAllowsNextRun | src/data/datapipeline.js:158-163 | after the reset, the next run happens iff more than 59 minutes have passed since it finished; other fields are kept |
| Pipeline.InfoIn | src/data/datapipeline.js:138 | the collection's invocation info, null when missing |
| Pipeline.ProviderFor | src/data/datapipeline.js:142-145 | the provider named by the info's provider and function fields |
| Pipeline.RefreshResult | src/data/dal.js:17-53 | (specification function) the store a forced `getData` leaves: when the provider resolves and yields data, the invocation info restamped and the fetched array shredded into the collection; otherwise the store as it was |
| Pipeline.RefreshStamps | src/data/dal.js:118-130 | after a refresh that writes, every fetched document is stored; unless an item shares its key, the info carries the provider, the function, the same parameters and `lastRetrieved = now`; other collections are as they were |
| Pipeline.RefreshResultLocal | src/data/datapipeline.js:135-151 | a collection's refresh depends only on that collection's documents, so refreshes of different collections do not interfere |
| Pipeline.AllRefreshedStep | src/data/datapipeline.js:135-151 | refreshing one more untouched collection keeps every earlier refreshed collection as its refresh left it |
| Pipeline.PairsRefreshedStep | src/data/datapipeline.js:124-154 | refreshing one more untouched user keeps every earlier refreshed pair as its refresh left it |
| Pipeline.RefreshCollection | src/data/datapipeline.js:136-151 | refreshes the collection iff its info names a provider and a function; only that collection can change, and only when the forced fetch yields data; a selected collection's store is exactly `RefreshResult` (restamped info and fetched documents) |
| Pipeline.RefreshUser | src/data/datapipeline.js:124-155 | refreshes exactly the user's selected collections; nothing outside them changes; each one whose fetch yields data holds what its refresh from the starting store leaves |
| Pipeline.RefreshUsers | src/data/datapipeline.js:123-154 | over distinct users, the refreshed pairs are exactly those of a listed user and a selected collection; every changed document lies in such a pair whose forced fetch yields data; each such pair holds what its refresh from the starting store leaves |
| Pipeline.InvokeDataPipeline | src/data/datapipeline.js:114-169 | refreshes exactly the selected collections of every user but the system one, each fetched one ending as its refresh leaves it and nothing else changing; then merges the reset into the `dataPipeline` section and leaves other user records untouched |
| Pipeline.FlagAndRun | src/data/datapipeline.js:102-107 | stores the section with `inProgress` true (so no later trigger runs), runs the pipeline (the refreshed pairs, the changed documents and their refreshed contents as for `InvokeDataPipeline`), and leaves the system record flagged and reset |
| Pipeline.DataPipelineHandler | src/data/datapipeline.js:87-112 | the outcome is `Decide`; without a run nothing changes; with a run the section is flagged (blocking further runs), the pipeline runs with the refreshed pairs, changed documents and refreshed contents of `InvokeDataPipeline`, and the section ends flagged and reset |
| Pipeline.PipelineNamesDistinct | src/data/datapipeline.js:16-20 | topic, subscription and job names differ per environment and from each other |
| Pipeline.ProdResources | src/data/datapipeline.js:28-50 | `prod`: no calls when all three names are recorded; otherwise the topic is created, and with a topic the push subscription and job too and the names are recorded; a missing record stores nothing |
| Pipeline.DevResources | src/data/datapipeline.js:53-76 | `dev`: the topic is always created; with a topic and a record, the pull subscription too, and the job only when its name is not recorded; afterwards the names are recorded |
| Pipeline.CreateDataPipeline | src/data/datapipeline.js:14-84 | `prod` sets up topic, push subscription and job only when a recorded name differs; `dev` always sets up topic and pull subscription and the job only when its name differs; other environments make no calls and write the section merged with itself (a missing record becomes `{}`); a missing topic or record in `prod` or `dev` stores nothing; afterwards the names are recorded; no other user record changes |
| Pipeline.ProdSetupIdempotent | src/data/datapipeline.js:28-50 | once recorded, a second `prod` setup finds all names and makes no calls |
| LegacyPipeline.Flagged | src/datapipeline.js:64 | the flag is written under the key `"undefined"` |
| LegacyPipeline.ResetRecord | src/datapipeline.js:118-121 | the reset holds the time under `lastUpdatedTimestamp` and the flag under `"undefined"`, never `inProgress` |
| LegacyPipeline.FlagNeverBlocks | src/datapipeline.js:60-65 | the legacy flag does not change the guard's decision |
| LegacyPipeline.ResetKeepsGuardField | src/datapipeline.js:117-121 | the reset leaves the `inProgress` field as it was |
| LegacyPipeline.StorageRecordsNeverRefreshed | src/datapipeline.js:92-95 | records written by `invokeProviderAndStoreData` have no `lastRetrieved`, so the legacy pipeline never selects them |
| LegacyPipeline.RefreshResult | src/storage.js:33-69 | (specification function) the store a re-fetch through the storage layer leaves: the storage layer's invocation record and the fetched array shredded into the collection |
| LegacyPipeline.RefreshStamps | src/storage.js:50-59 | after a successful re-fetch every fetched document is stored and, unless an item shares its key, the info is exactly the storage layer's record, without `lastRetrieved`; other collections are as they were |
| LegacyPipeline.RefreshResultLocal | src/datapipeline.js:88-111 | a collection's re-fetch depends only on that collection's documents |
| LegacyPipeline.AllRefreshedStep | src/datapipeline.js:88-111 | re-fetching one more untouched collection keeps every earlier re-fetched collection as its re-fetch left it |
| LegacyPipeline.PairsRefreshedStep | src/datapipeline.js:81-115 | re-fetching one more untouched user keeps every earlier re-fetched pair as its re-fetch left it |
| LegacyPipeline.RefreshCollection | src/datapipeline.js:88-111 | refreshes a collection iff it is stale, names a known provider and has parameters; when the provider call succeeds the documents are exactly `RefreshResult` and the user's access time is recorded; otherwise nothing changes |
| LegacyPipeline.RefreshUser | src/datapipeline.js:81-115 | refreshes exactly the user's selected collections; only they and the user's record change; each successfully re-fetched one holds what its re-fetch from the starting store leaves |
| LegacyPipeline.RefreshUsers | src/datapipeline.js:81-115 | over distinct users, the refreshed pairs are exactly those of a listed user and a selected collection; changed documents lie in refreshed pairs whose provider call succeeded, and each such pair holds what its re-fetch leaves; only those users' records change |
| LegacyPipeline.InvokeDataPipeline | src/datapipeline.js:75-126 | refreshes exactly the selected collections of every non-system user, each successfully re-fetched one ending as its re-fetch leaves it and nothing else changing; the system record ends with the reset merged in; other records are untouched |
| LegacyPipeline.FlagAndRun | src/datapipeline.js:63-68 | stores the section flagged under `"undefined"` (which leaves every later decision as it was), then runs the pipeline (refreshed pairs, changed documents and re-fetched contents as for `InvokeDataPipeline`); the system record ends flagged and reset; no record other than the system one and the pipeline users' changes |
| LegacyPipeline.DataPipelineHandler | src/datapipeline.js:48-73 | the outcome is the shared guard's decision; without a run nothing changes; with a run the flag (which blocks nothing) is written and the pipeline runs with the refreshed pairs, changed documents and re-fetched contents of `InvokeDataPipeline`, and no record other than the system one and the pipeline users' changes |

## Left out

- Numbers are unbounded integers. Floating point is not modelled, so sentiment scores are integers.
- Comparisons with strings, arrays or objects are treated as NaN, so such a comparison is false. JavaScript would convert numeric strings first.
- Spreading an array or a string gives `{}`. Property reads on arrays and strings give undefined.
- Firestore SDK validation is approximated. Only objects are stored. A batch element is stored only when its key is a non-empty string. Undefined-valued fields are not rejected.
- Store failures and rejected promises are not modelled. The per-user `catch` of both pipelines is therefore unreachable.
- Promise fan-outs (`Promise.all`, `forEach` with async callbacks) are modelled as sequential loops. Writes that are not awaited take effect immediately.
- The legacy pipeline's user loop is not awaited. Every per-user callback starts before the reset write does, so which writes land first is a race. The model writes the reset first. The reset writes only the system record, and the per-user work writes only pipeline users' records and collections, so the final store does not depend on the order.
- Logging, the clock, the provider functions, the sentiment service, and the pub/sub and scheduler services are outside the model.
  - The clock becomes `now`, `finishedAt` and `resetAt` parameters.
  - Provider functions and the sentiment analyser become parameters.
  - The services become a list of `CloudCall`s plus the topic the service yields.
- src/data/database.js is not part of this model. The layers under src/data run against the src/database-firestore.js store with the src/database.js constants, and its `inProgress` constant is taken to be `"inProgress"`.
- src/database-memory.js is not part of this model. The memory backend is only a selectable name, with no `setEnv`, `getAllUsers` or data.
- The root storage.js is modelled over the connection-section store. The root database.js it loads is the token store and has no `query` or `storeBatch`.
- The legacy `createDataPipeline` (src/datapipeline.js:13-37) is not modelled. Its topic and subscription setup is the older form of `Pipeline.CreateDataPipeline`.
- OAuth flows, HTTP routes and the provider implementations are not modelled.
- Tokens: the memory and hash stores (database-memory.js:21-34, database.js:23-36) keep `expiresAt` as a `Date` object, and only the Firestore store (database-firestore.js:43) keeps its milliseconds. The model keeps milliseconds in all three.
- Tokens: `created` is parsed with `new Date(created)`, and google.js passes a date string. The model takes `created` as an integer number of milliseconds, so date parsing is not modelled.
- Dal.DeepMergeDisjoint: stated key by key, for each key of the result, rather than as an equality of whole maps.
- LegacyPipeline.RefreshUser: the access time recorded in the user's own record is stated per collection, by `LegacyPipeline.RefreshCollection`. From the user level upwards the model states only that no other user's record changes.
- Pipeline.ResetAllowsNextRun: requires a non-zero finishing time. A zero time is falsy, so the handler falls back to its default timestamp.
- Pipeline.CreateDataPipeline: in `prod` and `dev`, it does not state the section's fields other than the three names it records.
