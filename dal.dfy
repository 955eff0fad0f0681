/** The data access layer of src/data/dal.js: entities served from the cache
    or fetched from their provider, enriched with per-item metadata (sentiment
    scores) kept in the collection's invocation-info document. */
module Dal {
  import opened Json
  import opened Providers
  import opened CachePolicy
  import opened Firestore
  import Constants

  /** `sentiment.analyze(text)`: a score, or undefined when the analysis failed. */
  type Analyzer = Value -> Option<int>

  /** The score as stored: undefined when the analysis failed. */
  function ScoreValue(o: Option<int>): (v: Value)
    ensures v == Undefined <==> o.None?
  {
    match o
    case None => Undefined
    case Some(n) => Num(n)
  }

  /** `element[itemKeyField]` as a property key of the invocation info. */
  function KeyOf(element: Value, itemKey: string): string {
    PropertyKey(Get(element, itemKey))
  }

  /** `invokeInfo[id] || {}` */
  function EntryOf(info: Doc, k: string): (e: Value)
    ensures Truthy(e)
  {
    Or(Get(Obj(info), k), Obj(map[]))
  }

  /** `(invokeInfo[id] || {}).__sentimentScore` */
  function ScoreOf(info: Doc, k: string): Value {
    Get(EntryOf(info, k), Constants.MetadataSentimentScoreField)
  }

  datatype Step = Step(info: Doc, called: bool)

  /** One iteration of the loop of `retrieveSentimentMetadata` on a
      non-nullish element: the analysis runs only when the element's entry has
      no score yet, and the score is written into that entry. */
  function SentimentStep(info: Doc, element: Value, itemKey: string, textField: string, analyze: Analyzer): (s: Step)
    ensures s.called <==> ScoreOf(info, KeyOf(element, itemKey)) == Undefined
    ensures !s.called ==> s.info == info
    ensures forall k :: k != KeyOf(element, itemKey) ==> (k in s.info <==> k in info) && (k in info ==> s.info[k] == info[k])
    ensures s.called && EntryOf(info, KeyOf(element, itemKey)).Obj? ==>
      ScoreOf(s.info, KeyOf(element, itemKey)) == ScoreValue(analyze(Get(element, textField)))
    ensures s.called && !EntryOf(info, KeyOf(element, itemKey)).Obj? ==>
      ScoreOf(s.info, KeyOf(element, itemKey)) == Undefined
  {
    var key := KeyOf(element, itemKey);
    var entry := EntryOf(info, key);
    if Get(entry, Constants.MetadataSentimentScoreField) == Undefined then
      var scored := Put(entry, Constants.MetadataSentimentScoreField, ScoreValue(analyze(Get(element, textField))));
      Step(info[key := scored], true)
    else
      Step(info, false)
  }

  /** The invocation info after the sentiment pass, and the keys of the items
      analysed, in call order. */
  datatype Pass = Pass(info: Doc, analyzed: seq<string>)

  /** The loop of `retrieveSentimentMetadata` over `items`; a nullish element
      makes `element[itemKeyField]` throw, which ends the pass with the entries
      written so far. */
  function SentimentLoop(info: Doc, items: seq<Value>, itemKey: string, textField: string, analyze: Analyzer): (p: Pass)
    ensures forall k :: k !in p.analyzed ==> (k in p.info <==> k in info) && (k in info ==> p.info[k] == info[k])
    ensures forall k :: k in p.analyzed ==> exists j :: 0 <= j < |items| && KeyOf(items[j], itemKey) == k
    decreases |items|
  {
    if items == [] || Nullish(items[0]) then Pass(info, [])
    else
      var s := SentimentStep(info, items[0], itemKey, textField, analyze);
      var rest := SentimentLoop(s.info, items[1..], itemKey, textField, analyze);
      assert forall j :: 0 <= j < |items[1..]| ==> items[1..][j] == items[j + 1];
      Pass(rest.info, (if s.called then [KeyOf(items[0], itemKey)] else []) + rest.analyzed)
  }

  /** The elements `for (const element of data)` visits: an array's items, a
      string's characters as one-character strings, and none for a value
      that is not iterable (the loop throws before its first step). */
  function Elements(data: Value): (r: Option<seq<Value>>)
    ensures data.Arr? ==> r == Some(data.items)
    ensures data.Str? ==> r.Some? && |r.value| == |data.s| && forall i :: 0 <= i < |data.s| ==> r.value[i] == Str([data.s[i]])
    ensures !data.Arr? && !data.Str? ==> r.None?
  {
    match data
    case Arr(items) => Some(items)
    case Str(text) => Some(seq(|text|, i requires 0 <= i < |text| => Str([text[i]])))
    case _ => None
  }

  /** `retrieveSentimentMetadata(provider, data, invokeInfo)`: nothing happens
      without a `sentimentTextField`, nor when `data` is not iterable; an
      array is scored item by item and a string character by character. */
  function SentimentPass(p: Provider, data: Value, info: Doc, analyze: Analyzer): (r: Pass)
    ensures !Truthy(Text(p.sentimentTextField)) || Elements(data).None? ==> r == Pass(info, [])
  {
    if !Truthy(Text(p.sentimentTextField)) || Elements(data).None? then Pass(info, [])
    else SentimentLoop(info, Elements(data).value, KeyName(p.itemKey), p.sentimentTextField.value, analyze)
  }

  /** A string response is scored under the key "undefined": a character has
      no item key, so every character reads and writes the same entry, and
      only that entry can change. Unless it already holds a score, the first
      character is analysed. */
  lemma StringResponseScoresUndefined(p: Provider, text: string, info: Doc, analyze: Analyzer)
    requires Truthy(Text(p.sentimentTextField))
    ensures var r := SentimentPass(p, Str(text), info, analyze);
      (forall k :: k != "undefined" ==> (k in r.info <==> k in info) && (k in info ==> r.info[k] == info[k])) &&
      (forall j :: 0 <= j < |r.analyzed| ==> r.analyzed[j] == "undefined") &&
      (text != "" && ScoreOf(info, "undefined") == Undefined ==> |r.analyzed| >= 1)
  {
    var items := Elements(Str(text)).value;
    var itemKey := KeyName(p.itemKey);
    var textField := p.sentimentTextField.value;
    var r := SentimentLoop(info, items, itemKey, textField, analyze);
    assert r == SentimentPass(p, Str(text), info, analyze);
    forall j | 0 <= j < |items| ensures KeyOf(items[j], itemKey) == "undefined" {
      assert items[j] == Str([text[j]]);
    }
    forall i | 0 <= i < |r.analyzed| ensures r.analyzed[i] == "undefined" {
      assert r.analyzed[i] in r.analyzed;
      var j :| 0 <= j < |items| && KeyOf(items[j], itemKey) == r.analyzed[i];
    }
    if text != "" && ScoreOf(info, "undefined") == Undefined {
      assert items[0] == Str([text[0]]);
      assert KeyOf(items[0], itemKey) == "undefined";
      var step := SentimentStep(info, items[0], itemKey, textField, analyze);
      assert step.called;
      var rest := SentimentLoop(step.info, items[1..], itemKey, textField, analyze);
      assert r.analyzed == [KeyOf(items[0], itemKey)] + rest.analyzed;
    }
  }

  /** `prefix` analysed before the pass `p` continues. */
  function After(prefix: seq<string>, p: Pass): Pass {
    Pass(p.info, prefix + p.analyzed)
  }

  lemma AfterAfter(a: seq<string>, b: seq<string>, p: Pass)
    ensures After(a, After(b, p)) == After(a + b, p)
  {
    assert a + (b + p.analyzed) == (a + b) + p.analyzed;
  }

  lemma SentimentLoopUnfold(info: Doc, items: seq<Value>, i: nat, itemKey: string, textField: string, analyze: Analyzer)
    requires i < |items| && !Nullish(items[i])
    ensures var s := SentimentStep(info, items[i], itemKey, textField, analyze);
      SentimentLoop(info, items[i..], itemKey, textField, analyze) ==
      After(if s.called then [KeyOf(items[i], itemKey)] else [], SentimentLoop(s.info, items[i + 1..], itemKey, textField, analyze))
  {
    assert items[i..][0] == items[i];
    assert items[i..][1..] == items[i + 1..];
  }

  lemma SentimentLoopStops(info: Doc, items: seq<Value>, i: nat, itemKey: string, textField: string, analyze: Analyzer)
    requires i < |items| && Nullish(items[i])
    ensures SentimentLoop(info, items[i..], itemKey, textField, analyze) == Pass(info, [])
  {
    assert items[i..][0] == items[i];
  }

  /** One turn of the loop: the pass still to run from item `i` is the step
      on that item followed by the pass from item `i + 1`. */
  lemma SentimentLoopAdvance(whole: Pass, analyzed: seq<string>, info: Doc, items: seq<Value>, i: nat,
                             itemKey: string, textField: string, analyze: Analyzer)
    requires i < |items| && !Nullish(items[i])
    requires whole == After(analyzed, SentimentLoop(info, items[i..], itemKey, textField, analyze))
    ensures var s := SentimentStep(info, items[i], itemKey, textField, analyze);
      whole == After(if s.called then analyzed + [KeyOf(items[i], itemKey)] else analyzed,
                     SentimentLoop(s.info, items[i + 1..], itemKey, textField, analyze))
  {
    SentimentLoopUnfold(info, items, i, itemKey, textField, analyze);
    var s := SentimentStep(info, items[i], itemKey, textField, analyze);
    AfterAfter(analyzed, if s.called then [KeyOf(items[i], itemKey)] else [],
      SentimentLoop(s.info, items[i + 1..], itemKey, textField, analyze));
    assert analyzed + [] == analyzed;
  }

  /** The in-place loop of `retrieveSentimentMetadata`, proved to compute
      `SentimentPass`. */
  method RetrieveSentimentMetadata(p: Provider, data: Value, info: Doc, analyze: Analyzer) returns (newInfo: Doc, analyzed: seq<string>)
    ensures Pass(newInfo, analyzed) == SentimentPass(p, data, info, analyze)
    ensures !Truthy(Text(p.sentimentTextField)) ==> newInfo == info && analyzed == []
  {
    newInfo := info;
    analyzed := [];
    if !Truthy(Text(p.sentimentTextField)) || Elements(data).None? {
      return;
    }
    var items := Elements(data).value;
    var itemKey := KeyName(p.itemKey);
    var textField := p.sentimentTextField.value;
    ghost var whole := SentimentLoop(info, items, itemKey, textField, analyze);
    var i := 0;
    while i < |items|
      invariant 0 <= i <= |items|
      invariant whole == After(analyzed, SentimentLoop(newInfo, items[i..], itemKey, textField, analyze))
    {
      var element := items[i];
      if Nullish(element) {
        SentimentLoopStops(newInfo, items, i, itemKey, textField, analyze);
        break;
      }
      SentimentLoopAdvance(whole, analyzed, newInfo, items, i, itemKey, textField, analyze);
      var step := SentimentStep(newInfo, element, itemKey, textField, analyze);
      newInfo := step.info;
      if step.called {
        analyzed := analyzed + [KeyOf(element, itemKey)];
      }
      i := i + 1;
    }
    assert items[|items|..] == [];
  }

  /** An entry that already has a score (0 included) is neither analysed again
      nor changed. */
  lemma {:induction false} ScoredEntryKept(info: Doc, items: seq<Value>, itemKey: string, textField: string, analyze: Analyzer, k: string)
    requires ScoreOf(info, k) != Undefined
    ensures var p := SentimentLoop(info, items, itemKey, textField, analyze);
      k !in p.analyzed && (k in p.info <==> k in info) && (k in info ==> p.info[k] == info[k])
    decreases |items|
  {
    if items != [] && !Nullish(items[0]) {
      var s := SentimentStep(info, items[0], itemKey, textField, analyze);
      if s.called {
        assert KeyOf(items[0], itemKey) != k;
      }
      assert ScoreOf(s.info, k) == ScoreOf(info, k);
      ScoredEntryKept(s.info, items[1..], itemKey, textField, analyze, k);
    }
  }

  /** Every item before the first nullish one whose entry had no score is
      analysed; together with `ScoredEntryKept`, an item is analysed exactly
      when its stored score is undefined. */
  lemma {:induction false} UnscoredItemAnalyzed(info: Doc, items: seq<Value>, itemKey: string, textField: string, analyze: Analyzer, i: nat)
    requires i < |items|
    requires forall j :: 0 <= j <= i ==> !Nullish(items[j])
    ensures var p := SentimentLoop(info, items, itemKey, textField, analyze);
      KeyOf(items[i], itemKey) in p.analyzed <==> ScoreOf(info, KeyOf(items[i], itemKey)) == Undefined
    decreases |items|
  {
    var key := KeyOf(items[i], itemKey);
    var p := SentimentLoop(info, items, itemKey, textField, analyze);
    if ScoreOf(info, key) != Undefined {
      ScoredEntryKept(info, items, itemKey, textField, analyze, key);
    } else if i > 0 {
      var s := SentimentStep(info, items[0], itemKey, textField, analyze);
      var rest := SentimentLoop(s.info, items[1..], itemKey, textField, analyze);
      assert items[1..][i - 1] == items[i];
      if ScoreOf(s.info, key) == Undefined {
        UnscoredItemAnalyzed(s.info, items[1..], itemKey, textField, analyze, i - 1);
        assert key in rest.analyzed;
      } else {
        assert s.called && KeyOf(items[0], itemKey) == key;
      }
    }
  }

  /** A key no item carries keeps its entry. */
  lemma UntouchedKeyKept(info: Doc, items: seq<Value>, itemKey: string, textField: string, analyze: Analyzer, k: string)
    requires forall j :: 0 <= j < |items| ==> KeyOf(items[j], itemKey) != k
    ensures var p := SentimentLoop(info, items, itemKey, textField, analyze);
      (k in p.info <==> k in info) && (k in info ==> p.info[k] == info[k])
  {
  }

  /** A failed analysis is retried: when every analysis of an item's text
      fails, its entry stays without a score, and the next fetch of the same
      items analyses it again. */
  lemma FailedAnalysisRetried(info: Doc, items: seq<Value>, itemKey: string, textField: string, analyze: Analyzer, i: nat)
    requires i < |items|
    requires forall j :: 0 <= j <= i ==> !Nullish(items[j])
    requires ScoreOf(info, KeyOf(items[i], itemKey)) == Undefined
    requires forall j :: 0 <= j < |items| && KeyOf(items[j], itemKey) == KeyOf(items[i], itemKey) ==>
      analyze(Get(items[j], textField)).None?
    ensures var once := SentimentLoop(info, items, itemKey, textField, analyze);
      KeyOf(items[i], itemKey) in SentimentLoop(once.info, items, itemKey, textField, analyze).analyzed
  {
    var once := SentimentLoop(info, items, itemKey, textField, analyze);
    FailedStaysUnscored(info, items, itemKey, textField, analyze, KeyOf(items[i], itemKey));
    UnscoredItemAnalyzed(once.info, items, itemKey, textField, analyze, i);
  }

  lemma {:induction false} FailedStaysUnscored(info: Doc, items: seq<Value>, itemKey: string, textField: string, analyze: Analyzer, k: string)
    requires ScoreOf(info, k) == Undefined
    requires forall j :: 0 <= j < |items| && KeyOf(items[j], itemKey) == k ==> analyze(Get(items[j], textField)).None?
    ensures ScoreOf(SentimentLoop(info, items, itemKey, textField, analyze).info, k) == Undefined
    decreases |items|
  {
    if items != [] && !Nullish(items[0]) {
      var s := SentimentStep(info, items[0], itemKey, textField, analyze);
      assert ScoreOf(s.info, k) == Undefined;
      forall j | 0 <= j < |items[1..]| && KeyOf(items[1..][j], itemKey) == k
        ensures analyze(Get(items[1..][j], textField)).None?
      {
        assert items[1..][j] == items[j + 1];
      }
      FailedStaysUnscored(s.info, items[1..], itemKey, textField, analyze, k);
    }
  }

  /** `{ ...element, ...invokeInfo[id] }` */
  function Enrich(itemKey: string, element: Value, info: Doc): (r: Value)
    ensures r.Obj?
  {
    Spread(element, Get(Obj(info), KeyOf(element, itemKey)))
  }

  /** `mergeMetadataWithData(provider, data, invokeInfo)`: `data.map(...)`,
      null when `data` is not an array or an element is nullish (the
      exception is caught). */
  function MergeMetadataWithData(itemKey: string, data: Value, info: Doc): (r: Value)
    ensures r.Arr? <==> data.Arr? && forall i :: 0 <= i < |data.items| ==> !Nullish(data.items[i])
    ensures !r.Arr? ==> r == Null
    ensures r.Arr? ==> |r.items| == |data.items|
    ensures r.Arr? ==> forall i :: 0 <= i < |r.items| ==> r.items[i] == Enrich(itemKey, data.items[i], info)
  {
    if data.Arr? && forall i :: 0 <= i < |data.items| ==> !Nullish(data.items[i]) then
      Arr(seq(|data.items|, i requires 0 <= i < |data.items| => Enrich(itemKey, data.items[i], info)))
    else Null
  }

  /** Metadata wins: every field of an item's entry overrides the item's own
      field of that name; the item's other fields come through unchanged. */
  lemma MetadataWins(itemKey: string, data: Value, info: Doc, i: nat, k: string)
    requires MergeMetadataWithData(itemKey, data, info).Arr? && i < |data.items|
    ensures var entry := Fields(Get(Obj(info), KeyOf(data.items[i], itemKey)));
      var merged := MergeMetadataWithData(itemKey, data, info).items[i];
      (k in entry ==> Get(merged, k) == entry[k]) &&
      (k !in entry ==> Get(merged, k) == Get(data.items[i], k))
  {
  }

  /** Without metadata for any item, object items come back as they are. */
  lemma MergeWithoutMetadata(itemKey: string, items: seq<Value>, info: Doc)
    requires forall i :: 0 <= i < |items| ==> items[i].Obj? && KeyOf(items[i], itemKey) !in info
    ensures MergeMetadataWithData(itemKey, Arr(items), info) == Arr(items)
  {
    var r := MergeMetadataWithData(itemKey, Arr(items), info);
    forall i | 0 <= i < |items| ensures r.items[i] == items[i] {
      assert Fields(items[i]) + map[] == items[i].fields;
    }
  }

  /** `{ ...a, ...b }` as the field map it builds. */
  function SpreadFields(a: Value, b: Value): (r: Doc)
    ensures r.Keys == Fields(a).Keys + Fields(b).Keys
  {
    Fields(a) + Fields(b)
  }

  /** `deepMerge(data1, data2)`: every field of `data2` is spread over the
      field of the same name in `data1`; the other fields of `data1` stay. */
  function DeepMerge(a: Doc, b: Value): (r: Doc)
    ensures r.Keys == a.Keys + Fields(b).Keys
    ensures forall k :: k in a && k !in Fields(b) ==> r[k] == a[k]
    ensures forall k :: k in Fields(b) ==> r[k] == Obj(SpreadFields(Get(Obj(a), k), Fields(b)[k]))
  {
    a + map k | k in Fields(b) :: Obj(SpreadFields(Get(Obj(a), k), Fields(b)[k]))
  }

  /** `r` is `data1` with the keys in `done` merged. */
  ghost predicate MergedUpTo(a: Doc, fields: map<string, Value>, done: set<string>, r: Doc) {
    r.Keys == a.Keys + done &&
    (forall k :: k in a && k !in done ==> r[k] == a[k]) &&
    (forall k :: k in done ==> k in fields && r[k] == Obj(SpreadFields(Get(Obj(a), k), fields[k])))
  }

  lemma MergedUpToStep(a: Doc, fields: map<string, Value>, done: set<string>, r: Doc, key: string)
    requires MergedUpTo(a, fields, done, r) && key in fields && key !in done
    ensures MergedUpTo(a, fields, done + {key}, r[key := Obj(SpreadFields(Get(Obj(r), key), fields[key]))])
  {
    assert Get(Obj(r), key) == Get(Obj(a), key);
    var r2 := r[key := Obj(SpreadFields(Get(Obj(a), key), fields[key]))];
    assert r2.Keys == a.Keys + (done + {key});
    forall k | k in a && k !in done + {key} ensures r2[k] == a[k] {
    }
    forall k | k in done + {key} ensures k in fields && r2[k] == Obj(SpreadFields(Get(Obj(a), k), fields[k])) {
    }
  }

  lemma MergedUpToAll(a: Doc, b: Value, r: Doc)
    requires MergedUpTo(a, Fields(b), Fields(b).Keys, r)
    ensures r == DeepMerge(a, b)
  {
    var d := DeepMerge(a, b);
    assert r.Keys == d.Keys;
    forall k | k in r ensures r[k] == d[k] {
    }
  }

  /** The key loop of `deepMerge`, proved to compute `DeepMerge`. The keys of
      `data2` are taken one at a time; the order does not matter, since each
      key is merged into its own field. */
  method DeepMergeKeys(a: Doc, b: Value) returns (r: Doc)
    ensures r == DeepMerge(a, b)
  {
    var fields := Fields(b);
    var rest := fields.Keys;
    r := a;
    ghost var done: set<string> := {};
    while rest != {}
      invariant rest == fields.Keys - done
      invariant MergedUpTo(a, fields, done, r)
      decreases rest
    {
      var key :| key in rest;
      MergedUpToStep(a, fields, done, r, key);
      r := r[key := Obj(SpreadFields(Get(Obj(r), key), fields[key]))];
      rest := rest - {key};
      done := done + {key};
    }
    MergedUpToAll(a, b, r);
  }

  lemma SpreadFieldsAgain(x: Value, y: Value)
    ensures SpreadFields(Obj(SpreadFields(x, y)), y) == SpreadFields(x, y)
  {
  }

  /** Merging the same metadata twice leaves the document as merging it once. */
  lemma DeepMergeIdempotent(a: Doc, b: Value)
    ensures DeepMerge(DeepMerge(a, b), b) == DeepMerge(a, b)
  {
    var once := DeepMerge(a, b);
    var twice := DeepMerge(once, b);
    forall k | k in once ensures k in twice && twice[k] == once[k] {
      if k in Fields(b) {
        SpreadFieldsAgain(Get(Obj(a), k), Fields(b)[k]);
      }
    }
    assert twice.Keys == once.Keys;
  }

  /** Merging metadata in two rounds that touch different fields gives, field
      by field, what merging it at once gives. */
  lemma DeepMergeDisjoint(a: Doc, b1: map<string, Value>, b2: map<string, Value>, k: string)
    requires b1.Keys !! b2.Keys
    ensures k in DeepMerge(DeepMerge(a, Obj(b1)), Obj(b2)) <==> k in DeepMerge(a, Obj(b1 + b2))
    ensures k in DeepMerge(a, Obj(b1 + b2)) ==>
      DeepMerge(DeepMerge(a, Obj(b1)), Obj(b2))[k] == DeepMerge(a, Obj(b1 + b2))[k]
  {
    var mid := DeepMerge(a, Obj(b1));
    if k in b2 {
      assert Get(Obj(mid), k) == Get(Obj(a), k);
    }
  }

  const InvocationFields := {Constants.ProviderField, Constants.NameField, Constants.ParamsField, Constants.LastRetrievedField}

  /** The invocation fields `storeData` writes over `invokeInfo`, with every
      other field (the per-item entries) kept. */
  function InvocationInfo(info: Doc, p: Provider, params: Value, now: int): (r: Doc)
    ensures r.Keys == info.Keys + {Constants.ProviderField, Constants.NameField, Constants.ParamsField, Constants.LastRetrievedField}
    ensures r[Constants.ProviderField] == Text(p.provider) && r[Constants.NameField] == Text(p.name)
    ensures r[Constants.ParamsField] == params && r[Constants.LastRetrievedField] == Num(now)
    ensures forall k :: k in info && k !in InvocationFields ==> r[k] == info[k]
  {
    info[Constants.ProviderField := Text(p.provider)][Constants.NameField := Text(p.name)]
      [Constants.ParamsField := params][Constants.LastRetrievedField := Num(now)]
  }

  /** The documents `storeBatch(userId, entity, data, key)` writes. */
  function BatchWrites(root: string, userId: string, entity: string, data: Value, key: string): map<DocKey, Doc> {
    if data.Arr? then Placed(root, userId, entity, BatchDocs(data.items, key)) else map[]
  }

  /** The stored invocation info of a collection, `{}` when there is none. */
  function StoredInfo(fs: FirestoreStore, userId: string, entity: string): (d: Doc)
    reads fs
    ensures fs.GetDocument(userId, entity, Constants.InvokeInfo) == Obj(d) || (d == map[] && fs.GetDocument(userId, entity, Constants.InvokeInfo) == Null)
  {
    var k := DocKey(fs.root, userId, entity, Constants.InvokeInfo);
    if k in fs.docs then fs.docs[k] else map[]
  }

  /** `storeData(userId, provider, entity, params, data, invokeInfo)`: stamps
      the invocation info, stores it, then shreds `data` into the collection. */
  method StoreData(fs: FirestoreStore, userId: string, p: Provider, entity: string, params: Value, data: Value, info: Doc, now: int)
    returns (stored: Doc)
    modifies fs`docs
    ensures stored == InvocationInfo(info, p, params, now)
    ensures fs.docs == old(fs.docs)[DocKey(fs.root, userId, entity, Constants.InvokeInfo) := stored] +
      BatchWrites(fs.root, userId, entity, data, KeyName(p.itemKey))
  {
    var record := Obj(info);
    record := Put(record, Constants.ProviderField, Text(p.provider));
    record := Put(record, Constants.NameField, Text(p.name));
    record := Put(record, Constants.ParamsField, params);
    record := Put(record, Constants.LastRetrievedField, Num(now));
    stored := record.fields;
    fs.StoreDocument(userId, entity, Constants.InvokeInfo, record);
    fs.StoreBatch(userId, entity, data, Text(p.itemKey));
  }

  /** `getData(userId, provider, entity, params, forceRefresh)` at time `now`:
      null for an invalid request; the cached documents, enriched with their
      metadata, when the collection was fetched less than an hour ago and no
      refresh is forced; otherwise the provider's data, scored, stored and
      enriched. `analyzed` lists the items sent to the analyser and `cached`
      the documents served from the cache. */
  method GetData(fs: FirestoreStore, userId: string, provider: Option<Provider>, entity: Option<string>, params: Value,
                 forceRefresh: bool, now: int, analyze: Analyzer)
    returns (r: Value, analyzed: seq<string>, ghost cached: seq<string>)
    modifies fs`docs
    ensures Resolve(provider, entity).Invalid? ==> r == Null && analyzed == [] && fs.docs == old(fs.docs)
    ensures Resolve(provider, entity).Resolved? ==>
      var e := Resolve(provider, entity).entityName;
      var info := old(StoredInfo(fs, userId, e));
      ServeFromCache(forceRefresh, Get(Obj(info), Constants.LastRetrievedField), now) ==>
        fs.docs == old(fs.docs) && analyzed == [] && r.Arr? && |r.items| == |cached| &&
        (forall n :: fs.Listed(userId, e, Obj(info), Null, n) <==> n in cached) &&
        forall i :: 0 <= i < |cached| ==>
          fs.Listed(userId, e, Obj(info), Null, cached[i]) && r.items[i] == Enrich(KeyName(provider.value.itemKey), Obj(fs.docs[DocKey(fs.root, userId, e, cached[i])]), info)
    ensures Resolve(provider, entity).Resolved? ==>
      var e := Resolve(provider, entity).entityName;
      var info := old(StoredInfo(fs, userId, e));
      var d := CallProvider(provider, params);
      !ServeFromCache(forceRefresh, Get(Obj(info), Constants.LastRetrievedField), now) && !Truthy(d) ==>
        r == Null && analyzed == [] && fs.docs == old(fs.docs)
    ensures Resolve(provider, entity).Resolved? ==>
      var e := Resolve(provider, entity).entityName;
      var info := old(StoredInfo(fs, userId, e));
      var d := CallProvider(provider, params);
      var p := provider.value;
      var pass := SentimentPass(p, d, info, analyze);
      var stored := InvocationInfo(pass.info, p, params, now);
      !ServeFromCache(forceRefresh, Get(Obj(info), Constants.LastRetrievedField), now) && Truthy(d) ==>
        analyzed == pass.analyzed &&
        r == MergeMetadataWithData(KeyName(p.itemKey), d, stored) &&
        fs.docs == old(fs.docs)[DocKey(fs.root, userId, e, Constants.InvokeInfo) := stored] +
          BatchWrites(fs.root, userId, e, d, KeyName(p.itemKey))
  {
    cached := [];
    var res := Resolve(provider, entity);
    if res.Invalid? {
      return Null, [], [];
    }
    var p := provider.value;
    var entityName := res.entityName;
    var invokeInfo := Or(fs.GetDocument(userId, entityName, Constants.InvokeInfo), Obj(map[]));
    var lastRetrieved := And(invokeInfo, Get(invokeInfo, Constants.LastRetrievedField));
    if ServeFromCache(forceRefresh, lastRetrieved, now) {
      // the query is unfiltered (no value is given), so it yields an array
      var data, names := fs.Query(userId, entityName, invokeInfo, Null);
      r := MergeMetadataWithData(KeyName(p.itemKey), data, invokeInfo.fields);
      return r, [], names;
    }
    var data := CallProvider(provider, params);
    if !Truthy(data) {
      return Null, [], [];
    }
    var newInfo, calls := RetrieveSentimentMetadata(p, data, invokeInfo.fields, analyze);
    var stored := StoreData(fs, userId, p, entityName, params, data, newInfo, now);
    r := MergeMetadataWithData(KeyName(p.itemKey), data, stored);
    analyzed := calls;
  }

  /** `storeMetadata(userId, provider, entity, metadata)`: deep-merges the
      metadata into an existing invocation-info document. Null for an invalid
      request or nullish metadata (`Object.keys` throws); undefined otherwise,
      and nothing is stored when there is no invocation-info document. */
  method StoreMetadata(fs: FirestoreStore, userId: string, provider: Option<Provider>, entity: Option<string>, metadata: Value)
    returns (r: Value)
    modifies fs`docs
    ensures Resolve(provider, entity).Invalid? ==> r == Null && fs.docs == old(fs.docs)
    ensures Resolve(provider, entity).Resolved? ==>
      var k := DocKey(fs.root, userId, Resolve(provider, entity).entityName, Constants.InvokeInfo);
      (k !in old(fs.docs) ==> r == Undefined && fs.docs == old(fs.docs)) &&
      (k in old(fs.docs) && Nullish(metadata) ==> r == Null && fs.docs == old(fs.docs)) &&
      (k in old(fs.docs) && !Nullish(metadata) ==>
        r == Undefined && fs.docs == old(fs.docs)[k := DeepMerge(old(fs.docs)[k], metadata)])
  {
    var res := Resolve(provider, entity);
    if res.Invalid? {
      return Null;
    }
    var invokeInfo := fs.GetDocument(userId, res.entityName, Constants.InvokeInfo);
    if !Truthy(invokeInfo) {
      return Undefined;
    }
    if Nullish(metadata) {
      return Null;
    }
    var merged := DeepMergeKeys(invokeInfo.fields, metadata);
    fs.StoreDocument(userId, res.entityName, Constants.InvokeInfo, Obj(merged));
    r := Undefined;
  }
}
