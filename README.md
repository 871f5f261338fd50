# declarr's sync engine, in Dafny

declarr keeps a *arr application (Sonarr, Radarr, Lidarr or Prowlarr) in line
with a declarative configuration. Its `ArrSyncEngine` reads the declared
configuration, lists what the server holds over its REST API, and then creates,
updates and deletes resources until the server matches the declaration. This
project models that engine and proves what it does to the server.

What the model covers:

- **JSON values** (`Json.Value`). Objects are ordered dictionaries (`Json.Dict`),
  because the order of a collection's entries is the order of the requests.
  `Set`, `Lookup` and `Overlay` model Python's `d[k] = v`, `d.get(k)` and
  `{**a, **b}`.
- **The server** (`Http.Server`). It is an oracle: `server(n, req)` is the
  response to `req` when that request is the `n`-th of the run. Any fixed
  behaviour of the remote application, including the ids it assigns, is such a
  function. A status below 300 succeeds. Anything else raises
  `RequestFailed`.
- **Specification functions, one per reconciler.** Each says which requests the
  reconciler sends, which deletions it queues, and whether it raises. They are
  `Http.Attempt` and `Http.Enqueue`, and `ResourcesEffect`, `ContractsEffect`,
  `TagsEffect`, `Patch`, `QualityDefinitionsEffect`, `QualityProfilesEffect`,
  `RootFoldersEffect` and `LidarrRootFoldersEffect`.
- **Properties of those functions, proved as lemmas.** For example:
  - orphans are queued, never deleted at once;
  - upserts never delete;
  - with `allow_error` every entry is attempted;
  - without it the run stops at the first failure;
  - a contract's declared `enable`/`name` win over the server's and the schema's;
  - root folders converge;
  - the drain never raises.
- **One call of `sync` as a function (`Runs`).** The state `sync` works on is a
  `Runs.Machine`: the log, the queue, `cfg`, the tag map and the local
  `profile_map`. Each phase is a stage function from one machine to the next,
  for example `TagsStage`, `CollectionStage` or `SettingsStage`.
  `Runs.Progress` runs a type's phases in the order `Orchestration.Phases`
  gives, and stops at the first phase that raises. Lemmas about `Progress`
  prove the following:
  - the first failure ends the run;
  - before the drain the log and the queue only grow;
  - only Sonarr/Radarr root folders are deleted before the drain;
  - a passed run ends with exactly the drain of its queue.
- **The class `Engine.ArrSyncEngine`.** Its fields are the configuration `cfg`,
  the tag map `tagMap` and the deletion queue `deferred`, plus `trace`, the log
  of every request sent. Each method is proved against the specification
  function of the operation it performs:
  - each phase method leaves exactly the machine its stage function computes;
  - `Sync` ends with exactly the log, queue, configuration, tag map and outcome
    that `Progress` computes from the prepared configuration.

  The ghost field `sem` holds one function per phase. `Valid()` states that
  each of them agrees with its stage function on every machine. Because of
  this, a proof about some phases only has to consider those phases.

Modules:

| module | file | what it models |
|---|---|---|
| `Wrappers` | wrappers.dfy | `Option`, `Result` and `Outcome` |
| `Json` | json.dfy | JSON values and ordered dictionaries |
| `Http` | http.dfy | requests, the server, exceptions, the request and queue loops, the drain |
| `Utils` | utils.dfy | `deep_merge`, `to_dict`, `map_values`, `del_keys`, `unique`, `str.lower`, `d[k]`, as the engine calls them |
| `Fields` | fields.dfy | the `fields` list ↔ map conversions of `sync_contracts`, and tag resolution |
| `Resources` | resources.dfy | `sync_resources` |
| `Contracts` | contracts.dfy | `sync_contracts` |
| `Tags` | tags.dfy | `sync_tags` |
| `Patcher` | patcher.dfy | `recursive_sync` |
| `Orchestration` | orchestration.dfy | the helpers inside `sync` and the per-type phase table |
| `Runs` | runs.dfy | one call of `sync` as a function: the machine, one stage function per phase, `Progress` and the lemmas about a whole run |
| `Engine` | engine.dfy | the `ArrSyncEngine` class and its methods |

## Model

| member | source | states |
|---|---|---|
| Engine.ArrSyncEngine.constructor | declarr/arr.py:189-220 | The engine starts with the given type and configuration, an empty tag map, an empty deletion queue and nothing sent. |
| Http.Req | declarr/arr.py:222-223 | A request without a body goes on the wire with `{}`; verb and target are kept. |
| Http.Answer | declarr/arr.py:233-243 | A response succeeds exactly when its status is below 300, and then yields the server's body; otherwise the error names the request and the status. |
| Engine.ArrSyncEngine.Send | declarr/arr.py:222-258 | `get`/`post`/`put`/`delete` append the request to the log and return the server's answer to it as request number `|trace|`; nothing else changes. |
| Http.Attempt | declarr/arr.py:311-324 | A run of entries sends at most one request per entry. |
| Http.FirstFailure | declarr/arr.py:321-323 | The index of the first entry that cannot be built or is refused lies within the entries. |
| Http.AttemptTolerant | declarr/arr.py:321-324 | With failures tolerated, every buildable request is sent and the run always passes. |
| Http.AttemptSentFromSteps | declarr/arr.py:311-324 | Every request a run sends is one of the entries it was given. |
| Http.BeforeFirstFailure | declarr/arr.py:311-324 | Every entry before the first failing one was built and answered with success. |
| Http.AttemptStrictSent | declarr/arr.py:321-323 | Without tolerance, the run sends the entries up to the first failure, plus the failing request if it could be built, and nothing after it. |
| Http.AttemptStrictPasses | declarr/arr.py:321-323 | Without tolerance, the run passes exactly when no entry fails. |
| Http.AttemptStrictOutcome | declarr/arr.py:321-323 | Without tolerance, the raised error is the first failing entry's: its build error, or the failed response to it. |
| Http.RequestsAppend | declarr/arr.py:311-324 | The buildable requests of two entry lists are those of each, concatenated. |
| Http.AttemptNext | declarr/arr.py:311-324 | One entry of a run either ends it (a build error or a refused request without tolerance) or adds its request, if any, to the requests sent, and the run goes on from the next entry and the next request number. |
| Engine.ArrSyncEngine.Issue | declarr/arr.py:311-324 | The request loop sends exactly the requests `Attempt` describes and ends as it does; it changes nothing but the log. |
| Http.Enqueue | declarr/arr.py:298-300 | Queueing keeps the entries before the first that cannot be built, in order; it passes exactly when every entry was built, and otherwise raises that entry's error. |
| Http.EnqueueUpTo | declarr/arr.py:298-300 | Given the entries built so far and the next one failing (or none left), the queue and the outcome are determined. |
| Engine.ArrSyncEngine.Defer | declarr/arr.py:254-255 | `deferr_delete` appends one deletion to the queue and changes nothing else. |
| Engine.ArrSyncEngine.DeferAll | declarr/arr.py:298-300 | The queueing loop appends exactly the entries `Enqueue` keeps and raises as it does. |
| Http.DrainRequests | declarr/arr.py:662-664 | The drain sends one `DELETE` per queued entry, in queue order, with its path and body. |
| Http.DrainSteps | declarr/arr.py:662-664 | The drain's entries are exactly the drain requests. |
| Http.DrainNeverFails | declarr/arr.py:662-666 | The drain sends every queued deletion whatever the server answers, and never raises. |
| Engine.ArrSyncEngine.DrainQueue | declarr/arr.py:662-666 | Draining appends exactly the drain of the queue to the log and leaves the queue as it was. |
| Json.Lookup | declarr/arr.py:261 | A key is found exactly when it is present, and the value found is paired with that key in the dictionary. |
| Json.LookupAt | declarr/arr.py:313-315 | In a dictionary without duplicate keys, looking up the key of entry `i` finds entry `i`'s value. |
| Json.Set | declarr/arr.py:463-481 | After `d[k] = v`, `k` maps to `v` and every other key maps as before; a present key keeps its position; a new key is appended. |
| Json.SetNoDup | declarr/arr.py:463-481 | `d[k] = v` keeps keys distinct. |
| Json.Overlay | declarr/arr.py:463-481 | In `{**a, **b}` a key of `b` maps to `b`'s value and any other key to `a`'s; `a`'s keys keep their order at the front. |
| Json.OverlayNoDup | declarr/arr.py:463-481 | `{**a, **b}` keeps keys distinct. |
| Utils.Field | declarr/arr.py:490 | `obj[k]` succeeds exactly on an object holding `k`, returns its value, and raises `KeyError(k)` on an object without it. |
| Utils.DeepMergeLookup | declarr/arr.py:352 | `deep_merge(a, b)` on objects maps every key to `a`'s value merged recursively with `b`'s when both are present, and otherwise to whichever side holds it. |
| Utils.MergeFromLookup | declarr/arr.py:352 | The merge loop over `a`'s keys yields, for every key, `a`'s value merged with the accumulator's. |
| Utils.MergeFromNoDup | declarr/arr.py:352 | The merge loop keeps keys distinct. |
| Utils.DeepMergeNoDup | declarr/arr.py:352 | A deep merge into a dictionary with distinct keys has distinct keys. |
| Utils.MergeIntoPrefix | declarr/arr.py:352 | Merging a dictionary's remaining entries into its own prefix gives the dictionary back. |
| Utils.DeepMergeLeaf | declarr/arr.py:381 | A non-object value declared under a key survives a deep merge; an undeclared key takes the other side's value. |
| Utils.DeepMergeOverEmpty | declarr/arr.py:352 | Merging over an empty existing record (`existing.get(k, {})`) changes nothing. |
| Utils.DelKeys | declarr/arr.py:371-377 | `del_keys` removes exactly the listed keys, invents nothing and keeps keys distinct. |
| Utils.FieldEntry | declarr/arr.py:347 | A field record `{name, value}` becomes the pair of its string name and its value, or `None` when the value is absent; a record without a name raises `KeyError("name")`. |
| Utils.IdEntry | declarr/arr.py:284 | `v["label"]: v["id"]` succeeds exactly on an object with a string key field and an id, and yields them. |
| Utils.EntriesOf | declarr/arr.py:297 | Building a dictionary's entries succeeds exactly when every item yields one, and then yields one entry per item, in order. |
| Utils.SetAll | declarr/arr.py:297 | Assigning entries one by one into a dictionary with distinct keys keeps them distinct. |
| Utils.SetAllEntries | declarr/arr.py:297 | Every entry after the assignments was in the dictionary or among the assigned entries. |
| Utils.SetAllKeeps | declarr/arr.py:297 | The assignments never remove a key. |
| Utils.SetAllHasKey | declarr/arr.py:297 | Every assigned key is present afterwards. |
| Utils.SetAllDistinct | declarr/arr.py:297 | When the keys are already distinct, the assignments just append, in order. |
| Utils.DictOf | declarr/arr.py:297 | A dictionary comprehension succeeds exactly when every item yields an entry, and its keys are distinct. |
| Utils.DictOfEntries | declarr/arr.py:297 | Every entry of a comprehension's dictionary comes from one of the items. |
| Utils.DictOfHasKeys | declarr/arr.py:297 | Every item's key is in the comprehension's dictionary (a later duplicate overwrites an earlier one rather than dropping it). |
| Utils.DictOfDistinct | declarr/arr.py:297 | When the items' keys are distinct, the comprehension's dictionary is the items' entries in order. |
| Utils.ToDict | declarr/arr.py:297 | `to_dict(listing, key)` needs a list of objects that all hold `key`; every entry maps a string key to the record holding that key. |
| Utils.ToDictEntries | declarr/arr.py:297 | Every entry of `to_dict` is a record whose key field is its key, and every listed item holds the key field. |
| Utils.IdMap | declarr/arr.py:284 | `{v[key]: v["id"] for v in listing}` has distinct keys. |
| Utils.IdMapSpec | declarr/arr.py:284 | Every listed item's label is a key of the id map, and every entry of the map is some item's label and id. |
| Utils.Index | declarr/arr.py:527 | `d[key]` with a string key succeeds exactly when the key is present and returns its value; otherwise it raises `KeyError(key)`. |
| Utils.MapValues | declarr/arr.py:343-349 | `map_values` keeps the keys and their order and replaces each value with `f(key, value)`. |
| Utils.MapValuesRSpec | declarr/arr.py:302-309 | A `map_values` whose function may raise succeeds exactly when it succeeds on every entry, then keeps the keys; otherwise it raises the first entry's error. |
| Utils.Each | declarr/arr.py:571-583 | A list comprehension that may raise succeeds exactly when every item succeeds, and keeps length and order; otherwise it raises the first failing item's error. |
| Utils.Unique | declarr/arr.py:278 | `unique` keeps the same members, each once. |
| Utils.Lower | declarr/arr.py:278 | Lower-casing keeps the length, turns each upper-case ASCII letter into its lower-case form, keeps every other character, and leaves no upper-case letter. |
| Utils.LowerIdempotent | declarr/arr.py:278 | Lower-casing twice equals lower-casing once. |
| Fields.FieldsToMap | declarr/arr.py:347 | The `fields` list becomes a name → value map exactly when every element is a named record, and the names are distinct. |
| Fields.FieldRecord | declarr/arr.py:402 | `{"name": k}` or `{"name": k, "value": v}` reads back as `(k, v)`; the value is written exactly when it is not `None`. |
| Fields.FieldsToList | declarr/arr.py:401-404 | The field map becomes a list of records, one per key, in order, each reading back as its entry. |
| Fields.MapListMap | declarr/arr.py:347 | Map → list → map gives the same map back. |
| Fields.CanonicalRecord | declarr/arr.py:402 | A record in the engine's own shape is rebuilt exactly from its entry. |
| Fields.ListMapList | declarr/arr.py:347 | List → map → list gives the same list back when the records have the engine's shape and distinct names. |
| Fields.ResolveTag | declarr/arr.py:398 | A string tag resolves, lower-cased, through the tag map and raises `KeyError` when it is missing; any other tag passes unchanged. |
| Fields.ResolveTagsSpec | declarr/arr.py:397-400 | Resolving a tag list succeeds exactly when every string tag is in the map; it keeps length and order, resolves string tags and keeps the others. |
| Fields.ResolveTagIgnoresCase | declarr/arr.py:398 | Tags that differ only in case resolve alike. |
| Fields.ResolveHdTwice | declarr/arr.py:398 | `"HD"` and `"hd"` resolve to the same id. |
| Resources.Undeclared | declarr/arr.py:298-300 | The orphans are exactly the existing records whose key is not declared; there are none when every existing key is declared. |
| Resources.UndeclaredNoDup | declarr/arr.py:298-300 | The orphans of a dictionary have distinct keys. |
| Resources.OrphanDelete | declarr/arr.py:300 | An orphan's deletion targets its id and succeeds exactly when the record holds one. |
| Resources.OrphansOfQueued | declarr/arr.py:298-300 | The queue receives, in order, one deletion of `path/{id}` per orphan until one lacks an id; it passes exactly when every orphan has an id, and otherwise raises the first such orphan's error. |
| Resources.OrphansQueued | declarr/arr.py:298-300 | The same for the orphans of a declared mapping: one deletion per undeclared record, in order, until one lacks an id. |
| Resources.OrphansQueuedShape | declarr/arr.py:300 | Each queued orphan deletion targets one item under the reconciled path and carries no body. |
| Resources.WithinSlice | declarr/arr.py:299 | Python's `name in s` on two strings holds exactly when `name` is the slice of `s` at some position. |
| Resources.Unlisted | declarr/arr.py:298-300 | The records `name not in cfg` finds undeclared are exactly the existing records whose key the declared value does not hold: not a key of a mapping, not an element of a list, not a substring of a string. For a mapping they are `Undeclared`'s. |
| Resources.Misdeclared | declarr/arr.py:297-302 | A declared collection that is not a mapping sends nothing more and always raises. A list or a string first queues, in order, the deletion of every record it does not hold, until one lacks an id; when all have ids, `map_values` then raises `WrongType`. Any other value raises `WrongType` with nothing queued. |
| Resources.MisdeclaredListQueues | declarr/arr.py:297-302 | `downloadClient: ["qbit"]` against a listing of only `sab` (id 3) queues the deletion of `/downloadclient/3` and then raises. |
| Resources.WithName | declarr/arr.py:303-309 | `{"name": k, **v}` keeps every declared key, adds `name` only when it is undeclared and adds nothing else. |
| Resources.DeclaredSpec | declarr/arr.py:302-309 | Each declared entry goes through the defaults and then gets its name: keys and order kept, declared fields win, `name` defaults to the key. |
| Resources.ResourceStep | declarr/arr.py:313-319 | An undeclared name is posted as declared; an existing one is put to its id with the existing record overlaid by the declared fields. |
| Resources.ResourceSteps | declarr/arr.py:311-319 | One upsert per declared entry, in declaration order. |
| Resources.UpsertsDeleteNothing | declarr/arr.py:311-324 | The upsert loop never sends a deletion. |
| Resources.ResourcesEffect | declarr/arr.py:286-324 | A `None` collection does nothing; otherwise the path is listed first; no deletion is ever sent; only item deletions under the path are queued. |
| Resources.ResourcesApply | declarr/arr.py:298-324 | After the listing, nothing is deleted at once and only item deletions under the path are queued. |
| Resources.ResourcesFrom | declarr/arr.py:297-324 | After the listing, an indexing error raises before anything else is sent or queued. A declared mapping gets its orphans and upserts (`ResourcesApply`); any other declared value goes as `Misdeclared` says. Either way no deletion is sent and only item deletions under the path are queued. |
| Resources.ResourcesListed | declarr/arr.py:294-324 | A declared collection is listed first, and everything else follows from the next request on. |
| Resources.ResourcesMisdeclared | declarr/arr.py:297-302 | A declared list, string, number or boolean is listed, queues what `Misdeclared` says, sends nothing more and raises. |
| Resources.ResourcesQueue | declarr/arr.py:297-300 | The queued deletions are exactly the queued orphans of the listing. |
| Resources.ResourcesRun | declarr/arr.py:297-324 | Once orphans are queued, the declared entries are attempted in order from the request after the listing. |
| Resources.ResourcesTolerant | declarr/arr.py:321-324 | With `allow_error`, every buildable upsert is sent after the listing and the call does not raise. |
| Resources.ResourcesStrict | declarr/arr.py:321-323 | Without `allow_error`, the upserts stop at the first failure, and the call passes exactly when none failed. |
| Engine.ArrSyncEngine.SyncResources | declarr/arr.py:286-324 | `sync_resources` sends, queues and raises exactly as `ResourcesEffect` says; `cfg` and the tag map are untouched. |
| Engine.ArrSyncEngine.ListResources | declarr/arr.py:297-324 | For a declared collection, the engine behaves as `ResourcesEffect` says. |
| Engine.ArrSyncEngine.UpsertIndexed | declarr/arr.py:297-324 | After the listing, the engine behaves as `ResourcesFrom` says. |
| Engine.ArrSyncEngine.DeferMisdeclared | declarr/arr.py:297-302 | For a declared value that is not a mapping, the engine queues and raises as `Misdeclared` says. |
| Engine.ArrSyncEngine.UpsertResources | declarr/arr.py:298-324 | The part after the listing behaves as `ResourcesApply` says. |
| Contracts.WithFieldMap | declarr/arr.py:343-349 | An existing contract gets its `fields` list replaced by the name → value map and keeps every other key; it fails when `fields` is missing or malformed. |
| Contracts.ContractDefaults | declarr/arr.py:357-360 | The defaults are exactly `enable: true` and `name: k`. |
| Contracts.EnableAndName | declarr/arr.py:355-362 | `{"enable": True, "name": k, **v}`: declared keys win, `enable` and `name` are filled in when missing, and nothing else is added. |
| Contracts.SchemaEntry | declarr/arr.py:366-378 | A schema entry gets its field map and loses `presets`; every other key is kept. |
| Contracts.PickSchema | declarr/arr.py:381 | The schema picked is the one keyed by the entry's discriminator value, and picking fails exactly when that value is missing, not a string or not in the schema. |
| Contracts.ToWire | declarr/arr.py:393-406 | The wire body resolves `tags` through the tag map, turns the field map back into a list, and keeps every other key. |
| Contracts.ContractStep | declarr/arr.py:412-417 | An undeclared name is posted; an existing one is put, as prepared, to its id, and fails only when that record has no id. |
| Contracts.ContractSteps | declarr/arr.py:412-417 | One upsert per prepared entry, in order. |
| Contracts.ContractsEffect | declarr/arr.py:330-419 | A `None` collection does nothing; otherwise the path is listed first; no deletion is ever sent; only item deletions under the path are queued. |
| Contracts.ContractsFromMerged | declarr/arr.py:341-353 | A failure while merging with the existing contracts ends the call with that error before anything more is sent. |
| Contracts.ContractsAfterSchema | declarr/arr.py:366-419 | The schema is fetched next; nothing is deleted at once; only item deletions are queued. |
| Contracts.ContractsFromPrepared | declarr/arr.py:379-406 | A failure while preparing the entries raises before any orphan is queued or any upsert is sent. |
| Contracts.ContractsApply | declarr/arr.py:408-417 | The orphan queueing and upsert loop send no deletion and queue only item deletions. |
| Contracts.EnableNamePrecedence | declarr/arr.py:350-391 | After both merges and both `enable`/`name` fills, a plain declared `enable`/`name` wins, else the server's existing one, else the default; the schema never overrides it. |
| Contracts.KeyAfterExisting | declarr/arr.py:350-362 | After merging with the existing contract and filling `enable`/`name`, the key holds the declared value, else the existing one, else the default. |
| Contracts.KeyAfterSchema | declarr/arr.py:379-391 | Merging the schema and filling `enable`/`name` again keep a key that is already a plain value. |
| Contracts.PreparedOrphans | declarr/arr.py:408-410 | The orphans computed from the fully prepared entries are the orphans of the declared keys: preparation adds and drops no entry. |
| Contracts.MapValuesRKeys | declarr/arr.py:379-406 | A fallible `map_values` keeps the keys in order. |
| Contracts.MergeExistingKeys | declarr/arr.py:350-353 | Merging with the existing contracts keeps the declared keys in order. |
| Contracts.CompleteKeys | declarr/arr.py:379-406 | The schema merge, the fills, the defaults and the wire conversion keep the keys in order. |
| Contracts.UndeclaredSameKeys | declarr/arr.py:408-410 | Orphans depend only on which keys are declared. |
| Contracts.ContractsListThenSchema | declarr/arr.py:341-367 | A declared collection is listed; a failure of the merge with the listing raises right after it; otherwise the schema request comes second. |
| Contracts.ContractsApplySpec | declarr/arr.py:408-417 | Orphans are queued first, and a failure there sends no upsert; otherwise upserts go in order up to the first failure, and the call passes exactly when none failed. |
| Engine.ArrSyncEngine.SyncContracts | declarr/arr.py:330-419 | `sync_contracts` sends, queues and raises exactly as `ContractsEffect` says, with the tag map the engine holds. |
| Engine.ArrSyncEngine.SyncDeclaredContracts | declarr/arr.py:341-419 | The same, for a declared collection. |
| Engine.ArrSyncEngine.ContinueMerged | declarr/arr.py:350-419 | The part after merging with the existing contracts behaves as `ContractsFromMerged` says. |
| Engine.ArrSyncEngine.PrepareContracts | declarr/arr.py:366-419 | The part from the schema request on behaves as `ContractsAfterSchema` says. |
| Engine.ArrSyncEngine.ApplyPrepared | declarr/arr.py:379-419 | The part after preparation behaves as `ContractsFromPrepared` says. |
| Engine.ArrSyncEngine.ApplyContracts | declarr/arr.py:408-417 | Orphan queueing and upserts behave as `ContractsApply` says. |
| Tags.InitialTags | declarr/arr.py:261 | `cfg.get("tag", [])`: an empty list when undeclared; otherwise the declared value, whatever its type. |
| Tags.EntryAddend | declarr/arr.py:268-269 | `y.get("tags", [])` succeeds exactly on an object, and gives its `tags`, or an empty list when it has none. |
| Tags.CollectionAddends | declarr/arr.py:263-269 | A missing or `None` collection adds nothing; an object adds one value per entry, in order; any other collection raises. |
| Tags.RootFolderTags | declarr/arr.py:271-275 | Lidarr's `defaultTags` sum to a list. A missing `rootFolder` raises `KeyError`, and a `None` one raises a type error. |
| Tags.TagChunks | declarr/arr.py:263-275 | For a list `tags`, the chunks are the items of each added value, in the order the values are added. |
| Tags.DefaultTagsOf | declarr/arr.py:272-275 | Summing the folders' `defaultTags` succeeds exactly when every folder is an object whose `defaultTags` is a list. |
| Tags.Gather | declarr/arr.py:261-275 | Gathering keeps the tags collected so far as a prefix, and passes exactly when every contribution could be read. |
| Tags.GatherAll | declarr/arr.py:261-275 | When every contribution can be read, the tags are the initial ones followed by all contributions in order. |
| Tags.GatherTags | declarr/arr.py:261-275 | The gathering loop computes exactly `Gather`. |
| Tags.Append | declarr/arr.py:269 | `tags += v` for a `tags` that is not a list: it succeeds exactly for two strings, which concatenate, or two numbers, which add (booleans count as 0 and 1). |
| Tags.Accumulate | declarr/arr.py:261-275 | A `tag` that is not a list never becomes one. With no additions it is kept. A dictionary or `None` raises at the first addition, with that value's own error if computing it raised. A string passes exactly when every addition is a string. A number stays a number. Every addition that raised fails the run. |
| Tags.AccumulateText | declarr/arr.py:261-275 | A string `tag` to which only strings are added ends as the concatenation of all of them, in order. |
| Tags.TextTagAlone | declarr/arr.py:261-275 | `tag: "HD"` with nothing else tagged adds nothing and keeps `"HD"`. |
| Tags.TextTagIsLetters | declarr/arr.py:277-278 | Iterating the string `"HD"` gives its letters, so the labels lowered for creation are `h` and `d`. |
| Tags.LoweredLetters | declarr/arr.py:278 | `unique` and lower-casing turn the letters `H` and `D` into `h` and `d`. |
| Tags.LowerTag | declarr/arr.py:278 | Lower-casing a tag succeeds exactly on strings and yields the lower-cased string. |
| Tags.ToCreate | declarr/arr.py:278-280 | The tags to post are exactly the lowered tags the server does not have, and there are no more of them than lowered tags. |
| Tags.TagPosts | declarr/arr.py:279-280 | One `POST /tag {"label": t}` per tag to create, in order. |
| Tags.CreatedLabels | declarr/arr.py:277-280 | Every posted label is a lower-case string the server lacked, and every declared string tag whose lower-case form the server lacked is posted. |
| Tags.NothingToCreateTwice | declarr/arr.py:278-280 | When the server already has every lowered tag, nothing is posted. |
| Tags.HdPostedTwice | declarr/arr.py:278-280 | `unique` runs before lower-casing, so `["HD", "hd"]` posts `hd` twice. |
| Tags.TagsEffect | declarr/arr.py:260-284 | The tag map is set exactly when the call passes; only `GET`s of `/tag` and posts of lower-case labels are sent, the listing first. A list `tag`, or none, is extended chunk by chunk; a chunk that raises ends the call before anything is sent, and otherwise the gathered list is what gets iterated. Any other `tag` takes its additions as `Accumulate` says; an addition that fails ends the call before anything is sent; otherwise the listing is sent, and a value that cannot be iterated then raises. |
| Tags.TagsRequests | declarr/arr.py:277-284 | From the gathered value's items on, the listing goes first, only tag requests are sent, and the map is set exactly on success. A value that cannot be iterated raises right after the listing. |
| Tags.TagsToCreate | declarr/arr.py:277-278 | Every tag to create is a lower-case string, and there are tags to create only when the gathered value could be iterated. |
| Tags.TagsFromCreate | declarr/arr.py:278-284 | A failure to compute the tags to create raises before any post. |
| Tags.TagsCreate | declarr/arr.py:279-284 | Posting and relisting send only tag requests, and set the map exactly on success. |
| Tags.TagsRelist | declarr/arr.py:284 | The final listing sends one `GET /tag`; the tag map becomes its label → id map, or the call raises that listing's error. |
| Tags.LidarrNoneRootFolder | declarr/arr.py:271-275 | For Lidarr, a `None` root-folder collection raises before any request, whatever `tag` holds. |
| Engine.ArrSyncEngine.SyncTags | declarr/arr.py:260-284 | `sync_tags` sends what `TagsEffect` says and updates the tag map exactly when the call passes. It writes the gathered list back into `cfg["tag"]` when that key is declared as a list, which models the in-place `+=`. A `tag` of any other type leaves the configuration as it was. |
| Engine.ArrSyncEngine.GatheredTags | declarr/arr.py:271-284 | After gathering into a list, the engine either raises or performs `TagsRequests`, and writes the gathered list back to a declared `tag` key. |
| Engine.ArrSyncEngine.RefreshTags | declarr/arr.py:277-284 | Listing, posting and relisting tags behave as `TagsRequests` says for the gathered value's items. |
| Engine.ArrSyncEngine.CreateTags | declarr/arr.py:278-284 | The part after the tags to create are known behaves as `TagsFromCreate` says. |
| Engine.ArrSyncEngine.PostTags | declarr/arr.py:279-284 | The posting loop and relisting behave as `TagsCreate` says. |
| Engine.ArrSyncEngine.RelistTags | declarr/arr.py:284 | The relisting behaves as `TagsRelist` says. |
| Patcher.CreateEach | declarr/arr.py:425-427 | A list is created with one `POST` per element, in order, to the same resource. |
| Patcher.Patch | declarr/arr.py:424-453 | `recursive_sync` only writes below the resource it starts from and never deletes. |
| Patcher.PatchSettings | declarr/arr.py:438-444 | A settings object is read and then written back to the same resource: a `GET` then a `PUT`. |
| Patcher.PatchChildren | declarr/arr.py:452-453 | Recursing into the keys writes only under `resource/` and never deletes. |
| Patcher.NamespaceOnlyBelow | declarr/arr.py:446-453 | A namespace object (no plain value, no `__req`) never writes its own resource, only resources strictly below it. |
| Patcher.EmptyNamespace | declarr/arr.py:452-453 | An empty object sends nothing. |
| Patcher.SettingsWritten | declarr/arr.py:438-444 | A settings object sends exactly a `GET` and a `PUT` to its resource; a declared plain value other than `__req` is written as declared; an undeclared key keeps the server's value. |
| Patcher.ListCreatesEach | declarr/arr.py:425-429 | A list only posts to its resource, and passes exactly when every post succeeds. |
| Engine.ArrSyncEngine.RecursiveSync | declarr/arr.py:424-453 | `recursive_sync` sends exactly what `Patch` says and changes nothing else. |
| Engine.ArrSyncEngine.SyncChildren | declarr/arr.py:452-453 | The loop over the keys sends exactly what `PatchChildren` says. |
| Orchestration.WithDefaultsAsWritten | declarr/arr.py:463-481 | The overlay `sync` runs: afterwards every managed key, the misspelt `indexerProxie` among them, is present; a declared key keeps its value; an undeclared one gets its default. |
| Orchestration.OverlayKeepsDefaults | declarr/arr.py:463-481 | Every key of the defaults is present after `{**defaults, **cfg}`. |
| Orchestration.WithDefaults | declarr/arr.py:469 | The corrected overlay of the finding below, with the default key spelled `indexerProxy`: every managed key is present afterwards; a declared key keeps its value; an undeclared one gets its default. |
| Orchestration.IndexerProxyMissingAsWritten | declarr/arr.py:469 | With the overlay as written, a configuration without `indexerProxy` still lacks it, and reading it raises `KeyError`. |
| Orchestration.IndexerProxyDefaulted | declarr/arr.py:469 | With the corrected overlay, an undeclared `indexerProxy` reads as `None`, so the phase is skipped. |
| Orchestration.Phases | declarr/arr.py:483-660 | Every type starts with tags and download clients and ends with notifications, settings and the drain; Prowlarr runs app profiles, indexers, applications and indexer proxies; Lidarr runs quality definitions and its root folders; Sonarr/Radarr run quality definitions, custom formats, quality profiles and root folders. |
| Orchestration.CapabilityTable | declarr/arr.py:493-609 | A phase runs for a server type exactly when the type gates of `sync` admit it. |
| Orchestration.SonarrRadarrTable | declarr/arr.py:544-607 | For Sonarr and Radarr, the phases run are exactly those their gates admit. |
| Orchestration.LidarrTable | declarr/arr.py:544-554 | For Lidarr, the phases run are exactly those its gates admit. |
| Orchestration.ProwlarrTable | declarr/arr.py:493-542 | For Prowlarr, the phases run are exactly those its gates admit. |
| Orchestration.AppProfileDefault | declarr/arr.py:497-503 | An app profile gets the three search flags and `minimumSeeders: 1` unless it declares them; declared keys win. |
| Orchestration.ProfileEntry | declarr/arr.py:505-510 | A listed profile enters the map with its name and id only when its name is declared, or when nothing is declared. |
| Orchestration.ProfileId | declarr/arr.py:506 | A profile entry is its name and its `id`, which must be present. |
| Orchestration.ProfileMapOf | declarr/arr.py:505-510 | The profile map succeeds exactly when every listed profile can be read; its keys are distinct and each entry comes from a listed profile. |
| Orchestration.ProfileMapOfComplete | declarr/arr.py:505-510 | The map misses no profile: the last listed profile that passes the filter under a name gives that name's id. |
| Orchestration.ProfileMapOfHasKey | declarr/arr.py:505-510 | Every listed profile that passes the filter has its name in the map. |
| Orchestration.ProfileMapOfSnoc | declarr/arr.py:505-510 | The map of a listing is the map of all but the last profile, with the last profile's entry set when it passes the filter, so a later profile of the same name overwrites an earlier one. |
| Orchestration.ProfileMapDeclaredOnly | declarr/arr.py:505-510 | With declared profiles, the map holds only declared names, each with the id of a listed profile of that name. |
| Orchestration.ProfileMapFrom | declarr/arr.py:505-510 | A failed listing raises its error; otherwise the map is built from the listing. |
| Orchestration.AppProfilesListing | declarr/arr.py:505-510 | After app profiles were synced, `/appprofile` is listed once; a failed sync lists nothing; a failure leaves the map empty. |
| Orchestration.AppProfilesEffect | declarr/arr.py:494-510 | Syncing and listing app profiles never deletes and queues only item deletions; on failure the map is empty. |
| Orchestration.Values | declarr/arr.py:513 | `profile_map.values()`, one per entry in order. |
| Orchestration.MinId | declarr/arr.py:516 | `min` of no ids raises `ValueError`; otherwise it needs integer ids and yields one of them that is no larger than any other. |
| Orchestration.GenProfileId | declarr/arr.py:512-527 | An indexer without `appProfileId` gets the smallest id; an integer id is kept when it exists and replaced by the smallest otherwise; a name is looked up in the map; the result is always one of the map's ids. |
| Orchestration.IndexerDefault | declarr/arr.py:533-536 | An indexer gets `appProfileId` from `gen_profile_id` and keeps every other key; it fails exactly when that does. |
| Orchestration.ScoreOf | declarr/arr.py:577-580 | A format not named in `formatItems` scores 0; a named one scores its declared `score`. |
| Orchestration.FormatItem | declarr/arr.py:574-581 | Each server format becomes `{name, format: id, score}`; this needs its name and id and a readable score. |
| Orchestration.FormatItemsSpec | declarr/arr.py:571-583 | `gen_formats_items` gives one item per server format, in order, with its name, its id as `format`, and its declared score or 0. |
| Orchestration.QualityProfileDefault | declarr/arr.py:588-591 | A quality profile gets `formatItems` from `gen_formats_items` and keeps every other key. |
| Orchestration.QualityProfilesFrom | declarr/arr.py:585-593 | Syncing quality profiles never deletes and queues only item deletions. |
| Orchestration.QualityProfilesEffect | declarr/arr.py:569-593 | `/customformat` is listed first; a failed listing or a missing `qualityProfile` raises right after it; otherwise the profiles are synced, tolerating errors, from the next request. |
| Orchestration.QualityDefinitionStep | declarr/arr.py:550-554 | A declared title missing from the server raises `KeyError`; otherwise a `PUT` goes to that definition's id with the declaration deep-merged over the server's record. |
| Orchestration.QualityDefinitionSteps | declarr/arr.py:550-554 | One update per declared title, in order. |
| Orchestration.QualityDefinitionBody | declarr/arr.py:553 | A declared plain value is sent as declared; an undeclared key keeps the server's value. |
| Orchestration.QualityDefinitionsEffect | declarr/arr.py:544-554 | The definitions are listed first; only that listing and `PUT`s to single definitions are sent; a missing declaration raises. |
| Orchestration.QualityDefinitionPlan | declarr/arr.py:545-554 | A missing declaration raises; every planned request is a `PUT` to one definition. |
| Orchestration.QualityDefinitionsFromPlan | declarr/arr.py:550-554 | A plan that failed raises before sending anything; otherwise only `PUT`s to single definitions are sent. |
| Orchestration.FolderPaths | declarr/arr.py:596 | The declared root folders are a list of paths. |
| Orchestration.FolderDict | declarr/arr.py:596 | `{v: {"path": v}}`: one entry per distinct declared path, keyed by it, whose body is `{"path": path}`. |
| Orchestration.FolderDelete | declarr/arr.py:603 | An undeclared root folder is deleted at once by its id. |
| Orchestration.FolderDeletes | declarr/arr.py:601-603 | One immediate deletion per undeclared folder, in order, each of a single `/rootFolder` item. |
| Orchestration.FolderPosts | declarr/arr.py:605-607 | One `POST /rootFolder` per missing folder, in order. |
| Orchestration.FolderSteps | declarr/arr.py:600-607 | The folder diff only deletes single folders and posts new ones, all under `/rootFolder`. |
| Orchestration.FolderDeletesSpec | declarr/arr.py:601-603 | A folder is deleted exactly when it exists on the server and is not declared. |
| Orchestration.FolderPostsSound | declarr/arr.py:605-607 | Every post creates a declared folder the server lacks. |
| Orchestration.FolderPostsComplete | declarr/arr.py:605-607 | Every declared folder the server lacks is posted. |
| Orchestration.FolderStepsConverged | declarr/arr.py:600-607 | When the server already has exactly the declared folders, nothing is sent. |
| Orchestration.RootFoldersEffect | declarr/arr.py:595-607 | A `None` declaration does nothing; otherwise the folders are listed first; nothing is `PUT`; every deletion is of a single folder. |
| Orchestration.FoldersListed | declarr/arr.py:600-607 | After the paths are known, the listing comes first and only folder requests follow. |
| Orchestration.FolderDiffFrom | declarr/arr.py:600-607 | The diff touches only `/rootFolder`, and deletes only single folders. |
| Orchestration.FolderDiff | declarr/arr.py:601-607 | The same, once the existing folders are known. |
| Orchestration.LidarrRootDefault | declarr/arr.py:627-640 | A Lidarr root folder must be an object and stays one. |
| Orchestration.LidarrOverrides | declarr/arr.py:630-639 | The override sets exactly `defaultTags`, `defaultQualityProfileId` and `defaultMetadataProfileId`. |
| Orchestration.LidarrDefaultTagsFromTags | declarr/arr.py:630-633 | `defaultTags` is the folder's `tags` resolved through the tag map, or empty when it has none. |
| Orchestration.LidarrRootFoldersEffect | declarr/arr.py:609-642 | `/qualityprofile` is listed first; nothing is deleted at once; only `/rootFolder` item deletions are queued. |
| Orchestration.LidarrAfterQualities | declarr/arr.py:619-642 | A failed quality-profile map raises; otherwise `/metadataprofile` is listed next. |
| Orchestration.LidarrFolders | declarr/arr.py:624-642 | A failed metadata-profile map, or a missing `rootFolder`, raises before any folder request. |
| Runs.GrowsBy | declarr/arr.py:286-419 | Appending requests that delete at most single root folders, and queue entries that each name one record without a body, is growth of the log and the queue. |
| Runs.GrowsTrans | declarr/arr.py:486-660 | Growth of the log and the queue composes across phases. |
| Runs.PhaseSemanticsFaithful | declarr/arr.py:486-666 | The phase table built from the stage functions runs each phase exactly as that phase's stage function says. |
| Runs.TagsConfined | declarr/arr.py:260-284 | The tags phase sends only tag requests, queues nothing and deletes nothing. |
| Runs.ContractsConfined | declarr/arr.py:490-649 | Download clients, applications, indexers, indexer proxies and notifications delete nothing at once and queue only single records, and leave the configuration, tag map and profile map as they were. |
| Runs.ContractsStageConfined | declarr/arr.py:330-419 | Any `sync_contracts` call, with any key, endpoint, defaults and scheme key, only grows the log and the queue and deletes nothing at once. |
| Runs.AppProfilesConfined | declarr/arr.py:493-510 | Syncing and listing app profiles deletes nothing at once and queues only single records. |
| Runs.QualitiesConfined | declarr/arr.py:544-593 | Quality definitions, custom formats and quality profiles delete nothing at once and queue only single records. |
| Runs.FoldersConfined | declarr/arr.py:595-660 | The Sonarr/Radarr root-folder diff is the only phase that deletes before the drain, and only single root folders; the Lidarr root folders and the settings tree delete nothing. |
| Runs.FaithfulConfining | declarr/arr.py:486-666 | Every phase of `sync` keeps to `Confined`: the log and the queue only grow; only the tags phase changes the configuration and the tag map; only the app profiles set the profile map; the drain sends one `DELETE` per queued entry and never raises. |
| Runs.ProgressNext | declarr/arr.py:486-666 | Phase `i + 1` runs exactly when every phase before it passed. |
| Runs.ProgressStops | declarr/arr.py:486-660 | Once a phase raises, no later phase sends, queues or changes anything, and the run's error is that phase's. |
| Runs.ProgressGrows | declarr/arr.py:486-660 | Up to the drain, a run only grows the log and the queue, and deletes at once only what the root-folder diff deletes. |
| Runs.BeforeDrain | declarr/arr.py:595-666 | The drain is the last phase of every type and the only one; only Sonarr and Radarr run the root-folder diff. |
| Runs.SyncEnds | declarr/arr.py:486-666 | A whole run ends as `Ends` says: a raised run has only grown the log and the queue; a passed run has grown them and then sent exactly the drain of the final queue. |
| Runs.TagsKeepsKey | declarr/arr.py:260-284 | The tags phase changes no configuration key but `tag`. |
| Runs.FaithfulKeepsKey | declarr/arr.py:486-666 | No phase of `sync` changes a configuration key other than `tag`. |
| Runs.ProgressKeepsKey | declarr/arr.py:486-666 | A key that no phase changes reads the same after any number of phases. |
| Runs.ProxyStageMissing | declarr/arr.py:542 | The proxy phase with no `indexerProxy` key raises `KeyError` and sends, queues and changes nothing. |
| Runs.ProxyStageNull | declarr/arr.py:542 | The proxy phase with `indexerProxy` set to `None` passes and sends, queues and changes nothing. |
| Runs.FaithfulRaised | declarr/arr.py:486-666 | A run that has raised by some phase ends in exactly that state, having deleted nothing but Sonarr/Radarr root folders. |
| Runs.ProxyUndeclaredRaises | declarr/arr.py:463-542 | A Prowlarr configuration that declares no `indexerProxy`, prepared as `sync` prepares it, never finishes. If the five phases before the proxies pass, the proxy phase raises `KeyError('indexerProxy')` and nothing more happens. In every case the run raises without sending any `DELETE`, so the deferred deletions are never drained. |
| Runs.ProxyDefaultedSkips | declarr/arr.py:469 | With the corrected overlay the same configuration reaches the proxy phase with the collection `None`, and that phase passes without any effect. |
| Runs.FaithfulEnds | declarr/arr.py:486-666 | The phases of `sync` against a server end as `Ends` says, with deletions before the drain only for Sonarr/Radarr root folders. |
| Engine.ArrSyncEngine.ContractPhase | declarr/arr.py:490-649 | A contract phase reads `cfg[key]` for its collection (`downloadClient`, `applications`, `indexerProxy` or `notification`), raising `KeyError` when absent, and syncs it at the matching endpoint. The new state is exactly `CollectionStage`'s, and the run advances by one phase. |
| Engine.ArrSyncEngine.TagsPhase | declarr/arr.py:486 | The new log, configuration (the `tag` write-back), tag map and outcome are exactly `TagsStage`'s; the queue is untouched; the run advances by one phase. |
| Engine.ArrSyncEngine.AppProfilesPhase | declarr/arr.py:493-510 | The new state and the returned profile map are exactly `AppProfilesStage`'s; the run advances by one phase. |
| Engine.ArrSyncEngine.SyncAppProfiles | declarr/arr.py:494-510 | Syncing then listing app profiles behaves as `AppProfilesEffect` says. |
| Engine.ArrSyncEngine.ListAppProfiles | declarr/arr.py:505-510 | The listing behaves as `AppProfilesListing` says. |
| Engine.ArrSyncEngine.IndexersPhase | declarr/arr.py:530-538 | Indexers are synced as contracts keyed by `name`/`indexerName`, with `gen_profile_id` over the given profile map as defaults. The new state is exactly `IndexersStage`'s, and the run advances by one phase. |
| Engine.ArrSyncEngine.QualityDefinitionsPhase | declarr/arr.py:544-554 | The new state is exactly `QualityDefinitionsStage`'s, and the run advances by one phase. |
| Engine.ArrSyncEngine.SyncQualityDefinitions | declarr/arr.py:545-554 | The definitions are listed and updated as `QualityDefinitionsEffect` says. |
| Engine.ArrSyncEngine.UpdateQualityDefinitions | declarr/arr.py:550-554 | The update loop behaves as `QualityDefinitionsFromPlan` says. |
| Engine.ArrSyncEngine.CustomFormatsPhase | declarr/arr.py:562-567 | Custom formats are synced by name with errors tolerated. The new state is exactly `CustomFormatsStage`'s, and the run advances by one phase. |
| Engine.ArrSyncEngine.QualityProfilesPhase | declarr/arr.py:569-593 | The new state is exactly `QualityProfilesStage`'s, and the run advances by one phase. |
| Engine.ArrSyncEngine.SyncQualityProfiles | declarr/arr.py:569-593 | Listing formats and syncing quality profiles behaves as `QualityProfilesEffect` says. |
| Engine.ArrSyncEngine.ReconcileQualityProfiles | declarr/arr.py:585-593 | The profile sync behaves as `QualityProfilesFrom` says. |
| Engine.ArrSyncEngine.RootFoldersPhase | declarr/arr.py:595-607 | The new state is exactly `RootFoldersStage`'s: its deletions are sent at once and never queued. The run advances by one phase. |
| Engine.ArrSyncEngine.SyncRootFolders | declarr/arr.py:595-607 | The root-folder diff behaves as `RootFoldersEffect` says. |
| Engine.ArrSyncEngine.ListFolders | declarr/arr.py:600-607 | After the paths are known, the engine behaves as `FoldersListed` says. |
| Engine.ArrSyncEngine.ApplyFolderDiff | declarr/arr.py:601-607 | The delete and post loops behave as `FolderDiffFrom` says. |
| Engine.ArrSyncEngine.LidarrRootFoldersPhase | declarr/arr.py:609-642 | The new state is exactly `LidarrRootFoldersStage`'s, and the run advances by one phase. |
| Engine.ArrSyncEngine.SyncLidarrRootFolders | declarr/arr.py:615-642 | The Lidarr root folders behave as `LidarrRootFoldersEffect` says. |
| Engine.ArrSyncEngine.AfterQualities | declarr/arr.py:619-642 | The part after the quality-profile map behaves as `LidarrAfterQualities` says. |
| Engine.ArrSyncEngine.ListMetadataProfiles | declarr/arr.py:619-642 | The metadata-profile listing and the folder sync behave as `LidarrAfterQualities` says. |
| Engine.ArrSyncEngine.ReconcileLidarrFolders | declarr/arr.py:624-642 | The folder sync behaves as `LidarrFolders` says. |
| Engine.ArrSyncEngine.SettingsPhase | declarr/arr.py:660 | `config` is synced under `/config` as `Patch` says, and a missing `config` raises `KeyError`. The new state is exactly `SettingsStage`'s, and the run advances by one phase. |
| Engine.ArrSyncEngine.DrainPhase | declarr/arr.py:662-666 | The drain sends one `DELETE` per queued entry and passes. The new state is exactly `DrainStage`'s, and the run advances by one phase. |
| Engine.ArrSyncEngine.Stops | declarr/arr.py:486-660 | A run that raised after `i` phases is, after any later phase count, still where it was. |
| Engine.ArrSyncEngine.SharedPhases | declarr/arr.py:486-490 | After tags and download clients, the engine is where the first two phases of `Progress` lead. |
| Engine.ArrSyncEngine.ProwlarrPhases | declarr/arr.py:493-542 | After app profiles, indexers, applications and indexer proxies, the engine is where the first six phases of `Progress` lead; the profile map is the one the app-profile phase built. |
| Engine.ArrSyncEngine.LidarrPhases | declarr/arr.py:544-642 | After the quality definitions and the Lidarr root folders, the engine is where the first four phases of `Progress` lead. |
| Engine.ArrSyncEngine.SonarrRadarrPhases | declarr/arr.py:544-571 | After the quality definitions, the custom formats and the rest of the Sonarr/Radarr block, the engine is where the first six phases of `Progress` lead. |
| Engine.ArrSyncEngine.ProfilesAndFoldersPhases | declarr/arr.py:569-607 | From phase 4 to phase 6 (quality profiles, root folders), the engine follows `Progress`. |
| Engine.ArrSyncEngine.OpeningPhases | declarr/arr.py:486-642 | Every phase before the notifications runs in this type's order; the engine is where `Progress` leads after them. |
| Engine.ArrSyncEngine.FinalPhases | declarr/arr.py:649-666 | From the notifications on, through the settings tree and the drain, the engine follows `Progress` to the end of the run. |
| Engine.ArrSyncEngine.RunPhases | declarr/arr.py:486-666 | From the prepared configuration, the engine ends exactly where `Progress` over all of this type's phases ends. |
| Engine.ArrSyncEngine.Prepare | declarr/arr.py:463-484 | The configuration becomes the defaults as written (`indexerProxie`) overlaid with it, and then, for Sonarr and Radarr, the compiled formats; nothing else changes. |
| Engine.DeclarrName | declarr/arr.py:456-458 | `self.cfg['declarr']['name']` succeeds exactly when `declarr` is declared as an object holding `name`, and gives that value. A missing key raises `KeyError` for it, and a `declarr` that is not an object raises a type error. |
| Engine.ArrSyncEngine.Sync | declarr/arr.py:455-666 | When `declarr.name` cannot be read for the opening debug line, that error is raised first, and nothing is sent or changed. Otherwise a failed health check raises and changes nothing. When both pass, the final log, queue, configuration, tag map and outcome are exactly those of `Progress` over this type's phases from the prepared configuration, which is the overlay as written (`Runs.Prepared`). So the first phase that raises ends the run, and its error is the run's. A raised run has only grown the log and the queue. A passed run has also sent exactly the drain of its queue at the end. Only Sonarr/Radarr root folders are deleted before the drain. A Prowlarr configuration without `indexerProxy` therefore raises `KeyError` and is never drained (`Runs.ProxyUndeclaredRaises`). |

## Left out

- Logging, the HTTP session, retries, headers, the API key and the base URL are not modelled. A request is identified by verb, path (with an optional id) and body. The text of an exception is not modelled, only its kind (`Http.Exc`).
- The health check (`GET /ping`) is the boolean parameter of `Engine.ArrSyncEngine.Sync`, because it is I/O outside the API.
- `format_data_source.compile_formats` (arr.py:32-187) is the function-valued field `compile`, applied for Sonarr and Radarr. Its workings (downloading and compiling format files) are not part of this model.
- The constructor takes the server type as a `ServerType` value. The `KeyError`s that `__init__` raises for a missing `declarr`, `type`, `url` or `config.host.apiKey` are not modelled.
- The `deferr_delete` body (always `None` in the engine) is kept in the queue and sent as `{}`, as `_base_req` does.
- Dictionary keys are strings. Where the source would build a dictionary keyed by a non-string (a numeric `name`, a numeric root-folder path), the model raises `WrongType`.
- Lower-casing is ASCII only (`Utils.Lower`). Python's Unicode case mapping is not modelled.
- JSON numbers are integers, and `Value` equality is structural. Python's `True == 1` and `1 == 1.0` in `id in avalible_ids` are not modelled. `Orchestration.MinId` orders booleans as 0/1, as Python does.
- `Utils.DeepMerge`, `to_dict`, `map_values`, `del_keys` and `unique` come from declarr/utils.py, which is not part of this model. They are modelled from how the engine calls them: `deep_merge(a, b)` starts from `b` and recurses where both sides hold objects; `to_dict` lets a later duplicate overwrite an earlier one; `unique` keeps first occurrences and iterates its argument as Python does (a string's characters, a dictionary's keys; anything else raises); `map_values` needs a dictionary, so a declared list or string raises there (`Resources.Misdeclared`).
- Patcher.SettingsWritten: `recursive_sync` mutates the caller's configuration (`obj.pop("__req")`). The model only sends the popped object and does not write the removal back into `cfg`.
- `self.profile_map` (arr.py:218) is never assigned by the engine. The local `profile_map` of `sync` is the one modelled (`AppProfilesPhase` returns it).
- Engine.ArrSyncEngine.SyncTags: the in-place `tags += …` changes `cfg["tag"]` only when that key was declared as a list. The model writes the gathered list back exactly then. A `tag` of another type is rebound by `+=`, never mutated.
- The drain is not in a `finally`: it runs only when every phase passed (arr.py:662-666). A phase that raises ends `sync` with its error, and the queue is left undrained (`Engine.ArrSyncEngine.Sync`, `Runs.ProgressStops`).
- `presets` is deleted from the top level of each schema entry (arr.py:371-377), not from the entry's field list (`Contracts.SchemaEntry`).
- Orchestration.MinId: profile ids are integers in the *arr API. Any other id is treated as `WrongType`, where Python's `min` would compare strings.

## Findings

| source | as written | input that shows it | evidently intended | confidence | as-written member | corrected member |
|---|---|---|---|---|---|---|
| declarr/arr.py:469 | The defaults overlay names the key `"indexerProxie"`, so `indexerProxy` never gets its `None` default, and `self.cfg["indexerProxy"]` at arr.py:542 raises `KeyError`. | A Prowlarr configuration that declares no `indexerProxy`: `Field(Obj(WithDefaultsAsWritten(cfg)), "indexerProxy") == Err(KeyMissing(Str("indexerProxy")))` | The default key is `"indexerProxy"`, so that an undeclared collection reads as `None` and the phase is skipped, like every other managed collection. The engine (`Runs.Prepared`, `Engine.ArrSyncEngine.Prepare`) runs the overlay as written. The corrected overlay `Orchestration.WithDefaults` is used only to state the intended behaviour (`Orchestration.IndexerProxyDefaulted`, `Runs.ProxyDefaultedSkips`). | not executed | Runs.ProxyUndeclaredRaises | Runs.ProxyDefaultedSkips |
