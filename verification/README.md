# OrientDB view metadata (OViewImpl) in Dafny

This project models the metadata object of an OrientDB *view*, a schema class whose
contents are defined by a query. The object holds three things:

- the view configuration: the defining query, whether the view is updatable, the
  refresh interval and strategy, the watched classes, the origin-RID field, the
  nodes, and the ordered list of required indexes, each a list of
  (property name, type) pairs;
- the set of *active* index names;
- the list of *inactive* index names, which the three mutators only append to,
  keeping duplicates, and which `fromStream` may replace.

The model covers:

- the three mutators of the two name containers: inactivate all, inactivate one,
  and add active names;
- the two resolvers that turn active names into index objects through the index
  manager: one returns a set, the other adds into a caller's collection;
- the document codec: `toStream` and `toNetworkStream` write ten view properties
  over the base class's document, and `fromStream` reads them back.

Module layout:

- `Views` holds the `View` class. Its fields are updated in place, its methods carry
  `modifies` frames, and its loops are the source's loops.
- `ViewCodec` holds the specification of the codec as functions. `ViewFields` and
  `Encoded` describe what the encoders write. `Decode` describes what the decoder
  produces, or which exception it raises. The codec's lemmas are here too, among
  them the round trip.
- `ViewConfigs` holds the configuration record. It is generic in how one index is
  represented: the live object keeps lists of pairs, while a stored document can
  only say a name-to-type map.
- `IndexManagers` holds the index manager as a lookup, and the caller's collection.
- `OTypes` holds the type vocabulary.
- `Documents` holds the document as a map from property name to a tagged value. The
  tags stand for the runtime types the decoder tests with `instanceof`.
- `ViewScenarios` holds small clients that use only the contracts.

Hash-set and hash-map iteration order is not known to the code, so the model makes
it a nondeterministic choice. The loops over the active set take their next name
with `:|`, and the order they used is returned as a ghost `order` that enumerates
the set. For the same reason the decoded properties of an index are specified as a
map: the encoder puts them into a `HashMap`, so their order is lost and a repeated
name collapses.

Two decoding rules follow directly from the code:

- `fromStream` iterates the stored `indexes` without a null check, so an absent or
  null `indexes` makes decoding fail (`MissingIndexes`).
- When `activeIndexNames` or `inactiveIndexNames` is absent or has the wrong type,
  the field keeps its previous contents rather than being reset. So `Decode` takes
  the containers' previous values as parameters.

## Model

Every source cell is a path in the OrientDB repository.

| member | source | states |
|---|---|---|
| Views.View.constructor | core/src/main/java/com/orientechnologies/orient/core/metadata/schema/OViewImpl.java:13-20 | A new view holds the given configuration, an empty active set and an empty inactive list. |
| Views.View.InactivateIndexes | core/src/main/java/com/orientechnologies/orient/core/metadata/schema/OViewImpl.java:188-196 | The active set becomes empty. The inactive list becomes the old list followed by every old active name once, in some iteration order of the set; there is no dedup against the old list, so it grows by exactly the size of the set. The configuration is unchanged. |
| Views.View.InactivateIndex | core/src/main/java/com/orientechnologies/orient/core/metadata/schema/OViewImpl.java:198-206 | `n` is no longer active and every other name keeps its membership. `n` is appended to the inactive list whether or not it was active, with no error. The configuration is unchanged. |
| Views.View.AddActiveIndexes | core/src/main/java/com/orientechnologies/orient/core/metadata/schema/OViewImpl.java:212-219 | The active set becomes the old set united with the given names. The inactive list and the configuration are unchanged, so a name may end up in both containers. |
| ViewScenarios.ActiveAndInactive | core/src/main/java/com/orientechnologies/orient/core/metadata/schema/OViewImpl.java:198-219 | Inactivating `idx` and then activating it leaves `idx` both active and listed as inactive, so the containers are not kept exclusive. |
| Views.View.ClassIndexes | core/src/main/java/com/orientechnologies/orient/core/metadata/schema/OViewImpl.java:156-171 | The result is empty when no name is active or there is no index manager; otherwise it is exactly the resolved handles of the active names, per `Resolve`. |
| IndexManagers.Resolve | core/src/main/java/com/orientechnologies/orient/core/metadata/schema/OViewImpl.java:167 | Every active name that resolves contributes its handle, every handle comes from some active name that resolves, and names that do not resolve are skipped. |
| IndexManagers.LookupAllResolves | core/src/main/java/com/orientechnologies/orient/core/metadata/schema/OViewImpl.java:181 | Streaming the names in any order, mapping through the lookup and dropping the nulls, yields exactly the handle set `Resolve` describes. |
| IndexManagers.LookupAllLength | core/src/main/java/com/orientechnologies/orient/core/metadata/schema/OViewImpl.java:181 | When every name resolves, the stream adds exactly one handle per name. |
| Views.View.CollectClassIndexes | core/src/main/java/com/orientechnologies/orient/core/metadata/schema/OViewImpl.java:173-186 | With no index manager, the caller's collection is unchanged. Otherwise it becomes its old contents, followed by the resolved handles of the active names in one iteration order, followed by the manager's indexes for the view's class. Nothing is removed, and every handle the set-returning resolver gives is added. |
| ViewScenarios.ResolveExample | core/src/main/java/com/orientechnologies/orient/core/metadata/schema/OViewImpl.java:156-171 | Activating `idx3` against a manager that knows `idx3` and `idx4` resolves to exactly the handle of `idx3`. |
| IndexManagers.IndexCollection.Add | core/src/main/java/com/orientechnologies/orient/core/metadata/schema/OViewImpl.java:181 | Adding a handle appends it to the caller's collection. |
| IndexManagers.IndexCollection.AddAll | core/src/main/java/com/orientechnologies/orient/core/metadata/schema/OViewImpl.java:182 | The manager's class indexes are appended to the caller's collection. |
| Seqs.EnumerationLength | core/src/main/java/com/orientechnologies/orient/core/metadata/schema/OViewImpl.java:191 | An iteration order of a set lists as many names as the set holds. |
| Views.View.Query | core/src/main/java/com/orientechnologies/orient/core/metadata/schema/OViewImpl.java:113-116 | Returns the configured query, which is what the encoders write under `query` (null for none). |
| Views.View.UpdateIntervalSeconds | core/src/main/java/com/orientechnologies/orient/core/metadata/schema/OViewImpl.java:127-130 | Returns the refresh interval, which is what the encoders write under `updateIntervalSeconds`. |
| Views.View.WatchClasses | core/src/main/java/com/orientechnologies/orient/core/metadata/schema/OViewImpl.java:132-134 | Returns the watched classes, which is what the encoders write under `watchClasses`. |
| Views.View.OriginRidField | core/src/main/java/com/orientechnologies/orient/core/metadata/schema/OViewImpl.java:136-139 | Returns the origin-RID field, which is what the encoders write under `originRidField` (null for none). |
| Views.View.IsUpdatable | core/src/main/java/com/orientechnologies/orient/core/metadata/schema/OViewImpl.java:141-144 | Returns the updatable flag, which is what the encoders write under `updatable`. |
| Views.View.Nodes | core/src/main/java/com/orientechnologies/orient/core/metadata/schema/OViewImpl.java:146-149 | Returns the nodes, which is what the encoders write under `nodes`. |
| Views.View.RequiredIndexesInfo | core/src/main/java/com/orientechnologies/orient/core/metadata/schema/OViewImpl.java:151-154 | Returns the required indexes. The encoders write one descriptor per index, in this order, under `indexes`. |
| Views.View.InactiveIndexes | core/src/main/java/com/orientechnologies/orient/core/metadata/schema/OViewImpl.java:208-210 | Returns the inactive list itself, duplicates included, which is what the encoders write under `inactiveIndexNames`. |
| ViewConfigs.NewConfig | core/src/main/java/com/orientechnologies/orient/core/metadata/schema/OViewImpl.java:30 | A new configuration carries the view's name and the given query, is not updatable and has no indexes yet. |
| IndexManagers.GetIndex | core/src/main/java/com/orientechnologies/orient/core/metadata/schema/OViewImpl.java:167 | The manager's `getIndex` gives a handle exactly for the names it knows, and that handle is the one the lookup holds. |
| IndexManagers.LookupAll | core/src/main/java/com/orientechnologies/orient/core/metadata/schema/OViewImpl.java:181 | The mapped and filtered stream over one iteration order yields at most one handle per name, each one of the manager's handles. |
| ViewCodec.Encoded | core/src/main/java/com/orientechnologies/orient/core/metadata/schema/OViewImpl.java:64-86 | The encoded document has the base keys plus the ten view keys, and every other base property unchanged. |
| ViewCodec.Decode | core/src/main/java/com/orientechnologies/orient/core/metadata/schema/OViewImpl.java:26-62 | This is the reference result of `fromStream`. On success the configuration has the view's name, the stored query and one index per stored descriptor. `DecodeStages`, `DecodeFailsWhen`, `UnexpectedIsAbsent` and `RoundTrip` state the rest. |
| Views.View.EncodeIndexes | core/src/main/java/com/orientechnologies/orient/core/metadata/schema/OViewImpl.java:70-77 | The nested loops build one descriptor per required index, in list order. Each descriptor is the hash map got by putting every (name, tag) pair in turn. |
| ViewConfigs.DescriptorAppend | core/src/main/java/com/orientechnologies/orient/core/metadata/schema/OViewImpl.java:73-75 | Putting one more pair into a descriptor overrides any earlier entry of that name with the new type's tag. |
| ViewConfigs.PropMapAppend | core/src/main/java/com/orientechnologies/orient/core/metadata/schema/OViewImpl.java:73-75 | At the level of types, adding a pair at the end overrides any earlier entry of that name. |
| ViewConfigs.PropMapKeys | core/src/main/java/com/orientechnologies/orient/core/metadata/schema/OViewImpl.java:72-75 | The keys of an index's map are exactly its property names. |
| ViewConfigs.PropMapDistinct | core/src/main/java/com/orientechnologies/orient/core/metadata/schema/OViewImpl.java:72-75 | When the property names are distinct, every pair is in the map and the map has as many entries as the index has pairs. |
| ViewConfigs.DuplicateNamesCollapse | core/src/main/java/com/orientechnologies/orient/core/metadata/schema/OViewImpl.java:72-75 | Two pairs with the same name collapse into one entry, and the last one wins. |
| ViewConfigs.SameMapSamePairs | core/src/main/java/com/orientechnologies/orient/core/metadata/schema/OViewImpl.java:34-38 | Two duplicate-free indexes with the same map have the same length and the same pairs. So an index rebuilt from its descriptor is a reordering of the original. |
| ViewConfigs.Meaning | core/src/main/java/com/orientechnologies/orient/core/metadata/schema/OViewImpl.java:70-77 | What a document can say about a configuration has one map per index, in list order, each the map of that index's pairs. |
| Views.View.ToStream | core/src/main/java/com/orientechnologies/orient/core/metadata/schema/OViewImpl.java:64-111 | Models both `toStream` and `toNetworkStream`, which differ only in whether the base document is the storage or the network form. The result is the base document with exactly the ten view properties set over it (`Encoded`). Every other base property is kept, and the keys are the base keys plus the ten. |
| ViewCodec.ViewFields | core/src/main/java/com/orientechnologies/orient/core/metadata/schema/OViewImpl.java:67-85 | The encoders set exactly the ten view keys, none of them conditionally. |
| ViewCodec.EncodedLookup | core/src/main/java/com/orientechnologies/orient/core/metadata/schema/OViewImpl.java:67-85 | Reading any of the ten properties from an encoded document gives the value written for it, whatever the base document held. |
| OTypes.Name | core/src/main/java/com/orientechnologies/orient/core/metadata/schema/OViewImpl.java:74 | `toString` of a type is a tag that `valueOf` accepts and maps back to that same type. So a tag `valueOf` rejects is no type's tag. |
| OTypes.NameParse | core/src/main/java/com/orientechnologies/orient/core/metadata/schema/OViewImpl.java:37 | This is the contract of `valueOf` (`Parse`): a tag it accepts is the `toString` of the type it returns. |
| ViewCodec.ParseIndex | core/src/main/java/com/orientechnologies/orient/core/metadata/schema/OViewImpl.java:36-37 | A descriptor parses if and only if every tag is a type name. On success the map has the descriptor's keys, each mapped to the parsed type. |
| ViewCodec.ParseIndexes | core/src/main/java/com/orientechnologies/orient/core/metadata/schema/OViewImpl.java:33-39 | On success there is one map per stored descriptor, in list order. On failure the error is an unknown type and some descriptor has an unknown tag. |
| ViewCodec.DecodeStages | core/src/main/java/com/orientechnologies/orient/core/metadata/schema/OViewImpl.java:29-59 | Decoding fails at the first failing stage, in source order: a non-string query, an unreadable index list, an unknown tag. It succeeds exactly when all three stages succeed, and then gives the configuration built from their results. |
| ViewCodec.DecodeFailsWhen | core/src/main/java/com/orientechnologies/orient/core/metadata/schema/OViewImpl.java:29-38 | Decoding fails exactly when the query is neither null nor a string, the index list is null or not a list of maps, or some stored tag is not a type name. |
| ViewCodec.UnexpectedIsAbsent | core/src/main/java/com/orientechnologies/orient/core/metadata/schema/OViewImpl.java:31-59 | An optional property whose value has the wrong type decodes exactly as if it were absent. For `updatable`, anything but exactly `true` counts as the wrong type. For the three list properties, a list of strings or an empty list of maps counts as the right type. |
| ViewCodec.BareDocument | core/src/main/java/com/orientechnologies/orient/core/metadata/schema/OViewImpl.java:29-59 | A document with none of the optional properties decodes to every setting at its default, `updatable` false, and the containers' previous contents. |
| Views.View.FromStream | core/src/main/java/com/orientechnologies/orient/core/metadata/schema/OViewImpl.java:26-62 | It succeeds if and only if `Decode` does, and on failure returns the same error. On success the new configuration means what `Decode` gives, and so do the new containers. Each index's properties come out duplicate-free. On failure the containers are untouched. A bad query leaves the configuration untouched too. |
| Views.View.ReadIndexes | core/src/main/java/com/orientechnologies/orient/core/metadata/schema/OViewImpl.java:33-39 | The outer loop succeeds if and only if every descriptor parses. It then leaves one duplicate-free index per descriptor, whose maps are what `ParseIndexes` gives. Nothing outside the index list changes. |
| Views.View.ReadIndex | core/src/main/java/com/orientechnologies/orient/core/metadata/schema/OViewImpl.java:35-38 | It appends exactly one index, partly filled when a tag is unknown. It succeeds if and only if the descriptor parses, and the new index's map is then the parsed map. |
| Views.ReadProperties | core/src/main/java/com/orientechnologies/orient/core/metadata/schema/OViewImpl.java:36-38 | The inner loop visits the entries in some iteration order and succeeds if and only if every tag parses. Its pairs are then duplicate-free and their map is the parsed descriptor. Only descriptor keys are ever added. |
| Views.View.ReadSettings | core/src/main/java/com/orientechnologies/orient/core/metadata/schema/OViewImpl.java:40-60 | Each optional setting and each container is replaced by the document's value when that value has the expected type, and kept otherwise. Nothing else changes. |
| ViewCodec.ParseDescriptor | core/src/main/java/com/orientechnologies/orient/core/metadata/schema/OViewImpl.java:72-75 | A descriptor the encoder wrote parses back to the index's map. |
| ViewCodec.ParseDescriptors | core/src/main/java/com/orientechnologies/orient/core/metadata/schema/OViewImpl.java:70-77 | The stored index list parses back to the configuration's maps, in list order. |
| ViewCodec.RoundTrip | core/src/main/java/com/orientechnologies/orient/core/metadata/schema/OViewImpl.java:29-85 | Decoding an encoded document gives back the query, flag, interval, strategy, watched classes, origin field, nodes, the index list as maps in order, and both containers. This holds for any base document and any previous container contents. |
| ViewCodec.EncodingFollowsMeaning | core/src/main/java/com/orientechnologies/orient/core/metadata/schema/OViewImpl.java:67-85 | Two configurations that agree as documents see them encode to the same ten properties. |
| ViewCodec.ReencodeIdentical | core/src/main/java/com/orientechnologies/orient/core/metadata/schema/OViewImpl.java:29-85 | Encode, decode, encode gives the same ten properties: any state the decoder can rebuild from an encoded document re-encodes to exactly what was stored. |
| ViewScenarios.DecodeExampleDocument | core/src/main/java/com/orientechnologies/orient/core/metadata/schema/OViewImpl.java:29-60 | A document holding a query, `updatable` true, one index and an interval decodes to those values, with the defaults for everything it leaves out. |
| ViewScenarios.DecodeExample | core/src/main/java/com/orientechnologies/orient/core/metadata/schema/OViewImpl.java:113-154 | After decoding that document into a view, the accessors return the stored query, flag, interval and index, and empty watched classes, empty nodes and no origin field. |
| ViewScenarios.EmptyListClearsInactive | core/src/main/java/com/orientechnologies/orient/core/metadata/schema/OViewImpl.java:58-59 | An empty list stored under `inactiveIndexNames` replaces a previous inactive list even when it is tagged as a list of maps, because any list passes the code's list test. |
| ViewScenarios.SingleProperty | core/src/main/java/com/orientechnologies/orient/core/metadata/schema/OViewImpl.java:35-38 | A duplicate-free index whose map has one entry holds exactly that one pair. |

## Left out

- The schema read lock taken around most operations is left out. It serves
  concurrency only, so every method is one atomic step.
- `count` is left out: it only delegates to the database's view count, which is
  external storage.
- The base class's part of the codec is left out: `super.fromStream`,
  `super.toStream` and `super.toNetworkStream` are not part of this model. The base
  document is a parameter of `ToStream`, the view's name is taken as given, and the
  storage and network base encodings are not told apart.
- The constructor that takes only a document (lines 22-24) is left out. It only
  calls the base class.
- The internals of OViewConfig and OType are not part of this model. The OViewConfig
  defaults are taken as interval 0, no strategy, no origin field, and empty
  watched-class, node and index lists. A type's tag is its constant's name.
- Aliasing is left out, and the model works by value. `fromStream` stores the
  document's own set and list objects into the fields. In the other direction,
  `toStream` and `toNetworkStream` put the live watched-class and node lists and
  both containers into the result document (lines 81, 83-85, 105, 107-109).
- Views.View.FromStream: on failure after the query stage, the model does not pin
  down the partial configuration the code leaves behind. A new configuration with
  some of the indexes filled in remains. Only the containers, and for a bad query
  the configuration too, are stated to be unchanged.
- A list whose elements are neither strings nor string-keyed maps is accepted by the
  code's `instanceof List` test and fails only later, on use. The typed document here
  cannot hold such lists, so the model has no such case. An empty list of either
  element type is accepted as an empty index list, and as an empty list of names.
- ViewCodec.ListOr: a non-empty list of maps stored under `watchClasses`, `nodes` or
  `inactiveIndexNames` passes the code's `instanceof List` test and is assigned, as
  an ill-typed list. The model cannot hold it in a list of strings, so it keeps the
  previous value instead.
- Views.View.ReadSettings: for the same reason it keeps the previous value for a
  non-empty list of maps under those three keys, where the code assigns it.
- Views.View.FromStream: likewise, a non-empty list of maps under those three keys
  leaves the previous value.
- ViewCodec.UnexpectedIsAbsent: treats a non-empty list of maps under those three
  keys as the wrong type, while the code takes it.
- ViewCodec.RoundTrip: a missing update strategy or origin-RID field is written as
  null and read back as OViewConfig's default. The round trip of those two settings
  therefore rests on the assumed defaults, both "none".
- ViewCodec.ReencodeIdentical: rests on the same assumed defaults through
  `RoundTrip`.
- A null property name, a null type tag and a null element of `indexes` are not
  modelled.
- Numeric properties of a type other than `Integer` are modelled as `Other`, so the
  interval keeps its default for them.
- The caller's collection given to `getClassIndexes(Collection)` is modelled as a
  list. A set-typed collection would ignore repeated handles.
- The spatial query builder's `parseShape` is left out. It is a thin adapter over a
  foreign geometry library.
