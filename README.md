# redux-majic normalization engine in Dafny

This project models the core of redux-majic, a normalization engine for
JSON:API 1.0 documents, and proves properties of the model. The core has
five parts:

- **Response parser** (`Parse`, src/api/parse.js). It turns a JSON:API
  document into a store keyed by type and then by entity identity.
  - Primary `data` gives `{data, keys}` slices and the `__primaryEntities` list.
  - `included` gives `{data}` slices, which have no keys.
  - The two stores are merged, and the non-empty top-level `jsonapi`, `links`
    and `meta` are put in front.
  - The identity function is a parameter (`Identifier`), as in
    `parseResponseFactory`.
- **Merge engine** (`Merge`, `MergeAsWritten`; `mergeMajicObjects` of
  src/utils.js and lib/utils.js). It combines two stores slice by slice.
  - The first store's entity wins on a shared identity.
  - Key lists are concatenated and de-duplicated.
  - The `__primaryEntities` lists are unioned.
  - Types that only the second store has are copied unchanged.
- **Request composer** (`Compose`, src/api/compose.js). It validates a
  composition schema, then rebuilds a JSON:API request document from a flat
  entity. Thrown errors become `Err` values.
- **Reducers** (`Reducers`, src/redux/reducers.js). They keep one
  `<type>Map` per entity type and one record per namespace (`isFetching`,
  `keys`, `preservedEntities`), plus the list of `namespaces`. A namespace
  goes from absent, to fetching, to populated, and back to absent when
  cleared.
- **Selectors** (`Selectors`, src/redux/selectors.js). These are the
  read-side lookups. The lemmas at the end of that file relate them to the
  reducers.

`JsonValues` models JavaScript values: JSON plus `undefined`, truthiness,
property access, and spread. `Utils` models the shared helpers of
src/utils.js.

The source's loops are methods proved equal to specification functions. This
covers `pick`, `omit`, the merge passes, the reduces of `getData`,
`extractIncludedType` and `getIncluded`, the `forEach` loops of the composer,
and the reducer's two passes. The properties are lemmas about those
functions.

Where the code and the written description of the system disagree, the
model follows the code:

- `mergeMajicObjects` in src/utils.js has no `__primaryEntities` case, yet
  the parser relies on the union behaviour. The model uses the branch of
  lib/utils.js:65-70, which implements it.
- A type that only the first store has is rebuilt as a merged slice, not
  passed through. Its `data` becomes an object even when it was missing, and
  its `keys` are de-duplicated.
- An entity's `links` is copied whenever the key is present, even when its
  value is `null` (`get` tests `in`, not nullishness).
- With `appendKeys`, the namespace's old and new keys are concatenated with
  no de-duplication at all.

## Model

| member | source | states |
|---|---|---|
| Utils.Get | src/utils.js:3-5 | A key that is present gives its value, even a falsy one; a missing key gives the default, `{}` unless one is given |
| Utils.Pick | src/utils.js:7-19 | The result holds exactly the requested names the object has, with the object's values; a single name acts as a one-element list |
| Utils.Omit | src/utils.js:21-33 | The result holds exactly the object's keys that were not requested, with the object's values |
| Utils.PickOmitPartition | src/utils.js:7-33 | `pick` and `omit` with the same names split an object into two disjoint parts that together give it back |
| Utils.StringUniq | src/utils.js:35-37 | The output has no duplicates, the same elements as the input, and is no longer than it |
| Utils.StringUniqOfUnique | src/utils.js:35-37 | `stringUniq` is the identity on a list without duplicates |
| Utils.StringUniqIdempotent | src/utils.js:35-37 | Applying `stringUniq` twice gives the same result as applying it once |
| Utils.StringUniqFirstOccurrenceOrder | src/utils.js:35-37 | The output lists elements in the order of their first occurrence in the input |
| Utils.StringUniqPrefix | src/utils.js:35-37 | De-duplicating a list gives a prefix of de-duplicating any extension of it |
| Utils.StringUniqSnoc | src/utils.js:35-37 | Appending one element appends it to the output exactly when it is new |
| Utils.StringUniqAppendOne | src/utils.js:35-37 | De-duplicating, appending one element and de-duplicating again is the same as de-duplicating once after the append |
| Utils.IsEmpty | src/utils.js:75-89 | `null`, an empty array and an object without keys are empty; any other value is empty exactly when it is falsy; a non-empty value is truthy |
| Utils.Optional | src/api/parse.js:102-104 | `isEmpty(v) ? {} : {[name]: v}`: the name is present exactly when the value is not empty, and then holds the value |
| Merge.MergedSliceSpec | lib/utils.js:72-87 | A merged slice holds `data` and at most `keys`. Its entities are both slices' entities, the first slice's copy winning on a shared identity. Its `keys` are both key lists de-duplicated, with the first slice's keys first. `keys` is left out when both lists are empty |
| Merge.PrimaryUnion | lib/utils.js:65-66 | The union of the two `__primaryEntities` lists has no duplicates, holds exactly the elements of both, and starts with the first list's entries |
| Merge.Merged | lib/utils.js:60-103 | The merged store has the keys of both stores. A key only the second store has keeps its slice. A first-store type gets the merge of both slices. `__primaryEntities` gets the union |
| Merge.MergeMajicObjects | lib/utils.js:60-103 | The two passes return exactly the merged store `Merged` |
| Merge.MergeFirstPass | lib/utils.js:64-94 | The reduce writes, at each first-store key, the union or the merged slice. It crosses every handled key off the second store's key list, leaving exactly the second store's keys the first store lacks (the splice of line 67 guarded as lines 89-91 guard theirs) |
| Merge.CopyRemaining | lib/utils.js:98-100 | Each remaining key gets the second store's slice; every other key keeps what the first pass wrote |
| Merge.MergeFirstWins | lib/utils.js:79-82 | On a shared identity in a type, the merged slice keeps the first store's entity |
| Merge.MergedAt | lib/utils.js:72-87 | A first-store type's merged slice is the merge of its two slices |
| Merge.MergePassesThrough | lib/utils.js:96-100 | A type slice that only the second store has is copied unchanged |
| Merge.StringUniqAbsorbs | src/utils.js:35-37 | Appending elements that are already present changes nothing after de-duplication |
| Merge.MergedSliceWithItself | lib/utils.js:72-87 | Merging a normalized slice with itself gives it back |
| Merge.MergeWithItself | lib/utils.js:60-103 | Merging a normalized store with itself gives it back (idempotence) |
| MergeAsWritten.IndexOf | lib/utils.js:67 | `indexOf` is -1 exactly when the key is absent; otherwise it is the index of the key's first occurrence |
| MergeAsWritten.SpliceOut | lib/utils.js:67 | Splicing, even at index -1, only yields keys of the list |
| MergeAsWritten.CrossOff | lib/utils.js:64-94 | The key list after the first pass only holds second-store keys |
| MergeAsWritten.SpliceOutFirst | lib/utils.js:89-91 | On a list without duplicates, splicing out a present key removes exactly that key and keeps the order |
| MergeAsWritten.CrossOffFilters | lib/utils.js:64-94 | When `__primaryEntities` is in the second store whenever it is in the first, the key list after the first pass is the second store's key order without the handled keys |
| MergeAsWritten.CopyAllWrites | lib/utils.js:98-100 | The `forEach` writes the second store's slice at every listed key, over what was there |
| MergeAsWritten.WrittenKeys | lib/utils.js:64-94 | The reduce writes exactly the keys it walks |
| MergeAsWritten.WrittenValues | lib/utils.js:64-94 | The reduce writes the union or the merged slice at each key it walks |
| MergeAsWritten.WrittenAll | lib/utils.js:64-94 | After walking all first-store keys, the written object has exactly those keys, with the intended entries |
| MergeAsWritten.RemainderUnhandled | lib/utils.js:64-94 | Given `__primaryEntities` in both stores or in neither, the remainder holds exactly the second store's keys that the first store lacks |
| MergeAsWritten.CombineAgrees | lib/utils.js:96-102 | The written entries and the copied remainder make up the intended merged store |
| MergeAsWritten.MergeLibAgrees | lib/utils.js:60-103 | When the second store has `__primaryEntities` whenever the first does (always the case in the parser), the code as written returns the intended merged store, for any key orders |
| MergeAsWritten.MergeLibLosesFirstSlice | lib/utils.js:67 | For the key orders `[__primaryEntities, articles]` and `[articles, people]`, the code as written returns the second store's `articles` slice, whereas the intended merge keeps the first store's entity |
| MergeAsWritten.DefectRemainder | lib/utils.js:67 | In that example the splice at index -1 doubles the key list, so `articles` stays in the remainder |
| MergeAsWritten.DefectAsWritten | lib/utils.js:98-100 | In that example the last pass overwrites the merged `articles` slice with the second store's slice |
| MergeAsWritten.DefectIntended | lib/utils.js:79-82 | In that example the intended merge keeps the first store's `articles` entity |
| Parse.GetMember | src/api/parse.js:6-16 | `getJsonapi`, `getLinks` and `getMeta`: the named member, or `{}` when the key is missing |
| Parse.FlattenOverlay | src/api/parse.js:68-75 | A flattened entity has `id`, `type`, `links` and every attribute, relationship and meta name. On a name clash, meta wins over relationships, which win over attributes, which win over the three fixed members |
| Parse.DataArray | src/api/parse.js:53-58 | Falsy `data` gives no primary resources. An array is walked as it is, and any other truthy value becomes a one-element list |
| Parse.SlicesOfAt | src/api/parse.js:60-85 | The reduce of `getData` files a slice for exactly the types that occur. A slice holds the type's entities by identity and its identities de-duplicated in first-occurrence order |
| Parse.FileOne | src/api/parse.js:63-75 | One step of the reduce: the resource's type slice, created on first sight, takes the resource and its identity |
| Parse.FileAll | src/api/parse.js:60-85 | The loop builds exactly the slices `SlicesOf` describes, and the de-duplicated list of types seen |
| Parse.GetData | src/api/parse.js:53-86 | `getData` returns the store of typed slices plus `__primaryEntities` |
| Parse.NoIdsForAbsentType | src/api/parse.js:60-85 | A type that no resource has gets no identities and no entities |
| Parse.TypeHasIds | src/api/parse.js:60-85 | A type that occurs among the resources has at least one identity |
| Parse.EntitiesByIdKeys | src/api/parse.js:67-68 | A type's entities are keyed by exactly the identities listed for it |
| Parse.EntitiesByIdLastWins | src/api/parse.js:68-75 | Under an identity, the store keeps the flattened last resource of the type with that identity |
| Parse.TypeNamesOfTypes | src/api/parse.js:77-80 | The types of the resources, as names, are exactly the values the type list holds |
| Parse.IncludedSlice | src/api/parse.js:43 | An included type with no entities gives `{}`; otherwise `{data}` |
| Parse.ExtractIncludedType | src/api/parse.js:23-44 | The reduce writes every resource of the type under its identity, and gives `{}` when none was written |
| Parse.AllIncludedTypes | src/api/parse.js:18-20 | The included types, each once |
| Parse.IncludedFoldAt | src/api/parse.js:46-51 | The reduce over type names gives each name its extracted slice and keeps `__primaryEntities: []` |
| Parse.GetIncluded | src/api/parse.js:46-51 | `getIncluded` returns `__primaryEntities: []` plus one slice per included type |
| Parse.IncludedFoldIsStore | src/api/parse.js:46-51 | The reduce over the distinct included types builds exactly the included store |
| Parse.ParseResponse | src/api/parse.js:88-107 | No `data`, `errors` or `meta` gives `{}`. A document with `errors` gives exactly `{errors}`. Otherwise the result is the non-empty top-level members overlaid by the merged store |
| Parse.CopyTopLevel | src/api/parse.js:98-104 | The top-level members are copied, each only when it is not empty |
| Parse.Normalize | src/api/parse.js:105 | The primary store merged with the included store |
| Parse.DataStoreKeys | src/api/parse.js:53-86 | The primary store has `__primaryEntities`, the de-duplicated type list, and one slice per primary type |
| Parse.DataStoreSlice | src/api/parse.js:60-85 | A primary type's slice holds the type's entities by identity and its de-duplicated identities |
| Parse.IncludedStoreKeys | src/api/parse.js:46-51 | The included store has `__primaryEntities: []` and one slice per included type |
| Parse.IncludedStoreSlice | src/api/parse.js:23-51 | The included store's slice of any type has no `keys`, and holds the type's included entities |
| Parse.ParsedPrimaryEntities | src/api/parse.js:54-80 | `__primaryEntities` lists each type of the primary data exactly once, in order of first appearance, and is `[]` without data |
| Parse.NormalizedKeys | src/api/parse.js:105 | The merged store holds `__primaryEntities` and exactly the primary and included types |
| Parse.NormalizedLacks | src/api/parse.js:105 | A name that is neither `__primaryEntities` nor a type of the document is not in the merged store |
| Parse.ParsedAt | src/api/parse.js:101-106 | Past the short-circuits, the merged store overrides the top-level members |
| Parse.TopLevelAt | src/api/parse.js:98-104 | Each of `jsonapi`, `links` and `meta` is carried over exactly when it is not empty |
| Parse.TopLevelKeys | src/api/parse.js:101-104 | The top-level part holds at most `jsonapi`, `links` and `meta` |
| Parse.MergedPrimarySlice | src/api/parse.js:105 | Merging a primary slice into an included slice without keys keeps the primary keys and lets primary entities win |
| Parse.NormalizedPrimaryAt | src/api/parse.js:105 | A primary type's merged slice is its primary slice merged into its included slice |
| Parse.ParsedPrimaryType | src/api/parse.js:63-75 | A primary type's slice lists its primary identities once each, in first-occurrence order. It holds every primary and included entity of the type by identity, the primary copy winning |
| Parse.ParsedIncludedOnlyType | src/api/parse.js:23-51 | A type found only among the included resources gets a non-empty `{data}` slice without `keys` |
| Parse.ParsedTopLevel | src/api/parse.js:98-104 | In the parsed result, `jsonapi`, `links` and `meta` appear exactly when they are not empty, provided no type shares the name |
| Parse.ParsedKeys | src/api/parse.js:88-107 | The parsed result holds every type of the document and nothing but the top-level members, `__primaryEntities` and those types |
| Compose.Then | src/api/compose.js:197-215 | Two checks pass exactly when both pass; otherwise the first failure is reported |
| Compose.Every | src/api/compose.js:197-215 | `every` with a throwing check passes exactly when every element passes; otherwise it reports the first failing element's error |
| Compose.ValidateArray | src/api/compose.js:217-223 | Passes exactly for arrays |
| Compose.ValidateSimpleSchema | src/api/compose.js:225-231 | Passes exactly for strings |
| Compose.ValidateRelationshipSchema | src/api/compose.js:233-251 | Passes exactly for an object with a string `key` and, when set, an array of string `meta` names |
| Compose.ValidateIncludedSchema | src/api/compose.js:253-271 | Passes exactly for an object with a truthy `key`, valid attribute and meta name lists, and a valid relationship list |
| Compose.ValidateSchema | src/api/compose.js:197-215 | Passes exactly for schemas with a truthy `type` and valid lists. A missing `type` is reported first |
| Compose.ValidateSchemaArraysFirst | src/api/compose.js:197-215 | A list that is set but is not an array is reported as such, before any element check |
| Compose.NamesListEvery | src/api/compose.js:197-215 | Checking each element of an array list as a name accepts exactly the lists of strings |
| Compose.RelationshipListEvery | src/api/compose.js:197-215 | Checking each descriptor accepts exactly the lists of valid relationship descriptors |
| Compose.IncludedListEvery | src/api/compose.js:197-215 | Checking each descriptor accepts exactly the lists of valid included descriptors |
| Compose.IdentifierType | src/api/compose.js:181 | An identifier's `type` is its own when truthy, else the default when truthy, else `''` |
| Compose.CopyRelationshipMeta | src/api/compose.js:169-175 | A truthy primitive `relation.meta` with names requested throws a type error; otherwise the requested names that `relation.meta` has are copied |
| Compose.BuildRelationship | src/api/compose.js:165-195 | The method returns exactly the relationship `Relationship` describes, or its error |
| Compose.RelationshipMetaSpec | src/api/compose.js:169-175 | A relationship's `meta` holds exactly the requested names that `relation.meta` has, with its values; it is empty when `relation.meta` is missing |
| Compose.RelationshipDataSpec | src/api/compose.js:177-189 | Array data maps element-wise to `{id, type}`, keeping length and order, with the type fallback. A non-empty object gives one identifier. Anything else gives none |
| Compose.RelationshipSpec | src/api/compose.js:165-195 | A built relationship holds `meta` and `data` only when each is not empty. A relation without `meta` and without nullish elements always builds |
| Compose.RelationshipsOfStopsAt | src/api/compose.js:59-67 | Once a descriptor has thrown, later descriptors change nothing |
| Compose.BuildRelationships | src/api/compose.js:59-67 | The loop returns exactly `RelationshipsOf`: the relationships built so far, or the first error |
| Compose.RelationshipsOfKeys | src/api/compose.js:59-67 | Relationships are built for exactly the descriptor keys present on the entity |
| Compose.RelationshipsOfAt | src/api/compose.js:59-67 | Each relationship is the one built by the last descriptor with its key |
| Compose.ResourceObject | src/api/compose.js:99-105 | The entity always has `id` and `type`; `attributes`, `relationships` and `meta` appear only when not empty |
| Compose.BuildIncluded | src/api/compose.js:114-163 | The method returns exactly the entity `IncludedEntity` describes, or its error |
| Compose.IncludedEntitySpec | src/api/compose.js:114-163 | An included entity keeps the element's truthy `id` and takes `type`, falling back to `defaultType` and then to `''`. An invalid descriptor, or an element without a truthy `id`, fails |
| Compose.MapAllSpec | src/api/compose.js:81-83 | The map succeeds exactly when every element builds, keeping length and order; otherwise it reports the first failing element's error |
| Compose.MapAllStopsAt | src/api/compose.js:81-83 | Once an element has thrown, later elements change nothing |
| Compose.BuildEach | src/api/compose.js:81-83 | The loop returns exactly the map of `buildIncluded` over the elements |
| Compose.ConcatStopsAt | src/api/compose.js:69-87 | Once a descriptor has thrown, later descriptors change nothing |
| Compose.ConcatAppend | src/api/compose.js:69-87 | Contributions are collected in schema order, and the first error wins |
| Compose.ConcatSkips | src/api/compose.js:69-87 | A descriptor that contributes nothing leaves the collection unchanged |
| Compose.IncludedOfSkips | src/api/compose.js:71-79 | A descriptor whose key is absent, or whose value has falsy `data`, contributes nothing |
| Compose.ContributionSpec | src/api/compose.js:81-85 | A descriptor with truthy `data` contributes one built entity per related element, in order, or the first error |
| Compose.CollectIncluded | src/api/compose.js:69-87 | The loop returns exactly the included list `IncludedOf` describes, or its error |
| Compose.RequestDocument | src/api/compose.js:107-111 | `data` is the bare entity when `single` is set, otherwise a one-element list; `included` and `meta` appear only when not empty |
| Compose.ComposeRequest | src/api/compose.js:17-112 | The method returns exactly the document `Composed` describes, or its error |
| Compose.ComposeCheckOrder | src/api/compose.js:22-37 | The checks run in order: an invalid schema, then a falsy `id`, then a `type` mismatch. A success passed all three |
| Compose.ComposedOk | src/api/compose.js:17-112 | A successful composition assembles the entity, the included list and the top-level meta from successful loops |
| Compose.ComposedDocument | src/api/compose.js:107-111 | The request holds `data`, plus `included` and `meta` only when they are not empty. `data` is the entity when `single` is set, otherwise a list of one |
| Compose.ComposedPrimaryEntity | src/api/compose.js:39-105 | The entity has the data's `id` and the schema's `type`. Its `attributes`, `relationships` and `meta` hold exactly the listed names present on the data, and appear only when not empty |
| Compose.ComposedEntityAt | src/api/compose.js:99-108 | The entity under `data` is the one built from the data and the schema |
| Compose.ComposeSucceeds | src/api/compose.js:17-112 | A valid schema without relationship or included lists composes every entity with a truthy `id` and the schema's `type` |
| Reducers.NamespaceValue | src/redux/reducers.js:21 | The namespace's list entry is truthy exactly when the namespace is |
| Reducers.MapKey | src/redux/reducers.js:82 | `${entity}Map` is the entity type followed by three characters |
| Reducers.MapKeyInjective | src/redux/reducers.js:82 | Different entity types have different map keys |
| Reducers.Truthful | src/redux/reducers.js:21 | `filter(el => !!el)` keeps exactly the truthy elements and adds no duplicates. A one-element list is kept or emptied by the truthiness of its element |
| Reducers.TruthfulAppend | src/redux/reducers.js:21 | Filtering a concatenation filters each part and keeps them in order. With the one-element case, this fixes the order and multiplicity the filter keeps |
| Reducers.RequestMajicNamespace | src/redux/reducers.js:14-27 | Without a namespace the state is unchanged. Otherwise the record gets `isFetching: true` and keeps its other fields, and no other key changes. `namespaces` becomes the de-duplicated truthy old names, with the namespace appended at the end when it was not listed before |
| Reducers.RequestMajicNamespaceListed | src/redux/reducers.js:19-21 | After a request, `namespaces` lists the namespace and the truthy old names, each exactly once |
| Reducers.StandardMapper | src/redux/reducers.js:35-43 | The new map holds the old ids and the received ids; received entities override, and ids that were not received keep their entity |
| Reducers.MapperFor | src/redux/reducers.js:72-74 | A configured mapper is used for its type; otherwise `standardMapper` |
| Reducers.Tracked | src/redux/reducers.js:68-70 | The tracked types are `entities` when configured, otherwise the primary types |
| Reducers.ReceivedEntitiesAt | src/redux/reducers.js:76-101 | A type is received exactly when it is tracked and its payload slice is truthy, and then with that slice |
| Reducers.ReceivedEntitiesSpec | src/redux/reducers.js:76-101 | The received slices are exactly the truthy payload slices of the tracked types |
| Reducers.NewEntityMapsAt | src/redux/reducers.js:76-101 | A received type's new map is its mapper applied to the old map and the slice |
| Reducers.NewEntityMapsOnly | src/redux/reducers.js:76-101 | No key other than a received type's map key gets a new map |
| Reducers.Snapshot | src/redux/reducers.js:133 | The snapshot maps exactly the received keys, each to the received data under that id |
| Reducers.NamespaceRecordSpec | src/redux/reducers.js:123-136 | The record is not fetching. Its `keys` are the new keys, after the old keys when appending, with no de-duplication. Its snapshot covers the new keys, over the old snapshot when appending, and is `{}` without `preserveEntities`. Its other fields are kept |
| Reducers.DecidingPrimary | src/redux/reducers.js:115-137 | The deciding primary type is a primary type that qualifies |
| Reducers.LastQualifyingWins | src/redux/reducers.js:115-137 | No qualifying primary type decides nothing; otherwise the last qualifying one in `primaryEntities` order decides |
| Reducers.CollectReceived | src/redux/reducers.js:76-101 | The reduce returns exactly the received slices and the new maps |
| Reducers.DecideNamespace | src/redux/reducers.js:115-137 | The `forEach` returns the record of the deciding primary type, or nothing |
| Reducers.ReceiveMajicEntitiesReducer | src/redux/reducers.js:56-150 | The reducer returns exactly `ReceivedState` |
| Reducers.StoreReceived | src/redux/reducers.js:107-149 | The end of the reducer spreads the new maps, the namespace update and `namespaces` over the state |
| Reducers.ReceivedState | src/redux/reducers.js:56-150 | The reducer's result. Another action type, or no truthy slice for any tracked type, leaves the state unchanged |
| Reducers.ReceivedStateShape | src/redux/reducers.js:141-149 | A receive that stores something spreads the new maps, an update of at most the namespace, and `namespaces` over the state |
| Reducers.AssembledAt | src/redux/reducers.js:144-149 | Below `namespaces`, the namespace update wins over the new maps, which win over the old state |
| Reducers.ReceiveUpdatesEntityMaps | src/redux/reducers.js:68-101 | Each tracked type with a truthy slice gets `<type>Map` = its mapper applied to the old map and the slice |
| Reducers.ReceiveKeepsOtherKeys | src/redux/reducers.js:144-149 | A key that is neither a new map, nor the namespace, nor `namespaces` keeps its value |
| Reducers.ReceiveListsNamespace | src/redux/reducers.js:141-142 | After a receive, `namespaces` lists the truthy old names and the truthy namespace, each exactly once. The old names keep their first-occurrence order, and a truthy namespace that was not listed comes last |
| Reducers.PrimariesReceived | src/redux/reducers.js:116 | In a named receive that stores something, every primary type has its payload slice among the received ones |
| Reducers.ReceiveDecidesNamespace | src/redux/reducers.js:107-137 | With a namespace, the record is the one the last qualifying primary type produces from the state before the action |
| Reducers.NamespaceUpdateDecided | src/redux/reducers.js:115-137 | When a primary type is the last qualifying one, the update is exactly its record |
| Reducers.NamespaceUpdateUndecided | src/redux/reducers.js:115-137 | When no primary type qualifies, there is no update |
| Reducers.ReceiveKeepsUndecidedNamespace | src/redux/reducers.js:107-149 | When no primary type qualifies, the namespace record is left as it was |
| Reducers.StringWithout | src/redux/reducers.js:167 | The list without the value, keeping every other element |
| Reducers.NamespaceNames | src/redux/reducers.js:166 | `omit` drops the namespace, or nothing when there is none |
| Reducers.ClearMajicNamespaceReducer | src/redux/reducers.js:158-169 | Other actions leave the state unchanged. Clearing removes the namespace's record and its list entry and keeps every other entry. Every other key, the maps included, is unchanged |
| Selectors.PreservedEntity | src/redux/selectors.js:8 | A truthy snapshot entry comes from the namespace's `preservedEntities` |
| Selectors.SelectEntityById | src/redux/selectors.js:3-5 | The lookup yields the map's entity when that is truthy, and `{}` otherwise, so the result is always truthy |
| Selectors.SelectEntityByNamespaceAndId | src/redux/selectors.js:7-9 | The lookup always yields a truthy value |
| Selectors.SelectionOrder | src/redux/selectors.js:7-9 | The snapshot entry wins when truthy, then the map's entry when truthy, then `{}` |
| Selectors.SelectEntitiesByNamespace | src/redux/selectors.js:11-17 | The result has the length and order of the namespace's `keys` (none without a record or keys), and element i is the lookup of `keys[i]` |
| Selectors.SelectNamespaceIsFetching | src/redux/selectors.js:19-21 | A namespace is fetching exactly when it has a record whose `isFetching` is truthy |
| Selectors.FetchingAfterRequest | src/redux/selectors.js:19-21 | Right after a request, the namespace is fetching |
| Selectors.NotFetchingAfterReceive | src/redux/selectors.js:19-21 | Once a primary type decides the namespace record, the namespace is not fetching |
| Selectors.NothingAfterClear | src/redux/selectors.js:11-21 | After a clear, the namespace is not fetching and lists nothing |
| Selectors.ListedAfterReceive | src/redux/selectors.js:11-17 | After a replacing receive with the standard mapper, the namespace lists the received keys. Each id with a truthy received entity selects that entity |
| Selectors.ListedFromRecord | src/redux/selectors.js:11-17 | A record written from a slice lists the slice's keys, and selects the slice's entities through the snapshot or the map |

## Left out

- The merge follows lib/utils.js:65-70 for `__primaryEntities`. As written, src/utils.js would destructure the array value of `__primaryEntities` like a slice, pick up `Array.prototype.keys` as its key list, and throw on the spread at line 51. The parser's result depends on the union, so that variant is not modelled.
- JavaScript object key order is not modelled: stores and objects are maps. The one exception is `MergeAsWritten`, which takes both stores' key orders as parameters, because the defect depends on them.
- Mutation of the caller's `mapFunctions` object (src/redux/reducers.js:72-74) is not modelled. The reducer picks the mapper per type without writing it back. The source writes back the very mapper a later call would pick anyway, so only the caller's own object differs.
- The reducer's action type constants are not part of this model (src/redux/constants.js is not shown). They are modelled as opaque distinct tags.
- `stringWithout` is imported by src/redux/reducers.js:6, but its definition is not part of this model. `Reducers.StringWithout` removes every occurrence of the value and keeps the order of the rest, which is what the reducer's tests expect.
- Flow-type preconditions become `requires` clauses. Lists are arrays or falsy, slice `data` is not `null`, and the namespace is a string or absent. A namespaced receive also requires every primary type to have a received slice, since src/redux/reducers.js:116 destructures it before the skip check and throws otherwise.
- Parse.ParseResponse: the parser's inputs follow the Flow types of the document (`WellFormedDocument`). Each resource is an object with a string `type`, and `included`, when present, is an array. The source throws only on some of what this excludes: a nullish resource, an `included` that is not an array, and a resource typed `__primaryEntities`. A primitive resource, or one whose `type` is missing or a number, would be filed under `"undefined"` or the number's text without a throw; the model does not cover those documents.
- Parse.ParseResponse: a resource whose type is the name of an `Object.prototype` member (`"constructor"`, `"toString"`) makes src/api/parse.js:63-68 throw, because `in` finds the inherited name and its `.data` is `undefined`. The model treats such a type like any other.
- Selectors.SelectEntityById: the type's map must not be nullish. The source throws on a missing map, and that error path is not modelled as a value.
- Selectors.SelectEntitiesByNamespace: a nullish store is not modelled. The store is always a map.
- `selectEntitiesByNamespace` is stated through `Selectors.ListedAfterReceive`, `Selectors.ListedFromRecord` and `Selectors.NothingAfterClear` as well as through its own `ensures`.
- Properties of strings and arrays inherited from their prototypes (`length`, `keys`, indexing a string) are not modelled. Property access on anything but an object gives `undefined`.
- The `in` operator also finds inherited `Object.prototype` names. This affects `get` and `pick` (src/utils.js:4, :13) and `attr in data` in the composer. The model's `Has` sees only own keys. An array `relation.meta` would answer `'0' in meta` at src/api/compose.js:171, while the model spreads an array to no properties.
- Reducers.RequestMajicNamespace: a namespace literally named `namespaces` is not covered by the ordered-list clause. The source would spread the old `namespaces` array into the record as index keys `0`, `1`, …, while the model spreads an array to no properties, so the record keeps only `isFetching`.
- The identity function returns a string. The raw value that src/api/parse.js:67 would put in `keys` for a non-string identity is not modelled.
- Numbers are unbounded integers. Floating point is not modelled, and a number used as a property key is written in decimal.
- Error message texts are not modelled: a thrown error is an `Err` carrying the kind of check that failed. So are the Redux store wiring and the action creators.
- The identity function and custom mappers are parameters. No particular implementation is modelled beyond the default `el => el.id` (`Parse.DefaultIdentifier`).
- Merge.Merged: associativity of repeated merges is not stated. Idempotence on normalized stores is (`Merge.MergeWithItself`).

## Findings

| source | as written | input that shows it | evidently intended | confidence | as-written member | corrected member |
|---|---|---|---|---|---|---|
| lib/utils.js:67 | The `__primaryEntities` branch splices the key out of the second store's key list using `indexOf` without checking for -1. When the key is absent, `slice(0, -1)` plus `slice(0)` leaves the list with all but its last key followed by all of its keys. A key the first pass handles later is then crossed off only once, and the last pass overwrites its merged slice with the second store's slice | First store `{__primaryEntities: [], articles: {data: {1: "primary"}}}`, second store `{articles: {data: {1: "included"}}, people: {}}`, with the key orders of these literals | Splice `__primaryEntities` out only when the list contains it, as lines 89-91 do for other keys, so the first store's `articles` entity wins | not executed | MergeAsWritten.MergeLibLosesFirstSlice | Merge.MergeMajicObjects |
