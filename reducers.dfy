/**
 * The Redux reducers of src/redux/reducers.js: a store that keeps one
 * `<type>Map` per entity type (entities by id) and one record per namespace
 * (`isFetching`, the ordered `keys` of its primary entities and an optional
 * `preservedEntities` snapshot), plus the list of known `namespaces`.
 * A namespace goes from absent to fetching (`requestMajicNamespace`), to
 * populated (`receiveMajicEntitiesReducer`), and back to absent
 * (`clearMajicNamespaceReducer`).
 */
module Reducers {
  import opened JsonValues
  import opened Utils
  import Merge

  /** A store state: the root object of the Redux state slice. */
  type State = map<string, Json>

  datatype Option<T> = None | Some(value: T)

  /** The two action types the reducers react to, as opaque distinct tags, and any other type. */
  datatype ActionType = ReceiveEntities | ClearNamespace | OtherAction(name: string)

  /** `action.meta`: `{namespace?: string, preserveEntities?: boolean, appendKeys?: boolean}`. */
  datatype Meta = Meta(namespace: Option<string>, preserveEntities: bool, appendKeys: bool)

  /** `{type, payload, meta}`; the payload of a receive is a normalized (parsed) store. */
  datatype Action = Action(actionType: ActionType, payload: map<string, Json>, meta: Meta)

  /** A function that folds a received slice into an entity type's map. */
  type Mapper = (Json, Json) -> Json

  /** `!!namespace`. */
  predicate Named(namespace: Option<string>)
  {
    namespace.Some? && namespace.value != ""
  }

  /** The namespace as the value put in the `namespaces` list (`undefined` when absent). */
  function NamespaceValue(namespace: Option<string>): (r: Json)
    ensures Truthy(r) <==> Named(namespace)
  {
    if namespace.Some? then JStr(namespace.value) else JUndefined
  }

  /** The key of an entity type's map in the store, `${entity}Map`. */
  function MapKey(entity: string): (r: string)
    ensures |r| == |entity| + 3 && r[..|entity|] == entity
  {
    entity + "Map"
  }

  /** Different entity types have different map keys. */
  lemma MapKeyInjective(a: string, b: string)
    requires MapKey(a) == MapKey(b)
    ensures a == b
  {
    assert a == MapKey(a)[..|a|];
  }

  /** `Array.prototype.filter(el => !!el)`. */
  function Truthful(xs: seq<Json>): (r: seq<Json>)
    ensures forall x :: x in r <==> x in xs && Truthy(x)
    ensures NoDups(xs) ==> NoDups(r)
    ensures |r| <= |xs|
    ensures |xs| == 1 ==> r == if Truthy(xs[0]) then xs else []
  {
    if xs == [] then []
    else
      var init := xs[..|xs| - 1];
      var last := xs[|xs| - 1];
      assert xs == init + [last];
      if Truthy(last) then Truthful(init) + [last] else Truthful(init)
  }

  /** Filtering a concatenation filters each part and keeps them in order. */
  lemma {:induction false} TruthfulAppend(a: seq<Json>, b: seq<Json>)
    ensures Truthful(a + b) == Truthful(a) + Truthful(b)
  {
    if b == [] {
      assert a + b == a;
    } else {
      var init, last := b[..|b| - 1], b[|b| - 1];
      var tail := if Truthy(last) then [last] else [];
      TruthfulAppend(a, init);
      assert (a + b)[..|a + b| - 1] == a + init;
      assert Truthful(a + b) == Truthful(a + init) + tail;
      assert Truthful(b) == Truthful(init) + tail;
    }
  }

  /** `v` is an array or falsy, as the Flow types of the store and the payload promise for lists. */
  predicate ListOrFalsy(v: Json)
  {
    !Truthy(v) || v.JArr?
  }

  /** The namespaces listed in a state, `[...(state.namespaces || [])]`. */
  function Namespaces(state: State): seq<Json>
  {
    Elements(Get(state, "namespaces", JUndefined))
  }

  // ---------------------------------------------------------------------------
  // requestMajicNamespace

  /**
   * `requestMajicNamespace`: with a namespace, list it once in `namespaces`
   * and mark its record as fetching; without one, leave the state alone.
   * The record keeps its other fields, the namespace joins the truthy old
   * names at the end unless it is already listed, and no other key changes.
   */
  function RequestMajicNamespace(state: State, action: Action): (r: State)
    requires ListOrFalsy(Get(state, "namespaces", JUndefined))
    ensures !Named(action.meta.namespace) ==> r == state
    ensures Named(action.meta.namespace) ==>
      var namespace := action.meta.namespace.value;
      && namespace in r && Prop(r[namespace], "isFetching") == JBool(true)
      && (forall f :: f != "isFetching" ==> Prop(r[namespace], f) == Prop(Get(state, namespace, JUndefined), f))
      && (forall k :: k != namespace && k != "namespaces" ==> (k in r <==> k in state) && (k in r ==> r[k] == state[k]))
    ensures Named(action.meta.namespace) && action.meta.namespace.value != "namespaces" ==>
      var name := JStr(action.meta.namespace.value);
      && "namespaces" in r
      && (name in Namespaces(state) ==> r["namespaces"] == JArr(StringUniq(Truthful(Namespaces(state)))))
      && (name !in Namespaces(state) ==> r["namespaces"] == JArr(StringUniq(Truthful(Namespaces(state))) + [name]))
  {
    var namespace := action.meta.namespace;
    if !Named(namespace) then state
    else
      var listed := Namespaces(state);
      var name := NamespaceValue(namespace);
      RequestedList(listed, name);
      var namespaces := StringUniq(Truthful(listed + [name]));
      var previous := Get(state, namespace.value, JUndefined);
      FetchingRecord(previous);
      var record := Spread(previous)["isFetching" := JBool(true)];
      state["namespaces" := JArr(namespaces)][namespace.value := JObj(record)]
  }

  /** `{...previous, isFetching: true}` differs from `previous` only in `isFetching`. */
  lemma FetchingRecord(previous: Json)
    ensures var record := JObj(Spread(previous)["isFetching" := JBool(true)]);
      && Prop(record, "isFetching") == JBool(true)
      && forall f :: f != "isFetching" ==> Prop(record, f) == Prop(previous, f)
  {
  }

  /** Filtering then de-duplicating the list with a truthy name appended adds the name at the end when it is new. */
  lemma RequestedList(listed: seq<Json>, name: Json)
    requires Truthy(name)
    ensures name in listed ==> StringUniq(Truthful(listed + [name])) == StringUniq(Truthful(listed))
    ensures name !in listed ==> StringUniq(Truthful(listed + [name])) == StringUniq(Truthful(listed)) + [name]
  {
    TruthfulAppend(listed, [name]);
    StringUniqSnoc(Truthful(listed), name);
  }

  /**
   * After a request the namespace is listed exactly once, next to every
   * truthy name listed before and nothing else.
   */
  lemma RequestMajicNamespaceListed(state: State, action: Action)
    requires ListOrFalsy(Get(state, "namespaces", JUndefined))
    requires Named(action.meta.namespace) && action.meta.namespace.value != "namespaces"
    ensures var r := RequestMajicNamespace(state, action);
      && "namespaces" in r && r["namespaces"].JArr?
      && NoDups(r["namespaces"].elems)
      && (forall x :: x in r["namespaces"].elems <==> x == JStr(action.meta.namespace.value) || (x in Namespaces(state) && Truthy(x)))
  {
    var listed := Namespaces(state) + [NamespaceValue(action.meta.namespace)];
    assert forall x :: x in listed <==> x in Namespaces(state) || x == JStr(action.meta.namespace.value);
    var r := RequestMajicNamespace(state, action);
    assert r["namespaces"] == JArr(StringUniq(Truthful(listed)));
  }

  // ---------------------------------------------------------------------------
  // standardMapper

  /** `standardMapper`: the existing map overridden by the received slice's `data`. */
  function StandardMapper(existingMap: Json, receivedEntities: Json): (r: Json)
    ensures r.JObj?
    ensures forall id :: Has(r, id) <==> Has(existingMap, id) || Has(Prop(receivedEntities, "data"), id)
    ensures forall id :: Has(Prop(receivedEntities, "data"), id) ==> Prop(r, id) == Prop(Prop(receivedEntities, "data"), id)
    ensures forall id :: !Has(Prop(receivedEntities, "data"), id) ==> Prop(r, id) == Prop(existingMap, id)
  {
    JObj(Spread(existingMap) + Spread(Prop(receivedEntities, "data")))
  }

  /** The mapper of an entity type: a custom one when configured, the standard one otherwise. */
  function MapperFor(mapFunctions: map<string, Mapper>, entity: string): (r: Mapper)
    ensures entity in mapFunctions ==> r == mapFunctions[entity]
    ensures entity !in mapFunctions ==> r == StandardMapper
  {
    if entity in mapFunctions then mapFunctions[entity] else StandardMapper
  }

  // ---------------------------------------------------------------------------
  // receiveMajicEntitiesReducer

  /** The entity types the reducer stores: `entities` when configured, the primary types otherwise. */
  function Tracked(primaryEntities: Names, entities: Option<seq<string>>): (r: seq<string>)
    ensures entities.Some? ==> r == entities.value
    ensures entities.None? ==> r == AsList(primaryEntities)
  {
    if entities.Some? then entities.value else AsList(primaryEntities)
  }

  /** `receivedEntities`: the tracked types whose payload slice is truthy, with that slice. */
  function ReceivedEntities(payload: map<string, Json>, entities: seq<string>): map<string, Json>
  {
    if entities == [] then map[]
    else
      var previous := ReceivedEntities(payload, entities[..|entities| - 1]);
      var entity := entities[|entities| - 1];
      if Truthy(Get(payload, entity, JUndefined)) then previous[entity := payload[entity]] else previous
  }

  /** A type is received exactly when it is tracked and its payload slice is truthy, and then with that slice. */
  lemma {:induction false} ReceivedEntitiesAt(payload: map<string, Json>, entities: seq<string>, e: string)
    ensures e in ReceivedEntities(payload, entities) <==> e in entities && Truthy(Get(payload, e, JUndefined))
    ensures e in ReceivedEntities(payload, entities) ==> e in payload && ReceivedEntities(payload, entities)[e] == payload[e]
  {
    if entities != [] {
      var init := entities[..|entities| - 1];
      ReceivedEntitiesAt(payload, init, e);
      assert entities == init + [entities[|entities| - 1]];
    }
  }

  /** The received slices are exactly the truthy payload slices of the tracked types; untracked types are ignored. */
  lemma ReceivedEntitiesSpec(payload: map<string, Json>, entities: seq<string>)
    ensures forall e :: e in ReceivedEntities(payload, entities) <==> e in entities && Truthy(Get(payload, e, JUndefined))
    ensures forall e :: e in ReceivedEntities(payload, entities) ==> e in payload && ReceivedEntities(payload, entities)[e] == payload[e]
  {
    forall e {
      ReceivedEntitiesAt(payload, entities, e);
    }
  }

  /** `newEntityMaps`: for each received type, its map folded through its mapper. */
  function NewEntityMaps(state: State, payload: map<string, Json>, mapFunctions: map<string, Mapper>, entities: seq<string>): map<string, Json>
  {
    if entities == [] then map[]
    else
      var previous := NewEntityMaps(state, payload, mapFunctions, entities[..|entities| - 1]);
      var entity := entities[|entities| - 1];
      if Truthy(Get(payload, entity, JUndefined)) then
        previous[MapKey(entity) := MapperFor(mapFunctions, entity)(Get(state, MapKey(entity), JUndefined), payload[entity])]
      else previous
  }

  /** A received type's new map is its mapper applied to the old map and the received slice. */
  lemma {:induction false} NewEntityMapsAt(state: State, payload: map<string, Json>, mapFunctions: map<string, Mapper>,
                                           entities: seq<string>, e: string)
    requires e in entities && Truthy(Get(payload, e, JUndefined))
    ensures MapKey(e) in NewEntityMaps(state, payload, mapFunctions, entities)
    ensures NewEntityMaps(state, payload, mapFunctions, entities)[MapKey(e)] ==
      MapperFor(mapFunctions, e)(Get(state, MapKey(e), JUndefined), payload[e])
  {
    var init := entities[..|entities| - 1];
    var entity := entities[|entities| - 1];
    assert entities == init + [entity];
    if e != entity {
      NewEntityMapsAt(state, payload, mapFunctions, init, e);
      if MapKey(e) == MapKey(entity) {
        MapKeyInjective(e, entity);
      }
    }
  }

  /** No key other than the map key of a received type gets a new map. */
  lemma {:induction false} NewEntityMapsOnly(state: State, payload: map<string, Json>, mapFunctions: map<string, Mapper>,
                                             entities: seq<string>, k: string)
    requires forall e :: e in entities && Truthy(Get(payload, e, JUndefined)) ==> k != MapKey(e)
    ensures k !in NewEntityMaps(state, payload, mapFunctions, entities)
  {
    if entities != [] {
      var init := entities[..|entities| - 1];
      assert forall e :: e in init ==> e in entities;
      NewEntityMapsOnly(state, payload, mapFunctions, init, k);
    }
  }

  /** What the reducer reads from a received slice: `keys` is an array or falsy and `data` is not `null`. */
  predicate SliceShape(slice: Json)
  {
    ListOrFalsy(Prop(slice, "keys")) && !Prop(slice, "data").JNull?
  }

  /**
   * A primary type decides the namespace record when the payload's
   * `__primaryEntities` (if any) lists it and its slice has truthy `keys`.
   */
  predicate Qualifies(payload: map<string, Json>, entity: string, slice: Json)
  {
    var listed := Get(payload, Merge.PrimaryEntities, JUndefined);
    !((Truthy(listed) && JStr(entity) !in Elements(listed)) || !Truthy(Prop(slice, "keys")))
  }

  /** `keys.reduce((agg, curr) => ({...agg, [curr]: data[curr]}), {})`. */
  function Snapshot(keys: seq<Json>, data: Json): (r: map<string, Json>)
    ensures r.Keys == set k | k in keys :: PropertyKey(k)
    ensures forall id :: id in r ==> r[id] == Prop(data, id)
  {
    if keys == [] then map[]
    else
      var init := keys[..|keys| - 1];
      var last := keys[|keys| - 1];
      assert keys == init + [last];
      assert (set k | k in keys :: PropertyKey(k)) == (set k | k in init :: PropertyKey(k)) + {PropertyKey(last)};
      Snapshot(init, data)[PropertyKey(last) := Prop(data, PropertyKey(last))]
  }

  /** The record `state[namespace]` reads as, `state[namespace] || {}`. */
  function PreviousRecord(state: State, namespace: string): Json
  {
    Or(Get(state, namespace, JUndefined), EmptyObject)
  }

  /** The ids a namespace listed before, `(state[namespace] || {}).keys || []`. */
  function OldKeys(state: State, namespace: string): seq<Json>
  {
    Elements(Prop(PreviousRecord(state, namespace), "keys"))
  }

  /** The snapshot a namespace kept before, `(state[namespace] || {}).preservedEntities || {}`. */
  function OldPreservedEntities(state: State, namespace: string): map<string, Json>
  {
    Spread(Prop(PreviousRecord(state, namespace), "preservedEntities"))
  }

  /** The namespace record a qualifying primary slice produces, computed from the state before the action. */
  function NamespaceRecord(state: State, namespace: string, slice: Json, meta: Meta): Json
  {
    var keys := Prop(slice, "keys");
    var preserved :=
      if meta.preserveEntities then
        (if meta.appendKeys then OldPreservedEntities(state, namespace) else map[]) + Snapshot(Elements(keys), Prop(slice, "data"))
      else map[];
    var record := Spread(Get(state, namespace, JUndefined))["isFetching" := JBool(false)];
    var withKeys := record["keys" := if meta.appendKeys then JArr(OldKeys(state, namespace) + Elements(keys)) else keys];
    JObj(withKeys["preservedEntities" := JObj(preserved)])
  }

  /**
   * A namespace record is no longer fetching; its `keys` are the received
   * keys, after the old ones when appending (duplicates kept); its snapshot
   * maps every received key to the received data under that id, on top of
   * the old snapshot when appending (and holds no other id), and is empty
   * without `preserveEntities`; its other fields are the old record's.
   */
  lemma NamespaceRecordSpec(state: State, namespace: string, slice: Json, meta: Meta)
    requires ListOrFalsy(Prop(slice, "keys")) && Truthy(Prop(slice, "keys"))
    ensures var r := NamespaceRecord(state, namespace, slice, meta);
      && r.JObj?
      && Prop(r, "isFetching") == JBool(false)
      && Prop(r, "keys").JArr?
      && Prop(r, "keys").elems == (if meta.appendKeys then OldKeys(state, namespace) else []) + Elements(Prop(slice, "keys"))
      && (forall f :: f != "isFetching" && f != "keys" && f != "preservedEntities" ==>
            Has(r, f) == Has(Get(state, namespace, JUndefined), f) && Prop(r, f) == Prop(Get(state, namespace, JUndefined), f))
    ensures var preserved := Prop(NamespaceRecord(state, namespace, slice, meta), "preservedEntities");
      && preserved.JObj?
      && (!meta.preserveEntities ==> preserved.fields == map[])
      && (meta.preserveEntities ==> forall k :: k in Elements(Prop(slice, "keys")) ==>
            Has(preserved, PropertyKey(k)) && Prop(preserved, PropertyKey(k)) == Prop(Prop(slice, "data"), PropertyKey(k)))
      && (meta.preserveEntities && !meta.appendKeys ==>
            preserved.fields.Keys == set k | k in Elements(Prop(slice, "keys")) :: PropertyKey(k))
      && (meta.preserveEntities && meta.appendKeys ==> forall id :: id in OldPreservedEntities(state, namespace) ==>
            Has(preserved, id) && (id !in Snapshot(Elements(Prop(slice, "keys")), Prop(slice, "data")) ==>
              Prop(preserved, id) == OldPreservedEntities(state, namespace)[id]))
      && (meta.preserveEntities && meta.appendKeys ==>
            preserved.fields.Keys == OldPreservedEntities(state, namespace).Keys + (set k | k in Elements(Prop(slice, "keys")) :: PropertyKey(k)))
  {
  }

  /**
   * The primary type that decides the namespace record: the `forEach` over
   * the primary types overwrites `newNamespace` at each qualifying type, so
   * the last one counts.
   */
  function DecidingPrimary(payload: map<string, Json>, received: map<string, Json>, primaries: seq<string>): (r: Option<string>)
    requires forall e :: e in primaries ==> e in received
    ensures r.Some? ==> r.value in primaries && Qualifies(payload, r.value, received[r.value])
  {
    if primaries == [] then None
    else
      var entity := primaries[|primaries| - 1];
      if Qualifies(payload, entity, received[entity]) then Some(entity)
      else
        assert forall e :: e in primaries[..|primaries| - 1] ==> e in primaries;
        DecidingPrimary(payload, received, primaries[..|primaries| - 1])
  }

  /**
   * No qualifying primary type leaves the namespace record alone; otherwise
   * the last qualifying one in `primaryEntities` order decides it.
   */
  lemma {:induction false} LastQualifyingWins(payload: map<string, Json>, received: map<string, Json>, primaries: seq<string>)
    requires forall e :: e in primaries ==> e in received
    ensures (forall i :: 0 <= i < |primaries| ==> !Qualifies(payload, primaries[i], received[primaries[i]])) <==>
      DecidingPrimary(payload, received, primaries) == None
    ensures forall i :: (0 <= i < |primaries| && Qualifies(payload, primaries[i], received[primaries[i]]) &&
      (forall j :: i < j < |primaries| ==> !Qualifies(payload, primaries[j], received[primaries[j]]))) ==>
      DecidingPrimary(payload, received, primaries) == Some(primaries[i])
  {
    if primaries != [] {
      var init := primaries[..|primaries| - 1];
      assert forall e :: e in init ==> e in primaries;
      LastQualifyingWins(payload, received, init);
      assert forall i :: 0 <= i < |init| ==> init[i] == primaries[i];
    }
  }

  /** `newNamespace`: `{}`, or the namespace with the record the deciding primary type produces. */
  function NewNamespace(state: State, meta: Meta, namespace: string, received: map<string, Json>, deciding: Option<string>): map<string, Json>
    requires deciding.Some? ==> deciding.value in received
  {
    if deciding.None? then map[]
    else map[namespace := NamespaceRecord(state, namespace, received[deciding.value], meta)]
  }

  /**
   * What the reducer needs of its inputs to run without throwing: when a
   * named receive stores anything, every primary type has a received slice
   * of the right shape (line 116 destructures it before the skip check), the
   * payload's `__primaryEntities` is a list, and so are the old `keys` when
   * appending; `namespaces` is a list whenever anything is stored.
   */
  predicate Receivable(state: State, action: Action, primaryEntities: Names, entities: Option<seq<string>>)
  {
    var received := ReceivedEntities(action.payload, Tracked(primaryEntities, entities));
    action.actionType.ReceiveEntities? && !IsEmpty(JObj(received)) ==>
      && ListOrFalsy(Get(state, "namespaces", JUndefined))
      && (Named(action.meta.namespace) ==>
            && ListOrFalsy(Get(action.payload, Merge.PrimaryEntities, JUndefined))
            && (action.meta.appendKeys ==> ListOrFalsy(Prop(PreviousRecord(state, action.meta.namespace.value), "keys")))
            && (forall e :: e in AsList(primaryEntities) ==> e in received && SliceShape(received[e])))
  }

  /** Some tracked type has a truthy slice in the payload. */
  predicate AnyReceived(payload: map<string, Json>, tracked: seq<string>)
  {
    exists e :: e in tracked && Truthy(Get(payload, e, JUndefined))
  }

  /** The state `receiveMajicEntitiesReducer(state, action, primaryEntities, {mapFunctions, entities})` returns. */
  function ReceivedState(state: State, action: Action, primaryEntities: Names,
                         mapFunctions: map<string, Mapper>, entities: Option<seq<string>>): (r: State)
    requires Receivable(state, action, primaryEntities, entities)
    ensures !action.actionType.ReceiveEntities? ==> r == state
    ensures !AnyReceived(action.payload, Tracked(primaryEntities, entities)) ==> r == state
  {
    if !action.actionType.ReceiveEntities? then state
    else
      var tracked := Tracked(primaryEntities, entities);
      var received := ReceivedEntities(action.payload, tracked);
      ReceivedEntitiesSpec(action.payload, tracked);
      if IsEmpty(JObj(received)) then state
      else
        Assembled(state, action.meta.namespace, NewEntityMaps(state, action.payload, mapFunctions, tracked),
          NamespaceUpdate(state, action, primaryEntities, received))
  }

  /** `newNamespace` once the `forEach` is done: nothing without a namespace. */
  function NamespaceUpdate(state: State, action: Action, primaryEntities: Names, received: map<string, Json>): map<string, Json>
    requires Named(action.meta.namespace) ==> forall e :: e in AsList(primaryEntities) ==> e in received
  {
    var namespace := action.meta.namespace;
    if Named(namespace) then
      NewNamespace(state, action.meta, namespace.value, received, DecidingPrimary(action.payload, received, AsList(primaryEntities)))
    else map[]
  }

  /**
   * `{...state, ...newEntityMaps, ...newNamespace, namespaces}`, where the
   * namespace is listed once after the old names and falsy entries dropped.
   */
  function Assembled(state: State, namespace: Option<string>, newEntityMaps: map<string, Json>, newNamespace: map<string, Json>): State
  {
    var namespaces := Truthful(StringUniq(Namespaces(state) + [NamespaceValue(namespace)]));
    (state + newEntityMaps + newNamespace)["namespaces" := JArr(namespaces)]
  }

  /** The `entities.reduce` of the reducer: the received slices and the new maps, in one pass. */
  method CollectReceived(state: State, payload: map<string, Json>, mapFunctions: map<string, Mapper>, tracked: seq<string>)
    returns (received: map<string, Json>, newEntityMaps: map<string, Json>)
    ensures received == ReceivedEntities(payload, tracked)
    ensures newEntityMaps == NewEntityMaps(state, payload, mapFunctions, tracked)
  {
    received := map[];
    newEntityMaps := map[];
    for i := 0 to |tracked|
      invariant received == ReceivedEntities(payload, tracked[..i])
      invariant newEntityMaps == NewEntityMaps(state, payload, mapFunctions, tracked[..i])
    {
      var entity := tracked[i];
      var slice := Get(payload, entity, JUndefined);
      if Truthy(slice) {
        received := received[entity := slice];
        newEntityMaps := newEntityMaps[MapKey(entity) := MapperFor(mapFunctions, entity)(Get(state, MapKey(entity), JUndefined), slice)];
      }
      assert tracked[..i + 1][..i] == tracked[..i];
    }
    assert tracked[..|tracked|] == tracked;
  }

  /** The `primaryEntities.forEach` of the reducer: every qualifying primary type overwrites `newNamespace`. */
  method DecideNamespace(state: State, payload: map<string, Json>, meta: Meta, namespace: string,
                         received: map<string, Json>, primaries: seq<string>) returns (newNamespace: map<string, Json>)
    requires forall e :: e in primaries ==> e in received
    ensures newNamespace == NewNamespace(state, meta, namespace, received, DecidingPrimary(payload, received, primaries))
  {
    newNamespace := map[];
    for i := 0 to |primaries|
      invariant forall e :: e in primaries[..i] ==> e in received
      invariant newNamespace == NewNamespace(state, meta, namespace, received, DecidingPrimary(payload, received, primaries[..i]))
    {
      var entity := primaries[i];
      var slice := received[entity];
      if Qualifies(payload, entity, slice) {
        newNamespace := map[namespace := NamespaceRecord(state, namespace, slice, meta)];
      }
      assert primaries[..i + 1][..i] == primaries[..i];
    }
    assert primaries[..|primaries|] == primaries;
  }

  /**
   * `receiveMajicEntitiesReducer`: one pass over the tracked types collects
   * the received slices and the new maps; a second over the primary types
   * picks the namespace record; the result spreads both over the state.
   */
  method ReceiveMajicEntitiesReducer(state: State, action: Action, primaryEntities: Names,
                                     mapFunctions: map<string, Mapper>, entities: Option<seq<string>>) returns (r: State)
    requires Receivable(state, action, primaryEntities, entities)
    ensures r == ReceivedState(state, action, primaryEntities, mapFunctions, entities)
  {
    if !action.actionType.ReceiveEntities? {
      return state;
    }
    var received, newEntityMaps := CollectReceived(state, action.payload, mapFunctions, Tracked(primaryEntities, entities));
    if IsEmpty(JObj(received)) {
      return state;
    }
    r := StoreReceived(state, action, primaryEntities, received, newEntityMaps);
  }

  /** The end of the reducer once something was received: the namespace record, then the spread. */
  method StoreReceived(state: State, action: Action, primaryEntities: Names,
                       received: map<string, Json>, newEntityMaps: map<string, Json>) returns (r: State)
    requires Named(action.meta.namespace) ==> forall e :: e in AsList(primaryEntities) ==> e in received
    ensures r == Assembled(state, action.meta.namespace, newEntityMaps, NamespaceUpdate(state, action, primaryEntities, received))
  {
    var namespace := action.meta.namespace;
    var newNamespace: map<string, Json> := map[];
    if Named(namespace) {
      newNamespace := DecideNamespace(state, action.payload, action.meta, namespace.value, received, AsList(primaryEntities));
    }
    r := Assembled(state, namespace, newEntityMaps, newNamespace);
  }

  /** A receive that stores something spreads the new maps, the namespace record and `namespaces` over the state. */
  lemma ReceivedStateShape(state: State, action: Action, primaryEntities: Names,
                           mapFunctions: map<string, Mapper>, entities: Option<seq<string>>)
    requires Receivable(state, action, primaryEntities, entities)
    requires action.actionType.ReceiveEntities?
    requires !IsEmpty(JObj(ReceivedEntities(action.payload, Tracked(primaryEntities, entities))))
    ensures var received := ReceivedEntities(action.payload, Tracked(primaryEntities, entities));
      var newNamespace := NamespaceUpdate(state, action, primaryEntities, received);
      && newNamespace.Keys <= (if Named(action.meta.namespace) then {action.meta.namespace.value} else {})
      && ReceivedState(state, action, primaryEntities, mapFunctions, entities) ==
           Assembled(state, action.meta.namespace, NewEntityMaps(state, action.payload, mapFunctions, Tracked(primaryEntities, entities)), newNamespace)
  {
  }

  /** Below `namespaces`, the assembled state reads the namespace update first, then the new maps, then the old state. */
  lemma AssembledAt(state: State, namespace: Option<string>, newEntityMaps: map<string, Json>, newNamespace: map<string, Json>, k: string)
    requires k != "namespaces"
    ensures k in Assembled(state, namespace, newEntityMaps, newNamespace) <==> k in state || k in newEntityMaps || k in newNamespace
    ensures k in newNamespace ==> Assembled(state, namespace, newEntityMaps, newNamespace)[k] == newNamespace[k]
    ensures k !in newNamespace && k in newEntityMaps ==> Assembled(state, namespace, newEntityMaps, newNamespace)[k] == newEntityMaps[k]
    ensures k !in newNamespace && k !in newEntityMaps && k in state ==> Assembled(state, namespace, newEntityMaps, newNamespace)[k] == state[k]
  {
  }

  /**
   * Every tracked type with a truthy slice gets `<type>Map` = its mapper
   * applied to the old map and the slice (unless the namespace or the list
   * of namespaces has that very name).
   */
  lemma ReceiveUpdatesEntityMaps(state: State, action: Action, primaryEntities: Names,
                                 mapFunctions: map<string, Mapper>, entities: Option<seq<string>>, e: string)
    requires Receivable(state, action, primaryEntities, entities)
    requires action.actionType.ReceiveEntities?
    requires e in Tracked(primaryEntities, entities) && Truthy(Get(action.payload, e, JUndefined))
    requires MapKey(e) != "namespaces" && !(Named(action.meta.namespace) && action.meta.namespace.value == MapKey(e))
    ensures var r := ReceivedState(state, action, primaryEntities, mapFunctions, entities);
      MapKey(e) in r && r[MapKey(e)] == MapperFor(mapFunctions, e)(Get(state, MapKey(e), JUndefined), action.payload[e])
  {
    var tracked := Tracked(primaryEntities, entities);
    var received := ReceivedEntities(action.payload, tracked);
    ReceivedEntitiesAt(action.payload, tracked, e);
    assert e in received;
    NewEntityMapsAt(state, action.payload, mapFunctions, tracked, e);
    ReceivedStateShape(state, action, primaryEntities, mapFunctions, entities);
    AssembledAt(state, action.meta.namespace, NewEntityMaps(state, action.payload, mapFunctions, tracked),
      NamespaceUpdate(state, action, primaryEntities, received), MapKey(e));
  }

  /**
   * A key that is neither a new `<type>Map`, nor the namespace, nor
   * `namespaces` keeps its value through a receive.
   */
  lemma ReceiveKeepsOtherKeys(state: State, action: Action, primaryEntities: Names,
                              mapFunctions: map<string, Mapper>, entities: Option<seq<string>>, k: string)
    requires Receivable(state, action, primaryEntities, entities)
    requires k != "namespaces" && !(Named(action.meta.namespace) && action.meta.namespace.value == k)
    requires forall e :: e in Tracked(primaryEntities, entities) && Truthy(Get(action.payload, e, JUndefined)) ==> k != MapKey(e)
    ensures var r := ReceivedState(state, action, primaryEntities, mapFunctions, entities);
      (k in r <==> k in state) && (k in r ==> r[k] == state[k])
  {
    var tracked := Tracked(primaryEntities, entities);
    var received := ReceivedEntities(action.payload, tracked);
    if action.actionType.ReceiveEntities? && !IsEmpty(JObj(received)) {
      NewEntityMapsOnly(state, action.payload, mapFunctions, tracked, k);
      ReceivedStateShape(state, action, primaryEntities, mapFunctions, entities);
      AssembledAt(state, action.meta.namespace, NewEntityMaps(state, action.payload, mapFunctions, tracked),
        NamespaceUpdate(state, action, primaryEntities, received), k);
    }
  }

  /**
   * After a receive that stores something, `namespaces` lists each truthy
   * old name and the action's namespace (when truthy) exactly once, and
   * nothing else.
   */
  lemma ReceiveListsNamespace(state: State, action: Action, primaryEntities: Names,
                              mapFunctions: map<string, Mapper>, entities: Option<seq<string>>)
    requires Receivable(state, action, primaryEntities, entities)
    requires action.actionType.ReceiveEntities? && exists e :: e in Tracked(primaryEntities, entities) && Truthy(Get(action.payload, e, JUndefined))
    ensures var r := ReceivedState(state, action, primaryEntities, mapFunctions, entities);
      && "namespaces" in r && r["namespaces"].JArr?
      && NoDups(r["namespaces"].elems)
      && (forall x :: x in r["namespaces"].elems <==> Truthy(x) && (x in Namespaces(state) || x == NamespaceValue(action.meta.namespace)))
    ensures var r := ReceivedState(state, action, primaryEntities, mapFunctions, entities);
      var name := NamespaceValue(action.meta.namespace);
      && (Named(action.meta.namespace) && name !in Namespaces(state) ==>
            r["namespaces"].elems == Truthful(StringUniq(Namespaces(state))) + [name])
      && (!(Named(action.meta.namespace) && name !in Namespaces(state)) ==>
            r["namespaces"].elems == Truthful(StringUniq(Namespaces(state))))
  {
    var tracked := Tracked(primaryEntities, entities);
    var received := ReceivedEntities(action.payload, tracked);
    var e :| e in tracked && Truthy(Get(action.payload, e, JUndefined));
    ReceivedEntitiesAt(action.payload, tracked, e);
    assert e in received;
    ReceivedStateShape(state, action, primaryEntities, mapFunctions, entities);
    var r := ReceivedState(state, action, primaryEntities, mapFunctions, entities);
    var name := NamespaceValue(action.meta.namespace);
    assert r["namespaces"] == JArr(Truthful(StringUniq(Namespaces(state) + [name])));
    ReceivedList(Namespaces(state), name);
  }

  /** De-duplicating the list with a name appended, then filtering, adds the name at the end when it is truthy and new. */
  lemma ReceivedList(listed: seq<Json>, name: Json)
    ensures NoDups(Truthful(StringUniq(listed + [name])))
    ensures forall x :: x in Truthful(StringUniq(listed + [name])) <==> Truthy(x) && (x in listed || x == name)
    ensures Truthy(name) && name !in listed ==> Truthful(StringUniq(listed + [name])) == Truthful(StringUniq(listed)) + [name]
    ensures !(Truthy(name) && name !in listed) ==> Truthful(StringUniq(listed + [name])) == Truthful(StringUniq(listed))
  {
    assert forall x :: x in listed + [name] <==> x in listed || x == name;
    StringUniqSnoc(listed, name);
    TruthfulAppend(StringUniq(listed), [name]);
  }

  /** The primary types' received slices are their payload slices, whenever a named receive stores something. */
  lemma PrimariesReceived(state: State, action: Action, primaryEntities: Names, entities: Option<seq<string>>)
    requires Receivable(state, action, primaryEntities, entities)
    requires action.actionType.ReceiveEntities? && Named(action.meta.namespace)
    requires !IsEmpty(JObj(ReceivedEntities(action.payload, Tracked(primaryEntities, entities))))
    ensures var received := ReceivedEntities(action.payload, Tracked(primaryEntities, entities));
      forall e :: e in AsList(primaryEntities) ==> e in received && received[e] == Get(action.payload, e, JUndefined)
  {
    var tracked := Tracked(primaryEntities, entities);
    forall e | e in AsList(primaryEntities)
      ensures ReceivedEntities(action.payload, tracked)[e] == Get(action.payload, e, JUndefined)
    {
      ReceivedEntitiesAt(action.payload, tracked, e);
    }
  }

  /**
   * With a truthy namespace, the namespace record is the one the last
   * qualifying primary type produces from the state before the action.
   */
  lemma ReceiveDecidesNamespace(state: State, action: Action, primaryEntities: Names,
                                mapFunctions: map<string, Mapper>, entities: Option<seq<string>>, i: int)
    requires Receivable(state, action, primaryEntities, entities)
    requires action.actionType.ReceiveEntities? && Named(action.meta.namespace) && action.meta.namespace.value != "namespaces"
    requires !IsEmpty(JObj(ReceivedEntities(action.payload, Tracked(primaryEntities, entities))))
    requires 0 <= i < |AsList(primaryEntities)|
    requires Qualifies(action.payload, AsList(primaryEntities)[i], Get(action.payload, AsList(primaryEntities)[i], JUndefined))
    requires forall j :: i < j < |AsList(primaryEntities)| ==>
      !Qualifies(action.payload, AsList(primaryEntities)[j], Get(action.payload, AsList(primaryEntities)[j], JUndefined))
    ensures var namespace := action.meta.namespace.value;
      var r := ReceivedState(state, action, primaryEntities, mapFunctions, entities);
      namespace in r && r[namespace] == NamespaceRecord(state, namespace, Get(action.payload, AsList(primaryEntities)[i], JUndefined), action.meta)
  {
    var tracked := Tracked(primaryEntities, entities);
    var received := ReceivedEntities(action.payload, tracked);
    PrimariesReceived(state, action, primaryEntities, entities);
    NamespaceUpdateDecided(state, action, primaryEntities, received, i);
    ReceivedStateShape(state, action, primaryEntities, mapFunctions, entities);
    AssembledAt(state, action.meta.namespace, NewEntityMaps(state, action.payload, mapFunctions, tracked),
      NamespaceUpdate(state, action, primaryEntities, received), action.meta.namespace.value);
  }

  /** The namespace update when the `i`-th primary type is the last qualifying one. */
  lemma NamespaceUpdateDecided(state: State, action: Action, primaryEntities: Names, received: map<string, Json>, i: int)
    requires Named(action.meta.namespace)
    requires forall e :: e in AsList(primaryEntities) ==> e in received && received[e] == Get(action.payload, e, JUndefined)
    requires 0 <= i < |AsList(primaryEntities)|
    requires Qualifies(action.payload, AsList(primaryEntities)[i], Get(action.payload, AsList(primaryEntities)[i], JUndefined))
    requires forall j :: i < j < |AsList(primaryEntities)| ==>
      !Qualifies(action.payload, AsList(primaryEntities)[j], Get(action.payload, AsList(primaryEntities)[j], JUndefined))
    ensures NamespaceUpdate(state, action, primaryEntities, received) ==
      map[action.meta.namespace.value := NamespaceRecord(state, action.meta.namespace.value, Get(action.payload, AsList(primaryEntities)[i], JUndefined), action.meta)]
  {
    LastQualifyingWins(action.payload, received, AsList(primaryEntities));
  }

  /** The namespace update when no primary type qualifies. */
  lemma NamespaceUpdateUndecided(state: State, action: Action, primaryEntities: Names, received: map<string, Json>)
    requires Named(action.meta.namespace)
    requires forall e :: e in AsList(primaryEntities) ==> e in received && received[e] == Get(action.payload, e, JUndefined)
    requires forall j :: 0 <= j < |AsList(primaryEntities)| ==>
      !Qualifies(action.payload, AsList(primaryEntities)[j], Get(action.payload, AsList(primaryEntities)[j], JUndefined))
    ensures NamespaceUpdate(state, action, primaryEntities, received) == map[]
  {
    LastQualifyingWins(action.payload, received, AsList(primaryEntities));
  }

  /** With a truthy namespace and no qualifying primary type, the namespace record is left as it was. */
  lemma ReceiveKeepsUndecidedNamespace(state: State, action: Action, primaryEntities: Names,
                                       mapFunctions: map<string, Mapper>, entities: Option<seq<string>>)
    requires Receivable(state, action, primaryEntities, entities)
    requires action.actionType.ReceiveEntities? && Named(action.meta.namespace) && action.meta.namespace.value != "namespaces"
    requires forall j :: 0 <= j < |AsList(primaryEntities)| ==>
      !Qualifies(action.payload, AsList(primaryEntities)[j], Get(action.payload, AsList(primaryEntities)[j], JUndefined))
    requires forall e :: e in Tracked(primaryEntities, entities) && Truthy(Get(action.payload, e, JUndefined)) ==> action.meta.namespace.value != MapKey(e)
    ensures var namespace := action.meta.namespace.value;
      var r := ReceivedState(state, action, primaryEntities, mapFunctions, entities);
      (namespace in r <==> namespace in state) && (namespace in r ==> r[namespace] == state[namespace])
  {
    var tracked := Tracked(primaryEntities, entities);
    var received := ReceivedEntities(action.payload, tracked);
    if !IsEmpty(JObj(received)) {
      PrimariesReceived(state, action, primaryEntities, entities);
      NamespaceUpdateUndecided(state, action, primaryEntities, received);
      NewEntityMapsOnly(state, action.payload, mapFunctions, tracked, action.meta.namespace.value);
      ReceivedStateShape(state, action, primaryEntities, mapFunctions, entities);
      AssembledAt(state, action.meta.namespace, NewEntityMaps(state, action.payload, mapFunctions, tracked),
        NamespaceUpdate(state, action, primaryEntities, received), action.meta.namespace.value);
    }
  }

  // ---------------------------------------------------------------------------
  // clearMajicNamespaceReducer

  /**
   * `stringWithout(list, value)`: the list without `value`. The helper is
   * imported from the utilities but not part of this model; its behaviour is
   * the one the reducer's tests expect.
   */
  function StringWithout(xs: seq<Json>, x: Json): (r: seq<Json>)
    ensures forall y :: y in r <==> y in xs && y != x
    ensures |r| <= |xs|
  {
    if xs == [] then []
    else
      var init := xs[..|xs| - 1];
      assert xs == init + [xs[|xs| - 1]];
      if xs[|xs| - 1] == x then StringWithout(init, x) else StringWithout(init, x) + [xs[|xs| - 1]]
  }

  /** The names `omit(state, namespace)` drops: the namespace, or `undefined`, which matches no key. */
  function NamespaceNames(namespace: Option<string>): (r: seq<string>)
    ensures namespace.Some? ==> r == [namespace.value]
    ensures namespace.None? ==> r == []
  {
    if namespace.Some? then [namespace.value] else []
  }

  /**
   * `clearMajicNamespaceReducer`: other actions leave the state alone;
   * clearing removes the namespace's record and its entry in `namespaces`
   * and keeps the other entries; every other key, the `<type>Map` maps
   * included, is untouched.
   */
  function ClearMajicNamespaceReducer(state: State, action: Action): (r: State)
    requires action.actionType.ClearNamespace? ==> ListOrFalsy(Get(state, "namespaces", JUndefined))
    ensures !action.actionType.ClearNamespace? ==> r == state
    ensures action.actionType.ClearNamespace? ==>
      var namespace := action.meta.namespace;
      && "namespaces" in r && r["namespaces"].JArr?
      && (forall x :: x in r["namespaces"].elems <==> x in Namespaces(state) && x != NamespaceValue(namespace))
      && (namespace.Some? && namespace.value != "namespaces" ==> namespace.value !in r)
      && (forall k :: k != "namespaces" && k !in NamespaceNames(namespace) ==> (k in r <==> k in state) && (k in r ==> r[k] == state[k]))
  {
    if !action.actionType.ClearNamespace? then state
    else
      var namespace := action.meta.namespace;
      Omitted(state, NamespaceNames(namespace))["namespaces" := JArr(StringWithout(Namespaces(state), NamespaceValue(namespace)))]
  }
}
