/**
 * The read side of the store, src/redux/selectors.js: an entity by id from
 * its type's map, the same through a namespace's preserved snapshot first,
 * the ordered entities a namespace lists, and whether a namespace is
 * fetching. The lemmas at the end tie each selector to the reducers.
 */
module Selectors {
  import opened JsonValues
  import opened Utils
  import opened Reducers

  /** An entity type's map, `entityStore[`${entity}Map`]`. */
  function EntityMap(store: State, entity: string): Json
  {
    Get(store, MapKey(entity), JUndefined)
  }

  /** A namespace's record, `entityStore[namespace]`. */
  function Record(store: State, namespace: string): Json
  {
    Get(store, namespace, JUndefined)
  }

  /**
   * `entityStore[namespace] && entityStore[namespace].preservedEntities &&
   * entityStore[namespace].preservedEntities[id]`, read only for its
   * truthiness and, when truthy, its value; a falsy chain is `undefined` here.
   */
  function PreservedEntity(store: State, namespace: string, id: string): (r: Json)
    ensures Truthy(r) ==> Has(Prop(Record(store, namespace), "preservedEntities"), id)
  {
    var record := Record(store, namespace);
    var preserved := Prop(record, "preservedEntities");
    if Truthy(record) && Truthy(preserved) then Prop(preserved, id) else JUndefined
  }

  /** `selectEntityById`: the entity in its type's map, or `{}` when it is missing or falsy. */
  function SelectEntityById(store: State, id: string, entity: string): (r: Json)
    requires !Nullish(EntityMap(store, entity))
    ensures Truthy(r)
    ensures Truthy(Prop(EntityMap(store, entity), id)) ==> r == Prop(EntityMap(store, entity), id)
    ensures !Truthy(Prop(EntityMap(store, entity), id)) ==> r == EmptyObject
  {
    Or(Prop(EntityMap(store, entity), id), EmptyObject)
  }

  /** The type's map is read only when the snapshot has nothing truthy for the id. */
  predicate Selectable(store: State, namespace: string, id: string, entity: string)
  {
    !Truthy(PreservedEntity(store, namespace, id)) ==> !Nullish(EntityMap(store, entity))
  }

  /** `selectEntityByNamespaceAndId`: the namespace's snapshot first, then the type's map, then `{}`. */
  function SelectEntityByNamespaceAndId(store: State, namespace: string, id: string, entity: string): (r: Json)
    requires Selectable(store, namespace, id, entity)
    ensures Truthy(r)
  {
    var preserved := PreservedEntity(store, namespace, id);
    if Truthy(preserved) then preserved else SelectEntityById(store, id, entity)
  }

  /**
   * The lookup order: a truthy snapshot entry wins; otherwise a truthy entry
   * of the type's map; otherwise `{}`.
   */
  lemma SelectionOrder(store: State, namespace: string, id: string, entity: string)
    requires Selectable(store, namespace, id, entity)
    ensures var preserved := Prop(Prop(Record(store, namespace), "preservedEntities"), id);
      Truthy(preserved) ==> SelectEntityByNamespaceAndId(store, namespace, id, entity) == preserved
    ensures var preserved := Prop(Prop(Record(store, namespace), "preservedEntities"), id);
      var stored := Prop(EntityMap(store, entity), id);
      !Truthy(preserved) && Truthy(stored) ==> SelectEntityByNamespaceAndId(store, namespace, id, entity) == stored
    ensures var preserved := Prop(Prop(Record(store, namespace), "preservedEntities"), id);
      var stored := Prop(EntityMap(store, entity), id);
      !Truthy(preserved) && !Truthy(stored) ==> SelectEntityByNamespaceAndId(store, namespace, id, entity) == EmptyObject
  {
  }

  /** The ids a namespace lists, when its record has a `keys` array. */
  function ListedKeys(store: State, namespace: string): seq<Json>
  {
    var keys := Prop(Record(store, namespace), "keys");
    if keys.JArr? then keys.elems else []
  }

  /** What `selectEntitiesByNamespace` needs: `keys` is an array or falsy, and each listed id can be looked up. */
  predicate Listable(store: State, namespace: string, entity: string)
  {
    && ListOrFalsy(Prop(Record(store, namespace), "keys"))
    && forall k :: k in ListedKeys(store, namespace) ==> Selectable(store, namespace, PropertyKey(k), entity)
  }

  /**
   * `selectEntitiesByNamespace`: `[]` without a record, without keys or
   * with no keys; otherwise each listed id looked up in order.
   */
  function SelectEntitiesByNamespace(store: State, namespace: string, entity: string): (r: seq<Json>)
    requires Listable(store, namespace, entity)
    ensures |r| == |ListedKeys(store, namespace)|
    ensures forall i :: 0 <= i < |r| ==>
      r[i] == SelectEntityByNamespaceAndId(store, namespace, PropertyKey(ListedKeys(store, namespace)[i]), entity)
  {
    var record := Record(store, namespace);
    var keys := Prop(record, "keys");
    if !Truthy(record) || !Truthy(keys) || |keys.elems| == 0 then []
    else
      seq(|keys.elems|, i requires 0 <= i < |keys.elems| =>
        SelectEntityByNamespaceAndId(store, namespace, PropertyKey(keys.elems[i]), entity))
  }

  /**
   * `selectNamespaceIsFetching`: the record exists and its `isFetching` is
   * truthy. A record with a truthy `isFetching` is an object, and so truthy
   * itself: the answer depends on `isFetching` alone.
   */
  function SelectNamespaceIsFetching(store: State, namespace: string): (r: bool)
    ensures r <==> namespace in store && Truthy(Prop(store[namespace], "isFetching"))
  {
    Truthy(Record(store, namespace)) && Truthy(Prop(Record(store, namespace), "isFetching"))
  }

  // ---------------------------------------------------------------------------
  // The selectors over the reducers' results

  /** Right after a request for a namespace, the namespace is fetching. */
  lemma FetchingAfterRequest(state: State, action: Action)
    requires ListOrFalsy(Get(state, "namespaces", JUndefined))
    requires Named(action.meta.namespace)
    ensures SelectNamespaceIsFetching(RequestMajicNamespace(state, action), action.meta.namespace.value)
  {
  }

  /** Once a primary type decides a namespace record, the namespace is no longer fetching. */
  lemma NotFetchingAfterReceive(state: State, action: Action, primaryEntities: Names,
                                mapFunctions: map<string, Mapper>, entities: Option<seq<string>>, i: int)
    requires Receivable(state, action, primaryEntities, entities)
    requires action.actionType.ReceiveEntities? && Named(action.meta.namespace) && action.meta.namespace.value != "namespaces"
    requires !IsEmpty(JObj(ReceivedEntities(action.payload, Tracked(primaryEntities, entities))))
    requires 0 <= i < |AsList(primaryEntities)|
    requires Qualifies(action.payload, AsList(primaryEntities)[i], Get(action.payload, AsList(primaryEntities)[i], JUndefined))
    requires forall j :: i < j < |AsList(primaryEntities)| ==>
      !Qualifies(action.payload, AsList(primaryEntities)[j], Get(action.payload, AsList(primaryEntities)[j], JUndefined))
    ensures !SelectNamespaceIsFetching(ReceivedState(state, action, primaryEntities, mapFunctions, entities), action.meta.namespace.value)
  {
    var primary := AsList(primaryEntities)[i];
    var slice := Get(action.payload, primary, JUndefined);
    ReceivedEntitiesAt(action.payload, Tracked(primaryEntities, entities), primary);
    assert SliceShape(slice);
    ReceiveDecidesNamespace(state, action, primaryEntities, mapFunctions, entities, i);
    NamespaceRecordSpec(state, action.meta.namespace.value, slice, action.meta);
  }

  /** After a namespace is cleared it is not fetching and lists nothing. */
  lemma NothingAfterClear(state: State, action: Action, entity: string)
    requires action.actionType.ClearNamespace? && ListOrFalsy(Get(state, "namespaces", JUndefined))
    requires action.meta.namespace.Some? && action.meta.namespace.value != "namespaces"
    ensures var r := ClearMajicNamespaceReducer(state, action);
      && !SelectNamespaceIsFetching(r, action.meta.namespace.value)
      && Listable(r, action.meta.namespace.value, entity)
      && SelectEntitiesByNamespace(r, action.meta.namespace.value, entity) == []
  {
  }

  /**
   * After a receive that a primary type decides, stored with the standard
   * mapper and without appending, the namespace lists exactly that type's
   * received keys, and each id whose received entity is truthy selects that
   * entity, whether or not a snapshot was preserved.
   */
  lemma ListedAfterReceive(state: State, action: Action, primaryEntities: Names,
                           mapFunctions: map<string, Mapper>, entities: Option<seq<string>>, i: int)
    requires Receivable(state, action, primaryEntities, entities)
    requires action.actionType.ReceiveEntities? && Named(action.meta.namespace) && action.meta.namespace.value != "namespaces"
    requires !action.meta.appendKeys
    requires !IsEmpty(JObj(ReceivedEntities(action.payload, Tracked(primaryEntities, entities))))
    requires 0 <= i < |AsList(primaryEntities)|
    requires Qualifies(action.payload, AsList(primaryEntities)[i], Get(action.payload, AsList(primaryEntities)[i], JUndefined))
    requires forall j :: i < j < |AsList(primaryEntities)| ==>
      !Qualifies(action.payload, AsList(primaryEntities)[j], Get(action.payload, AsList(primaryEntities)[j], JUndefined))
    requires var primary := AsList(primaryEntities)[i];
      primary !in mapFunctions && MapKey(primary) != "namespaces" && MapKey(primary) != action.meta.namespace.value
    ensures var r := ReceivedState(state, action, primaryEntities, mapFunctions, entities);
      var namespace := action.meta.namespace.value;
      var primary := AsList(primaryEntities)[i];
      var slice := Get(action.payload, primary, JUndefined);
      && Listable(r, namespace, primary)
      && ListedKeys(r, namespace) == Elements(Prop(slice, "keys"))
      && forall j :: 0 <= j < |ListedKeys(r, namespace)| && Truthy(Prop(Prop(slice, "data"), PropertyKey(ListedKeys(r, namespace)[j]))) ==>
           SelectEntitiesByNamespace(r, namespace, primary)[j] == Prop(Prop(slice, "data"), PropertyKey(ListedKeys(r, namespace)[j]))
  {
    var r := ReceivedState(state, action, primaryEntities, mapFunctions, entities);
    var namespace := action.meta.namespace.value;
    var primary := AsList(primaryEntities)[i];
    var slice := Get(action.payload, primary, JUndefined);
    ReceivedEntitiesAt(action.payload, Tracked(primaryEntities, entities), primary);
    assert SliceShape(slice);
    ReceiveDecidesNamespace(state, action, primaryEntities, mapFunctions, entities, i);
    ReceiveUpdatesEntityMaps(state, action, primaryEntities, mapFunctions, entities, primary);
    ListedFromRecord(r, state, namespace, primary, slice, action.meta);
  }

  /**
   * A store whose namespace record was written from `slice` without
   * appending, and whose type map went through the standard mapper with the
   * same slice, lists the slice's keys and selects the slice's entities.
   */
  lemma ListedFromRecord(store: State, state: State, namespace: string, entity: string, slice: Json, meta: Meta)
    requires SliceShape(slice) && Truthy(Prop(slice, "keys")) && !meta.appendKeys
    requires namespace in store && store[namespace] == NamespaceRecord(state, namespace, slice, meta)
    requires MapKey(entity) in store && store[MapKey(entity)] == StandardMapper(Get(state, MapKey(entity), JUndefined), slice)
    ensures Listable(store, namespace, entity)
    ensures ListedKeys(store, namespace) == Elements(Prop(slice, "keys"))
    ensures forall j :: 0 <= j < |ListedKeys(store, namespace)| && Truthy(Prop(Prop(slice, "data"), PropertyKey(ListedKeys(store, namespace)[j]))) ==>
      SelectEntitiesByNamespace(store, namespace, entity)[j] == Prop(Prop(slice, "data"), PropertyKey(ListedKeys(store, namespace)[j]))
  {
    var data := Prop(slice, "data");
    NamespaceRecordSpec(state, namespace, slice, meta);
    assert ListedKeys(store, namespace) == Elements(Prop(slice, "keys"));
    forall k | k in ListedKeys(store, namespace) && Truthy(Prop(data, PropertyKey(k)))
      ensures SelectEntityByNamespaceAndId(store, namespace, PropertyKey(k), entity) == Prop(data, PropertyKey(k))
    {
    }
  }
}
