/**
 * The response parser (`parseResponseFactory(identifier)`): flatten a JSON:API
 * document into a store keyed by type and then by entity identity. Primary
 * `data` gives slices `{data, keys}` and the list `__primaryEntities`;
 * `included` gives slices `{data}` without keys; the two are merged with the
 * primary copy winning, and the top-level `jsonapi`, `links` and `meta` are
 * carried over when they are not empty.
 *
 * The identity function is a parameter (`Identifier`), as in the factory.
 */
module Parse {
  import opened JsonValues
  import opened Utils
  import opened Merge

  /** The caller-supplied `identifier(entity)`; its result is used as a property key. */
  type Identifier = Json -> string

  /** The default identifier `el => el.id`. */
  function DefaultIdentifier(entity: Json): string
  {
    PropertyKey(Prop(entity, "id"))
  }

  /** `get(response, name, {})`, the shape `getJsonapi`, `getLinks` and `getMeta` share: the member, or `{}` when the key is missing. */
  function GetMember(response: map<string, Json>, name: string): (r: Json)
    ensures name in response ==> r == response[name]
    ensures name !in response ==> r == EmptyObject
  {
    Get(response, name)
  }

  /** `getJsonapi`. */
  function GetJsonapi(response: map<string, Json>): Json
  {
    GetMember(response, "jsonapi")
  }

  /** `getLinks`. */
  function GetLinks(response: map<string, Json>): Json
  {
    GetMember(response, "links")
  }

  /** `getMeta`. */
  function GetMeta(response: map<string, Json>): Json
  {
    GetMember(response, "meta")
  }

  /** A resource object the parser can file: an object whose `type` is a string other than `__primaryEntities`. */
  predicate IsResource(entity: Json)
  {
    && entity.JObj?
    && Prop(entity, "type").JStr?
    && Prop(entity, "type").s != PrimaryEntities
  }

  /** The entity's `type` as a property key. */
  function TypeOf(entity: Json): string
    requires IsResource(entity)
  {
    Prop(entity, "type").s
  }

  /** `links` of an entity, `{}` when missing (`getLinks(current)`). */
  function EntityLinks(entity: Json): Json
  {
    if Has(entity, "links") then Prop(entity, "links") else EmptyObject
  }

  /** `meta` of an entity, `{}` when missing (`getMeta(current)`). */
  function EntityMeta(entity: Json): Json
  {
    if Has(entity, "meta") then Prop(entity, "meta") else EmptyObject
  }

  /** The flattened entity `{id, type, links, ...attributes, ...relationships, ...meta}`. */
  function Flatten(entity: Json): (r: Json)
    ensures r.JObj?
  {
    JObj(map["id" := Prop(entity, "id"), "type" := Prop(entity, "type"), "links" := EntityLinks(entity)]
         + Spread(Prop(entity, "attributes"))
         + Spread(Prop(entity, "relationships"))
         + Spread(EntityMeta(entity)))
  }

  /**
   * The flattened entity has `id`, `type`, `links` and every attribute,
   * relationship and meta name; on a name clash meta wins over relationships,
   * which win over attributes, which win over the three fixed members.
   */
  lemma FlattenOverlay(entity: Json, k: string)
    ensures Flatten(entity).fields.Keys == {"id", "type", "links"} + Spread(Prop(entity, "attributes")).Keys
      + Spread(Prop(entity, "relationships")).Keys + Spread(EntityMeta(entity)).Keys
    ensures k in Spread(EntityMeta(entity)) ==> Flatten(entity).fields[k] == Spread(EntityMeta(entity))[k]
    ensures k !in Spread(EntityMeta(entity)) && k in Spread(Prop(entity, "relationships")) ==>
      Flatten(entity).fields[k] == Spread(Prop(entity, "relationships"))[k]
    ensures k !in Spread(EntityMeta(entity)) && k !in Spread(Prop(entity, "relationships")) && k in Spread(Prop(entity, "attributes")) ==>
      Flatten(entity).fields[k] == Spread(Prop(entity, "attributes"))[k]
    ensures k !in Spread(EntityMeta(entity)) && k !in Spread(Prop(entity, "relationships")) && k !in Spread(Prop(entity, "attributes")) ==>
      && (k == "id" ==> Flatten(entity).fields[k] == Prop(entity, "id"))
      && (k == "type" ==> Flatten(entity).fields[k] == Prop(entity, "type"))
      && (k == "links" ==> Flatten(entity).fields[k] == EntityLinks(entity))
  {
  }

  /** The `type` values of a list of entities. */
  function TypesOf(entities: seq<Json>): (r: seq<Json>)
    ensures |r| == |entities|
    ensures forall i :: 0 <= i < |entities| ==> r[i] == Prop(entities[i], "type")
  {
    if entities == [] then [] else TypesOf(entities[..|entities| - 1]) + [Prop(entities[|entities| - 1], "type")]
  }

  /** The type names that occur in a list of resources. */
  function TypeNames(entities: seq<Json>): set<string>
    requires forall e :: e in entities ==> IsResource(e)
  {
    set e | e in entities :: TypeOf(e)
  }

  /** Identities, in order and with repeats, of the entities of type `t`. */
  function IdsOf(identifier: Identifier, entities: seq<Json>, t: string): (r: seq<Json>)
    ensures forall x :: x in r ==> x.JStr?
  {
    if entities == [] then []
    else
      var e := entities[|entities| - 1];
      IdsOf(identifier, entities[..|entities| - 1], t) + (if Prop(e, "type") == JStr(t) then [JStr(identifier(e))] else [])
  }

  /**
   * The identity-keyed map `entities.data` the parser's folds build for type
   * `t`: each entity of that type written under its identity, a later one
   * overwriting an earlier one.
   */
  function EntitiesById(identifier: Identifier, entities: seq<Json>, t: string): map<string, Json>
  {
    if entities == [] then map[]
    else
      var e := entities[|entities| - 1];
      var before := EntitiesById(identifier, entities[..|entities| - 1], t);
      if Prop(e, "type") == JStr(t) then before[identifier(e) := Flatten(e)] else before
  }

  /** `response.data` as the list the reduce of `getData` walks; falsy data is no data. */
  function DataArray(response: map<string, Json>): (r: seq<Json>)
    ensures !Truthy(Get(response, "data", JUndefined)) ==> r == []
    ensures var d := Get(response, "data", JUndefined); Truthy(d) && d.JArr? ==> r == d.elems
    ensures var d := Get(response, "data", JUndefined); Truthy(d) && !d.JArr? ==> r == [d]
  {
    var data := Get(response, "data", JUndefined);
    if !Truthy(data) then [] else if data.JArr? then data.elems else [data]
  }

  /** `response.included || []`. */
  function IncludedArray(response: map<string, Json>): seq<Json>
  {
    Elements(Get(response, "included", JUndefined))
  }

  /**
   * What `getData`, `getIncluded` and `getAllIncludedTypes` need of a document
   * in order not to throw: `included`, when present, is an array of resources,
   * and so is the primary data.
   */
  predicate WellFormedDocument(response: map<string, Json>)
  {
    && ("included" in response ==> response["included"].JArr?)
    && (forall e :: e in IncludedArray(response) ==> IsResource(e))
    && (forall e :: e in DataArray(response) ==> IsResource(e))
  }

  /** A typed primary-data slice `{data, keys}`. */
  datatype Slice = Slice(data: map<string, Json>, keys: seq<Json>)

  function SliceJson(slice: Slice): Json
  {
    JObj(map["data" := JObj(slice.data), "keys" := JArr(slice.keys)])
  }

  /** The slice update the reduce of `getData` makes for one resource (lines 63-68). */
  function FileEntity(identifier: Identifier, slices: map<string, Slice>, current: Json): map<string, Slice>
    requires IsResource(current)
  {
    var t := TypeOf(current);
    var slice := if t in slices then slices[t] else Slice(map[], []);
    slices[t := Slice(slice.data[identifier(current) := Flatten(current)], StringUniq(slice.keys + [JStr(identifier(current))]))]
  }

  /** The typed slices the reduce of `getData` builds, one resource at a time. */
  function SlicesOf(identifier: Identifier, entities: seq<Json>): map<string, Slice>
    requires forall e :: e in entities ==> IsResource(e)
  {
    if entities == [] then map[]
    else FileEntity(identifier, SlicesOf(identifier, entities[..|entities| - 1]), entities[|entities| - 1])
  }

  /** The typed accumulator as the object `getData` returns. */
  function StoreJson(slices: map<string, Slice>, primary: seq<Json>): map<string, Json>
  {
    map[PrimaryEntities := JArr(primary)] + map t | t in slices :: SliceJson(slices[t])
  }

  /** The store `getData` returns for a list of primary resources. */
  function DataStore(identifier: Identifier, entities: seq<Json>): map<string, Json>
    requires forall e :: e in entities ==> IsResource(e)
  {
    StoreJson(SlicesOf(identifier, entities), StringUniq(TypesOf(entities)))
  }

  lemma TypeNamesSnoc(entities: seq<Json>, e: Json)
    requires forall x :: x in entities ==> IsResource(x)
    requires IsResource(e)
    ensures TypeNames(entities + [e]) == TypeNames(entities) + {TypeOf(e)}
  {
    assert forall x :: x in entities + [e] <==> x in entities || x == e;
  }

  /**
   * The reduce of `getData` files a slice for exactly the types that occur,
   * holding the type's entities by identity (the last one with an identity
   * wins) and its identities de-duplicated in first-occurrence order.
   */
  lemma {:induction false} SlicesOfAt(identifier: Identifier, entities: seq<Json>, t: string)
    requires forall e :: e in entities ==> IsResource(e)
    ensures t in SlicesOf(identifier, entities) <==> t in TypeNames(entities)
    ensures t in SlicesOf(identifier, entities) ==>
      SlicesOf(identifier, entities)[t] == Slice(EntitiesById(identifier, entities, t), StringUniq(IdsOf(identifier, entities, t)))
  {
    if entities != [] {
      var init := entities[..|entities| - 1];
      var e := entities[|entities| - 1];
      assert entities == init + [e];
      SlicesOfAt(identifier, init, t);
      SlicesOfSnocAt(identifier, init, e, t);
    }
  }

  /** The step of `SlicesOfAt`: what holds of a list of resources holds after one more. */
  lemma SlicesOfSnocAt(identifier: Identifier, init: seq<Json>, e: Json, t: string)
    requires forall x :: x in init ==> IsResource(x)
    requires IsResource(e)
    requires forall x :: x in init + [e] ==> IsResource(x)
    requires t in SlicesOf(identifier, init) <==> t in TypeNames(init)
    requires t in SlicesOf(identifier, init) ==>
      SlicesOf(identifier, init)[t] == Slice(EntitiesById(identifier, init, t), StringUniq(IdsOf(identifier, init, t)))
    ensures t in SlicesOf(identifier, init + [e]) <==> t in TypeNames(init + [e])
    ensures t in SlicesOf(identifier, init + [e]) ==>
      SlicesOf(identifier, init + [e])[t] == Slice(EntitiesById(identifier, init + [e], t), StringUniq(IdsOf(identifier, init + [e], t)))
  {
    var entities := init + [e];
    assert entities[..|entities| - 1] == init;
    SlicesOfSnoc(identifier, entities);
    TypeNamesSnoc(init, e);
    if TypeOf(e) == t {
      SlicesOfSnocSame(identifier, init, e, t);
    } else {
      SlicesOfSnocOther(identifier, init, e, t);
    }
  }

  lemma SlicesOfSnocSame(identifier: Identifier, init: seq<Json>, e: Json, t: string)
    requires forall x :: x in init ==> IsResource(x)
    requires IsResource(e)
    requires forall x :: x in init + [e] ==> IsResource(x)
    requires TypeOf(e) == t
    requires SlicesOf(identifier, init + [e]) == FileEntity(identifier, SlicesOf(identifier, init), e)
    requires TypeNames(init + [e]) == TypeNames(init) + {TypeOf(e)}
    requires t in SlicesOf(identifier, init) <==> t in TypeNames(init)
    requires t in SlicesOf(identifier, init) ==>
      SlicesOf(identifier, init)[t] == Slice(EntitiesById(identifier, init, t), StringUniq(IdsOf(identifier, init, t)))
    ensures t in SlicesOf(identifier, init + [e]) <==> t in TypeNames(init + [e])
    ensures t in SlicesOf(identifier, init + [e]) ==>
      SlicesOf(identifier, init + [e])[t] == Slice(EntitiesById(identifier, init + [e], t), StringUniq(IdsOf(identifier, init + [e], t)))
  {
    SnocSameType(identifier, init, e, t);
    var before := SlicesOf(identifier, init);
    var ids := IdsOf(identifier, init, t);
    if t !in before {
      NoIdsForAbsentType(identifier, init, t);
      assert FileEntity(identifier, before, e)[t] == Slice(map[identifier(e) := Flatten(e)], StringUniq([] + [JStr(identifier(e))]));
    } else {
      StringUniqAppendOne(ids, JStr(identifier(e)));
    }
  }

  /** A resource of type `u` is written under its identity, and its identity appended. */
  lemma SnocSameType(identifier: Identifier, entities: seq<Json>, e: Json, u: string)
    requires Prop(e, "type") == JStr(u)
    ensures EntitiesById(identifier, entities + [e], u) == EntitiesById(identifier, entities, u)[identifier(e) := Flatten(e)]
    ensures IdsOf(identifier, entities + [e], u) == IdsOf(identifier, entities, u) + [JStr(identifier(e))]
  {
    assert (entities + [e])[..|entities + [e]| - 1] == entities;
  }

  lemma SlicesOfSnocOther(identifier: Identifier, init: seq<Json>, e: Json, t: string)
    requires forall x :: x in init ==> IsResource(x)
    requires IsResource(e)
    requires forall x :: x in init + [e] ==> IsResource(x)
    requires TypeOf(e) != t
    requires SlicesOf(identifier, init + [e]) == FileEntity(identifier, SlicesOf(identifier, init), e)
    requires TypeNames(init + [e]) == TypeNames(init) + {TypeOf(e)}
    requires t in SlicesOf(identifier, init) <==> t in TypeNames(init)
    requires t in SlicesOf(identifier, init) ==>
      SlicesOf(identifier, init)[t] == Slice(EntitiesById(identifier, init, t), StringUniq(IdsOf(identifier, init, t)))
    ensures t in SlicesOf(identifier, init + [e]) <==> t in TypeNames(init + [e])
    ensures t in SlicesOf(identifier, init + [e]) ==>
      SlicesOf(identifier, init + [e])[t] == Slice(EntitiesById(identifier, init + [e], t), StringUniq(IdsOf(identifier, init + [e], t)))
  {
    SnocOtherType(identifier, init, e, t);
  }

  /** A resource of another type leaves a type's entities and identities as they were. */
  lemma SnocOtherType(identifier: Identifier, entities: seq<Json>, e: Json, u: string)
    requires Prop(e, "type") != JStr(u)
    ensures EntitiesById(identifier, entities + [e], u) == EntitiesById(identifier, entities, u)
    ensures IdsOf(identifier, entities + [e], u) == IdsOf(identifier, entities, u)
  {
    assert (entities + [e])[..|entities + [e]| - 1] == entities;
  }

  /** One step of the reduce of `getData`. */
  lemma SlicesOfStep(identifier: Identifier, entities: seq<Json>, i: nat)
    requires forall e :: e in entities ==> IsResource(e)
    requires i < |entities|
    ensures SlicesOf(identifier, entities[..i + 1]) == FileEntity(identifier, SlicesOf(identifier, entities[..i]), entities[i])
  {
    var prefix := entities[..i + 1];
    assert prefix[..|prefix| - 1] == entities[..i];
    assert prefix[|prefix| - 1] == entities[i];
    assert forall e :: e in prefix ==> IsResource(e);
    SlicesOfSnoc(identifier, prefix);
  }

  lemma SlicesOfSnoc(identifier: Identifier, entities: seq<Json>)
    requires forall e :: e in entities ==> IsResource(e)
    requires entities != []
    ensures SlicesOf(identifier, entities) ==
      FileEntity(identifier, SlicesOf(identifier, entities[..|entities| - 1]), entities[|entities| - 1])
  {
  }

  lemma TypesOfStep(entities: seq<Json>, i: nat)
    requires i < |entities|
    ensures TypesOf(entities[..i + 1]) == TypesOf(entities[..i]) + [Prop(entities[i], "type")]
  {
    assert entities[..i + 1][..i] == entities[..i];
  }

  lemma OverwriteSlice(m: map<string, Slice>, k: string, a: Slice, b: Slice)
    ensures m[k := a][k := b] == m[k := b]
  {
  }

  /**
   * `getData`: no data gives `{__primaryEntities: []}`; otherwise the reduce
   * over the primary resources (a single resource stands for a list of one).
   */
  method GetData(identifier: Identifier, response: map<string, Json>) returns (entities: map<string, Json>)
    requires forall e :: e in DataArray(response) ==> IsResource(e)
    ensures entities == DataStore(identifier, DataArray(response))
  {
    var dataArray := DataArray(response);
    var slices, primary := FileAll(identifier, dataArray);
    entities := StoreJson(slices, primary);
  }

  /**
   * The reduce of `getData` (lines 60-85): create a type's slice on first
   * sight, add the identity to its `keys` and the flattened entity to its
   * `data`, and record the type in `__primaryEntities`.
   */
  method FileAll(identifier: Identifier, dataArray: seq<Json>) returns (slices: map<string, Slice>, primary: seq<Json>)
    requires forall e :: e in dataArray ==> IsResource(e)
    ensures slices == SlicesOf(identifier, dataArray)
    ensures primary == StringUniq(TypesOf(dataArray))
  {
    slices := map[];
    primary := [];
    for i := 0 to |dataArray|
      invariant slices == SlicesOf(identifier, dataArray[..i])
      invariant primary == StringUniq(TypesOf(dataArray[..i]))
    {
      var current := dataArray[i];
      slices := FileOne(identifier, slices, current);
      primary := StringUniq(primary + [JStr(TypeOf(current))]);
      SlicesOfStep(identifier, dataArray, i);
      TypesOfStep(dataArray, i);
      StringUniqAppendOne(TypesOf(dataArray[..i]), JStr(TypeOf(current)));
    }
    assert dataArray[..|dataArray|] == dataArray;
  }

  /** One step of the reduce of `getData`: the slice of the resource's type, created on first sight, takes the resource. */
  method FileOne(identifier: Identifier, slices: map<string, Slice>, current: Json) returns (next: map<string, Slice>)
    requires IsResource(current)
    ensures next == FileEntity(identifier, slices, current)
  {
    var t := TypeOf(current);
    next := slices;
    if t !in next {
      next := next[t := Slice(map[], [])];
    }
    var id := identifier(current);
    var slice := next[t];
    next := next[t := Slice(slice.data[id := Flatten(current)], StringUniq(slice.keys + [JStr(id)]))];
    if t !in slices {
      OverwriteSlice(slices, t, Slice(map[], []), next[t]);
    }
  }

  /** A type that no resource has gets no identities and no entities. */
  lemma {:induction false} NoIdsForAbsentType(identifier: Identifier, entities: seq<Json>, t: string)
    requires forall e :: e in entities ==> IsResource(e)
    requires t !in TypeNames(entities)
    ensures IdsOf(identifier, entities, t) == []
    ensures EntitiesById(identifier, entities, t) == map[]
  {
    if entities != [] {
      var init := entities[..|entities| - 1];
      var e := entities[|entities| - 1];
      assert e in entities && TypeOf(e) in TypeNames(entities);
      assert TypeNames(init) <= TypeNames(entities) by {
        assert forall x :: x in init ==> x in entities;
      }
      NoIdsForAbsentType(identifier, init, t);
    }
  }

  /** A type's entities are keyed by exactly the identities listed for it. */
  lemma {:induction false} EntitiesByIdKeys(identifier: Identifier, entities: seq<Json>, t: string)
    ensures forall id :: id in EntitiesById(identifier, entities, t) <==> JStr(id) in IdsOf(identifier, entities, t)
  {
    if entities != [] {
      EntitiesByIdKeys(identifier, entities[..|entities| - 1], t);
    }
  }

  /** The entity kept under an identity is the last resource of the type with that identity. */
  lemma {:induction false} EntitiesByIdLastWins(identifier: Identifier, entities: seq<Json>, t: string, i: nat)
    requires i < |entities| && Prop(entities[i], "type") == JStr(t)
    requires forall j :: i < j < |entities| && Prop(entities[j], "type") == JStr(t) ==> identifier(entities[j]) != identifier(entities[i])
    ensures identifier(entities[i]) in EntitiesById(identifier, entities, t)
    ensures EntitiesById(identifier, entities, t)[identifier(entities[i])] == Flatten(entities[i])
  {
    var init := entities[..|entities| - 1];
    if i < |entities| - 1 {
      assert forall j :: i < j < |init| ==> init[j] == entities[j];
      EntitiesByIdLastWins(identifier, init, t, i);
    }
  }

  /** The types a list of resources names, as strings and as the values `TypesOf` lists. */
  lemma {:induction false} TypeNamesOfTypes(entities: seq<Json>)
    requires forall e :: e in entities ==> IsResource(e)
    ensures forall t :: t in TypeNames(entities) <==> JStr(t) in TypesOf(entities)
    ensures forall x :: x in TypesOf(entities) ==> x.JStr? && x.s in TypeNames(entities)
  {
    forall t | JStr(t) in TypesOf(entities)
      ensures t in TypeNames(entities)
    {
      var i :| 0 <= i < |entities| && TypesOf(entities)[i] == JStr(t);
      assert entities[i] in entities;
    }
    forall t | t in TypeNames(entities)
      ensures JStr(t) in TypesOf(entities)
    {
      var e :| e in entities && TypeOf(e) == t;
      var i :| 0 <= i < |entities| && entities[i] == e;
      assert TypesOf(entities)[i] == JStr(t);
    }
    forall x | x in TypesOf(entities)
      ensures x.JStr? && x.s in TypeNames(entities)
    {
      var i :| 0 <= i < |entities| && TypesOf(entities)[i] == x;
      assert entities[i] in entities;
    }
  }

  /** `isEmpty(includedType.data) ? {} : includedType`: the slice an included type gets. */
  function IncludedSlice(data: map<string, Json>): (r: Json)
    ensures |data| == 0 ==> r == EmptyObject
    ensures |data| != 0 ==> r == JObj(map["data" := JObj(data)])
  {
    if IsEmpty(JObj(data)) then EmptyObject else JObj(map["data" := JObj(data)])
  }

  lemma EntitiesByIdStep(identifier: Identifier, entities: seq<Json>, t: string, i: nat)
    requires i < |entities|
    ensures EntitiesById(identifier, entities[..i + 1], t) ==
      if Prop(entities[i], "type") == JStr(t) then EntitiesById(identifier, entities[..i], t)[identifier(entities[i]) := Flatten(entities[i])]
      else EntitiesById(identifier, entities[..i], t)
  {
    assert entities[..i + 1][..i] == entities[..i];
  }

  /**
   * `extractIncludedType`: the reduce over `included` that writes every
   * resource of type `t` under its identity, then `{}` when none was written.
   */
  method ExtractIncludedType(identifier: Identifier, included: seq<Json>, t: string) returns (includedType: Json)
    ensures includedType == IncludedSlice(EntitiesById(identifier, included, t))
  {
    var data: map<string, Json> := map[];
    for i := 0 to |included|
      invariant data == EntitiesById(identifier, included[..i], t)
    {
      var current := included[i];
      if Prop(current, "type") == JStr(t) {
        data := data[identifier(current) := Flatten(current)];
      }
      EntitiesByIdStep(identifier, included, t, i);
    }
    assert included[..|included|] == included;
    includedType := if IsEmpty(JObj(data)) then EmptyObject else JObj(map["data" := JObj(data)]);
  }

  /** The store `getIncluded` returns: `{__primaryEntities: []}` plus one slice per included type. */
  function IncludedStore(identifier: Identifier, included: seq<Json>): map<string, Json>
    requires forall e :: e in included ==> IsResource(e)
  {
    map[PrimaryEntities := JArr([])] + map t | t in TypeNames(included) :: IncludedSlice(EntitiesById(identifier, included, t))
  }

  /** `getAllIncludedTypes`: the included types, each once, in first-occurrence order. */
  function AllIncludedTypes(response: map<string, Json>): (r: seq<Json>)
    ensures NoDups(r)
    ensures forall x :: x in r <==> x in TypesOf(IncludedArray(response))
  {
    StringUniq(TypesOf(IncludedArray(response)))
  }

  /** The reduce of `getIncluded` over a list of type names: `{...types, [curr]: extractIncludedType(response, curr)}`. */
  function IncludedFold(identifier: Identifier, included: seq<Json>, names: seq<Json>): map<string, Json>
  {
    if names == [] then map[PrimaryEntities := JArr([])]
    else
      var curr := PropertyKey(names[|names| - 1]);
      IncludedFold(identifier, included, names[..|names| - 1])[curr := IncludedSlice(EntitiesById(identifier, included, curr))]
  }

  /** Folding over type names gives a slice to each name and keeps the seeded primary list. */
  lemma {:induction false} IncludedFoldAt(identifier: Identifier, included: seq<Json>, names: seq<Json>, k: string)
    requires forall x :: x in names ==> x.JStr? && x.s != PrimaryEntities
    ensures k in IncludedFold(identifier, included, names) <==> k == PrimaryEntities || JStr(k) in names
    ensures k == PrimaryEntities ==> IncludedFold(identifier, included, names)[k] == JArr([])
    ensures JStr(k) in names ==> IncludedFold(identifier, included, names)[k] == IncludedSlice(EntitiesById(identifier, included, k))
  {
    if names != [] {
      var init := names[..|names| - 1];
      var last := names[|names| - 1];
      assert names == init + [last];
      assert JStr(k) in names <==> JStr(k) in init || JStr(k) == last;
      assert PropertyKey(last) == last.s;
      IncludedFoldAt(identifier, included, init, k);
    }
  }

  lemma IncludedFoldStep(identifier: Identifier, included: seq<Json>, names: seq<Json>, i: nat)
    requires i < |names|
    ensures IncludedFold(identifier, included, names[..i + 1]) ==
      IncludedFold(identifier, included, names[..i])[PropertyKey(names[i]) := IncludedSlice(EntitiesById(identifier, included, PropertyKey(names[i])))]
  {
    assert names[..i + 1][..i] == names[..i];
  }

  /** `getIncluded`: the reduce over the included types, seeded with `{__primaryEntities: []}`. */
  method GetIncluded(identifier: Identifier, response: map<string, Json>) returns (types: map<string, Json>)
    requires forall e :: e in IncludedArray(response) ==> IsResource(e)
    ensures types == IncludedStore(identifier, IncludedArray(response))
  {
    var included := IncludedArray(response);
    var all := AllIncludedTypes(response);
    types := map[PrimaryEntities := JArr([])];
    for i := 0 to |all|
      invariant types == IncludedFold(identifier, included, all[..i])
    {
      var curr := PropertyKey(all[i]);
      var extracted := ExtractIncludedType(identifier, included, curr);
      types := types[curr := extracted];
      IncludedFoldStep(identifier, included, all, i);
    }
    assert all[..|all|] == all;
    IncludedFoldIsStore(identifier, included);
  }

  /** Folding over the distinct included types builds the store `IncludedStore` describes. */
  lemma IncludedFoldIsStore(identifier: Identifier, included: seq<Json>)
    requires forall e :: e in included ==> IsResource(e)
    ensures IncludedFold(identifier, included, StringUniq(TypesOf(included))) == IncludedStore(identifier, included)
  {
    var names := StringUniq(TypesOf(included));
    var folded := IncludedFold(identifier, included, names);
    var store := IncludedStore(identifier, included);
    TypeNamesOfTypes(included);
    assert forall x :: x in names ==> x.JStr? && x.s != PrimaryEntities;
    forall k
      ensures k in folded <==> k in store
      ensures k in folded ==> folded[k] == store[k]
    {
      IncludedFoldAt(identifier, included, names, k);
    }
    SameStore(folded, store);
  }

  /** The document gets past both short-circuits of `parseResponse`. */
  predicate Proceeds(response: map<string, Json>)
  {
    ("data" in response || "meta" in response) && "errors" !in response
  }

  /** The top-level members `parseResponse` carries over, each only when it is not empty. */
  function TopLevel(response: map<string, Json>): map<string, Json>
  {
    Optional("jsonapi", GetJsonapi(response)) + Optional("links", GetLinks(response)) + Optional("meta", GetMeta(response))
  }

  /** `mergeMajicObjects(getData(response), getIncluded(response))`. */
  function Normalized(identifier: Identifier, response: map<string, Json>): map<string, Json>
    requires WellFormedDocument(response)
  {
    Merged(DataStore(identifier, DataArray(response)), IncludedStore(identifier, IncludedArray(response)))
  }

  /** The object `parseResponse(response)` returns. */
  function Parsed(identifier: Identifier, response: map<string, Json>): map<string, Json>
    requires Proceeds(response) ==> WellFormedDocument(response)
  {
    if !("data" in response || "errors" in response || "meta" in response) then map[]
    else if "errors" in response then Picked(response, ["errors"])
    else TopLevel(response) + Normalized(identifier, response)
  }

  /**
   * `parseResponse`: `{}` for a document with none of `data`, `errors` and
   * `meta`; exactly `{errors}` when `errors` is present; otherwise the
   * non-empty top-level members followed by the merge of the primary store
   * into the included store.
   */
  method ParseResponse(identifier: Identifier, response: map<string, Json>) returns (parsed: map<string, Json>)
    requires Proceeds(response) ==> WellFormedDocument(response)
    ensures parsed == Parsed(identifier, response)
    ensures !("data" in response || "errors" in response || "meta" in response) ==> parsed == map[]
    ensures "errors" in response ==> parsed == map["errors" := response["errors"]]
  {
    if !("data" in response || "errors" in response || "meta" in response) {
      return map[];
    }
    if "errors" in response {
      parsed := Pick(response, One("errors"));
      assert parsed.Keys == {"errors"};
      return;
    }
    var top := CopyTopLevel(response);
    var merged := Normalize(identifier, response);
    parsed := top + merged;
  }

  /** The top-level members `parseResponse` spreads first, each skipped when empty. */
  method CopyTopLevel(response: map<string, Json>) returns (top: map<string, Json>)
    ensures top == TopLevel(response)
  {
    var jsonapi := GetJsonapi(response);
    var links := GetLinks(response);
    var meta := GetMeta(response);
    top := (if IsEmpty(jsonapi) then map[] else map["jsonapi" := jsonapi])
      + (if IsEmpty(links) then map[] else map["links" := links])
      + (if IsEmpty(meta) then map[] else map["meta" := meta]);
  }

  /** The normalization `parseResponse` spreads last: the primary store merged into the included store. */
  method Normalize(identifier: Identifier, response: map<string, Json>) returns (merged: map<string, Json>)
    requires WellFormedDocument(response)
    ensures merged == Normalized(identifier, response)
  {
    var data := GetData(identifier, response);
    var included := GetIncluded(identifier, response);
    merged := MergeMajicObjects(data, included);
  }

  /** A type that occurs among the resources has at least one identity. */
  lemma {:induction false} TypeHasIds(identifier: Identifier, entities: seq<Json>, t: string)
    requires forall e :: e in entities ==> IsResource(e)
    requires t in TypeNames(entities)
    ensures IdsOf(identifier, entities, t) != []
  {
    var init := entities[..|entities| - 1];
    var e := entities[|entities| - 1];
    assert entities == init + [e];
    TypeNamesSnoc(init, e);
    if TypeOf(e) != t {
      TypeHasIds(identifier, init, t);
    }
  }

  /** The primary store has `__primaryEntities` and one slice per primary type. */
  lemma DataStoreKeys(identifier: Identifier, entities: seq<Json>)
    requires forall e :: e in entities ==> IsResource(e)
    ensures DataStore(identifier, entities).Keys == {PrimaryEntities} + TypeNames(entities)
    ensures DataStore(identifier, entities)[PrimaryEntities] == JArr(StringUniq(TypesOf(entities)))
  {
    forall t
      ensures t in SlicesOf(identifier, entities) <==> t in TypeNames(entities)
    {
      SlicesOfAt(identifier, entities, t);
    }
    assert PrimaryEntities !in TypeNames(entities);
  }

  /** The slice of a primary type in the primary store. */
  lemma DataStoreSlice(identifier: Identifier, entities: seq<Json>, t: string)
    requires forall e :: e in entities ==> IsResource(e)
    requires t in TypeNames(entities)
    ensures t in DataStore(identifier, entities)
    ensures DataStore(identifier, entities)[t] == SliceJson(Slice(EntitiesById(identifier, entities, t), StringUniq(IdsOf(identifier, entities, t))))
  {
    SlicesOfAt(identifier, entities, t);
    assert t != PrimaryEntities;
  }

  /** The included store has `__primaryEntities: []` and one slice per included type. */
  lemma IncludedStoreKeys(identifier: Identifier, included: seq<Json>)
    requires forall e :: e in included ==> IsResource(e)
    ensures IncludedStore(identifier, included).Keys == {PrimaryEntities} + TypeNames(included)
    ensures IncludedStore(identifier, included)[PrimaryEntities] == JArr([])
  {
    assert PrimaryEntities !in TypeNames(included);
  }

  /**
   * `__primaryEntities` lists each type of the primary data once, in order of
   * first appearance; without data it is empty.
   */
  lemma ParsedPrimaryEntities(identifier: Identifier, response: map<string, Json>)
    requires Proceeds(response) && WellFormedDocument(response)
    ensures PrimaryEntities in Parsed(identifier, response)
    ensures Parsed(identifier, response)[PrimaryEntities] == JArr(StringUniq(TypesOf(DataArray(response))))
    ensures NoDups(Parsed(identifier, response)[PrimaryEntities].elems)
    ensures forall t :: JStr(t) in Parsed(identifier, response)[PrimaryEntities].elems <==> t in TypeNames(DataArray(response))
    ensures !Truthy(Get(response, "data", JUndefined)) ==> Parsed(identifier, response)[PrimaryEntities] == JArr([])
  {
    var data := DataArray(response);
    var store1 := DataStore(identifier, data);
    var store2 := IncludedStore(identifier, IncludedArray(response));
    DataStoreKeys(identifier, data);
    IncludedStoreKeys(identifier, IncludedArray(response));
    var types := StringUniq(TypesOf(data));
    assert Elements(Get(store1, PrimaryEntities, JUndefined)) + Elements(Get(store2, PrimaryEntities, JUndefined)) == types + [];
    assert types + [] == types;
    StringUniqIdempotent(TypesOf(data));
    TypeNamesOfTypes(data);
  }

  /** The merged store holds `__primaryEntities` and exactly the primary and included types. */
  lemma NormalizedKeys(identifier: Identifier, response: map<string, Json>)
    requires WellFormedDocument(response)
    ensures Normalized(identifier, response).Keys == {PrimaryEntities} + TypeNames(DataArray(response)) + TypeNames(IncludedArray(response))
  {
    DataStoreKeys(identifier, DataArray(response));
    IncludedStoreKeys(identifier, IncludedArray(response));
  }

  /** Past the short-circuits, the parsed object is the top-level members overlaid by the merged store. */
  lemma ParsedAt(identifier: Identifier, response: map<string, Json>, k: string)
    requires Proceeds(response) && WellFormedDocument(response)
    ensures k in Parsed(identifier, response) <==> k in TopLevel(response) || k in Normalized(identifier, response)
    ensures k in Normalized(identifier, response) ==> Parsed(identifier, response)[k] == Normalized(identifier, response)[k]
    ensures k !in Normalized(identifier, response) && k in TopLevel(response) ==> Parsed(identifier, response)[k] == TopLevel(response)[k]
  {
  }

  /** Each of `jsonapi`, `links` and `meta` is carried over exactly when it is not empty. */
  lemma TopLevelAt(response: map<string, Json>, name: string)
    requires name == "jsonapi" || name == "links" || name == "meta"
    ensures name in TopLevel(response) <==> !IsEmpty(Get(response, name))
    ensures name in TopLevel(response) ==> TopLevel(response)[name] == Get(response, name)
  {
    var jsonapi, links, meta := Optional("jsonapi", GetJsonapi(response)), Optional("links", GetLinks(response)), Optional("meta", GetMeta(response));
    assert TopLevel(response) == jsonapi + links + meta;
  }

  /** The top-level members are at most `jsonapi`, `links` and `meta`. */
  lemma TopLevelKeys(response: map<string, Json>)
    ensures TopLevel(response).Keys <= {"jsonapi", "links", "meta"}
  {
  }

  /** Merging a primary slice `{data, keys}` with an included slice that has no keys. */
  lemma MergedPrimarySlice(primary: map<string, Json>, ids: seq<Json>, included: Json)
    requires NoDups(ids) && ids != []
    requires SliceKeys(included) == []
    ensures Has(MergedSlice(SliceJson(Slice(primary, ids)), included), "keys")
    ensures SliceKeys(MergedSlice(SliceJson(Slice(primary, ids)), included)) == ids
    ensures SliceData(MergedSlice(SliceJson(Slice(primary, ids)), included)) == SliceData(included) + primary
  {
    var slice1 := SliceJson(Slice(primary, ids));
    assert SliceData(slice1) == primary;
    assert SliceKeys(slice1) == ids;
    assert SliceKeys(slice1) + SliceKeys(included) == ids;
    StringUniqOfUnique(ids);
    MergedSliceSpec(slice1, included);
  }

  /** The included store's slice of any type has no `keys` and holds the type's included entities. */
  lemma IncludedStoreSlice(identifier: Identifier, included: seq<Json>, t: string)
    requires forall e :: e in included ==> IsResource(e)
    requires t != PrimaryEntities
    ensures SliceKeys(Get(IncludedStore(identifier, included), t, JUndefined)) == []
    ensures SliceData(Get(IncludedStore(identifier, included), t, JUndefined)) == EntitiesById(identifier, included, t)
  {
    if t !in TypeNames(included) {
      NoIdsForAbsentType(identifier, included, t);
    }
  }

  /** A primary type's merged slice is the merge of its primary slice into its included one. */
  lemma NormalizedPrimaryAt(identifier: Identifier, response: map<string, Json>, t: string)
    requires WellFormedDocument(response)
    requires t in TypeNames(DataArray(response))
    ensures t in DataStore(identifier, DataArray(response))
    ensures t in Normalized(identifier, response)
    ensures Normalized(identifier, response)[t] ==
      MergedSlice(DataStore(identifier, DataArray(response))[t], Get(IncludedStore(identifier, IncludedArray(response)), t, JUndefined))
  {
    var store1 := DataStore(identifier, DataArray(response));
    DataStoreSlice(identifier, DataArray(response), t);
    assert t != PrimaryEntities;
    MergedAt(store1, IncludedStore(identifier, IncludedArray(response)), t);
  }

  /**
   * A primary type's slice lists the type's primary identities once each in
   * first-occurrence order, and holds every primary and included entity of
   * the type by identity, the primary copy winning over the included one.
   */
  lemma ParsedPrimaryType(identifier: Identifier, response: map<string, Json>, t: string)
    requires Proceeds(response) && WellFormedDocument(response)
    requires t in TypeNames(DataArray(response))
    ensures t in Parsed(identifier, response)
    ensures Has(Parsed(identifier, response)[t], "keys")
    ensures SliceKeys(Parsed(identifier, response)[t]) == StringUniq(IdsOf(identifier, DataArray(response), t))
    ensures SliceData(Parsed(identifier, response)[t]) ==
      EntitiesById(identifier, IncludedArray(response), t) + EntitiesById(identifier, DataArray(response), t)
  {
    var data := DataArray(response);
    var included := IncludedArray(response);
    var ids := StringUniq(IdsOf(identifier, data, t));
    var primary := EntitiesById(identifier, data, t);
    var slice2 := Get(IncludedStore(identifier, included), t, JUndefined);
    assert t in Normalized(identifier, response) && Normalized(identifier, response)[t] == MergedSlice(SliceJson(Slice(primary, ids)), slice2) by {
      DataStoreSlice(identifier, data, t);
      NormalizedPrimaryAt(identifier, response, t);
    }
    assert Parsed(identifier, response)[t] == Normalized(identifier, response)[t] by {
      ParsedAt(identifier, response, t);
    }
    assert SliceKeys(slice2) == [] && SliceData(slice2) == EntitiesById(identifier, included, t) by {
      IncludedStoreSlice(identifier, included, t);
    }
    assert ids != [] by {
      TypeHasIds(identifier, data, t);
      assert IdsOf(identifier, data, t)[0] in ids;
    }
    MergedPrimarySlice(primary, ids, slice2);
  }

  /** A type found only among the included resources gets a slice with `data` and no `keys`. */
  lemma ParsedIncludedOnlyType(identifier: Identifier, response: map<string, Json>, t: string)
    requires Proceeds(response) && WellFormedDocument(response)
    requires t in TypeNames(IncludedArray(response)) && t !in TypeNames(DataArray(response))
    ensures t in Parsed(identifier, response)
    ensures Parsed(identifier, response)[t] == JObj(map["data" := JObj(EntitiesById(identifier, IncludedArray(response), t))])
    ensures EntitiesById(identifier, IncludedArray(response), t) != map[]
  {
    var included := IncludedArray(response);
    DataStoreKeys(identifier, DataArray(response));
    IncludedStoreKeys(identifier, included);
    NormalizedKeys(identifier, response);
    ParsedAt(identifier, response, t);
    TypeHasIds(identifier, included, t);
    EntitiesByIdKeys(identifier, included, t);
    var id := IdsOf(identifier, included, t)[0];
    assert id.JStr? && id.s in EntitiesById(identifier, included, t);
  }

  /**
   * `jsonapi`, `links` and `meta` are carried over exactly when they are not
   * empty, provided no type shares the name.
   */
  lemma ParsedTopLevel(identifier: Identifier, response: map<string, Json>, name: string)
    requires Proceeds(response) && WellFormedDocument(response)
    requires name == "jsonapi" || name == "links" || name == "meta"
    requires name !in TypeNames(DataArray(response)) && name !in TypeNames(IncludedArray(response))
    ensures name in Parsed(identifier, response) <==> !IsEmpty(Get(response, name))
    ensures name in Parsed(identifier, response) ==> Parsed(identifier, response)[name] == Get(response, name)
  {
    NormalizedLacks(identifier, response, name);
    ParsedAt(identifier, response, name);
    TopLevelAt(response, name);
  }

  /** A name that is neither `__primaryEntities` nor a type of the document is not in the merged store. */
  lemma NormalizedLacks(identifier: Identifier, response: map<string, Json>, name: string)
    requires WellFormedDocument(response)
    requires name != PrimaryEntities
    requires name !in TypeNames(DataArray(response)) && name !in TypeNames(IncludedArray(response))
    ensures name !in Normalized(identifier, response)
  {
    NormalizedKeys(identifier, response);
  }

  /** The parsed store holds nothing but the top-level members, `__primaryEntities` and the types of the document. */
  lemma ParsedKeys(identifier: Identifier, response: map<string, Json>)
    requires Proceeds(response) && WellFormedDocument(response)
    ensures Parsed(identifier, response).Keys <=
      {"jsonapi", "links", "meta", PrimaryEntities} + TypeNames(DataArray(response)) + TypeNames(IncludedArray(response))
    ensures TypeNames(DataArray(response)) + TypeNames(IncludedArray(response)) <= Parsed(identifier, response).Keys
  {
    NormalizedKeys(identifier, response);
    TopLevelKeys(response);
    forall k
      ensures k in Parsed(identifier, response) <==> k in TopLevel(response) || k in Normalized(identifier, response)
    {
      ParsedAt(identifier, response, k);
    }
  }
}
