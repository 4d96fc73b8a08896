/**
 * The request composer (src/api/compose.js): validate a composition schema,
 * then rebuild a JSON:API request document from a flat entity, copying only
 * the fields the schema lists, turning related entities into resource
 * identifiers and included resources, and leaving out every empty container.
 * A thrown error is an `Err` carrying the kind of check that failed.
 */
module Compose {
  import opened JsonValues
  import opened Utils

  datatype ComposeError =
    | MissingType          // the schema has no truthy `type`
    | NotAnArray           // a schema list that is set but is not an array
    | InvalidName          // a listed attribute or meta name that is not a string
    | InvalidRelationship  // a relationship descriptor that is not an object with a string `key` and an array `meta`
    | InvalidIncluded      // an included descriptor that is not an object with a truthy `key`
    | MissingId            // the entity, or an included element, has no truthy `id`
    | TypeMismatch         // the entity's `type` differs from the schema's
    | TypeError            // a property read or an `in` test on null, undefined or a primitive

  datatype Result<T> = Ok(value: T) | Err(error: ComposeError)

  /** What a validator does: return `true`, or throw. */
  datatype Outcome = Pass | Fail(error: ComposeError)

  /** `typeof v === 'object'` (true for null and arrays as well). */
  predicate IsObjectType(v: Json)
  {
    v.JNull? || v.JArr? || v.JObj?
  }

  predicate AllStrings(xs: seq<Json>)
  {
    forall x :: x in xs ==> x.JStr?
  }

  /** Two checks made in order: the first one's failure, else the second one's outcome. */
  function Then(first: Outcome, second: Outcome): (r: Outcome)
    ensures r.Pass? <==> first.Pass? && second.Pass?
    ensures first.Fail? ==> r == first
  {
    if first.Fail? then first else second
  }

  /**
   * `xs.every(check)` with a check that returns `true` or throws: the
   * failure of the first element that fails, or `Pass`.
   */
  function Every(xs: seq<Json>, check: Json -> Outcome): (r: Outcome)
    ensures r.Pass? <==> forall i :: 0 <= i < |xs| ==> check(xs[i]).Pass?
    ensures r.Fail? ==> exists i :: 0 <= i < |xs| && r == check(xs[i]) && forall j :: 0 <= j < i ==> check(xs[j]).Pass?
  {
    if xs == [] then Pass
    else
      var rest := Every(xs[1..], check);
      assert rest.Fail? ==> exists i :: 0 < i < |xs| && rest == check(xs[i]) && forall j :: 0 < j < i ==> check(xs[j]).Pass? by {
        if rest.Fail? {
          var k :| 0 <= k < |xs[1..]| && rest == check(xs[1..][k]) && forall j :: 0 <= j < k ==> check(xs[1..][j]).Pass?;
          assert forall j :: 0 < j < k + 1 ==> xs[j] == xs[1..][j - 1];
        }
      }
      Then(check(xs[0]), rest)
  }

  /** `validateArray`: an array passes, anything else fails. */
  function ValidateArray(candidate: Json): (r: Outcome)
    ensures r.Pass? <==> candidate.JArr?
    ensures r.Fail? ==> r.error == NotAnArray
  {
    if candidate.JArr? then Pass else Fail(NotAnArray)
  }

  /** `validateSimpleSchema`: a string passes, anything else fails. */
  function ValidateSimpleSchema(candidate: Json): (r: Outcome)
    ensures r.Pass? <==> candidate.JStr?
    ensures r.Fail? ==> r.error == InvalidName
  {
    if candidate.JStr? then Pass else Fail(InvalidName)
  }

  /** `v && validateArray(v)`: an unset (falsy) list passes. */
  function ArrayIfSet(v: Json): (r: Outcome)
  {
    if Truthy(v) then ValidateArray(v) else Pass
  }

  /** `v && v.every(check)`. */
  function EveryIfSet(v: Json, check: Json -> Outcome): (r: Outcome)
  {
    if Truthy(v) then Every(Elements(v), check) else Pass
  }

  /** A list of names that is either unset or an array of strings. */
  predicate NamesList(v: Json)
  {
    !Truthy(v) || (v.JArr? && AllStrings(v.elems))
  }

  /** A relationship descriptor: an object with a string `key` and, if set, an array of string `meta` names. */
  predicate ValidRelationship(candidate: Json)
  {
    && candidate.JObj?
    && "key" in candidate.fields && candidate.fields["key"].JStr?
    && NamesList(Prop(candidate, "meta"))
  }

  predicate RelationshipList(v: Json)
  {
    !Truthy(v) || (v.JArr? && forall x :: x in v.elems ==> ValidRelationship(x))
  }

  /** An included descriptor: an object with a truthy `key` and valid attribute, relationship and meta lists. */
  predicate ValidIncluded(candidate: Json)
  {
    && candidate.JObj?
    && Truthy(Prop(candidate, "key"))
    && NamesList(Prop(candidate, "attributes"))
    && RelationshipList(Prop(candidate, "relationships"))
    && NamesList(Prop(candidate, "meta"))
  }

  predicate IncludedList(v: Json)
  {
    !Truthy(v) || (v.JArr? && forall x :: x in v.elems ==> ValidIncluded(x))
  }

  /** A composition schema: a truthy `type` and valid lists. */
  predicate ValidSchema(schema: map<string, Json>)
  {
    && Truthy(Get(schema, "type", JUndefined))
    && NamesList(Get(schema, "topLevelMeta", JUndefined))
    && NamesList(Get(schema, "attributes", JUndefined))
    && RelationshipList(Get(schema, "relationships", JUndefined))
    && NamesList(Get(schema, "meta", JUndefined))
    && IncludedList(Get(schema, "included", JUndefined))
  }

  lemma NamesListEvery(v: Json)
    requires ArrayIfSet(v).Pass?
    ensures EveryIfSet(v, ValidateSimpleSchema).Pass? <==> NamesList(v)
  {
  }

  /**
   * `validateRelationshipSchema`: passes exactly the valid descriptors. A
   * `meta` name that is not a string fails as an invalid name, and `null`
   * fails with a type error (the `in` test throws).
   */
  function ValidateRelationshipSchema(candidate: Json): (r: Outcome)
    ensures r.Pass? <==> ValidRelationship(candidate)
  {
    if !IsObjectType(candidate) then Fail(InvalidRelationship)
    else if candidate.JNull? then Fail(TypeError)
    else if !Has(candidate, "key") || !Prop(candidate, "key").JStr? then Fail(InvalidRelationship)
    else
      var meta := Prop(candidate, "meta");
      if !Truthy(meta) then Pass
      else if !meta.JArr? then Fail(InvalidRelationship)
      else Every(meta.elems, ValidateSimpleSchema)
  }

  lemma RelationshipListEvery(v: Json)
    requires ArrayIfSet(v).Pass?
    ensures EveryIfSet(v, ValidateRelationshipSchema).Pass? <==> RelationshipList(v)
  {
  }

  /**
   * `validateIncludedSchema`: passes exactly the valid descriptors, checking
   * first the descriptor itself, then that each list is an array, then the
   * elements of the lists.
   */
  function ValidateIncludedSchema(candidate: Json): (r: Outcome)
    ensures r.Pass? <==> ValidIncluded(candidate)
  {
    if !IsObjectType(candidate) then Fail(InvalidIncluded)
    else if candidate.JNull? then Fail(TypeError)
    else if !Truthy(Prop(candidate, "key")) then Fail(InvalidIncluded)
    else
      var attributes := Prop(candidate, "attributes");
      var relationships := Prop(candidate, "relationships");
      var meta := Prop(candidate, "meta");
      var arrays := Then(ArrayIfSet(attributes), Then(ArrayIfSet(relationships), ArrayIfSet(meta)));
      var elements := Then(EveryIfSet(attributes, ValidateSimpleSchema),
        Then(EveryIfSet(relationships, ValidateRelationshipSchema), EveryIfSet(meta, ValidateSimpleSchema)));
      var r := Then(arrays, elements);
      assert r.Pass? <==> ValidIncluded(candidate) by {
        if arrays.Pass? {
          NamesListEvery(attributes);
          RelationshipListEvery(relationships);
          NamesListEvery(meta);
        }
      }
      r
  }

  lemma IncludedListEvery(v: Json)
    requires ArrayIfSet(v).Pass?
    ensures EveryIfSet(v, ValidateIncludedSchema).Pass? <==> IncludedList(v)
  {
  }

  /**
   * `validateSchema`: passes exactly the valid schemas. A missing `type` is
   * reported before anything else, and a list that is not an array before
   * any element of any list.
   */
  function ValidateSchema(schema: map<string, Json>): (r: Outcome)
    ensures r.Pass? <==> ValidSchema(schema)
    ensures !Truthy(Get(schema, "type", JUndefined)) ==> r == Fail(MissingType)
  {
    var topLevelMeta := Get(schema, "topLevelMeta", JUndefined);
    var attributes := Get(schema, "attributes", JUndefined);
    var relationships := Get(schema, "relationships", JUndefined);
    var meta := Get(schema, "meta", JUndefined);
    var included := Get(schema, "included", JUndefined);
    if !Truthy(Get(schema, "type", JUndefined)) then Fail(MissingType)
    else
      var arrays := Then(ArrayIfSet(topLevelMeta), Then(ArrayIfSet(attributes),
        Then(ArrayIfSet(relationships), Then(ArrayIfSet(meta), ArrayIfSet(included)))));
      var elements := Then(EveryIfSet(topLevelMeta, ValidateSimpleSchema), Then(EveryIfSet(attributes, ValidateSimpleSchema),
        Then(EveryIfSet(relationships, ValidateRelationshipSchema), Then(EveryIfSet(meta, ValidateSimpleSchema),
        EveryIfSet(included, ValidateIncludedSchema)))));
      var r := Then(arrays, elements);
      assert r.Pass? <==> ValidSchema(schema) by {
        if arrays.Pass? {
          NamesListEvery(topLevelMeta);
          NamesListEvery(attributes);
          RelationshipListEvery(relationships);
          NamesListEvery(meta);
          IncludedListEvery(included);
        }
      }
      r
  }

  /** A list that is set but is not an array is reported as such ahead of every element check. */
  lemma ValidateSchemaArraysFirst(schema: map<string, Json>, name: string)
    requires Truthy(Get(schema, "type", JUndefined))
    requires name in ["topLevelMeta", "attributes", "relationships", "meta", "included"]
    requires Truthy(Get(schema, name, JUndefined)) && !Get(schema, name, JUndefined).JArr?
    ensures ValidateSchema(schema) == Fail(NotAnArray)
  {
  }

  /** The strings of a list of string values. */
  function Texts(xs: seq<Json>): (r: seq<string>)
    requires AllStrings(xs)
    ensures |r| == |xs|
    ensures forall i :: 0 <= i < |xs| ==> xs[i] == JStr(r[i])
  {
    if xs == [] then [] else Texts(xs[..|xs| - 1]) + [xs[|xs| - 1].s]
  }

  /** The names of a validated name list; an unset list has none. */
  function NamesIn(v: Json): (r: seq<string>)
    requires NamesList(v)
  {
    Texts(Elements(v))
  }

  /** The `type` an identifier gets: its own, else the default, else `''`. */
  function IdentifierType(rel: Json, defaultType: Json): (r: Json)
    ensures Truthy(Prop(rel, "type")) ==> r == Prop(rel, "type")
    ensures !Truthy(Prop(rel, "type")) && Truthy(defaultType) ==> r == defaultType
    ensures !Truthy(Prop(rel, "type")) && !Truthy(defaultType) ==> r == JStr("")
  {
    Or(Or(Prop(rel, "type"), defaultType), JStr(""))
  }

  /** `{id: rel.id, type: rel.type || defaultType || ''}`. */
  function ResourceIdentifier(rel: Json, defaultType: Json): Json
  {
    JObj(map["id" := Prop(rel, "id"), "type" := IdentifierType(rel, defaultType)])
  }

  /** `relation.data.map(...)`: one resource identifier per element, in order. */
  function ResourceIdentifiers(rels: seq<Json>, defaultType: Json): seq<Json>
  {
    seq(|rels|, i requires 0 <= i < |rels| => ResourceIdentifier(rels[i], defaultType))
  }

  /** The `meta` object `buildRelationship` fills: the requested names found in `relation.meta`. */
  function RelationshipMeta(relation: Json, schema: Json): map<string, Json>
    requires ValidRelationship(schema)
  {
    Picked(Spread(Prop(relation, "meta")), NamesIn(Prop(schema, "meta")))
  }

  /** The `data` `buildRelationship` computes (`undefined` when it assigns none). */
  function RelationshipData(relation: Json, schema: Json): Json
  {
    var data := Prop(relation, "data");
    if data.JArr? then JArr(ResourceIdentifiers(data.elems, Prop(schema, "defaultType")))
    else if Truthy(data) && !IsEmpty(data) then ResourceIdentifier(data, Prop(schema, "defaultType"))
    else JUndefined
  }

  /**
   * `buildRelationship(relation, schema)`. A nullish `relation`, a primitive
   * `relation.meta` searched with `in`, and a nullish element of an array
   * `relation.data` throw a type error.
   */
  function Relationship(relation: Json, schema: Json): (r: Result<Json>)
    requires ValidRelationship(schema)
  {
    var meta := Prop(relation, "meta");
    var data := Prop(relation, "data");
    if Nullish(relation) then Err(TypeError)
    else if NamesIn(Prop(schema, "meta")) != [] && Truthy(meta) && !meta.JObj? && !meta.JArr? then Err(TypeError)
    else if data.JArr? && exists x :: x in data.elems && Nullish(x) then Err(TypeError)
    else Ok(JObj(Optional("meta", JObj(RelationshipMeta(relation, schema))) + Optional("data", RelationshipData(relation, schema))))
  }

  /**
   * The `forEach` of `buildRelationship` over the requested meta names: a
   * truthy primitive `relation.meta` throws at the first name, otherwise
   * the names `relation.meta` has are copied.
   */
  method CopyRelationshipMeta(relationMeta: Json, names: seq<string>) returns (r: Result<map<string, Json>>)
    ensures names != [] && Truthy(relationMeta) && !relationMeta.JObj? && !relationMeta.JArr? ==> r == Err(TypeError)
    ensures !(names != [] && Truthy(relationMeta) && !relationMeta.JObj? && !relationMeta.JArr?) ==>
      r == Ok(Picked(Spread(relationMeta), names))
  {
    var meta: map<string, Json> := map[];
    for i := 0 to |names|
      invariant meta == Picked(Spread(relationMeta), names[..i])
      invariant i > 0 && Truthy(relationMeta) ==> relationMeta.JObj? || relationMeta.JArr?
    {
      if Truthy(relationMeta) {
        if !relationMeta.JObj? && !relationMeta.JArr? {
          return Err(TypeError);
        }
        if relationMeta.JObj? && names[i] in relationMeta.fields {
          meta := meta[names[i] := relationMeta.fields[names[i]]];
        }
      }
      assert names[..i + 1] == names[..i] + [names[i]];
    }
    assert names[..|names|] == names;
    return Ok(meta);
  }

  /**
   * `buildRelationship`: the `forEach` over the requested meta names, then
   * the resource identifiers of `relation.data`.
   */
  method BuildRelationship(relation: Json, schema: Json) returns (r: Result<Json>)
    requires ValidRelationship(schema)
    ensures r == Relationship(relation, schema)
  {
    if Nullish(relation) {
      return Err(TypeError);
    }
    var meta := CopyRelationshipMeta(Prop(relation, "meta"), NamesIn(Prop(schema, "meta")));
    if meta.Err? {
      return Err(meta.error);
    }
    var data := Prop(relation, "data");
    var defaultType := Prop(schema, "defaultType");
    var identifiers := JUndefined;
    if data.JArr? {
      if exists x :: x in data.elems && Nullish(x) {
        return Err(TypeError);
      }
      identifiers := JArr(ResourceIdentifiers(data.elems, defaultType));
    } else if Truthy(data) && !IsEmpty(data) {
      identifiers := ResourceIdentifier(data, defaultType);
    }
    r := Ok(JObj(Optional("meta", JObj(meta.value)) + Optional("data", identifiers)));
  }

  /**
   * The relationship's `meta` holds exactly the requested names that
   * `relation.meta` has, with its values; it is empty when `relation.meta`
   * is missing.
   */
  lemma RelationshipMetaSpec(relation: Json, schema: Json)
    requires ValidRelationship(schema)
    ensures forall n :: n in RelationshipMeta(relation, schema) <==> n in NamesIn(Prop(schema, "meta")) && Has(Prop(relation, "meta"), n)
    ensures forall n :: n in RelationshipMeta(relation, schema) ==> RelationshipMeta(relation, schema)[n] == Prop(Prop(relation, "meta"), n)
    ensures RelationshipMeta(relation, schema) == map[] <==> forall n :: n in NamesIn(Prop(schema, "meta")) ==> !Has(Prop(relation, "meta"), n)
    ensures !Truthy(Prop(relation, "meta")) ==> RelationshipMeta(relation, schema) == map[]
  {
    var copied := RelationshipMeta(relation, schema);
    if exists n :: n in NamesIn(Prop(schema, "meta")) && Has(Prop(relation, "meta"), n) {
      var n :| n in NamesIn(Prop(schema, "meta")) && Has(Prop(relation, "meta"), n);
      assert n in copied;
    }
  }

  /**
   * An array `data` becomes one identifier per element, in order, keeping the
   * element's `id` and taking its `type` with the fallbacks; a non-empty
   * object becomes one identifier; anything else gives no `data`. It is
   * empty exactly for an empty array or when none is assigned.
   */
  lemma RelationshipDataSpec(relation: Json, schema: Json)
    ensures var data := Prop(relation, "data");
      data.JArr? ==>
        && RelationshipData(relation, schema).JArr?
        && |RelationshipData(relation, schema).elems| == |data.elems|
        && forall i :: 0 <= i < |data.elems| ==>
          && Prop(RelationshipData(relation, schema).elems[i], "id") == Prop(data.elems[i], "id")
          && Prop(RelationshipData(relation, schema).elems[i], "type") == IdentifierType(data.elems[i], Prop(schema, "defaultType"))
    ensures var data := Prop(relation, "data");
      !data.JArr? && Truthy(data) && !IsEmpty(data) ==>
        && Prop(RelationshipData(relation, schema), "id") == Prop(data, "id")
        && Prop(RelationshipData(relation, schema), "type") == IdentifierType(data, Prop(schema, "defaultType"))
    ensures var data := Prop(relation, "data");
      IsEmpty(RelationshipData(relation, schema)) <==> (data.JArr? && data.elems == []) || (!data.JArr? && (!Truthy(data) || IsEmpty(data)))
  {
  }

  /**
   * A built relationship holds `meta` when the copied meta is not empty and
   * `data` when the identifiers are not empty, and nothing else. A relation
   * whose `meta` is missing and whose `data` has no nullish element is
   * always built.
   */
  lemma RelationshipSpec(relation: Json, schema: Json)
    requires ValidRelationship(schema)
    ensures !Nullish(relation) && !Truthy(Prop(relation, "meta")) && (forall x :: x in Elements(Prop(relation, "data")) ==> !Nullish(x)) ==>
      Relationship(relation, schema).Ok?
    ensures Relationship(relation, schema).Ok? ==>
      var built := Relationship(relation, schema).value;
      && built.JObj? && built.fields.Keys <= {"meta", "data"}
      && ("meta" in built.fields <==> RelationshipMeta(relation, schema) != map[])
      && ("meta" in built.fields ==> built.fields["meta"] == JObj(RelationshipMeta(relation, schema)))
      && ("data" in built.fields <==> !IsEmpty(RelationshipData(relation, schema)))
      && ("data" in built.fields ==> built.fields["data"] == RelationshipData(relation, schema))
  {
  }

  predicate ValidRelationships(relations: seq<Json>)
  {
    forall x :: x in relations ==> ValidRelationship(x)
  }

  function RelationshipKey(relation: Json): string
    requires ValidRelationship(relation)
  {
    relation.fields["key"].s
  }

  /**
   * The `forEach` over relationship descriptors (src/api/compose.js:59-67
   * and 136-144): each descriptor whose key is on the object writes the
   * relationship built from the object's value; the first error ends it.
   */
  function RelationshipsOf(obj: map<string, Json>, relations: seq<Json>): Result<map<string, Json>>
    requires ValidRelationships(relations)
  {
    if relations == [] then Ok(map[])
    else
      var prior := RelationshipsOf(obj, relations[..|relations| - 1]);
      var relation := relations[|relations| - 1];
      var key := RelationshipKey(relation);
      if prior.Err? || key !in obj then prior
      else match Relationship(obj[key], relation)
        case Err(e) => Err(e)
        case Ok(built) => Ok(prior.value[key := built])
  }

  /** Once a descriptor has failed, the descriptors after it change nothing. */
  lemma {:induction false} RelationshipsOfStopsAt(obj: map<string, Json>, relations: seq<Json>, n: nat)
    requires ValidRelationships(relations) && n <= |relations|
    requires RelationshipsOf(obj, relations[..n]).Err?
    ensures RelationshipsOf(obj, relations) == RelationshipsOf(obj, relations[..n])
  {
    if n < |relations| {
      var init := relations[..|relations| - 1];
      assert init[..n] == relations[..n];
      RelationshipsOfStopsAt(obj, init, n);
    } else {
      assert relations[..n] == relations;
    }
  }

  method BuildRelationships(obj: map<string, Json>, relations: seq<Json>) returns (r: Result<map<string, Json>>)
    requires ValidRelationships(relations)
    ensures r == RelationshipsOf(obj, relations)
  {
    var built: map<string, Json> := map[];
    for i := 0 to |relations|
      invariant RelationshipsOf(obj, relations[..i]) == Ok(built)
    {
      var relation := relations[i];
      assert relations[..i + 1][..i] == relations[..i];
      var key := RelationshipKey(relation);
      if key in obj {
        var one := BuildRelationship(obj[key], relation);
        if one.Err? {
          RelationshipsOfStopsAt(obj, relations, i + 1);
          return Err(one.error);
        }
        built := built[key := one.value];
      }
    }
    assert relations[..|relations|] == relations;
    return Ok(built);
  }

  /** The built relationships are keyed by exactly the descriptor keys present on the object. */
  lemma {:induction false} RelationshipsOfKeys(obj: map<string, Json>, relations: seq<Json>, key: string)
    requires ValidRelationships(relations)
    requires RelationshipsOf(obj, relations).Ok?
    ensures key in RelationshipsOf(obj, relations).value <==>
      key in obj && exists i :: 0 <= i < |relations| && RelationshipKey(relations[i]) == key
  {
    if relations != [] {
      var init := relations[..|relations| - 1];
      assert RelationshipsOf(obj, init).Ok?;
      RelationshipsOfKeys(obj, init, key);
      assert forall i :: 0 <= i < |init| ==> init[i] == relations[i];
      if RelationshipKey(relations[|relations| - 1]) == key && key in obj {
        assert key in RelationshipsOf(obj, relations).value;
      }
    }
  }

  /** Each built relationship is the one the last descriptor with its key built. */
  lemma {:induction false} RelationshipsOfAt(obj: map<string, Json>, relations: seq<Json>, key: string, i: int)
    requires ValidRelationships(relations)
    requires RelationshipsOf(obj, relations).Ok?
    requires 0 <= i < |relations| && RelationshipKey(relations[i]) == key && key in obj
    requires forall j :: i < j < |relations| ==> RelationshipKey(relations[j]) != key
    ensures Relationship(obj[key], relations[i]).Ok?
    ensures key in RelationshipsOf(obj, relations).value
    ensures RelationshipsOf(obj, relations).value[key] == Relationship(obj[key], relations[i]).value
  {
    var init := relations[..|relations| - 1];
    assert RelationshipsOf(obj, init).Ok?;
    if i < |relations| - 1 {
      assert init[i] == relations[i];
      assert forall j :: i < j < |init| ==> init[j] == relations[j];
      RelationshipsOfAt(obj, init, key, i);
    }
  }

  /** `{...fields, ...(isEmpty(value) ? {} : {[name]: value})}`. */
  function WithOptional(fields: map<string, Json>, name: string, value: Json): map<string, Json>
  {
    if IsEmpty(value) then fields else fields[name := value]
  }

  /** `{id, type, ...(attributes, relationships and meta, each only when not empty)}`. */
  function ResourceObject(id: Json, type_: Json, attributes: map<string, Json>, relationships: map<string, Json>, meta: map<string, Json>): (r: Json)
    ensures r.JObj? && r.fields.Keys <= {"id", "type", "attributes", "relationships", "meta"}
    ensures "id" in r.fields && r.fields["id"] == id
    ensures "type" in r.fields && r.fields["type"] == type_
    ensures ("attributes" in r.fields <==> attributes != map[]) && ("attributes" in r.fields ==> r.fields["attributes"] == JObj(attributes))
    ensures ("relationships" in r.fields <==> relationships != map[]) && ("relationships" in r.fields ==> r.fields["relationships"] == JObj(relationships))
    ensures ("meta" in r.fields <==> meta != map[]) && ("meta" in r.fields ==> r.fields["meta"] == JObj(meta))
  {
    var identity := map["id" := id, "type" := type_];
    var withAttributes := WithOptional(identity, "attributes", JObj(attributes));
    var withRelationships := WithOptional(withAttributes, "relationships", JObj(relationships));
    JObj(WithOptional(withRelationships, "meta", JObj(meta)))
  }

  /**
   * The entity `buildIncluded(element, descriptor)` returns: the descriptor is
   * validated, a nullish element throws on `.id`, an element without a
   * truthy `id` is refused, and the listed fields present on the element are
   * copied.
   */
  function IncludedEntity(element: Json, descriptor: Json): (r: Result<Json>)
  {
    var verdict := ValidateIncludedSchema(descriptor);
    if verdict.Fail? then Err(verdict.error)
    else if Nullish(element) then Err(TypeError)
    else if !Truthy(Prop(element, "id")) then Err(MissingId)
    else
      var obj := Spread(element);
      match RelationshipsOf(obj, Elements(Prop(descriptor, "relationships")))
      case Err(e) => Err(e)
      case Ok(relationships) =>
        Ok(ResourceObject(
          Prop(element, "id"),
          IdentifierType(element, Prop(descriptor, "defaultType")),
          Picked(obj, NamesIn(Prop(descriptor, "attributes"))),
          relationships,
          Picked(obj, NamesIn(Prop(descriptor, "meta")))))
  }

  /** `buildIncluded`: validation, the `id` check, then the attribute, relationship and meta loops. */
  method BuildIncluded(element: Json, descriptor: Json) returns (r: Result<Json>)
    ensures r == IncludedEntity(element, descriptor)
  {
    var verdict := ValidateIncludedSchema(descriptor);
    if verdict.Fail? {
      return Err(verdict.error);
    }
    if Nullish(element) {
      return Err(TypeError);
    }
    if !Truthy(Prop(element, "id")) {
      return Err(MissingId);
    }
    var obj := Spread(element);
    var attributes := Pick(obj, Many(NamesIn(Prop(descriptor, "attributes"))));
    var relationships := BuildRelationships(obj, Elements(Prop(descriptor, "relationships")));
    if relationships.Err? {
      return Err(relationships.error);
    }
    var meta := Pick(obj, Many(NamesIn(Prop(descriptor, "meta"))));
    var type_ := IdentifierType(element, Prop(descriptor, "defaultType"));
    r := Ok(ResourceObject(Prop(element, "id"), type_, attributes, relationships.value, meta));
  }

  /**
   * An included entity carries the element's `id` and a `type` that falls
   * back to the descriptor's `defaultType` and then to `''`; with a valid
   * descriptor, an object element without a truthy `id` is refused.
   */
  lemma IncludedEntitySpec(element: Json, descriptor: Json)
    ensures IncludedEntity(element, descriptor).Ok? ==>
      && ValidIncluded(descriptor)
      && Prop(IncludedEntity(element, descriptor).value, "id") == Prop(element, "id")
      && Truthy(Prop(element, "id"))
      && Prop(IncludedEntity(element, descriptor).value, "type") == IdentifierType(element, Prop(descriptor, "defaultType"))
    ensures ValidIncluded(descriptor) && element.JObj? && !Truthy(Prop(element, "id")) ==>
      IncludedEntity(element, descriptor) == Err(MissingId)
    ensures !ValidIncluded(descriptor) ==> IncludedEntity(element, descriptor).Err?
  {
    var verdict := ValidateIncludedSchema(descriptor);
    if IncludedEntity(element, descriptor).Ok? {
      assert verdict.Pass?;
      assert !Nullish(element) && Truthy(Prop(element, "id"));
      var relationships := RelationshipsOf(Spread(element), Elements(Prop(descriptor, "relationships")));
      assert relationships.Ok?;
      assert IncludedEntity(element, descriptor).value == ResourceObject(
        Prop(element, "id"),
        IdentifierType(element, Prop(descriptor, "defaultType")),
        Picked(Spread(element), NamesIn(Prop(descriptor, "attributes"))),
        relationships.value,
        Picked(Spread(element), NamesIn(Prop(descriptor, "meta"))));
    }
  }

  /** `xs.map(build)` with a `build` that may throw: the first error, or the built values in order. */
  function MapAll(xs: seq<Json>, build: Json -> Result<Json>): Result<seq<Json>>
  {
    if xs == [] then Ok([])
    else match MapAll(xs[..|xs| - 1], build)
      case Err(e) => Err(e)
      case Ok(built) =>
        match build(xs[|xs| - 1])
        case Err(e) => Err(e)
        case Ok(x) => Ok(built + [x])
  }

  /**
   * The map succeeds exactly when every element builds, and then keeps length
   * and order; when it fails, its error is the first failing element's.
   */
  lemma {:induction false} MapAllSpec(xs: seq<Json>, build: Json -> Result<Json>)
    ensures MapAll(xs, build).Ok? <==> forall i :: 0 <= i < |xs| ==> build(xs[i]).Ok?
    ensures MapAll(xs, build).Ok? ==>
      && |MapAll(xs, build).value| == |xs|
      && forall i :: 0 <= i < |xs| ==> MapAll(xs, build).value[i] == build(xs[i]).value
    ensures MapAll(xs, build).Err? ==>
      exists i :: 0 <= i < |xs| && build(xs[i]) == Err(MapAll(xs, build).error) && forall j :: 0 <= j < i ==> build(xs[j]).Ok?
  {
    if xs != [] {
      var init := xs[..|xs| - 1];
      MapAllSpec(init, build);
      assert forall i :: 0 <= i < |init| ==> init[i] == xs[i];
      if MapAll(init, build).Err? {
        var i :| 0 <= i < |init| && build(init[i]) == Err(MapAll(init, build).error) && forall j :: 0 <= j < i ==> build(init[j]).Ok?;
        assert build(xs[i]) == Err(MapAll(xs, build).error);
      } else if build(xs[|xs| - 1]).Err? {
        assert build(xs[|xs| - 1]) == Err(MapAll(xs, build).error);
      }
    }
  }

  /** Once an element has failed, the elements after it change nothing. */
  lemma {:induction false} MapAllStopsAt(xs: seq<Json>, build: Json -> Result<Json>, n: nat)
    requires n <= |xs|
    requires MapAll(xs[..n], build).Err?
    ensures MapAll(xs, build) == MapAll(xs[..n], build)
  {
    if n < |xs| {
      var init := xs[..|xs| - 1];
      assert init[..n] == xs[..n];
      MapAllStopsAt(init, build, n);
    } else {
      assert xs[..n] == xs;
    }
  }

  /** `el => buildIncluded(el, descriptor)`. */
  function IncludedBuilder(descriptor: Json): Json -> Result<Json>
  {
    element => IncludedEntity(element, descriptor)
  }

  /** The `map` of `buildIncluded` over the related elements, one call at a time. */
  method BuildEach(elements: seq<Json>, descriptor: Json) returns (r: Result<seq<Json>>)
    ensures r == MapAll(elements, IncludedBuilder(descriptor))
  {
    var built: seq<Json> := [];
    for i := 0 to |elements|
      invariant MapAll(elements[..i], IncludedBuilder(descriptor)) == Ok(built)
    {
      assert elements[..i + 1][..i] == elements[..i];
      var entity := BuildIncluded(elements[i], descriptor);
      if entity.Err? {
        MapAllStopsAt(elements, IncludedBuilder(descriptor), i + 1);
        return Err(entity.error);
      }
      built := built + [entity.value];
    }
    assert elements[..|elements|] == elements;
    return Ok(built);
  }

  predicate ValidIncludeds(descriptors: seq<Json>)
  {
    forall x :: x in descriptors ==> ValidIncluded(x)
  }

  /** The related elements of a descriptor: every element of an array `data`, or the `data` itself. */
  function RelatedElements(data: Json): seq<Json>
  {
    if data.JArr? then data.elems else [data]
  }

  /**
   * What one included descriptor contributes (src/api/compose.js:70-86):
   * nothing when its key is not on the entity or the value's `data` is
   * falsy, a type error when the value is nullish (`.data` throws), else one
   * built entity per related element.
   */
  function Contribution(data: map<string, Json>, descriptor: Json): Result<seq<Json>>
  {
    var key := PropertyKey(Prop(descriptor, "key"));
    if key !in data then Ok([])
    else if Nullish(data[key]) then Err(TypeError)
    else if !Truthy(Prop(data[key], "data")) then Ok([])
    else MapAll(RelatedElements(Prop(data[key], "data")), IncludedBuilder(descriptor))
  }

  /** `includedEntity => ...`, the callback of the `included.forEach`. */
  function ContributionOf(data: map<string, Json>): Json -> Result<seq<Json>>
  {
    descriptor => Contribution(data, descriptor)
  }

  /** A `forEach` that appends what each element contributes: the first error, or everything in order. */
  function Concat(xs: seq<Json>, step: Json -> Result<seq<Json>>): Result<seq<Json>>
  {
    if xs == [] then Ok([])
    else match Concat(xs[..|xs| - 1], step)
      case Err(e) => Err(e)
      case Ok(prior) =>
        match step(xs[|xs| - 1])
        case Err(e) => Err(e)
        case Ok(more) => Ok(prior + more)
  }

  /** Once an element has failed, the elements after it change nothing. */
  lemma {:induction false} ConcatStopsAt(xs: seq<Json>, step: Json -> Result<seq<Json>>, n: nat)
    requires n <= |xs|
    requires Concat(xs[..n], step).Err?
    ensures Concat(xs, step) == Concat(xs[..n], step)
  {
    if n < |xs| {
      var init := xs[..|xs| - 1];
      assert init[..n] == xs[..n];
      ConcatStopsAt(init, step, n);
    } else {
      assert xs[..n] == xs;
    }
  }

  /**
   * Contributions are collected in order: two runs give those of the first
   * followed by those of the second, and the first error wins.
   */
  lemma {:induction false} ConcatAppend(xs: seq<Json>, ys: seq<Json>, step: Json -> Result<seq<Json>>)
    ensures Concat(xs, step).Err? ==> Concat(xs + ys, step) == Concat(xs, step)
    ensures Concat(xs, step).Ok? && Concat(ys, step).Err? ==> Concat(xs + ys, step) == Concat(ys, step)
    ensures Concat(xs, step).Ok? && Concat(ys, step).Ok? ==>
      Concat(xs + ys, step) == Ok(Concat(xs, step).value + Concat(ys, step).value)
  {
    if ys == [] {
      assert xs + ys == xs;
      if Concat(xs, step).Ok? {
        assert Concat(xs, step).value + [] == Concat(xs, step).value;
      }
    } else {
      var init := ys[..|ys| - 1];
      ConcatAppend(xs, init, step);
      assert (xs + ys)[..|xs + ys| - 1] == xs + init;
      assert (xs + ys)[|xs + ys| - 1] == ys[|ys| - 1];
      if Concat(xs, step).Ok? && Concat(ys, step).Ok? {
        var a, b, more := Concat(xs, step).value, Concat(init, step).value, step(ys[|ys| - 1]).value;
        assert (a + b) + more == a + (b + more);
      }
    }
  }

  /** An element that contributes nothing leaves the collection as it was. */
  lemma ConcatSkips(xs: seq<Json>, x: Json, step: Json -> Result<seq<Json>>)
    requires step(x) == Ok([])
    ensures Concat(xs + [x], step) == Concat(xs, step)
  {
    assert (xs + [x])[..|xs|] == xs;
    if Concat(xs, step).Ok? {
      assert Concat(xs, step).value + [] == Concat(xs, step).value;
    }
  }

  /** The `included.forEach` of `composeRequest` (src/api/compose.js:69-87). */
  function IncludedOf(data: map<string, Json>, descriptors: seq<Json>): Result<seq<Json>>
    requires ValidIncludeds(descriptors)
  {
    Concat(descriptors, ContributionOf(data))
  }

  /** A descriptor whose key is not on the entity, or whose value has no truthy `data`, contributes nothing. */
  lemma IncludedOfSkips(data: map<string, Json>, descriptors: seq<Json>, descriptor: Json)
    requires ValidIncludeds(descriptors) && ValidIncluded(descriptor)
    requires var key := PropertyKey(Prop(descriptor, "key"));
      key !in data || (!Nullish(data[key]) && !Truthy(Prop(data[key], "data")))
    ensures ValidIncludeds(descriptors + [descriptor])
    ensures IncludedOf(data, descriptors + [descriptor]) == IncludedOf(data, descriptors)
  {
    ConcatSkips(descriptors, descriptor, ContributionOf(data));
  }

  /**
   * A descriptor whose value has a truthy `data` contributes one entity per
   * related element, in order, or the first element's error.
   */
  lemma ContributionSpec(data: map<string, Json>, descriptor: Json)
    requires var key := PropertyKey(Prop(descriptor, "key"));
      key in data && !Nullish(data[key]) && Truthy(Prop(data[key], "data"))
    ensures var related := RelatedElements(Prop(data[PropertyKey(Prop(descriptor, "key"))], "data"));
      && (Contribution(data, descriptor).Ok? <==> forall i :: 0 <= i < |related| ==> IncludedEntity(related[i], descriptor).Ok?)
      && (Contribution(data, descriptor).Ok? ==>
        && |Contribution(data, descriptor).value| == |related|
        && forall i :: 0 <= i < |related| ==> Contribution(data, descriptor).value[i] == IncludedEntity(related[i], descriptor).value)
  {
    var related := RelatedElements(Prop(data[PropertyKey(Prop(descriptor, "key"))], "data"));
    MapAllSpec(related, IncludedBuilder(descriptor));
  }

  /** The `included.forEach` of `composeRequest`, one descriptor at a time. */
  method CollectIncluded(data: map<string, Json>, descriptors: seq<Json>) returns (r: Result<seq<Json>>)
    requires ValidIncludeds(descriptors)
    ensures r == IncludedOf(data, descriptors)
  {
    var included: seq<Json> := [];
    for i := 0 to |descriptors|
      invariant Concat(descriptors[..i], ContributionOf(data)) == Ok(included)
    {
      var descriptor := descriptors[i];
      assert descriptors[..i + 1][..i] == descriptors[..i];
      var key := PropertyKey(Prop(descriptor, "key"));
      if key in data {
        var element := data[key];
        if Nullish(element) {
          ConcatStopsAt(descriptors, ContributionOf(data), i + 1);
          return Err(TypeError);
        }
        if Truthy(Prop(element, "data")) {
          var newIncluded := BuildEach(RelatedElements(Prop(element, "data")), descriptor);
          if newIncluded.Err? {
            ConcatStopsAt(descriptors, ContributionOf(data), i + 1);
            return Err(newIncluded.error);
          }
          included := included + newIncluded.value;
        } else {
          assert included + [] == included;
        }
      } else {
        assert included + [] == included;
      }
    }
    assert descriptors[..|descriptors|] == descriptors;
    return Ok(included);
  }

  /** A schema field, `schema[name]`. */
  function Field(obj: map<string, Json>, name: string): Json
  {
    Get(obj, name, JUndefined)
  }

  /**
   * `{data: single ? entity : [entity], ...(included and meta, each only when
   * not empty)}`.
   */
  function RequestDocument(entity: Json, single: bool, included: seq<Json>, topLevelMeta: map<string, Json>): (r: Json)
    ensures r.JObj? && r.fields.Keys <= {"data", "included", "meta"}
    ensures "data" in r.fields && r.fields["data"] == if single then entity else JArr([entity])
    ensures ("included" in r.fields <==> included != []) && ("included" in r.fields ==> r.fields["included"] == JArr(included))
    ensures ("meta" in r.fields <==> topLevelMeta != map[]) && ("meta" in r.fields ==> r.fields["meta"] == JObj(topLevelMeta))
  {
    var primary := map["data" := if single then entity else JArr([entity])];
    JObj(WithOptional(WithOptional(primary, "included", JArr(included)), "meta", JObj(topLevelMeta)))
  }

  /** The entity under `data`: the bare entity, or the only element of the list. */
  function PrimaryEntity(document: Json, single: bool): Json
  {
    var data := Prop(document, "data");
    if single then data else if data.JArr? && |data.elems| == 1 then data.elems[0] else JUndefined
  }

  /** The document `composeRequest(data, schema, {single})` returns, or the error it throws. */
  function Composed(data: map<string, Json>, schema: map<string, Json>, single: bool): (r: Result<Json>)
  {
    var verdict := ValidateSchema(schema);
    if verdict.Fail? then Err(verdict.error)
    else if !Truthy(Field(data, "id")) then Err(MissingId)
    else if Field(data, "type") != Field(schema, "type") then Err(TypeMismatch)
    else match RelationshipsOf(data, Elements(Field(schema, "relationships")))
      case Err(e) => Err(e)
      case Ok(relationships) =>
        match IncludedOf(data, Elements(Field(schema, "included")))
        case Err(e) => Err(e)
        case Ok(included) =>
          Ok(RequestDocument(ComposedEntity(data, schema, relationships), single, included,
            Picked(data, NamesIn(Field(schema, "topLevelMeta")))))
  }

  /**
   * `composeRequest`: validate, check `id` and `type`, run the five loops in
   * source order, then assemble the document.
   */
  method ComposeRequest(data: map<string, Json>, schema: map<string, Json>, single: bool) returns (r: Result<Json>)
    ensures r == Composed(data, schema, single)
  {
    var verdict := ValidateSchema(schema);
    if verdict.Fail? {
      return Err(verdict.error);
    }
    if !Truthy(Field(data, "id")) {
      return Err(MissingId);
    }
    var id, type_ := Field(data, "id"), Field(data, "type");
    if type_ != Field(schema, "type") {
      return Err(TypeMismatch);
    }
    var topLevelMeta := Pick(data, Many(NamesIn(Field(schema, "topLevelMeta"))));
    var attributes := Pick(data, Many(NamesIn(Field(schema, "attributes"))));
    var relationships := BuildRelationships(data, Elements(Field(schema, "relationships")));
    if relationships.Err? {
      return Err(relationships.error);
    }
    var included := CollectIncluded(data, Elements(Field(schema, "included")));
    if included.Err? {
      return Err(included.error);
    }
    var meta := Pick(data, Many(NamesIn(Field(schema, "meta"))));
    var entity := ResourceObject(id, type_, attributes, relationships.value, meta);
    r := Ok(RequestDocument(entity, single, included.value, topLevelMeta));
  }

  /**
   * The checks run in order: an invalid schema is reported first, then a
   * missing or falsy `id`, then a `type` that differs from the schema's.
   */
  lemma ComposeCheckOrder(data: map<string, Json>, schema: map<string, Json>, single: bool)
    ensures !ValidSchema(schema) ==> Composed(data, schema, single) == Err(ValidateSchema(schema).error)
    ensures !Truthy(Field(schema, "type")) ==> Composed(data, schema, single) == Err(MissingType)
    ensures ValidSchema(schema) && !Truthy(Field(data, "id")) ==> Composed(data, schema, single) == Err(MissingId)
    ensures ValidSchema(schema) && Truthy(Field(data, "id")) && Field(data, "type") != Field(schema, "type") ==>
      Composed(data, schema, single) == Err(TypeMismatch)
    ensures Composed(data, schema, single).Ok? ==>
      ValidSchema(schema) && Truthy(Field(data, "id")) && Field(data, "type") == Field(schema, "type")
  {
  }

  /** The entity of a composed request, built from the data and the schema's lists. */
  function ComposedEntity(data: map<string, Json>, schema: map<string, Json>, relationships: map<string, Json>): Json
    requires ValidSchema(schema)
  {
    ResourceObject(
      Field(data, "id"), Field(data, "type"),
      Picked(data, NamesIn(Field(schema, "attributes"))),
      relationships,
      Picked(data, NamesIn(Field(schema, "meta"))))
  }

  /** A successful composition ran every check and both collecting loops without error. */
  lemma ComposedOk(data: map<string, Json>, schema: map<string, Json>, single: bool)
    requires Composed(data, schema, single).Ok?
    ensures ValidSchema(schema) && Truthy(Field(data, "id")) && Field(data, "type") == Field(schema, "type")
    ensures RelationshipsOf(data, Elements(Field(schema, "relationships"))).Ok?
    ensures IncludedOf(data, Elements(Field(schema, "included"))).Ok?
    ensures Composed(data, schema, single).value == RequestDocument(
      ComposedEntity(data, schema, RelationshipsOf(data, Elements(Field(schema, "relationships"))).value),
      single,
      IncludedOf(data, Elements(Field(schema, "included"))).value,
      Picked(data, NamesIn(Field(schema, "topLevelMeta"))))
  {
  }

  /**
   * A composed request holds `data` and, when not empty, `included` and the
   * top-level `meta`; `data` is the bare entity when `single` is set and a
   * one-element list otherwise.
   */
  lemma ComposedDocument(data: map<string, Json>, schema: map<string, Json>, single: bool)
    requires Composed(data, schema, single).Ok?
    ensures var document := Composed(data, schema, single).value;
      && document.JObj? && document.fields.Keys <= {"data", "included", "meta"}
      && "data" in document.fields
      && (single ==> document.fields["data"].JObj?)
      && (!single ==> document.fields["data"].JArr? && |document.fields["data"].elems| == 1)
    ensures var document := Composed(data, schema, single).value;
      var topLevelMeta := Picked(data, NamesIn(Field(schema, "topLevelMeta")));
      && ("meta" in document.fields <==> topLevelMeta != map[])
      && ("meta" in document.fields ==> document.fields["meta"] == JObj(topLevelMeta))
    ensures var document := Composed(data, schema, single).value;
      var included := IncludedOf(data, Elements(Field(schema, "included")));
      && included.Ok?
      && ("included" in document.fields <==> included.value != [])
      && ("included" in document.fields ==> document.fields["included"] == JArr(included.value))
  {
    ComposedOk(data, schema, single);
  }

  /**
   * The entity of a composed request always has the data's `id` and the
   * schema's `type`; its `attributes`, `relationships` and `meta` are exactly
   * what the schema lists and the data has, left out when there is nothing.
   */
  lemma ComposedPrimaryEntity(data: map<string, Json>, schema: map<string, Json>, single: bool)
    requires Composed(data, schema, single).Ok?
    ensures var entity := PrimaryEntity(Composed(data, schema, single).value, single);
      && entity.JObj?
      && entity.fields.Keys <= {"id", "type", "attributes", "relationships", "meta"}
      && Prop(entity, "id") == Field(data, "id")
      && Prop(entity, "type") == Field(schema, "type")
    ensures var entity := PrimaryEntity(Composed(data, schema, single).value, single);
      var attributes := Picked(data, NamesIn(Field(schema, "attributes")));
      var meta := Picked(data, NamesIn(Field(schema, "meta")));
      && (Has(entity, "attributes") <==> attributes != map[])
      && (Has(entity, "attributes") ==> Prop(entity, "attributes") == JObj(attributes))
      && (Has(entity, "meta") <==> meta != map[])
      && (Has(entity, "meta") ==> Prop(entity, "meta") == JObj(meta))
    ensures var entity := PrimaryEntity(Composed(data, schema, single).value, single);
      var relationships := RelationshipsOf(data, Elements(Field(schema, "relationships")));
      && relationships.Ok?
      && (Has(entity, "relationships") <==> relationships.value != map[])
      && (Has(entity, "relationships") ==> Prop(entity, "relationships") == JObj(relationships.value))
  {
    ComposedEntityAt(data, schema, single);
  }

  /** The entity under `data` is the one built from the data and the schema. */
  lemma ComposedEntityAt(data: map<string, Json>, schema: map<string, Json>, single: bool)
    requires Composed(data, schema, single).Ok?
    ensures ValidSchema(schema) && RelationshipsOf(data, Elements(Field(schema, "relationships"))).Ok?
    ensures PrimaryEntity(Composed(data, schema, single).value, single)
      == ComposedEntity(data, schema, RelationshipsOf(data, Elements(Field(schema, "relationships"))).value)
  {
    ComposedOk(data, schema, single);
    var relationships := RelationshipsOf(data, Elements(Field(schema, "relationships"))).value;
    var entity := ComposedEntity(data, schema, relationships);
    var document := RequestDocument(entity, single, IncludedOf(data, Elements(Field(schema, "included"))).value,
      Picked(data, NamesIn(Field(schema, "topLevelMeta"))));
    assert PrimaryEntity(document, single) == entity;
  }

  /**
   * A valid schema without relationship or included lists composes every
   * entity with a truthy `id` and the schema's `type`.
   */
  lemma ComposeSucceeds(data: map<string, Json>, schema: map<string, Json>, single: bool)
    requires ValidSchema(schema)
    requires !Truthy(Field(schema, "relationships")) && !Truthy(Field(schema, "included"))
    requires Truthy(Field(data, "id")) && Field(data, "type") == Field(schema, "type")
    ensures Composed(data, schema, single).Ok?
  {
  }
}
