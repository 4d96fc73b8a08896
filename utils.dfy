/**
 * The small object and list helpers of src/utils.js that every other part of
 * the engine uses: field access with a default, projection (`pick`, `omit`),
 * order-preserving de-duplication (`stringUniq`) and emptiness (`isEmpty`).
 */
module Utils {
  import opened JsonValues

  /** An argument typed `string|string[]`: a single name stands for a one-element list. */
  datatype Names = One(name: string) | Many(names: seq<string>)

  function AsList(attributes: Names): (r: seq<string>)
    ensures attributes.One? ==> r == [attributes.name]
    ensures attributes.Many? ==> r == attributes.names
  {
    match attributes
    case One(name) => [name]
    case Many(names) => names
  }

  predicate NoDups<T(==)>(xs: seq<T>)
  {
    forall i, j :: 0 <= i < j < |xs| ==> xs[i] != xs[j]
  }

  /** `get(obj, attribute, defaultValue = {})`: a present key wins even when its value is falsy. */
  function Get(obj: map<string, Json>, attribute: string, defaultValue: Json := EmptyObject): (r: Json)
    ensures attribute in obj ==> r == obj[attribute]
    ensures attribute !in obj ==> r == defaultValue
  {
    if attribute in obj then obj[attribute] else defaultValue
  }

  /** The object `pick(obj, names)` builds. */
  function Picked(obj: map<string, Json>, names: seq<string>): map<string, Json>
  {
    map a | a in names && a in obj :: obj[a]
  }

  /** The object `omit(obj, names)` builds. */
  function Omitted(obj: map<string, Json>, names: seq<string>): map<string, Json>
  {
    map a | a in obj && a !in names :: obj[a]
  }

  /** `pick`: reduce the requested names into an aggregator, copying the ones `obj` has. */
  method Pick(obj: map<string, Json>, attributes: Names) returns (picked: map<string, Json>)
    ensures picked.Keys == set a | a in AsList(attributes) && a in obj
    ensures forall a :: a in picked ==> picked[a] == obj[a]
    ensures picked == Picked(obj, AsList(attributes))
  {
    var names := AsList(attributes);
    picked := map[];
    for i := 0 to |names|
      invariant picked == Picked(obj, names[..i])
    {
      if names[i] in obj {
        picked := picked[names[i] := obj[names[i]]];
      }
      assert names[..i + 1] == names[..i] + [names[i]];
    }
    assert names[..|names|] == names;
  }

  /** `omit`: reduce the keys of `obj` into an aggregator, skipping the requested names. */
  method Omit(obj: map<string, Json>, attributes: Names) returns (kept: map<string, Json>)
    ensures kept.Keys == obj.Keys - set a | a in AsList(attributes)
    ensures forall a :: a in kept ==> kept[a] == obj[a]
    ensures kept == Omitted(obj, AsList(attributes))
  {
    var names := AsList(attributes);
    kept := map[];
    var todo := obj.Keys;
    while todo != {}
      invariant todo <= obj.Keys
      invariant kept == map a | a in obj.Keys - todo && a !in names :: obj[a]
      decreases todo
    {
      var a :| a in todo;
      if a !in names {
        kept := kept[a := obj[a]];
      }
      todo := todo - {a};
    }
  }

  /** `pick` and `omit` with the same names split an object in two. */
  lemma PickOmitPartition(obj: map<string, Json>, names: seq<string>)
    ensures Picked(obj, names).Keys !! Omitted(obj, names).Keys
    ensures Picked(obj, names) + Omitted(obj, names) == obj
  {
  }

  /**
   * `stringUniq`: keep each element at its first occurrence. Written, like the
   * source's reduce, as a fold from the left.
   */
  function StringUniq(xs: seq<Json>): (r: seq<Json>)
    ensures NoDups(r)
    ensures forall x :: x in r <==> x in xs
    ensures |r| <= |xs|
  {
    if xs == [] then []
    else
      var agg := StringUniq(xs[..|xs| - 1]);
      var curr := xs[|xs| - 1];
      assert forall x :: x in xs <==> x in xs[..|xs| - 1] || x == curr by {
        assert xs == xs[..|xs| - 1] + [curr];
      }
      if curr in agg then agg else agg + [curr]
  }

  /** Appending one element to the input appends it to the output unless it was already there. */
  lemma StringUniqSnoc(xs: seq<Json>, x: Json)
    ensures StringUniq(xs + [x]) == if x in xs then StringUniq(xs) else StringUniq(xs) + [x]
  {
    assert (xs + [x])[..|xs + [x]| - 1] == xs;
  }

  /** `stringUniq` is the identity on a list that has no duplicates. */
  lemma {:induction false} StringUniqOfUnique(xs: seq<Json>)
    requires NoDups(xs)
    ensures StringUniq(xs) == xs
  {
    if xs != [] {
      var init := xs[..|xs| - 1];
      StringUniqOfUnique(init);
      assert xs == init + [xs[|xs| - 1]];
      assert forall i :: 0 <= i < |init| ==> init[i] == xs[i] != xs[|xs| - 1];
    }
  }

  /** Applying `stringUniq` twice is the same as applying it once. */
  lemma StringUniqIdempotent(xs: seq<Json>)
    ensures StringUniq(StringUniq(xs)) == StringUniq(xs)
  {
    StringUniqOfUnique(StringUniq(xs));
  }

  /** De-duplicating before appending one element and again after is the same as de-duplicating once. */
  lemma StringUniqAppendOne(xs: seq<Json>, x: Json)
    ensures StringUniq(StringUniq(xs) + [x]) == StringUniq(xs + [x])
  {
    StringUniqSnoc(StringUniq(xs), x);
    StringUniqSnoc(xs, x);
    StringUniqIdempotent(xs);
  }

  /** The result of de-duplicating a list is a prefix of the result of de-duplicating any extension of it. */
  lemma {:induction false} StringUniqPrefix(xs: seq<Json>, ys: seq<Json>)
    ensures |StringUniq(xs)| <= |StringUniq(xs + ys)|
    ensures StringUniq(xs + ys)[..|StringUniq(xs)|] == StringUniq(xs)
  {
    if ys != [] {
      var init := ys[..|ys| - 1];
      StringUniqPrefix(xs, init);
      assert xs + ys == (xs + init) + [ys[|ys| - 1]];
      StringUniqSnoc(xs + init, ys[|ys| - 1]);
    } else {
      assert xs + ys == xs;
    }
  }

  /** Index of the first occurrence of `x` in `xs`. */
  function FirstIndex<T(==)>(xs: seq<T>, x: T): (i: nat)
    requires x in xs
    ensures i < |xs| && xs[i] == x
    ensures forall j :: 0 <= j < i ==> xs[j] != x
  {
    if xs[0] == x then 0 else 1 + FirstIndex(xs[1..], x)
  }

  /** The output lists the distinct elements in the order of their first occurrence in the input. */
  lemma {:induction false} StringUniqFirstOccurrenceOrder(xs: seq<Json>, i: nat, j: nat)
    requires i < j < |StringUniq(xs)|
    ensures FirstIndex(xs, StringUniq(xs)[i]) < FirstIndex(xs, StringUniq(xs)[j])
  {
    var init := xs[..|xs| - 1];
    var u := StringUniq(init);
    var a, b := StringUniq(xs)[i], StringUniq(xs)[j];
    assert xs == init + [xs[|xs| - 1]];
    StringUniqSnoc(init, xs[|xs| - 1]);
    FirstIndexOfPrefix(init, xs[|xs| - 1], a);
    if j < |u| {
      StringUniqFirstOccurrenceOrder(init, i, j);
      FirstIndexOfPrefix(init, xs[|xs| - 1], b);
    } else {
      assert b == xs[|xs| - 1] && b !in init;
      assert forall k :: 0 <= k < |xs| - 1 ==> xs[k] == init[k] != b;
    }
  }

  /** First occurrences inside a prefix are first occurrences in the whole list. */
  lemma FirstIndexOfPrefix<T>(init: seq<T>, last: T, x: T)
    requires x in init
    ensures FirstIndex(init + [last], x) == FirstIndex(init, x)
  {
    var k := FirstIndex(init, x);
    var k' := FirstIndex(init + [last], x);
    assert (init + [last])[k] == x;
    assert forall j :: 0 <= j < k ==> (init + [last])[j] == init[j] != x;
  }

  /**
   * `isEmpty`: null, an empty array and an object without keys are empty; any
   * other value is empty exactly when it is falsy.
   */
  function IsEmpty(candidate: Json): (r: bool)
    ensures candidate.JArr? ==> (r <==> |candidate.elems| == 0)
    ensures candidate.JObj? ==> (r <==> |candidate.fields| == 0)
    ensures !candidate.JArr? && !candidate.JObj? ==> (r <==> !Truthy(candidate))
    ensures !r ==> Truthy(candidate)
  {
    match candidate
    case JNull => true
    case JArr(elems) => |elems| == 0
    case JObj(fields) => |fields| == 0
    case _ => !Truthy(candidate)
  }

  /** `isEmpty(value) ? {} : {[name]: value}`. */
  function Optional(name: string, value: Json): (r: map<string, Json>)
    ensures name in r <==> !IsEmpty(value)
    ensures r.Keys <= {name}
    ensures name in r ==> r[name] == value
  {
    if IsEmpty(value) then map[] else map[name := value]
  }
}
