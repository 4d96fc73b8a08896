/**
 * The merge engine (`mergeMajicObjects`): combine two normalized stores type
 * slice by type slice. The first argument's entities win on an identity
 * collision, key lists are concatenated and de-duplicated, the
 * `__primaryEntities` lists are unioned, and types that only the second
 * argument has pass through unchanged.
 */
module Merge {
  import opened JsonValues
  import opened Utils

  const PrimaryEntities: string := "__primaryEntities"

  /** The entities `{...slice.data}` of a type slice. */
  function SliceData(slice: Json): map<string, Json>
  {
    Spread(Prop(slice, "data"))
  }

  /** The identity list `slice.keys`, read as an array (a missing list is empty). */
  function SliceKeys(slice: Json): seq<Json>
  {
    Elements(Prop(slice, "keys"))
  }

  /** `x` occurs at the start of `xs`. */
  predicate IsPrefix(x: seq<Json>, xs: seq<Json>)
  {
    |x| <= |xs| && xs[..|x|] == x
  }

  /**
   * The slice the first pass writes for a type the first store has:
   * `{data: {...data2, ...data1}, keys?: stringUniq([...keys1, ...keys2])}`.
   */
  function MergedSlice(slice1: Json, slice2: Json): (r: Json)
    ensures r.JObj?
  {
    var data := Spread(Prop(slice2, "data")) + Spread(Prop(slice1, "data"));
    var keys := StringUniq(SliceKeys(slice1) + SliceKeys(slice2));
    JObj(map["data" := JObj(data)] + if |keys| > 0 then map["keys" := JArr(keys)] else map[])
  }

  /**
   * A merged slice has `data` and at most `keys`. Its entities are those of
   * both slices, the first slice's copy winning on a shared identity. Its
   * `keys` are the keys of both slices without duplicates, the first slice's
   * first, and are left out when there are none.
   */
  lemma MergedSliceSpec(slice1: Json, slice2: Json)
    ensures MergedSlice(slice1, slice2).fields.Keys <= {"data", "keys"}
    ensures "data" in MergedSlice(slice1, slice2).fields && MergedSlice(slice1, slice2).fields["data"].JObj?
    ensures SliceData(MergedSlice(slice1, slice2)) == SliceData(slice2) + SliceData(slice1)
    ensures SliceData(MergedSlice(slice1, slice2)).Keys == SliceData(slice1).Keys + SliceData(slice2).Keys
    ensures forall id :: id in SliceData(slice1) ==> SliceData(MergedSlice(slice1, slice2))[id] == SliceData(slice1)[id]
    ensures "keys" in MergedSlice(slice1, slice2).fields <==> SliceKeys(slice1) + SliceKeys(slice2) != []
    ensures "keys" in MergedSlice(slice1, slice2).fields ==> MergedSlice(slice1, slice2).fields["keys"].JArr?
    ensures SliceKeys(MergedSlice(slice1, slice2)) == StringUniq(SliceKeys(slice1) + SliceKeys(slice2))
    ensures NoDups(SliceKeys(MergedSlice(slice1, slice2)))
    ensures forall x :: x in SliceKeys(MergedSlice(slice1, slice2)) <==> x in SliceKeys(slice1) || x in SliceKeys(slice2)
    ensures IsPrefix(StringUniq(SliceKeys(slice1)), SliceKeys(MergedSlice(slice1, slice2)))
  {
    var data := Spread(Prop(slice2, "data")) + Spread(Prop(slice1, "data"));
    var keys := StringUniq(SliceKeys(slice1) + SliceKeys(slice2));
    var r := MergedSlice(slice1, slice2);
    if |keys| > 0 {
      assert r.fields == map["data" := JObj(data), "keys" := JArr(keys)];
    } else {
      assert r.fields == map["data" := JObj(data)];
    }
    assert SliceData(r) == data;
    assert SliceKeys(r) == keys;
    StringUniqPrefix(SliceKeys(slice1), SliceKeys(slice2));
  }

  /** `[...(majic1.__primaryEntities || []), ...(majic2.__primaryEntities || [])]` de-duplicated. */
  function PrimaryUnion(majic1: map<string, Json>, majic2: map<string, Json>): (r: seq<Json>)
    ensures NoDups(r)
    ensures forall x :: x in r <==> x in Elements(Get(majic1, PrimaryEntities, JUndefined)) || x in Elements(Get(majic2, PrimaryEntities, JUndefined))
    ensures IsPrefix(StringUniq(Elements(Get(majic1, PrimaryEntities, JUndefined))), r)
  {
    var first := Elements(Get(majic1, PrimaryEntities, JUndefined));
    var second := Elements(Get(majic2, PrimaryEntities, JUndefined));
    StringUniqPrefix(first, second);
    StringUniq(first + second)
  }

  /** What the first pass writes at a key of the first store: the unioned primary list or the merged slice. */
  function FirstEntry(majic1: map<string, Json>, majic2: map<string, Json>, k: string): Json
    requires k in majic1
  {
    if k == PrimaryEntities then JArr(PrimaryUnion(majic1, majic2)) else MergedSlice(majic1[k], Get(majic2, k, JUndefined))
  }

  /**
   * The store `mergeMajicObjects(majic1, majic2)` returns, with the
   * `__primaryEntities` branch of lib/utils.js and the remainder list
   * treated as the set of second-store keys the first pass did not handle.
   */
  function Merged(majic1: map<string, Json>, majic2: map<string, Json>): (r: map<string, Json>)
    ensures r.Keys == majic1.Keys + majic2.Keys
    ensures forall k :: k in majic2 && k !in majic1 ==> r[k] == majic2[k]
    ensures forall k :: k in majic1 && k != PrimaryEntities ==> r[k] == MergedSlice(majic1[k], Get(majic2, k, JUndefined))
    ensures PrimaryEntities in majic1 ==> r[PrimaryEntities] == JArr(PrimaryUnion(majic1, majic2))
  {
    map k | k in majic1.Keys + majic2.Keys :: if k !in majic1 then majic2[k] else FirstEntry(majic1, majic2, k)
  }

  /**
   * `mergeMajicObjects`: a first pass over the first store's keys that writes
   * merged slices and crosses the handled keys off the second store's key list,
   * then a pass that copies the second store's remaining keys.
   */
  method MergeMajicObjects(majic1: map<string, Json>, majic2: map<string, Json>) returns (merged: map<string, Json>)
    ensures merged == Merged(majic1, majic2)
  {
    var majic2keys;
    merged, majic2keys := MergeFirstPass(majic1, majic2);
    merged := CopyRemaining(merged, majic2keys, majic2);
    SameStore(merged, Merged(majic1, majic2));
  }

  /** Two stores with the same keys and the same slice at each key are equal. */
  lemma SameStore(a: map<string, Json>, b: map<string, Json>)
    requires a.Keys == b.Keys
    requires forall k :: k in a ==> a[k] == b[k]
    ensures a == b
  {
  }

  /** The reduce over the first store's keys (lib/utils.js:64-94). */
  method MergeFirstPass(majic1: map<string, Json>, majic2: map<string, Json>)
    returns (majics: map<string, Json>, majic2keys: set<string>)
    ensures majic2keys == majic2.Keys - majic1.Keys
    ensures majics.Keys == majic1.Keys
    ensures forall k :: k in majics ==> majics[k] == FirstEntry(majic1, majic2, k)
  {
    majics := map[];
    var pending := majic1.Keys;
    ghost var done: set<string> := {};
    majic2keys := majic2.Keys;
    while pending != {}
      invariant pending + done == majic1.Keys && pending !! done
      invariant majic2keys == majic2.Keys - done
      invariant majics.Keys == done
      invariant forall k :: k in majics ==> majics[k] == FirstEntry(majic1, majic2, k)
      decreases pending
    {
      var key :| key in pending;
      if key == PrimaryEntities {
        majics := majics[PrimaryEntities := JArr(PrimaryUnion(majic1, majic2))];
      } else {
        majics := majics[key := MergedSlice(majic1[key], Get(majic2, key, JUndefined))];
      }
      if key in majic2keys {
        majic2keys := majic2keys - {key};
      }
      pending := pending - {key};
      done := done + {key};
    }
  }

  /** The `forEach` that copies the second store's unhandled keys (lib/utils.js:98-100). */
  method CopyRemaining(majics: map<string, Json>, majic2keys: set<string>, majic2: map<string, Json>)
    returns (merged: map<string, Json>)
    requires majic2keys <= majic2.Keys
    ensures merged.Keys == majics.Keys + majic2keys
    ensures forall k :: k in majic2keys ==> merged[k] == majic2[k]
    ensures forall k :: k in majics && k !in majic2keys ==> merged[k] == majics[k]
  {
    merged := majics;
    var remainder := majic2keys;
    while remainder != {}
      invariant remainder <= majic2keys
      invariant merged.Keys == majics.Keys + (majic2keys - remainder)
      invariant forall k :: k in majic2keys - remainder ==> merged[k] == majic2[k]
      invariant forall k :: k in majics && k !in majic2keys - remainder ==> merged[k] == majics[k]
      decreases remainder
    {
      var key :| key in remainder;
      merged := merged[key := majic2[key]];
      remainder := remainder - {key};
    }
  }

  /** The first store's entity wins over the second's under the same identity. */
  lemma MergeFirstWins(majic1: map<string, Json>, majic2: map<string, Json>, t: string, id: string)
    requires t in majic1 && t != PrimaryEntities
    requires id in SliceData(majic1[t])
    ensures t in Merged(majic1, majic2) && id in SliceData(Merged(majic1, majic2)[t])
    ensures SliceData(Merged(majic1, majic2)[t])[id] == SliceData(majic1[t])[id]
  {
    MergedSliceSpec(majic1[t], Get(majic2, t, JUndefined));
  }

  /** A type slice of the first store is merged with the second store's slice of the same type. */
  lemma MergedAt(majic1: map<string, Json>, majic2: map<string, Json>, t: string)
    requires t in majic1 && t != PrimaryEntities
    ensures t in Merged(majic1, majic2)
    ensures Merged(majic1, majic2)[t] == MergedSlice(majic1[t], Get(majic2, t, JUndefined))
  {
  }

  /** A type slice present only in the second store is copied unchanged. */
  lemma MergePassesThrough(majic1: map<string, Json>, majic2: map<string, Json>, t: string)
    requires t in majic2 && t !in majic1
    ensures Merged(majic1, majic2)[t] == majic2[t]
  {
  }

  /** Stores whose every slice has the shape the parser produces. */
  predicate NormalizedSlice(slice: Json)
  {
    && slice.JObj?
    && "data" in slice.fields && slice.fields["data"].JObj?
    && slice.fields.Keys <= {"data", "keys"}
    && ("keys" in slice.fields ==> slice.fields["keys"].JArr? && slice.fields["keys"].elems != [] && NoDups(slice.fields["keys"].elems))
  }

  predicate NormalizedStore(store: map<string, Json>)
  {
    && (PrimaryEntities in store ==> store[PrimaryEntities].JArr? && NoDups(store[PrimaryEntities].elems))
    && forall t :: t in store && t != PrimaryEntities ==> NormalizedSlice(store[t])
  }

  /** Appending elements that are already present changes nothing after de-duplication. */
  lemma {:induction false} StringUniqAbsorbs(xs: seq<Json>, ys: seq<Json>)
    requires forall y :: y in ys ==> y in xs
    ensures StringUniq(xs + ys) == StringUniq(xs)
  {
    if ys != [] {
      var init := ys[..|ys| - 1];
      StringUniqAbsorbs(xs, init);
      assert xs + ys == (xs + init) + [ys[|ys| - 1]];
      StringUniqSnoc(xs + init, ys[|ys| - 1]);
    } else {
      assert xs + ys == xs;
    }
  }

  /** Merging a normalized slice with itself gives it back. */
  lemma MergedSliceWithItself(slice: Json)
    requires NormalizedSlice(slice)
    ensures MergedSlice(slice, slice) == slice
  {
    var ks := SliceKeys(slice);
    StringUniqAbsorbs(ks, ks);
    StringUniqOfUnique(ks);
    var data := slice.fields["data"];
    assert SliceData(slice) == data.fields;
    assert SliceData(slice) + SliceData(slice) == data.fields;
    var r := MergedSlice(slice, slice);
    MergedSliceSpec(slice, slice);
    assert r.fields["data"] == data;
    if "keys" in slice.fields {
      assert r.fields["keys"] == slice.fields["keys"];
    } else {
      assert ks == [];
    }
    assert r.fields == slice.fields;
  }

  /** Merging a normalized store with itself gives it back. */
  lemma MergeWithItself(store: map<string, Json>)
    requires NormalizedStore(store)
    ensures Merged(store, store) == store
  {
    var r := Merged(store, store);
    forall t | t in store
      ensures r[t] == store[t]
    {
      if t == PrimaryEntities {
        var ps := store[PrimaryEntities].elems;
        StringUniqAbsorbs(ps, ps);
        StringUniqOfUnique(ps);
      } else {
        MergedSliceWithItself(store[t]);
      }
    }
  }
}
