/**
 * `mergeMajicObjects` of lib/utils.js:60-103 exactly as written, with the
 * JavaScript key order of both stores: the first pass walks
 * `Object.keys(majic1)` and splices handled keys out of the list
 * `Object.keys(majic2)`, and a last pass copies whatever the list still holds.
 *
 * In the `__primaryEntities` branch (line 67) the key is spliced out with
 * `indexOf` without checking for -1. When the second store has no
 * `__primaryEntities`, `slice(0, -1)` and `slice(0)` make the list hold all
 * but its last key followed by all of its keys, so a key that the first pass
 * handles later is crossed off only once and the last pass overwrites its
 * merged slice with the second store's slice.
 */
module MergeAsWritten {
  import opened JsonValues
  import opened Utils
  import opened Merge

  /** `order` lists the keys of `m` once each, as `Object.keys(m)` does. */
  ghost predicate KeyOrder(order: seq<string>, m: map<string, Json>)
  {
    NoDups(order) && forall k :: k in m <==> k in order
  }

  /** `xs.indexOf(x)`, -1 when `x` is absent. */
  function IndexOf(xs: seq<string>, x: string): (i: int)
    ensures -1 <= i < |xs|
    ensures i == -1 <==> x !in xs
    ensures 0 <= i ==> xs[i] == x && forall j :: 0 <= j < i ==> xs[j] != x
  {
    if xs == [] then -1
    else if xs[0] == x then 0
    else
      var j := IndexOf(xs[1..], x);
      if j == -1 then -1 else j + 1
  }

  /** `[...xs.slice(0, i), ...xs.slice(i + 1)]`, where `slice(0, -1)` drops the last element and `slice(0)` is the whole list. */
  function SpliceOut(xs: seq<string>, i: int): (r: seq<string>)
    requires -1 <= i < |xs|
    ensures forall x :: x in r ==> x in xs
  {
    if i == -1 then (if xs == [] then [] else xs[..|xs| - 1]) + xs
    else xs[..i] + xs[i + 1..]
  }

  /**
   * The list `majic2keys` after the reduce has handled `keys1` (a prefix of
   * `Object.keys(majic1)`): `__primaryEntities` is spliced out unconditionally
   * (line 67), any other key only when the list includes it (lines 88-90).
   */
  function CrossOff(keys1: seq<string>, majic2keys: seq<string>): (r: seq<string>)
    ensures forall k :: k in r ==> k in majic2keys
  {
    if keys1 == [] then majic2keys
    else
      var list := CrossOff(keys1[..|keys1| - 1], majic2keys);
      var key := keys1[|keys1| - 1];
      if key == PrimaryEntities || key in list then SpliceOut(list, IndexOf(list, key)) else list
  }

  /** The slices the reduce writes for the handled keys `keys1` (lines 65-70 and 72-86). */
  function Written(majic1: map<string, Json>, majic2: map<string, Json>, keys1: seq<string>): map<string, Json>
    requires forall k :: k in keys1 ==> k in majic1
  {
    if keys1 == [] then map[]
    else
      var majics := Written(majic1, majic2, keys1[..|keys1| - 1]);
      var key := keys1[|keys1| - 1];
      if key == PrimaryEntities then majics[PrimaryEntities := JArr(PrimaryUnion(majic1, majic2))]
      else majics[key := MergedSlice(majic1[key], Get(majic2, key, JUndefined))]
  }

  /** `keys.forEach(key => newMajicObject[key] = majic2[key])`. */
  function CopyAll(majics: map<string, Json>, keys: seq<string>, majic2: map<string, Json>): map<string, Json>
    requires forall k :: k in keys ==> k in majic2
  {
    if keys == [] then majics
    else CopyAll(majics, keys[..|keys| - 1], majic2)[keys[|keys| - 1] := majic2[keys[|keys| - 1]]]
  }

  /** lib/utils.js `mergeMajicObjects(majic1, majic2)`, given both stores' key orders. */
  function MergeLib(majic1: map<string, Json>, order1: seq<string>, majic2: map<string, Json>, order2: seq<string>): map<string, Json>
    requires KeyOrder(order1, majic1) && KeyOrder(order2, majic2)
  {
    CopyAll(Written(majic1, majic2, order1), CrossOff(order1, order2), majic2)
  }

  /** The first store of the defect: a primary list and an `articles` slice. */
  function DefectFirst(): map<string, Json>
  {
    map[PrimaryEntities := JArr([]), "articles" := JObj(map["data" := JObj(map["1" := JStr("primary")])])]
  }

  /** The second store of the defect: two slices and no primary list. */
  function DefectSecond(): map<string, Json>
  {
    map["articles" := JObj(map["data" := JObj(map["1" := JStr("included")])]), "people" := EmptyObject]
  }

  /** The key orders of the defect, `Object.keys` of the two stores. */
  function DefectFirstOrder(): seq<string>
  {
    [PrimaryEntities, "articles"]
  }

  function DefectSecondOrder(): seq<string>
  {
    ["articles", "people"]
  }

  /**
   * The defect: with the key orders `[__primaryEntities, articles]` and
   * `[articles, people]`, the code as written returns the second store's
   * `articles` slice and so loses the first store's entity, where the
   * intended merge keeps it.
   */
  lemma MergeLibLosesFirstSlice()
    ensures KeyOrder(DefectFirstOrder(), DefectFirst()) && KeyOrder(DefectSecondOrder(), DefectSecond())
    ensures "articles" in MergeLib(DefectFirst(), DefectFirstOrder(), DefectSecond(), DefectSecondOrder())
    ensures MergeLib(DefectFirst(), DefectFirstOrder(), DefectSecond(), DefectSecondOrder())["articles"] == DefectSecond()["articles"]
    ensures "articles" in Merged(DefectFirst(), DefectSecond()) && "1" in SliceData(Merged(DefectFirst(), DefectSecond())["articles"])
    ensures SliceData(Merged(DefectFirst(), DefectSecond())["articles"])["1"] == JStr("primary")
  {
    DefectAsWritten();
    DefectIntended();
  }

  /** The remainder list of the defect still holds `articles`, so its second-store slice is copied last. */
  lemma DefectAsWritten()
    ensures KeyOrder(DefectFirstOrder(), DefectFirst()) && KeyOrder(DefectSecondOrder(), DefectSecond())
    ensures "articles" in MergeLib(DefectFirst(), DefectFirstOrder(), DefectSecond(), DefectSecondOrder())
    ensures MergeLib(DefectFirst(), DefectFirstOrder(), DefectSecond(), DefectSecondOrder())["articles"] == DefectSecond()["articles"]
  {
    DefectKeyOrders();
    DefectRemainder();
    CopyAllWrites(Written(DefectFirst(), DefectSecond(), DefectFirstOrder()), DefectSecondOrder(), DefectSecond());
  }

  lemma DefectKeyOrders()
    ensures KeyOrder(DefectFirstOrder(), DefectFirst()) && KeyOrder(DefectSecondOrder(), DefectSecond())
  {
    assert DefectFirst().Keys == {PrimaryEntities, "articles"};
    assert DefectSecond().Keys == {"articles", "people"};
  }

  /** The first pass splices `__primaryEntities` at index -1, then crosses off one of the two `articles`. */
  lemma DefectRemainder()
    ensures CrossOff(DefectFirstOrder(), DefectSecondOrder()) == DefectSecondOrder()
  {
    var order1, order2 := DefectFirstOrder(), DefectSecondOrder();
    assert order1[..1] == [PrimaryEntities] && order1[..1][..0] == [];
    assert IndexOf(order2, PrimaryEntities) == -1;
    assert CrossOff(order1[..1], order2) == ["articles", "articles", "people"];
    assert IndexOf(["articles", "articles", "people"], "articles") == 0;
  }

  /** The intended merge of the defect keeps the first store's `articles` entity. */
  lemma DefectIntended()
    ensures "articles" in Merged(DefectFirst(), DefectSecond()) && "1" in SliceData(Merged(DefectFirst(), DefectSecond())["articles"])
    ensures SliceData(Merged(DefectFirst(), DefectSecond())["articles"])["1"] == JStr("primary")
  {
    var majic1 := DefectFirst();
    assert "articles" in majic1 && "1" in SliceData(majic1["articles"]);
    MergeFirstWins(majic1, DefectSecond(), "articles", "1");
  }

  /** The keys of `xs` not in `s`, in order. */
  function FilterOut(xs: seq<string>, s: set<string>): (r: seq<string>)
    ensures forall x :: x in r <==> x in xs && x !in s
  {
    if xs == [] then [] else (if xs[0] in s then [] else [xs[0]]) + FilterOut(xs[1..], s)
  }

  lemma {:induction false} FilterOutKeepsNoDups(xs: seq<string>, s: set<string>)
    requires NoDups(xs)
    ensures NoDups(FilterOut(xs, s))
  {
    if xs != [] {
      FilterOutKeepsNoDups(xs[1..], s);
      assert xs[0] !in xs[1..] by {
        assert forall j :: 0 <= j < |xs[1..]| ==> xs[1..][j] == xs[j + 1] != xs[0];
      }
    }
  }

  lemma {:induction false} FilterOutUnion(xs: seq<string>, s: set<string>, t: set<string>)
    ensures FilterOut(FilterOut(xs, s), t) == FilterOut(xs, s + t)
  {
    if xs != [] {
      FilterOutUnion(xs[1..], s, t);
      var rest := FilterOut(xs[1..], s);
      if xs[0] in s {
        assert FilterOut(xs, s) == rest;
        assert FilterOut(xs, s + t) == FilterOut(xs[1..], s + t);
      } else {
        var once := FilterOut(xs, s);
        assert once == [xs[0]] + rest;
        assert once != [] && once[0] == xs[0] && once[1..] == rest;
        if xs[0] in t {
          assert FilterOut(once, t) == FilterOut(rest, t);
          assert FilterOut(xs, s + t) == FilterOut(xs[1..], s + t);
        } else {
          assert FilterOut(once, t) == [xs[0]] + FilterOut(rest, t);
          assert FilterOut(xs, s + t) == [xs[0]] + FilterOut(xs[1..], s + t);
        }
      }
    }
  }

  lemma {:induction false} FilterOutAbsent(xs: seq<string>, t: set<string>)
    requires forall x :: x in t ==> x !in xs
    ensures FilterOut(xs, t) == xs
  {
    if xs != [] {
      FilterOutAbsent(xs[1..], t);
      assert xs == [xs[0]] + xs[1..];
    }
  }

  /** On a list without duplicates, splicing out the first occurrence of a present key filters it out. */
  lemma {:induction false} SpliceOutFirst(xs: seq<string>, x: string)
    requires NoDups(xs) && x in xs
    ensures SpliceOut(xs, IndexOf(xs, x)) == FilterOut(xs, {x})
  {
    var tail := xs[1..];
    assert NoDups(tail) by {
      assert forall i, j :: 0 <= i < j < |tail| ==> tail[i] == xs[i + 1] && tail[j] == xs[j + 1];
    }
    if xs[0] == x {
      assert x !in tail by {
        assert forall j :: 0 <= j < |tail| ==> tail[j] == xs[j + 1];
      }
      FilterOutAbsent(tail, {x});
      assert SpliceOut(xs, 0) == tail;
    } else {
      SpliceOutFirst(tail, x);
      SpliceOutCons(xs, IndexOf(tail, x) + 1);
    }
  }

  /** Splicing out a later element keeps the head in front. */
  lemma SpliceOutCons(xs: seq<string>, i: int)
    requires 0 < i < |xs|
    ensures SpliceOut(xs, i) == [xs[0]] + SpliceOut(xs[1..], i - 1)
  {
    assert xs[..i] == [xs[0]] + xs[1..][..i - 1];
    assert xs[i + 1..] == xs[1..][i..];
  }

  /** Copying a list of keys writes the second store's value at each of them. */
  lemma {:induction false} CopyAllWrites(majics: map<string, Json>, keys: seq<string>, majic2: map<string, Json>)
    requires forall k :: k in keys ==> k in majic2
    ensures CopyAll(majics, keys, majic2) == majics + map k | k in keys :: majic2[k]
  {
    if keys != [] {
      var init := keys[..|keys| - 1];
      CopyAllWrites(majics, init, majic2);
      assert keys == init + [keys[|keys| - 1]];
    }
  }

  /** The first pass writes exactly the keys it handles... */
  lemma {:induction false} WrittenKeys(majic1: map<string, Json>, majic2: map<string, Json>, keys1: seq<string>, k: string)
    requires forall k :: k in keys1 ==> k in majic1
    ensures k in Written(majic1, majic2, keys1) <==> k in keys1
  {
    if keys1 != [] {
      var init := keys1[..|keys1| - 1];
      var key := keys1[|keys1| - 1];
      assert keys1 == init + [key];
      WrittenKeys(majic1, majic2, init, k);
    }
  }

  /** ...and the intended merged value at each of them. */
  lemma {:induction false} WrittenValues(majic1: map<string, Json>, majic2: map<string, Json>, keys1: seq<string>, k: string)
    requires forall k :: k in keys1 ==> k in majic1
    requires k in keys1
    ensures k in Written(majic1, majic2, keys1)
    ensures Written(majic1, majic2, keys1)[k] == FirstEntry(majic1, majic2, k)
  {
    var init := keys1[..|keys1| - 1];
    var key := keys1[|keys1| - 1];
    assert keys1 == init + [key];
    var before := Written(majic1, majic2, init);
    assert Written(majic1, majic2, keys1) == before[key := FirstEntry(majic1, majic2, key)];
    if k != key {
      WrittenValues(majic1, majic2, init, k);
    }
  }

  /**
   * While every key handled so far has been crossed off, the list holds
   * exactly the second store's keys the first pass has not reached.
   */
  lemma {:induction false} CrossOffFilters(keys1: seq<string>, order2: seq<string>)
    requires NoDups(keys1) && NoDups(order2)
    requires PrimaryEntities in keys1 ==> PrimaryEntities in order2
    ensures CrossOff(keys1, order2) == FilterOut(order2, set k | k in keys1)
  {
    if keys1 == [] {
      assert (set k | k in keys1) == {};
      FilterOutAbsent(order2, {});
    } else {
      var init := keys1[..|keys1| - 1];
      var key := keys1[|keys1| - 1];
      assert keys1 == init + [key];
      assert key !in init by {
        assert forall j :: 0 <= j < |init| ==> init[j] == keys1[j] != key;
      }
      assert NoDups(init) by {
        assert forall i, j :: 0 <= i < j < |init| ==> init[i] == keys1[i] && init[j] == keys1[j];
      }
      CrossOffFilters(init, order2);
      var s := set k | k in init;
      var rest := FilterOut(order2, s);
      FilterOutKeepsNoDups(order2, s);
      FilterOutUnion(order2, s, {key});
      assert (set k | k in keys1) == s + {key};
      if key in rest {
        SpliceOutFirst(rest, key);
      } else {
        FilterOutAbsent(rest, {key});
      }
    }
  }

  /** When the second store has `__primaryEntities` whenever the first does, the code as written agrees with the intended merge. */
  lemma MergeLibAgrees(majic1: map<string, Json>, order1: seq<string>, majic2: map<string, Json>, order2: seq<string>)
    requires KeyOrder(order1, majic1) && KeyOrder(order2, majic2)
    requires PrimaryEntities in majic1 ==> PrimaryEntities in majic2
    ensures MergeLib(majic1, order1, majic2, order2) == Merged(majic1, majic2)
  {
    var written := Written(majic1, majic2, order1);
    var remainder := CrossOff(order1, order2);
    WrittenAll(majic1, majic2, order1);
    RemainderUnhandled(majic1, order1, majic2, order2);
    CopyAllWrites(written, remainder, majic2);
    CombineAgrees(majic1, majic2, written, remainder);
  }

  /** The first pass over all of the first store's keys writes the intended entry at each of them. */
  lemma WrittenAll(majic1: map<string, Json>, majic2: map<string, Json>, order1: seq<string>)
    requires KeyOrder(order1, majic1)
    ensures forall k :: k in Written(majic1, majic2, order1) <==> k in majic1
    ensures forall k :: k in Written(majic1, majic2, order1) ==> Written(majic1, majic2, order1)[k] == FirstEntry(majic1, majic2, k)
  {
    forall k
      ensures k in Written(majic1, majic2, order1) <==> k in majic1
      ensures k in majic1 ==> Written(majic1, majic2, order1)[k] == FirstEntry(majic1, majic2, k)
    {
      WrittenKeys(majic1, majic2, order1, k);
      if k in majic1 {
        WrittenValues(majic1, majic2, order1, k);
      }
    }
  }

  /** The remainder list holds exactly the second store's keys the first store lacks. */
  lemma RemainderUnhandled(majic1: map<string, Json>, order1: seq<string>, majic2: map<string, Json>, order2: seq<string>)
    requires KeyOrder(order1, majic1) && KeyOrder(order2, majic2)
    requires PrimaryEntities in majic1 ==> PrimaryEntities in majic2
    ensures forall k :: k in CrossOff(order1, order2) <==> k in majic2 && k !in majic1
    ensures forall k :: k in CrossOff(order1, order2) ==> k in majic2
  {
    CrossOffFilters(order1, order2);
    assert (set k | k in order1) == majic1.Keys;
  }

  /** The written first-store entries and the copied remainder make up the intended merge. */
  lemma CombineAgrees(majic1: map<string, Json>, majic2: map<string, Json>, written: map<string, Json>, remainder: seq<string>)
    requires forall k :: k in written <==> k in majic1
    requires forall k :: k in written ==> written[k] == FirstEntry(majic1, majic2, k)
    requires forall k :: k in remainder <==> k in majic2 && k !in majic1
    ensures written + (map k | k in remainder :: majic2[k]) == Merged(majic1, majic2)
  {
    var combined := written + (map k | k in remainder :: majic2[k]);
    forall k
      ensures k in combined <==> k in Merged(majic1, majic2)
      ensures k in combined ==> combined[k] == Merged(majic1, majic2)[k]
    {
    }
    SameStore(combined, Merged(majic1, majic2));
  }
}
