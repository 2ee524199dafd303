/**
  The repository's own test scenarios for the index (index/btree_test.go),
  replayed on the model: a base array of ten records keyed by a field, the
  lookups and traversals its tests make, the `Put` and swap-delete
  scenarios, and the `rmFromArr` table.
 */
module IndexScenarios {
  import opened OrderedMap
  import opened IndexSpec
  import opened Index

  /** A record of the base array; `key` is the indexed field. */
  datatype Entity = Entity(i: int, key: int)

  function KeyOf(e: Entity): int {
    e.key
  }

  /** The base array every test starts from. */
  function TestData(): (d: seq<Entity>)
    ensures |d| == 10
  {
    [Entity(0, 6), Entity(1, 1), Entity(2, 1), Entity(3, 5), Entity(4, 6),
     Entity(5, 7), Entity(6, 8), Entity(7, 8), Entity(8, 10), Entity(9, 10)]
  }

  /** Its field values. */
  function TestKeys(): seq<int> {
    [6, 1, 1, 5, 6, 7, 8, 8, 10, 10]
  }

  /** The tree `NewBTree` builds over the test data. */
  function TestTree(): Tree {
    map[6 := [0, 4], 1 := [1, 2], 5 := [3], 7 := [5], 8 := [6, 7], 10 := [8, 9]]
  }

  lemma TestFields()
    ensures Fields(TestData(), KeyOf) == TestKeys()
  {
    var d := TestData();
    assert Fields(d, KeyOf) == [KeyOf(d[0]), KeyOf(d[1]), KeyOf(d[2]), KeyOf(d[3]), KeyOf(d[4]),
                                KeyOf(d[5]), KeyOf(d[6]), KeyOf(d[7]), KeyOf(d[8]), KeyOf(d[9])];
  }

  /** One iteration of `Rebuild` on concrete values. */
  lemma RebuildStep(f: seq<int>, t: Tree, v: int, g: seq<int>, entry: seq<int>, u: Tree)
    requires BuildIndex(f) == t && g == f + [v]
    requires OrEmpty(Lookup(t, v)) + [|f|] == entry
    requires u == t[v := entry]
    ensures BuildIndex(g) == u
  {
    PutAfterAppendIsRebuild(f, v);
  }

  /** Rebuilding over the first 2 test keys. */
  lemma TestIndex2()
    ensures BuildIndex([6, 1]) == map[6 := [0], 1 := [1]]
  {
    RebuildStep([], map[], 6, [6], [0], map[6 := [0]]);
    RebuildStep([6], map[6 := [0]], 1, [6, 1], [1], map[6 := [0], 1 := [1]]);
  }

  /** Rebuilding over the first 4 test keys. */
  lemma TestIndex4()
    ensures BuildIndex([6, 1, 1, 5]) == map[6 := [0], 1 := [1, 2], 5 := [3]]
  {
    TestIndex2();
    RebuildStep([6, 1], map[6 := [0], 1 := [1]], 1, [6, 1, 1], [1, 2], map[6 := [0], 1 := [1, 2]]);
    RebuildStep([6, 1, 1], map[6 := [0], 1 := [1, 2]], 5, [6, 1, 1, 5], [3], map[6 := [0], 1 := [1, 2], 5 := [3]]);
  }

  /** Rebuilding over the first 6 test keys. */
  lemma TestIndex6()
    ensures BuildIndex([6, 1, 1, 5, 6, 7]) == map[6 := [0, 4], 1 := [1, 2], 5 := [3], 7 := [5]]
  {
    TestIndex4();
    RebuildStep([6, 1, 1, 5], map[6 := [0], 1 := [1, 2], 5 := [3]], 6, [6, 1, 1, 5, 6], [0, 4], map[6 := [0, 4], 1 := [1, 2], 5 := [3]]);
    RebuildStep([6, 1, 1, 5, 6], map[6 := [0, 4], 1 := [1, 2], 5 := [3]], 7, [6, 1, 1, 5, 6, 7], [5], map[6 := [0, 4], 1 := [1, 2], 5 := [3], 7 := [5]]);
  }

  /** Rebuilding over the first 8 test keys. */
  lemma TestIndex8()
    ensures BuildIndex([6, 1, 1, 5, 6, 7, 8, 8]) == map[6 := [0, 4], 1 := [1, 2], 5 := [3], 7 := [5], 8 := [6, 7]]
  {
    TestIndex6();
    RebuildStep([6, 1, 1, 5, 6, 7], map[6 := [0, 4], 1 := [1, 2], 5 := [3], 7 := [5]], 8, [6, 1, 1, 5, 6, 7, 8], [6], map[6 := [0, 4], 1 := [1, 2], 5 := [3], 7 := [5], 8 := [6]]);
    RebuildStep([6, 1, 1, 5, 6, 7, 8], map[6 := [0, 4], 1 := [1, 2], 5 := [3], 7 := [5], 8 := [6]], 8, [6, 1, 1, 5, 6, 7, 8, 8], [6, 7], map[6 := [0, 4], 1 := [1, 2], 5 := [3], 7 := [5], 8 := [6, 7]]);
  }

  /** Rebuilding over the test keys yields the expected tree, one position at a time. */
  lemma TestIndex()
    ensures BuildIndex(TestKeys()) == TestTree()
  {
    TestIndex8();
    RebuildStep([6, 1, 1, 5, 6, 7, 8, 8], map[6 := [0, 4], 1 := [1, 2], 5 := [3], 7 := [5], 8 := [6, 7]], 10, [6, 1, 1, 5, 6, 7, 8, 8, 10], [8], map[6 := [0, 4], 1 := [1, 2], 5 := [3], 7 := [5], 8 := [6, 7], 10 := [8]]);
    RebuildStep([6, 1, 1, 5, 6, 7, 8, 8, 10], map[6 := [0, 4], 1 := [1, 2], 5 := [3], 7 := [5], 8 := [6, 7], 10 := [8]], 10, [6, 1, 1, 5, 6, 7, 8, 8, 10, 10], [8, 9], map[6 := [0, 4], 1 := [1, 2], 5 := [3], 7 := [5], 8 := [6, 7], 10 := [8, 9]]);
  }

  /** The test index: `NewBTree` over the test data. */
  method NewTestIndex() returns (idx: BTree<Entity>)
    ensures fresh(idx)
    ensures idx.data == TestData() && idx.getField == KeyOf
    ensures idx.tree == TestTree()
  {
    idx := new BTree(TestData(), KeyOf);
    TestFields();
    TestIndex();
  }

  /** "Get by key 1" and "Get by key 2": both lookups list positions 1 and 2. */
  method GetScenarios() returns (byGet: Option<seq<int>>, byFind: FindResult)
    ensures byGet == Some([1, 2])
    ensures byFind == Found([1, 2])
  {
    var idx := NewTestIndex();
    byGet := idx.Get(1);
    byFind := idx.Find(1, EQ);
  }

  /** On a consistent index, `Find`'s multiset of positions is determined by the base array alone. */
  lemma FindCounts(t: Tree, f: seq<int>, key: int, m: SearchMethod, expected: multiset<int>)
    requires Consistent(t, f)
    requires m <= LTE
    requires forall p :: 0 <= p < |f| ==> expected[p] == if Matches(f[p], key, m) then 1 else 0
    requires forall p :: p in expected ==> 0 <= p < |f|
    ensures FindSpec(t, key, m).Found?
    ensures multiset(FindSpec(t, key, m).positions) == expected
  {
    FindMatchesBase(t, f, key, m);
    var r := FindSpec(t, key, m).positions;
    forall p ensures multiset(r)[p] == expected[p] {
      if !(0 <= p < |f|) {
        assert p !in expected;
      }
    }
    assert multiset(r) == expected;
  }

  /** Which test positions lie on the requested side of 6, for each traversal test. */
  lemma TestMatches(m: SearchMethod, expected: multiset<int>)
    requires || (m == GT && expected == multiset{5, 6, 7, 8, 9})
             || (m == GTE && expected == multiset{0, 4, 5, 6, 7, 8, 9})
             || (m == LT && expected == multiset{1, 2, 3})
             || (m == LTE && expected == multiset{0, 1, 2, 3, 4})
    ensures forall p :: 0 <= p < 10 ==> expected[p] == if Matches(TestKeys()[p], 6, m) then 1 else 0
    ensures forall p :: p in expected ==> 0 <= p < 10
  {
    var f := TestKeys();
    assert f[0] == 6 && f[1] == 1 && f[2] == 1 && f[3] == 5 && f[4] == 6;
    assert f[5] == 7 && f[6] == 8 && f[7] == 8 && f[8] == 10 && f[9] == 10;
    forall p | 0 <= p < 10 ensures expected[p] == if Matches(f[p], 6, m) then 1 else 0 {
      if p == 0 {} else if p == 1 {} else if p == 2 {} else if p == 3 {} else if p == 4 {}
      else if p == 5 {} else if p == 6 {} else if p == 7 {} else if p == 8 {} else {}
    }
  }

  /** `Find` on the index `NewBTree` builds over the test data, from the invariant `Rebuild` establishes. */
  lemma FindOnTest(t: Tree, m: SearchMethod, expected: multiset<int>)
    requires t == BuildIndex(Fields(TestData(), KeyOf))
    requires GT <= m <= LTE
    requires forall p :: 0 <= p < 10 ==> expected[p] == if Matches(TestKeys()[p], 6, m) then 1 else 0
    requires forall p :: p in expected ==> 0 <= p < 10
    ensures FindSpec(t, 6, m).Found?
    ensures multiset(FindSpec(t, 6, m).positions) == expected
  {
    TestFields();
    RebuildConsistent(TestKeys());
    FindCounts(t, TestKeys(), 6, m, expected);
  }

  /** The four traversal tests of the repository, as expected multisets of positions. */
  lemma FindTestCase(t: Tree, m: SearchMethod, expected: multiset<int>)
    requires t == BuildIndex(Fields(TestData(), KeyOf))
    requires || (m == GT && expected == multiset{5, 6, 7, 8, 9})
             || (m == GTE && expected == multiset{0, 4, 5, 6, 7, 8, 9})
             || (m == LT && expected == multiset{1, 2, 3})
             || (m == LTE && expected == multiset{0, 1, 2, 3, 4})
    ensures FindSpec(t, 6, m).Found?
    ensures multiset(FindSpec(t, 6, m).positions) == expected
  {
    TestMatches(m, expected);
    FindOnTest(t, m, expected);
  }

  /** "Get gather": `Find(6, GT)` lists positions 5 to 9. */
  method FindGatherScenario() returns (r: FindResult)
    ensures r.Found? && multiset(r.positions) == multiset{5, 6, 7, 8, 9}
  {
    var idx := new BTree(TestData(), KeyOf);
    r := idx.Find(6, GT);
    FindTestCase(idx.tree, GT, multiset{5, 6, 7, 8, 9});
  }

  /** "Get gather or equal": `Find(6, GTE)` lists positions 0 and 4 to 9. */
  method FindGatherOrEqualScenario() returns (r: FindResult)
    ensures r.Found? && multiset(r.positions) == multiset{0, 4, 5, 6, 7, 8, 9}
  {
    var idx := new BTree(TestData(), KeyOf);
    r := idx.Find(6, GTE);
    FindTestCase(idx.tree, GTE, multiset{0, 4, 5, 6, 7, 8, 9});
  }

  /** "Get lighter": `Find(6, LT)` lists positions 1 to 3. */
  method FindLighterScenario() returns (r: FindResult)
    ensures r.Found? && multiset(r.positions) == multiset{1, 2, 3}
  {
    var idx := new BTree(TestData(), KeyOf);
    r := idx.Find(6, LT);
    FindTestCase(idx.tree, LT, multiset{1, 2, 3});
  }

  /** `Find(6, LTE)` lists positions 0 to 4 (the "Get lighter or equal" test calls GTE instead). */
  method FindLighterOrEqualScenario() returns (r: FindResult)
    ensures r.Found? && multiset(r.positions) == multiset{0, 1, 2, 3, 4}
  {
    var idx := new BTree(TestData(), KeyOf);
    r := idx.Find(6, LTE);
    FindTestCase(idx.tree, LTE, multiset{0, 1, 2, 3, 4});
  }

  /** "Add uniq val and get": a record with a new field value gets its own entry. */
  method PutUniqueScenario() returns (r: Option<seq<int>>)
    ensures r == Some([10])
  {
    var idx := NewTestIndex();
    idx.data := idx.data + [Entity(10, 20)];
    assert idx.getField(idx.data[|idx.data| - 1]) == 20;
    idx.Put(idx.data[|idx.data| - 1], |idx.data| - 1);
    assert OrEmpty(Lookup(TestTree(), 20)) + [10] == [10];
    r := idx.Get(20);
  }

  /** "Add non uniq val and get": the new position joins the existing entry, last. */
  method PutSharedScenario() returns (r: Option<seq<int>>)
    ensures r == Some([1, 2, 10])
  {
    var idx := NewTestIndex();
    idx.data := idx.data + [Entity(10, 1)];
    assert idx.getField(idx.data[|idx.data| - 1]) == 1;
    idx.Put(idx.data[|idx.data| - 1], |idx.data| - 1);
    assert OrEmpty(Lookup(TestTree(), 1)) + [10] == [1, 2, 10];
    r := idx.Get(1);
  }

  /**
    "Remove val and get": delete record 5 by the swap-delete protocol. Key 7
    loses its only position; key 10 keeps position 8 and gains 5, where the
    last record moved.
   */
  method SwapDeleteScenario() returns (gone: Option<seq<int>>, moved: Option<seq<int>>)
    ensures gone == None
    ensures moved == Some([8, 5])
  {
    var idx := NewTestIndex();
    var removed := 5;
    var t0 := idx.tree;
    assert idx.getField(idx.data[removed]) == 7;
    idx.Rm(idx.data[removed], removed);
    var t1 := idx.tree;
    assert t1 == t0 - {7};
    assert idx.getField(idx.data[|idx.data| - 1]) == 10;
    idx.Rm(idx.data[|idx.data| - 1], |idx.data| - 1);
    assert SwapRemove([8, 9], 9) == [8] by {
      Miss([8, 9], 9, 0);
      Hit([8, 9], 9, 1, [8]);
    }
    var t2 := idx.tree;
    assert t2 == t1[10 := [8]];
    idx.data := idx.data[removed := idx.data[|idx.data| - 1]][..|idx.data| - 1];
    assert idx.getField(idx.data[removed]) == 10;
    idx.Put(idx.data[removed], removed);
    assert OrEmpty(Lookup(t2, 10)) + [5] == [8, 5];
    gone := idx.Get(7);
    moved := idx.Get(10);
  }

  /** `Rm` of a value with a single position deletes the entry whatever position it is given. */
  method RmWrongPositionScenario() returns (r: Option<seq<int>>)
    ensures r == None
  {
    var idx := NewTestIndex();
    idx.Rm(Entity(5, 7), 3);
    r := idx.Get(7);
  }

  /**
    `Rm` of a value with no entry rebuilds the whole index first: a record
    appended without `Put` becomes visible.
   */
  method RmRebuildsScenario() returns (r: Option<seq<int>>)
    ensures r == Some([10])
  {
    var idx := NewTestIndex();
    idx.data := idx.data + [Entity(10, 20)];
    assert Fields(idx.data, KeyOf) == TestKeys() + [20] by {
      TestFields();
      assert Fields(idx.data, KeyOf)[..10] == Fields(TestData(), KeyOf);
    }
    TestIndex();
    PutAfterAppendIsRebuild(TestKeys(), 20);
    assert 30 !in idx.tree;
    idx.Rm(Entity(11, 30), 0);
    assert idx.tree == PutPos(TestTree(), 20, 10) - {30};
    assert OrEmpty(Lookup(TestTree(), 20)) + [10] == [10];
    r := idx.Get(20);
  }

  /**
    `Rm` can leave an empty entry: after a duplicate `Put` of position 3,
    removing position 3 empties key 5's list instead of deleting it.
   */
  method RmEmptiesScenario() returns (r: Option<seq<int>>)
    ensures r == Some([])
  {
    var idx := NewTestIndex();
    assert idx.getField(idx.data[3]) == 5;
    idx.Put(idx.data[3], 3);
    assert OrEmpty(Lookup(TestTree(), 5)) + [3] == [3, 3];
    assert idx.tree[5] == [3, 3];
    idx.Rm(idx.data[3], 3);
    assert SwapRemove([3, 3], 3) == [] by {
      Hit([3, 3], 3, 0, [3]);
      Hit([3], 3, 0, []);
    }
    r := idx.Get(5);
  }

  /** `rmFromArr` at cursor `c` on a hit: the hit is overwritten by the last element. */
  lemma Hit(a: seq<int>, val: int, c: nat, b: seq<int>)
    requires c < |a| && a[c] == val
    requires b == a[c := a[|a| - 1]][..|a| - 1]
    ensures SwapRemoveFrom(a, val, c) == SwapRemoveFrom(b, val, c)
  {
  }

  /** `rmFromArr` at cursor `c` on a miss: the cursor moves on. */
  lemma Miss(a: seq<int>, val: int, c: nat)
    requires c < |a| && a[c] != val
    ensures SwapRemoveFrom(a, val, c) == SwapRemoveFrom(a, val, c + 1)
  {
  }

  /** The table of the `rmFromArr` test. */
  lemma RmFromArrTable()
    ensures SwapRemove([1, 2, 3, 4], 2) == [1, 4, 3]
    ensures SwapRemove([1, 2, 2, 4], 2) == [1, 4]
    ensures SwapRemove([1, 2, 3, 4], 5) == [1, 2, 3, 4]
    ensures SwapRemove([1, 2, 3], 1) == [3, 2]
    ensures SwapRemove([1, 2, 3], 3) == [1, 2]
    ensures SwapRemove([1], 1) == []
    ensures SwapRemove([1, 1, 1], 1) == []
  {
    assert SwapRemove([1, 2, 3, 4], 2) == [1, 4, 3] by {
      Miss([1, 2, 3, 4], 2, 0);
      Hit([1, 2, 3, 4], 2, 1, [1, 4, 3]);
      Miss([1, 4, 3], 2, 1);
      Miss([1, 4, 3], 2, 2);
      assert SwapRemoveFrom([1, 4, 3], 2, 3) == [1, 4, 3];
    }
    assert SwapRemove([1, 2, 2, 4], 2) == [1, 4] by {
      Miss([1, 2, 2, 4], 2, 0);
      Hit([1, 2, 2, 4], 2, 1, [1, 4, 2]);
      Miss([1, 4, 2], 2, 1);
      Hit([1, 4, 2], 2, 2, [1, 4]);
      assert SwapRemoveFrom([1, 4], 2, 2) == [1, 4];
    }
    assert SwapRemove([1, 2, 3, 4], 5) == [1, 2, 3, 4] by {
      Miss([1, 2, 3, 4], 5, 0);
      Miss([1, 2, 3, 4], 5, 1);
      Miss([1, 2, 3, 4], 5, 2);
      Miss([1, 2, 3, 4], 5, 3);
      assert SwapRemoveFrom([1, 2, 3, 4], 5, 4) == [1, 2, 3, 4];
    }
    assert SwapRemove([1, 2, 3], 1) == [3, 2] by {
      Hit([1, 2, 3], 1, 0, [3, 2]);
      Miss([3, 2], 1, 0);
      Miss([3, 2], 1, 1);
      assert SwapRemoveFrom([3, 2], 1, 2) == [3, 2];
    }
    assert SwapRemove([1, 2, 3], 3) == [1, 2] by {
      Miss([1, 2, 3], 3, 0);
      Miss([1, 2, 3], 3, 1);
      Hit([1, 2, 3], 3, 2, [1, 2]);
      assert SwapRemoveFrom([1, 2], 3, 2) == [1, 2];
    }
    assert SwapRemove([1], 1) == [] by {
      Hit([1], 1, 0, []);
      assert SwapRemoveFrom([], 1, 0) == [];
    }
    assert SwapRemove([1, 1, 1], 1) == [] by {
      Hit([1, 1, 1], 1, 0, [1, 1]);
      Hit([1, 1], 1, 0, [1]);
      Hit([1], 1, 0, []);
      assert SwapRemoveFrom([], 1, 0) == [];
    }
  }

  /** "rm many from the middle", run in place on an array. */
  method RmFromArrScenario() returns (r: seq<int>)
    ensures r == [1, 4]
  {
    var arr := new int[4];
    arr[0], arr[1], arr[2], arr[3] := 1, 2, 2, 4;
    assert arr[..] == [1, 2, 2, 4];
    var n := RmFromArr(arr, 2);
    RmFromArrTable();
    r := arr[..n];
  }

  /** The test tree, entry by entry. */
  predicate IsTestTree(t: Tree) {
    && t.Keys == {1, 5, 6, 7, 8, 10}
    && t[1] == [1, 2] && t[5] == [3] && t[6] == [0, 4] && t[7] == [5] && t[8] == [6, 7] && t[10] == [8, 9]
  }

  lemma TestTreeEntries(t: Tree)
    requires t == BuildIndex(Fields(TestData(), KeyOf))
    ensures IsTestTree(t)
  {
    TestFields();
    TestIndex();
  }

  /** As written, the descending walk meets key 10 first and stops. */
  lemma GetRangeOnTest(t: Tree)
    requires IsTestTree(t)
    ensures GetRangeSpec(t, 5, 8, true, true) == []
  {
    assert 10 in t;
    GetRangeBehaviour(t, 5, 8, true, true);
  }

  /** On the test index the ascending traversal from 5 visits 5, 6, 7, 8 and 10. */
  lemma AscendFromFiveOnTest(t: Tree)
    requires IsTestTree(t)
    ensures AscendGreaterOrEqual(t.Keys, 5) == [5, 6, 7, 8, 10]
  {
    assert forall k :: k in t.Keys <==> k == 1 || k == 5 || k == 6 || k == 7 || k == 8 || k == 10;
    AscendExact(t.Keys, 5, [5, 6, 7, 8, 10]);
  }

  /** The range callback takes 5, 6, 7 and 8 and stops at 10. */
  lemma WalkFromFiveOnTest(t: Tree)
    requires IsTestTree(t)
    ensures RangeWalk(t, [5, 6, 7, 8, 10], 5, 8, true, true) == [3, 0, 4, 5, 6, 7]
  {
    assert 5 in t && 6 in t && 7 in t && 8 in t;
    assert [5, 6, 7, 8, 10][1..] == [6, 7, 8, 10];
    assert [6, 7, 8, 10][1..] == [7, 8, 10];
    assert [7, 8, 10][1..] == [8, 10];
    assert [8, 10][1..] == [10];
    var w10 := RangeWalk(t, [10], 5, 8, true, true);
    assert w10 == [];
    var w8 := RangeWalk(t, [8, 10], 5, 8, true, true);
    assert w8 == t[8] + w10;
    var w7 := RangeWalk(t, [7, 8, 10], 5, 8, true, true);
    assert w7 == t[7] + w8;
    var w6 := RangeWalk(t, [6, 7, 8, 10], 5, 8, true, true);
    assert w6 == t[6] + w7;
    assert RangeWalk(t, [5, 6, 7, 8, 10], 5, 8, true, true) == t[5] + w6;
  }

  /** The ascending walk from 5 collects keys 5, 6, 7 and 8 in order, then stops at 10. */
  lemma GetRangeAscendingOnTest(t: Tree)
    requires IsTestTree(t)
    ensures GetRangeAscending(t, 5, 8, true, true) == [3, 0, 4, 5, 6, 7]
  {
    AscendFromFiveOnTest(t);
    WalkFromFiveOnTest(t);
  }

  /** `GetRange(5, 8, true, true)` on the test index, as written and as intended. */
  method GetRangeScenario() returns (asWritten: seq<int>, intended: seq<int>)
    ensures asWritten == []
    ensures intended == [3, 0, 4, 5, 6, 7]
  {
    var idx := new BTree(TestData(), KeyOf);
    TestTreeEntries(idx.tree);
    asWritten := idx.GetRange(5, 8, true, true);
    GetRangeOnTest(idx.tree);
    intended := idx.GetRangeAscendingWalk(5, 8, true, true);
    GetRangeAscendingOnTest(idx.tree);
  }
}
