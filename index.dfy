/**
  The `BTree` secondary index of index/btree.go as a class: it observes the
  caller's base array and keeps the ordered container of `indexNode`s in
  its `tree` field. Every method is one atomic step; the read/write lock is
  not modelled.
 */
module Index {
  import opened OrderedMap
  import opened IndexSpec

  /** The field values of the base array, as `getField` extracts them. */
  function Fields<A>(data: seq<A>, field: A -> int): (r: seq<int>)
    ensures |r| == |data|
    ensures forall j :: 0 <= j < |data| ==> r[j] == field(data[j])
  {
    seq(|data|, j requires 0 <= j < |data| => field(data[j]))
  }

  /**
    `rmFromArr`: deletes every copy of `val` from the slice `arr[..arr.Length]`
    in place, overwriting each hit with the current last element and
    shrinking the slice. Returns the new length; the slice is `arr[..n]`.
   */
  method RmFromArr(arr: array<int>, val: int) returns (n: nat)
    modifies arr
    ensures n <= arr.Length
    ensures arr[..n] == SwapRemove(old(arr[..]), val)
  {
    n := arr.Length;
    var shortener := 0;
    assert arr[..n] == old(arr[..]);
    for i := 0 to arr.Length
      invariant shortener <= i
      invariant n == arr.Length - shortener
      invariant SwapRemoveFrom(arr[..n], val, i - shortener) == SwapRemove(old(arr[..]), val)
    {
      ghost var c := i - shortener;
      if arr[i - shortener] == val {
        ghost var before := arr[..n];
        arr[i - shortener] := arr[n - 1];
        n := n - 1;
        shortener := shortener + 1;
        assert arr[..n] == before[c := before[n]][..n];
      }
    }
    assert arr[..n] == SwapRemoveFrom(arr[..n], val, n);
  }

  /** The iterator callback of `Find`: appends the positions of every visited entry. */
  method Collect(t: Tree, order: seq<int>) returns (data: seq<int>)
    requires forall k :: k in order ==> k in t
    ensures data == Gather(t, order)
  {
    data := [];
    for j := 0 to |order|
      invariant data + Gather(t, order[j..]) == Gather(t, order)
    {
      var k := order[j];
      assert k in order;
      GatherStep(t, order, j);
      data := data + t[k];
    }
  }

  /**
    The iterator callback of `GetRange` driven over `order`: skips an
    excluded lower bound, stops at an excluded upper bound or past the upper
    bound, and otherwise appends the entry's positions.
   */
  method Walk(t: Tree, order: seq<int>, from: int, to: int, includeFrom: bool, includeTo: bool)
    returns (r: seq<int>)
    requires forall k :: k in order ==> k in t
    ensures r == RangeWalk(t, order, from, to, includeFrom, includeTo)
  {
    r := [];
    var j := 0;
    while j < |order|
      invariant 0 <= j <= |order|
      invariant r + RangeWalk(t, order[j..], from, to, includeFrom, includeTo) ==
                RangeWalk(t, order, from, to, includeFrom, includeTo)
    {
      var k := order[j];
      assert k in order;
      RangeWalkStep(t, order, j, from, to, includeFrom, includeTo);
      if !includeFrom && k == from {
        j := j + 1;
        continue;
      }
      if !includeTo && k == to {
        break;
      }
      if k > to {
        break;
      }
      r := r + t[k];
      j := j + 1;
    }
  }

  class BTree<A> {
    /** The caller's base array (`*dataPtr`); callers change it directly. */
    var data: seq<A>
    /** The indexed field (`getField`). */
    const getField: A -> int
    /** The ordered container of `indexNode`s. */
    var tree: Tree

    /** `NewBTree`: observe `data` and build the index once. */
    constructor (data: seq<A>, field: A -> int)
      ensures this.data == data && getField == field
      ensures tree == BuildIndex(Fields(data, field))
    {
      this.data := data;
      getField := field;
      tree := map[];
      new;
      Rebuild();
    }

    /** Drops the tree and indexes every position of the base array in order. */
    method Rebuild()
      modifies this`tree
      ensures tree == BuildIndex(Fields(data, getField))
    {
      ghost var f := Fields(data, getField);
      tree := map[];
      for j := 0 to |data|
        invariant tree == BuildIndex(f[..j])
      {
        var tmpData := getField(data[j]);
        var tmpINode := if tmpData in tree then tree[tmpData] + [j] else [j];
        assert tmpINode == OrEmpty(Lookup(tree, tmpData)) + [j];
        assert f[..j + 1][..j] == f[..j] && f[j] == tmpData;
        assert BuildIndex(f[..j + 1]) == PutPos(BuildIndex(f[..j]), tmpData, j);
        tree := tree[tmpData := tmpINode];
      }
      assert f[..|data|] == f;
    }

    /** The positions recorded for `key`, or nil. */
    function Get(key: int): Option<seq<int>>
      reads this
    {
      Lookup(tree, key)
    }

    /** Records that position `index` now holds `item`. */
    method Put(item: A, index: int)
      modifies this`tree
      ensures tree == PutPos(old(tree), getField(item), index)
    {
      var tmpData := getField(item);
      var found := Lookup(tree, tmpData);
      var tmpINode := if found.Some? then found.value + [index] else [index];
      assert tmpINode == OrEmpty(Lookup(tree, tmpData)) + [index];
      tree := tree[tmpData := tmpINode];
    }

    /** Forgets position `index` of `item`, rebuilding first when `item`'s value has no entry. */
    method Rm(item: A, index: int)
      modifies this`tree
      ensures tree == RmState(old(tree), Fields(data, getField), getField(item), index)
    {
      var tmpData := getField(item);
      var key := Get(tmpData);
      if key.None? {
        Rebuild();
      }
      if key.Some? && |key.value| > 1 {
        var positions := key.value;
        var arr := new int[|positions|](j requires 0 <= j < |positions| => positions[j]);
        assert arr[..] == positions;
        var n := RmFromArr(arr, index);
        tree := tree[tmpData := arr[..n]];
        return;
      }
      tree := tree - {tmpData};
    }

    /** Positions of the entries matching `key` under `mode`, in the traversal's order. */
    method Find(key: int, mode: SearchMethod) returns (r: FindResult)
      ensures r == FindSpec(tree, key, mode)
      ensures mode == EQ ==> r == Found(OrEmpty(Get(key)))
      ensures r.Panic? <==> mode > LTE
    {
      if mode == EQ {
        return Found(OrEmpty(Get(key)));
      }
      var order: seq<int>;
      if mode == GT {
        order := DescendGreaterThan(tree.Keys, key);
      } else if mode == GTE {
        order := AscendGreaterOrEqual(tree.Keys, key);
      } else if mode == LT {
        order := AscendLessThan(tree.Keys, key);
      } else if mode == LTE {
        order := DescendLessOrEqual(tree.Keys, key);
      } else {
        return Panic("invalid search method");
      }
      assert order == Visit(tree.Keys, key, mode);
      var data := Collect(tree, order);
      return Found(data);
    }

    /** Positions whose value lies between `from` and `to`, as the descending walk collects them. */
    method GetRange(from: int, to: int, includeFrom: bool, includeTo: bool) returns (r: seq<int>)
      ensures r == GetRangeSpec(tree, from, to, includeFrom, includeTo)
    {
      if to == from {
        if includeFrom && includeTo {
          return OrEmpty(Get(from));
        }
        return [];
      }
      var lo, hi := from, to;
      if lo > hi {
        lo, hi := hi, lo;
      }
      var order := DescendGreaterThan(tree.Keys, lo);
      r := Walk(tree, order, lo, hi, includeFrom, includeTo);
    }

    /**
      `GetRange` as evidently intended: the same callback over an ascending
      walk from the lower bound, which collects exactly the entries inside
      the requested interval.
     */
    method GetRangeAscendingWalk(from: int, to: int, includeFrom: bool, includeTo: bool) returns (r: seq<int>)
      ensures r == GetRangeAscending(tree, from, to, includeFrom, includeTo)
      ensures
        var lo := if from > to then to else from;
        var hi := if from > to then from else to;
        forall p :: p in r <==> exists k :: k in tree && InBounds(k, lo, hi, includeFrom, includeTo) && p in tree[k]
    {
      GetRangeAscendingMembership(tree, from, to, includeFrom, includeTo);
      if to == from {
        if includeFrom && includeTo {
          return OrEmpty(Get(from));
        }
        return [];
      }
      var lo, hi := from, to;
      if lo > hi {
        lo, hi := hi, lo;
      }
      var order := AscendGreaterOrEqual(tree.Keys, lo);
      r := Walk(tree, order, lo, hi, includeFrom, includeTo);
    }
  }
}
