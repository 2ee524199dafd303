/**
  The ordered container the index is built on (github.com/google/btree in the
  source), reduced to what the index uses of it: a finite map from an ordered
  key to a value, and traversals that visit the keys on one side of a pivot in
  ascending or descending order. Keys are mathematical integers; the tree's
  node layout and balancing are not modelled.
 */
module OrderedMap {

  /** Strictly ascending: the order of an ascending traversal. */
  ghost predicate Increasing(s: seq<int>) {
    forall i, j :: 0 <= i < j < |s| ==> s[i] < s[j]
  }

  /** Strictly descending: the order of a descending traversal. */
  ghost predicate Decreasing(s: seq<int>) {
    forall i, j :: 0 <= i < j < |s| ==> s[i] > s[j]
  }

  /** No key is visited twice. */
  ghost predicate Distinct(s: seq<int>) {
    forall i, j :: 0 <= i < j < |s| ==> s[i] != s[j]
  }

  lemma NonEmptyHasKey(s: set<int>)
    requires s != {}
    ensures exists x :: x in s
  {
    if forall x :: x !in s {
      assert false;
    }
  }

  lemma MinExists(s: set<int>)
    requires s != {}
    ensures exists m :: m in s && forall y :: y in s ==> m <= y
  {
    NonEmptyHasKey(s);
    var x :| x in s;
    if s != {x} {
      MinExists(s - {x});
      var m :| m in s - {x} && forall y :: y in s - {x} ==> m <= y;
      var least := if x < m then x else m;
      forall y | y in s ensures least <= y {
        if y != x { assert y in s - {x}; }
      }
    }
  }

  /** The least key of a non-empty key set. */
  function Min(s: set<int>): (m: int)
    requires s != {}
    ensures m in s && forall y :: y in s ==> m <= y
  {
    MinExists(s);
    var m :| m in s && forall y :: y in s ==> m <= y;
    m
  }

  /** The keys of the container in ascending order: a full in-order walk. */
  function SortedKeys(s: set<int>): (r: seq<int>)
    ensures Increasing(r)
    ensures |r| == |s|
    ensures forall k :: k in r <==> k in s
    decreases |s|
  {
    if s == {} then []
    else
      var m := Min(s);
      var rest := SortedKeys(s - {m});
      assert forall k :: k in rest ==> m < k;
      [m] + rest
  }

  /** The elements of `s` that `keep` accepts, in the order of `s`. */
  function Filter(s: seq<int>, keep: int -> bool): (r: seq<int>)
    ensures forall k :: k in r <==> k in s && keep(k)
    ensures Increasing(s) ==> Increasing(r)
  {
    if s == [] then []
    else
      var rest := Filter(s[1..], keep);
      assert Increasing(s) ==> Increasing(s[1..]) && Increasing([s[0]] + rest) by {
        if Increasing(s) {
          forall k | k in rest ensures s[0] < k {
            var i :| 0 <= i < |s[1..]| && s[1..][i] == k;
            assert s[i + 1] == k;
          }
          assert Increasing(s[1..]);
          var t := [s[0]] + rest;
          forall i, j | 0 <= i < j < |t| ensures t[i] < t[j] {
            if i > 0 {
              assert t[i] == rest[i - 1] && t[j] == rest[j - 1];
            } else {
              assert t[j] in rest;
            }
          }
        }
      }
      if keep(s[0]) then [s[0]] + rest else rest
  }

  /** `s` back to front. */
  function Reverse(s: seq<int>): (r: seq<int>)
    ensures |r| == |s|
    ensures forall i :: 0 <= i < |s| ==> r[i] == s[|s| - 1 - i]
  {
    if s == [] then [] else Reverse(s[1..]) + [s[0]]
  }

  lemma ReverseOfIncreasing(s: seq<int>)
    requires Increasing(s)
    ensures Decreasing(Reverse(s))
    ensures forall k :: k in Reverse(s) <==> k in s
  {
    var r := Reverse(s);
    forall k | k in s ensures k in r {
      var i :| 0 <= i < |s| && s[i] == k;
      assert r[|s| - 1 - i] == k;
    }
  }

  /** Keys >= pivot, lowest first (`AscendGreaterOrEqual`). */
  function AscendGreaterOrEqual(keys: set<int>, pivot: int): (r: seq<int>)
    ensures Increasing(r)
    ensures forall k :: k in r <==> k in keys && k >= pivot
  {
    Filter(SortedKeys(keys), k => k >= pivot)
  }

  /** Keys < pivot, lowest first (`AscendLessThan`). */
  function AscendLessThan(keys: set<int>, pivot: int): (r: seq<int>)
    ensures Increasing(r)
    ensures forall k :: k in r <==> k in keys && k < pivot
  {
    Filter(SortedKeys(keys), k => k < pivot)
  }

  /** Keys > pivot, highest first (`DescendGreaterThan`). */
  function DescendGreaterThan(keys: set<int>, pivot: int): (r: seq<int>)
    ensures Decreasing(r)
    ensures forall k :: k in r <==> k in keys && k > pivot
  {
    var up := Filter(SortedKeys(keys), k => k > pivot);
    ReverseOfIncreasing(up);
    Reverse(up)
  }

  /** Keys <= pivot, highest first (`DescendLessOrEqual`). */
  function DescendLessOrEqual(keys: set<int>, pivot: int): (r: seq<int>)
    ensures Decreasing(r)
    ensures forall k :: k in r <==> k in keys && k <= pivot
  {
    var up := Filter(SortedKeys(keys), k => k <= pivot);
    ReverseOfIncreasing(up);
    Reverse(up)
  }

  /** The head of a strictly ascending sequence is its least element, and the tail holds the rest. */
  lemma IncreasingHead(a: seq<int>)
    requires Increasing(a) && a != []
    ensures forall k :: k in a ==> a[0] <= k
    ensures forall k :: k in a[1..] <==> k in a && k != a[0]
  {
    forall k | k in a ensures a[0] <= k {
      var i :| 0 <= i < |a| && a[i] == k;
    }
    forall k ensures k in a[1..] <==> k in a && k != a[0] {
      if k in a && k != a[0] {
        var i :| 0 <= i < |a| && a[i] == k;
        assert a[1..][i - 1] == k;
      }
      if k in a[1..] {
        var i :| 0 <= i < |a[1..]| && a[1..][i] == k;
        assert a[i + 1] == k;
      }
    }
  }

  /** A strictly ascending sequence is fixed by its elements: two traversals of one key set agree. */
  lemma {:induction false} IncreasingUnique(a: seq<int>, b: seq<int>)
    requires Increasing(a) && Increasing(b)
    requires forall k :: k in a <==> k in b
    ensures a == b
  {
    assert a != [] ==> a[0] in a;
    assert b != [] ==> b[0] in b;
    if a != [] && b != [] {
      IncreasingHead(a);
      IncreasingHead(b);
      assert a[0] in b && b[0] in a;
      assert a[0] == b[0];
      assert Increasing(a[1..]) && Increasing(b[1..]);
      IncreasingUnique(a[1..], b[1..]);
      assert a == [a[0]] + a[1..] && b == [b[0]] + b[1..];
    }
  }

  /** The ascending traversal is the one strictly ascending listing of the keys >= pivot. */
  lemma AscendExact(keys: set<int>, pivot: int, visits: seq<int>)
    requires Increasing(visits)
    requires forall k :: k in visits <==> k in keys && k >= pivot
    ensures AscendGreaterOrEqual(keys, pivot) == visits
  {
    IncreasingUnique(AscendGreaterOrEqual(keys, pivot), visits);
  }

  lemma IncreasingIsDistinct(s: seq<int>)
    requires Increasing(s)
    ensures Distinct(s)
  {
  }

  lemma DecreasingIsDistinct(s: seq<int>)
    requires Decreasing(s)
    ensures Distinct(s)
  {
  }
}
