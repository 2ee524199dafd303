# A verified model of the strmem B-tree secondary index

The `index` package of strmem keeps a secondary index over an in-memory
base array of records. Callers change the array themselves. They then tell
the index through `Put` (position `i` now holds this record) and `Rm` (this
record at position `i` is going away). The index maps each value of one
field (`getField`) to an `indexNode`: that value plus the list of array
positions holding it. The nodes live in an ordered container, a
`github.com/google/btree` tree ordered by value. Queries return lists of
positions:
- `Get` looks up one value;
- `Find` returns the value equal to, or on one side of, a pivot;
- `GetRange` returns values between two bounds.

The project has four modules:

- `OrderedMap` (`ordered_map.dfy`) is the part of the ordered container
  the index uses. Keys are integers. Its four traversals (`AscendGreaterOrEqual`,
  `AscendLessThan`, `DescendGreaterThan`, `DescendLessOrEqual`) are key
  sequences in the tree's visiting order, built from a sorted walk over the
  key set.
- `IndexSpec` (`index_spec.dfy`) states on values what the index computes.
  - The tree is a `map<int, seq<int>>` from field value to positions.
  - The base array enters only through its sequence of field values `f`.
  - `BuildIndex`, `PutPos`, `RmState`, `SwapRemove`, `FindSpec` and
    `GetRangeSpec` give the effect of `Rebuild`, `Put`, `Rm`, `rmFromArr`,
    `Find` and `GetRange`.
  - The global invariant `Consistent(t, f)` says the index records every
    position of the base array once, under its own value, and nothing else.
  - The module proves what the source promises about these functions.
- `Index` (`index.dfy`) is the source's own imperative form.
  - `rmFromArr` is `RmFromArr`, a loop with the `shortener` counter working
    in place on an `array<int>`.
  - The callbacks that `Find` and `GetRange` pass to the tree traversals are
    the loops `Collect` and `Walk`.
  - `BTree` is a class whose `tree` field is reassigned by `Rebuild`, `Put`
    and `Rm`.
  - Every method's postcondition ties its result or its new `tree` to the
    `IndexSpec` function above.
- `IndexScenarios` (`index_scenarios.dfy`) replays the repository's tests
  (`index/btree_test.go`) on the class, plus a few scenarios for `Rm`'s
  edge cases. The test data has ten records keyed 6, 1, 1, 5, 6, 7, 8, 8,
  10, 10.

Behaviour modelled as the code does it, not as one might expect:

- `Rm` of a value that has no entry rebuilds the whole index from the base
  array, then deletes that value's entry.
- `Rm` of a value whose list has one position deletes the entry, whatever
  position it was asked to remove.
- `Rm` can store an empty list: the list `[3, 3]` after removing 3.
  - That list is a non-nil empty slice, so `Get` then returns `Some([])`,
    not nil.
- `GetRange` walks with `DescendGreaterThan(from)`, from the largest key
  downwards. Its callback stops at the first key above `to`, so the result
  is empty as soon as the tree holds any key above `to`. The `from` key
  itself is never visited. See Findings.
- When `from > to`, `GetRange` swaps the bounds but not the two inclusivity
  flags.
- The test labelled "Get lighter or equal" (`index/btree_test.go:79-85`)
  calls `Find(6, GTE)`, so LTE is untested in the repository.
  - `FindLighterOrEqualScenario` states what `Find(6, LTE)` returns.

Go's nil slice is `None` where the code tests for nil (`Get`, which `Rm`
checks). Elsewhere nil and empty are both `[]`. The tests compare results
after `sort.Ints`, so the scenarios state multisets where the tests sort.

## Model

| member | source | states |
|---|---|---|
| OrderedMap.SortedKeys | index/btree.go:58-60 | the tree's in-order walk: every key exactly once, strictly ascending |
| OrderedMap.AscendGreaterOrEqual | index/btree.go:166-167 | visits exactly the keys >= pivot, in ascending order |
| OrderedMap.AscendExact | index/btree.go:166-167 | any strictly ascending listing of exactly the keys >= pivot is that traversal, so its visiting order is fixed by the key set |
| OrderedMap.AscendLessThan | index/btree.go:168-169 | visits exactly the keys < pivot, in ascending order |
| OrderedMap.DescendGreaterThan | index/btree.go:164-165 | visits exactly the keys > pivot, in descending order |
| OrderedMap.DescendLessOrEqual | index/btree.go:170-171 | visits exactly the keys <= pivot, in descending order |
| IndexSpec.PutPos | index/btree.go:107-120 | the entry for the value gets the position appended, or is created as a one-element list; the key set grows by that value only; every other entry is unchanged |
| IndexSpec.BuildIndexEntries | index/btree.go:67-82 | after the rebuild loop a value has an entry iff some record holds it, and the entry lists exactly that value's positions in ascending order (`PositionsOf`) |
| IndexSpec.PositionsOfSpec | index/btree.go:67-82 | the reference list of a value's positions is strictly ascending and holds each position of that value exactly once and no other position |
| IndexSpec.RebuildConsistent | index/btree.go:55-83 | `Rebuild` establishes the global invariant: every position recorded once under its own value, nothing else recorded, no empty entry; every list ascending |
| IndexSpec.LookupMatchesBase | index/btree.go:86-96 | on a consistent index `Get(key)` is nil iff no record holds `key`, and otherwise lists each such position exactly once |
| IndexSpec.PutAfterAppendIsRebuild | index/btree.go:99-121 | appending a record and calling `Put` for its position gives the tree a fresh `Rebuild` of the longer array would, so the value's entry is exactly its ascending list of positions in the longer array (`PositionsOf`) |
| IndexSpec.PutKeepsTracks | index/btree.go:99-121 | `Put` of a position not yet recorded keeps the invariant, with that position now recorded |
| IndexSpec.SwapRemoveSpec | index/btree.go:213-224 | `rmFromArr` leaves no copy of `val`; its multiset is the input's with every copy of `val` removed; its length drops by the number of copies |
| IndexSpec.SwapRemoveAbsent | index/btree.go:213-224 | `rmFromArr` returns its input unchanged when `val` does not occur in it |
| IndexSpec.RmCases | index/btree.go:123-146 | the three cases of `Rm`: a list longer than one loses every copy of the position and nothing else changes; a list of length at most one is deleted whatever the position; a missing entry means rebuild from the base array, then delete that value's entry |
| IndexSpec.RmKeepsTracks | index/btree.go:123-146 | `Rm` of a recorded position stops recording it and keeps every other recorded position and the invariant's other parts |
| IndexSpec.SwapDeleteKeepsConsistent | index/btree_test.go:104-128 | the swap-delete protocol keeps the index consistent with the shortened array: `Rm` of the deleted record, `Rm` of the last record, move the last record into the gap, `Put` it at its new position |
| IndexSpec.Visit | index/btree.go:163-171 | the traversal `Find` picks for GT, GTE, LT or LTE visits exactly the keys on that side of the pivot, ascending for GTE and LT, descending for GT and LTE |
| IndexSpec.VisitDistinct | index/btree.go:163-171 | no traversal visits a key twice |
| IndexSpec.GatherMembership | index/btree.go:158-162 | a position is collected by the appending callback iff it lies in the entry of some visited key |
| IndexSpec.GatherCount | index/btree.go:158-162 | on a consistent index, a walk over distinct keys collects each position of those keys exactly once and no other |
| IndexSpec.FindMembership | index/btree.go:148-176 | `Find` with EQ, GT, GTE, LT or LTE returns exactly the positions in the entries whose value matches the pivot under that method |
| IndexSpec.FindMatchesBase | index/btree.go:148-176 | on a consistent index, `Find` returns each base-array position whose record matches the method exactly once, and no other position |
| IndexSpec.WalkAllTaken | index/btree.go:193-205 | a walk whose every key the range callback takes collects the whole traversal's positions in order |
| IndexSpec.DescendingWalk | index/btree.go:193-209 | the descending range walk either stops at its first key (the largest key is above `to`, or equals an excluded `to`) or takes every key |
| IndexSpec.GetRangeCharacterized | index/btree.go:178-211 | with distinct bounds, `GetRange` as written is empty when some key exceeds the upper bound or the excluded upper bound is a key; otherwise it is every entry above the lower bound, highest first |
| IndexSpec.GetRangeBehaviour | index/btree.go:178-211 | `from == to` gives `Get(from)` if both bounds are inclusive, else nothing; `from > to` equals the swapped call with the flags unswapped; every position comes from an entry with value in (lower, upper]; any key above the upper bound makes the result empty |
| IndexSpec.GetRangeDirectionCounterexample | index/btree.go:207-209 | keys 1, 2, 3 at positions 0, 1, 2: `GetRange(1, 2, true, true)` as written returns nothing, while the ascending walk holds positions 0 and 1 |
| IndexSpec.GetRangeAscendingMembership | index/btree.go:178-211 | for any two bounds, equal ones included, the ascending walk from the lower bound returns exactly the positions of entries inside the requested interval, each bound included iff its flag says so |
| Index.RmFromArr | index/btree.go:213-224 | the in-place loop leaves `arr[..n]` equal to `SwapRemove` of the original slice, hence free of `val` with every other element kept |
| Index.Collect | index/btree.go:158-162 | the appending callback, run over a traversal, returns the concatenated entries of the visited keys in visiting order |
| Index.Walk | index/btree.go:193-205 | the range callback, run over a traversal, returns what `RangeWalk` specifies: skip an excluded lower bound, stop at an excluded upper bound or past the upper bound, otherwise append |
| Index.BTree.constructor | index/btree.go:42-52 | `NewBTree` observes the array and field and leaves the tree a full rebuild of it |
| Index.BTree.Rebuild | index/btree.go:55-83 | the loop leaves `tree == BuildIndex` of the current field values |
| Index.BTree.Put | index/btree.go:99-121 | the new tree is `PutPos` of the old one at the record's value |
| Index.BTree.Rm | index/btree.go:123-146 | the new tree is `RmState` of the old one: the three cases of `RmCases`, with the rebuild reading the current base array |
| Index.BTree.Find | index/btree.go:148-176 | the result is `FindSpec` of the tree; EQ returns `Get(key)`; it panics iff the method is beyond LTE |
| Index.BTree.GetRange | index/btree.go:178-211 | the result is `GetRangeSpec` of the tree, the descending walk as written |
| Index.BTree.GetRangeAscendingWalk | index/btree.go:178-211 | the intended range query: the same callback over an ascending walk from the lower bound, returning exactly the positions of entries inside the interval, for every pair of bounds |
| IndexScenarios.TestIndex | index/btree_test.go:23-40 | rebuilding over the test keys gives entries 1:[1,2], 5:[3], 6:[0,4], 7:[5], 8:[6,7], 10:[8,9] |
| IndexScenarios.GetScenarios | index/btree_test.go:43-57 | `Get(1)` and `Find(1, EQ)` both return [1, 2] |
| IndexScenarios.FindCounts | index/btree.go:148-176 | on a consistent index the multiset `Find` returns is the set of positions whose records match |
| IndexScenarios.FindGatherScenario | index/btree_test.go:58-64 | `Find(6, GT)` returns positions {5, 6, 7, 8, 9} |
| IndexScenarios.FindGatherOrEqualScenario | index/btree_test.go:65-71 | `Find(6, GTE)` returns positions {0, 4, 5, 6, 7, 8, 9} |
| IndexScenarios.FindLighterScenario | index/btree_test.go:72-78 | `Find(6, LT)` returns positions {1, 2, 3} |
| IndexScenarios.FindLighterOrEqualScenario | index/btree_test.go:79-85 | `Find(6, LTE)` returns positions {0, 1, 2, 3, 4}; the test under this name calls GTE |
| IndexScenarios.PutUniqueScenario | index/btree_test.go:86-94 | after appending a record keyed 20 and `Put`, `Get(20)` is [10] |
| IndexScenarios.PutSharedScenario | index/btree_test.go:95-103 | after appending a record keyed 1 and `Put`, `Get(1)` is [1, 2, 10] |
| IndexScenarios.SwapDeleteScenario | index/btree_test.go:104-128 | deleting record 5 by swap-delete leaves `Get(7)` nil and `Get(10)` = [8, 5] |
| IndexScenarios.RmWrongPositionScenario | index/btree.go:140-145 | `Rm` on a one-position entry deletes it even when given another position |
| IndexScenarios.RmRebuildsScenario | index/btree.go:124-128 | `Rm` of a value with no entry rebuilds, so a record appended without `Put` becomes visible |
| IndexScenarios.RmEmptiesScenario | index/btree.go:130-138 | after a duplicate `Put`, `Rm` stores an empty, non-nil list |
| IndexScenarios.RmFromArrTable | index/btree_test.go:131-180 | the seven rows of the `rmFromArr` test table |
| IndexScenarios.RmFromArrScenario | index/btree_test.go:144-149 | the in-place method on [1, 2, 2, 4] removing 2 leaves [1, 4] |
| IndexScenarios.GetRangeScenario | index/btree.go:178-211 | on the test index `GetRange(5, 8, true, true)` is empty as written; the ascending walk returns exactly [3, 0, 4, 5, 6, 7], the entries of 5, 6, 7 and 8 in key order |

## Left out

- Locking: the `sync.RWMutex` is not modelled. Every call is one atomic
  step. This also leaves out the lock gaps inside `Rm`: its `Get`, its
  `Rebuild` and its write each lock separately. It also leaves out the
  nested read lock taken when `Find(EQ)` and `GetRange` call `Get`.
- google/btree: the degree-4 node layout and balancing are a foreign
  library. The container is an abstract map, and its traversals are
  sorted key sequences.
- Go slice aliasing: several slices can share one backing array.
  - The slice that `Get`, `Find(EQ)` and `GetRange` with equal inclusive
    bounds hand out is the tree's own. The other `Find` modes and the
    `GetRange` walks build a fresh slice.
  - `append` in `Put` and `Rebuild` may write into a shared backing array.
  - `rmFromArr` in `Rm` overwrites the stored list in place.
  - The model uses value sequences: `Rm` copies the list into a fresh
    array before `RmFromArr`. The tree after each call is the same either
    way, because `Rm` stores the shortened slice straight away. Changes seen
    through slices handed out earlier are not modelled.
- Key types: `btree.Ordered` allows any ordered Go type. Keys are modelled
  as mathematical integers; floats and strings are out. The tests'
  `uint32` keys are small non-negative integers.
- `getField` takes a pointer to a record. It is modelled as a function of
  the record value.
- Index.BTree.Find: nil and empty are not distinguished for `Find` and
  `GetRange` results (both are `[]`), so `Find(key, EQ)` on a missing key
  gives `Found([])` where the code returns nil.
- Index.BTree.Find: `panic(errors.New(...))` is the `Panic` result value,
  not an abort.
- Test harness: `testify` assertions and `sort.Ints` are modelled as
  statements about multisets in the scenario postconditions.

## Findings

| source | as written | input that shows it | evidently intended | confidence | as-written member | corrected member |
|---|---|---|---|---|---|---|
| index/btree.go:207-209 | the range scan walks `DescendGreaterThan(from)`: it starts at the largest key, so the callback's "stop above `to`" fires at once whenever any key exceeds `to`. It never visits `from` itself, so `includeFrom` has no effect | keys 1, 2, 3 at positions 0, 1, 2; `GetRange(1, 2, true, true)` returns nothing | an ascending walk from `from` (`AscendGreaterOrEqual`) returning positions 0 and 1, the entries inside the interval | high; not executed | IndexSpec.GetRangeDirectionCounterexample | IndexSpec.GetRangeAscendingMembership |

The class models both halves. `Index.BTree.GetRange` is the code as
written. `Index.BTree.GetRangeAscendingWalk` is the corrected query, and the
scenario `IndexScenarios.GetRangeScenario` shows the two on the test data.
