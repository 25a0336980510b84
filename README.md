# Arena binary tree, modelled in Dafny

The repository's binary tree keeps every node in one growable vector, the
arena. A node holds an integer key and, for each of its two children, either
nothing or the child's position in the arena. A tree starts with a root
(`with_root`) and grows by `add_node`. That call pushes a childless node and
links it into one empty slot of an existing parent. The tree answers three
queries, each a post-order recursion from position 0:

- `sum`: the sum of all keys;
- `is_bst`: whether the tree is a binary search tree;
- `max_path_sum`: documented as the largest sum of a path between two special
  nodes, a special node being connected to exactly one other node. The code
  computes the largest sum of a path that joins, at its highest node, two
  downward paths, each either empty or ending at a node with an empty child
  slot (`BentSums`); the two differ when keys can be negative (see
  "Findings").

The same tree exists twice: generic over the machine integer types, and
specialised to `u32`.

The model has one version for both. The key type is a value `KeyType(minVal,
maxVal)` with zero as its additive identity; `u32` is `KeyType(0, 0xFFFF_FFFF)`.

- `arena.dfy` (`Arena`): the node record, the key type and the shape
  invariant `WellFormed`. The invariant says the arena is non-empty, every
  child index points forward inside the arena, every node but the root is
  held by exactly one slot, and every node is reached from the root along
  exactly one path. `Attach` is the effect of a successful `add_node`, and
  `AttachWellFormed` proves that it keeps the invariant.
- `sum.dfy` (`TreeSum`): `rec_sum` and the proof that from the root it equals
  the total of all keys in the arena.
- `bst.dfy` (`BstCheck`): `is_bst_rec`, written as the code computes it.
- `pathsum.dfy` (`MaxPath`): `max_path_sum_rec` and the proof that its two
  results are the maxima of two sets of path sums: `DownSums`, downward paths
  from a node that end at a node with an empty child slot (the empty path
  for an absent subtree), and `BentSums`, a node's key plus one such path of
  each of its children.
- `specialpath.dfy` (`SpecialPath`): the documented answer of `max_path_sum`.
  `SpecialPathSums` is the set of sums of paths between two special nodes,
  and `MaxSpecialPathSum` is a recursion proved to return its maximum. For
  unsigned keys and two or more nodes the code's answer is proved equal to
  it; for signed keys a four-node counterexample is proved.
- `u32.dfy` (`U32Keys`): for unsigned keys, overflow of `sum` is decided by
  the total of the keys, and overflow of `max_path_sum` is ruled out when
  that total fits (the converse does not hold).
- `tree.dfy` (`Trees`): the `Tree` class. Its `nodes` field is a sequence the
  methods reassign. `AddNode` checks the two panics of `add_node` before
  anything changes and reports them as errors.
- `scenarios.dfy` (`Scenarios`): the unit tests of both files, replayed on the
  model as methods whose postconditions are the values the tests expect.
  `AddErrorsScenario` is an extra scenario, not one of the source tests: it
  exercises the three refusals of `add_node`.

The `Tree` class follows the code as written, including the two defects
listed under "Findings". The corrected definitions and their intended
properties are proved beside it, in `BstCheck` and `SpecialPath`.

## Model

| member | source | states |
|---|---|---|
| Arena.Attach | hands_on_1_generic/src/lib.rs:89-100 | exactly one childless node holding the key is appended at the old length; only the chosen slot of the parent changes, to that position; the parent's key and other slot and every other node are unchanged; forward links are kept |
| Arena.RootAloneWellFormed | hands_on_1_generic/src/lib.rs:59-63 | a one-node arena satisfies the shape invariant |
| Arena.AttachWellFormed | hands_on_1_generic/src/lib.rs:89-98 | linking a new node into a free slot of an existing parent keeps the arena a tree: forward, in-range links, one parent per node, one path from the root to each node |
| Arena.PathsAttach | hands_on_1_generic/src/lib.rs:89-98 | after the link, paths to old nodes are unchanged and the paths to the new node are the paths to its parent |
| TreeSum.SubtreeSumWeighted | hands_on_1_generic/src/lib.rs:110-122 | `rec_sum` of a subtree counts every key once per downward path that reaches it |
| TreeSum.SumIsTotal | hands_on_1_generic/src/lib.rs:103-122 | on a well-formed arena, `rec_sum` from the root is the sum of all keys |
| TreeSum.TotalAttach | hands_on_1_generic/src/lib.rs:89-100 | a successful `add_node` raises the total of the keys by exactly the added key |
| BstCheck.IsBstMinIsTypeMax | hands_on_1_generic/src/lib.rs:156-163 | the "min" component of `is_bst_rec`, reduced with `max` from the `max_val` sentinel, is the type maximum for every subtree |
| BstCheck.IsBstMaxIsLargestKey | hands_on_1_generic/src/lib.rs:156-163 | the max component is at least the type minimum, bounds every key of the subtree, and is the least such bound |
| BstCheck.IsBstRecDecides | hands_on_1_generic/src/lib.rs:134-165 | the validity bit holds iff at every node all left-subtree keys are at most the key and the key is below the type maximum |
| BstCheck.SearchTreeAccepted | hands_on_1_generic/src/lib.rs:150-154 | every tree in the documented search-tree order, with all keys below the type maximum, is accepted |
| BstCheck.RightOrderUnchecked | hands_on_1_generic/src/lib.rs:153-158 | root 50 with right child 10 is accepted by `is_bst_rec` although it is not in search-tree order, and rejected by the corrected recursion |
| BstCheck.FixedMaxUnchanged | hands_on_1_generic/src/lib.rs:156-159 | the corrected recursion, which reduces the "min" component with `min`, keeps the max component of `is_bst_rec` unchanged |
| BstCheck.FixedMinIsLeastKey | hands_on_1_generic/src/lib.rs:156-163 | in the corrected recursion, the "min" component is at most the type maximum and exceeds a value below the type maximum iff every key of the subtree does |
| BstCheck.FixedIsBstDecides | hands_on_1_generic/src/lib.rs:131-165 | the corrected recursion accepts exactly the trees in search-tree order (left keys at most, right keys greater than their node) with no key equal to the type maximum |
| BstCheck.TypeMaxRejected | hands_on_1_generic/src/lib.rs:153-163 | a tree with a node that holds the type maximum is always rejected |
| MaxPath.MaxPathSumRec | hands_on_1_generic/src/lib.rs:169-207 | the best-path component is present iff the subtree is, so the unwrap in `max_path_sum` cannot fail |
| MaxPath.BestDownwardIsMax | hands_on_1_generic/src/lib.rs:199-205 | the first component is the largest member of `DownSums`: sums of downward paths from the subtree's root that end at a node with an empty child slot (an absent subtree offers the empty path, sum 0) |
| MaxPath.BestJoinIsMax | hands_on_1_generic/src/lib.rs:186-188 | `bpl + bpr + key` is the largest join, at that node, of one `DownSums` path of each child |
| MaxPath.BestPathIsMax | hands_on_1_generic/src/lib.rs:177-207 | the second component is in `BentSums` (at some node of the subtree, its key plus one `DownSums` path of each child) and no member of `BentSums` is larger |
| SpecialPath.SpecialNodes | hands_on_1_generic/src/lib.rs:167-168 | in a tree, a node other than the root is connected to exactly one other node iff it has no child, and the root iff it has exactly one child |
| SpecialPath.DownIsBestEnd | hands_on_1_generic/src/lib.rs:176-207 | below the root, the corrected downward value is the largest sum of a downward path ending at a special node |
| SpecialPath.HereIsBestJoinAt | hands_on_1_generic/src/lib.rs:185-188 | the corrected join at a node exists iff the node has two children, and is the largest sum of a path between special nodes bending there |
| SpecialPath.BestIsBestJoin | hands_on_1_generic/src/lib.rs:177-207 | the corrected best path of a subtree is the largest sum of a path between special nodes bending inside it, and is absent iff there is none |
| SpecialPath.MaxSpecialPathSumIsMax | hands_on_1_generic/src/lib.rs:167-173 | the corrected `max_path_sum` is the largest sum of a path between two special nodes, and is absent iff no such path exists |
| SpecialPath.CodeMatchesIntended | hands_on_1_generic/src/lib.rs:177-207 | with keys that are never negative, `max_path_sum_rec` has the corrected downward value, never negative, and as best path the larger of the corrected best path and that downward value |
| SpecialPath.UnsignedBestIsSpecial | hands_on_1/src/lib.rs:130-170 | with unsigned keys and two or more nodes, `max_path_sum_rec` returns the corrected answer |
| SpecialPath.UnsignedBestIsMaxSpecial | hands_on_1/src/lib.rs:130-170 | with unsigned keys and two or more nodes, the best path of `max_path_sum_rec` is the largest sum of a path between two special nodes |
| SpecialPath.BestPathNotBetweenSpecialNodes | hands_on_1_generic/src/lib.rs:167-207 | on root 5 with children 3 and 4 and -10 under the 3, `max_path_sum_rec` returns 12, while the only path between two special nodes sums to 2 |
| MaxPath.BestPathFits | hands_on_1_generic/src/lib.rs:169-173 | when no addition overflows, the returned best path is a value of the key type |
| U32Keys.SubtreeSumNonNegative | hands_on_1/src/lib.rs:73-85 | with unsigned keys, every `rec_sum` result is non-negative |
| U32Keys.UnsignedSumFits | hands_on_1/src/lib.rs:73-85 | with unsigned keys, no addition in `rec_sum` overflows iff the subtree's sum is at most the type maximum |
| U32Keys.PathSumsWithinSum | hands_on_1/src/lib.rs:140-170 | with unsigned keys, both results of `max_path_sum_rec` lie between 0 and the subtree's sum |
| U32Keys.UnsignedPathSumFits | hands_on_1/src/lib.rs:140-170 | with unsigned keys, `max_path_sum_rec` cannot overflow when the subtree's sum fits |
| U32Keys.U32SumFits | hands_on_1/src/lib.rs:66-85 | a `u32` tree's `sum()` avoids overflow iff the total of its keys is at most `u32::MAX` |
| U32Keys.U32PathSumFits | hands_on_1/src/lib.rs:130-170 | a `u32` tree whose keys total at most `u32::MAX` computes `max_path_sum()` without overflow |
| Trees.AddCheck | hands_on_1_generic/src/lib.rs:72-87 | `add_node` refuses exactly when the parent does not exist or its chosen slot is taken; a missing parent is reported as such |
| Trees.Tree.WithRoot | hands_on_1_generic/src/lib.rs:59-63 | the new tree holds exactly one node, with the given key and both slots empty, and satisfies the invariant; the `u32` version, hands_on_1/src/lib.rs:22-26, behaves the same |
| Trees.Tree.AddNode | hands_on_1_generic/src/lib.rs:72-101 | on a refusal, the error is returned and the tree is unchanged; otherwise the old length is returned and the arena becomes `Attach(old arena, ...)`; the invariant is kept and the key total grows by the key exactly on success; the `u32` version, hands_on_1/src/lib.rs:35-64, behaves the same |
| Trees.Tree.Sum | hands_on_1_generic/src/lib.rs:103-106 | the result is the sum of all keys, and is a value of the key type |
| Trees.Tree.IsBst | hands_on_1_generic/src/lib.rs:124-129 | the result is true iff the tree is left-ordered and holds no type maximum, as `is_bst_rec` decides |
| Trees.Tree.MaxPathSum | hands_on_1_generic/src/lib.rs:167-173 | the result is the largest member of `BentSums` and a value of the key type; with unsigned keys and two or more nodes it is the largest sum of a path between two special nodes, as documented |
| Scenarios.SumScenario | hands_on_1_generic/src/lib.rs:215-232 | the sums 10, 37, 64 and a search tree at each stage; the `u32` test at hands_on_1/src/lib.rs:178-195 expects the same |
| Scenarios.IsBstRootScenario | hands_on_1_generic/src/lib.rs:235-238 | a one-node tree is accepted; the `u32` test at hands_on_1/src/lib.rs:197-201 expects the same |
| Scenarios.IsBstScenario | hands_on_1_generic/src/lib.rs:241-253 | 50, then 15 on its left, then 90 on its right are accepted; the type maximum right of 15 is rejected; the `u32` test at hands_on_1/src/lib.rs:204-216 expects the same |
| Scenarios.MaxPathIsSumScenario | hands_on_1_generic/src/lib.rs:256-270 | on the five-node tree `max_path_sum()` equals `sum()`, 64, as the tests assert (the `u32` test at hands_on_1/src/lib.rs:218-233 too); at the three-node stage, where both tests check only `sum() == 37`, `max_path_sum()` is also 37, an extra check |
| Scenarios.MaxPath2Scenario | hands_on_1_generic/src/lib.rs:274-287 | best path 16 and not a search tree, for every key at most 4 in the slot where the tests put -10 or 2; the `u32` test at hands_on_1/src/lib.rs:236-249 expects the same |
| Scenarios.SignedMaxPath3Scenario | hands_on_1_generic/src/lib.rs:291-315 | the thirteen-node `isize` tree has best path 27 and is not a search tree |
| Scenarios.U32MaxPath3Scenario | hands_on_1/src/lib.rs:252-276 | the thirteen-node `u32` tree has best path 42 and is not a search tree |
| Scenarios.MaxPath4Scenario | hands_on_1_generic/src/lib.rs:318-329 | best paths 5, then 7, then 12 as the tree grows (the last stage only in the `u32` test, hands_on_1/src/lib.rs:279-294); rejected once 3 is left of the inner 2 |
| Scenarios.TestTypesScenario | hands_on_1_generic/src/lib.rs:215-329 | the parameterised scenarios give the values the tests expect at the tests' own key types: `i32` for untyped literals, `usize` and `u128` where the tests name them, and `u32` for the second tree (hands_on_1/src/lib.rs:178-294) |
| Scenarios.AddErrorsScenario | hands_on_1_generic/src/lib.rs:72-87 | a second left child, a second right child and a missing parent are each refused with their own error, and the tree keeps its three nodes |

## Left out

- Trees.Tree.Sum: keys are unbounded integers, and the query requires `SumFits` (every addition of `rec_sum` stays inside the key type); the overflow itself, a panic in debug builds and wrap-around in release builds, is not modelled.
- Trees.Tree.MaxPathSum: likewise requires `PathSumFits` for the additions of `max_path_sum_rec`; overflow behaviour is not modelled. For `u32` keys, `U32SumFits` shows the first condition holds iff the total of the keys fits, and `U32PathSumFits` shows a total that fits implies the second; the converse of the second does not hold.
- Trees.Tree.MaxPathSum: for signed keys the result is only the maximum of `BentSums`, which is not the documented set of paths between special nodes; the code returns that value (see "Findings"). On a one-node tree there is no special node; the code returns the root's key.
- MaxPath.BestPathIsMax: `BentSums` is the set the code maximises, not the documented set of paths between special nodes; the documented set is `SpecialPath.SpecialPathSums`.
- Trees.Tree.AddNode: the two panics of `add_node` are error results that leave the tree unchanged; aborting the thread is not modelled.
- The `MyInt` trait and the macro that implements it for twelve integer types are represented by a `KeyType` value holding the type's minimum and maximum. Only ordering, addition, zero and the two bounds are used.
- The range assertion inside `rec_sum` (hands_on_1_generic/src/lib.rs:112) is a precondition of the recursion. The tree invariant guarantees it, so the panic cannot be reached from a tree.
- misc/leaf2leaf.rs is not part of this model. It is a separate draft built on owned boxed links rather than the arena, and it has no tests.
- The test harness is not modelled as code. Its scenarios are the methods of `Scenarios`, with the key type as a parameter or as the constant of the type the test uses.

## Findings

| source | as written | input that shows it | evidently intended | confidence | as-written member | corrected member |
|---|---|---|---|---|---|---|
| hands_on_1_generic/src/lib.rs:177-207 | a downward path of `max_path_sum_rec` may stop at any empty child slot, which contributes 0, so the best path can end at a node that has a parent and a child | `i32` tree: root 5, children 3 and 4, and -10 left of the 3; the code returns 12 for the path 3 - 5 - 4 | the largest sum of a path between two special nodes, as documented at lines 167-168; here 2, for -10 - 3 - 5 - 4. For unsigned keys, as in hands_on_1/src/lib.rs:130-170, the code already gives this answer on every tree of two or more nodes | not executed | SpecialPath.BestPathNotBetweenSpecialNodes | SpecialPath.MaxSpecialPathSumIsMax |
| hands_on_1_generic/src/lib.rs:158 | the second component, documented as the subtree minimum, is reduced with `max`, so it is always the type maximum and `rmin > key` only rejects a key equal to it; the same line is hands_on_1/src/lib.rs:121 | root 50 with right child 10 is accepted | reduce that component with `min`, so that every key of a right subtree must exceed its node's key | not executed | BstCheck.RightOrderUnchecked | BstCheck.FixedIsBstDecides |
