/**
  The scenarios of the repository's unit tests, replayed on the model.  Each
  scenario method builds a tree with `WithRoot` and `AddNode` and returns what
  the queries answer where the tests look; the key type is a parameter, so
  one scenario covers the generic tree's test (on `i32`, `u128`, `usize` or
  `isize`) and the `u32` tree's test when they build the same tree.  The
  `...Stages` lemmas evaluate the recursions on the literal arenas; the
  `Grow...` methods show that the `AddNode` calls of the test build them.
*/
module Scenarios {
  import opened Arena
  import opened TreeSum
  import opened BstCheck
  import opened MaxPath
  import opened Trees
  import opened U32Keys

  const I32: KeyType := KeyType(-0x8000_0000, 0x7FFF_FFFF)
  const ISIZE: KeyType := KeyType(-0x8000_0000_0000_0000, 0x7FFF_FFFF_FFFF_FFFF)
  const USIZE: KeyType := KeyType(0, 0xFFFF_FFFF_FFFF_FFFF)
  const U128: KeyType := KeyType(0, 0xFFFF_FFFF_FFFF_FFFF_FFFF_FFFF_FFFF_FFFF)

  // ---- test_sum and test_max_path_sum: 10, then 5 and 22 under it, then 7 and 20 ----

  const SumTree1: seq<Node> := [Leaf(10)]
  const SumTree3: seq<Node> := [Node(10, Some(1), Some(2)), Leaf(5), Leaf(22)]
  const SumTree5: seq<Node> :=
    [Node(10, Some(1), Some(2)), Node(5, None, Some(3)), Node(22, Some(4), None), Leaf(7), Leaf(20)]

  lemma SumTree1Stage(kt: KeyType)
    requires kt.minVal <= 0 && kt.maxVal > 64
    ensures ForwardLinks(SumTree1)
    ensures SumFits(SumTree1, kt, Some(0)) && SubtreeSum(SumTree1, Some(0)) == 10
    ensures IsBstRec(SumTree1, kt, Some(0)).0
  {
  }

  lemma SumTree3Stage(kt: KeyType)
    requires kt.minVal <= 0 && kt.maxVal > 64
    ensures ForwardLinks(SumTree3)
    ensures SumFits(SumTree3, kt, Some(0)) && SubtreeSum(SumTree3, Some(0)) == 37
    ensures IsBstRec(SumTree3, kt, Some(0)).0
    ensures PathSumFits(SumTree3, kt, Some(0)) && MaxPathSumRec(SumTree3, Some(0)).1 == Some(37)
  {
    assert ForwardLinks(SumTree3);
    assert SubtreeSum(SumTree3, Some(1)) == 5 && SubtreeSum(SumTree3, Some(2)) == 22;
    assert SumFits(SumTree3, kt, Some(1)) && SumFits(SumTree3, kt, Some(2));
    assert IsBstRec(SumTree3, kt, Some(1)) == (true, kt.maxVal, 5);
    assert IsBstRec(SumTree3, kt, Some(2)) == (true, kt.maxVal, 22);
    assert MaxPathSumRec(SumTree3, Some(1)) == (5, Some(5));
    assert MaxPathSumRec(SumTree3, Some(2)) == (22, Some(22));
    assert PathSumFits(SumTree3, kt, Some(1)) && PathSumFits(SumTree3, kt, Some(2));
  }

  lemma SumTree5Stage(kt: KeyType)
    requires kt.minVal <= 0 && kt.maxVal > 64
    ensures ForwardLinks(SumTree5)
    ensures SumFits(SumTree5, kt, Some(0)) && SubtreeSum(SumTree5, Some(0)) == 64
    ensures IsBstRec(SumTree5, kt, Some(0)).0
    ensures PathSumFits(SumTree5, kt, Some(0)) && MaxPathSumRec(SumTree5, Some(0)).1 == Some(64)
  {
    assert ForwardLinks(SumTree5);
    assert SubtreeSum(SumTree5, Some(3)) == 7 && SubtreeSum(SumTree5, Some(4)) == 20;
    assert SubtreeSum(SumTree5, Some(1)) == 12 && SubtreeSum(SumTree5, Some(2)) == 42;
    assert SumFits(SumTree5, kt, Some(3)) && SumFits(SumTree5, kt, Some(4));
    assert SumFits(SumTree5, kt, Some(1)) && SumFits(SumTree5, kt, Some(2));
    assert IsBstRec(SumTree5, kt, Some(3)) == (true, kt.maxVal, 7);
    assert IsBstRec(SumTree5, kt, Some(4)) == (true, kt.maxVal, 20);
    assert IsBstRec(SumTree5, kt, Some(1)) == (true, kt.maxVal, 7);
    assert IsBstRec(SumTree5, kt, Some(2)) == (true, kt.maxVal, 22);
    assert MaxPathSumRec(SumTree5, Some(3)) == (7, Some(7));
    assert MaxPathSumRec(SumTree5, Some(4)) == (20, Some(20));
    assert MaxPathSumRec(SumTree5, Some(1)) == (12, Some(12));
    assert MaxPathSumRec(SumTree5, Some(2)) == (42, Some(42));
    assert PathSumFits(SumTree5, kt, Some(3)) && PathSumFits(SumTree5, kt, Some(4));
    assert PathSumFits(SumTree5, kt, Some(1)) && PathSumFits(SumTree5, kt, Some(2));
  }

  method GrowSumTree3(t: Tree)
    requires t.Valid() && t.keyType.Holds(22) && t.nodes == SumTree1
    modifies t
    ensures t.Valid() && t.nodes == SumTree3
  {
    var _ := t.AddNode(0, 5, true);
    var _ := t.AddNode(0, 22, false);
    assert t.nodes == SumTree3;
  }

  method GrowSumTree5(t: Tree)
    requires t.Valid() && t.keyType.Holds(20) && t.nodes == SumTree3
    modifies t
    ensures t.Valid() && t.nodes == SumTree5
  {
    var _ := t.AddNode(1, 7, false);
    var _ := t.AddNode(2, 20, true);
    assert t.nodes == SumTree5;
  }

  /** `test_sum`: the sums 10, 37, 64 and a search tree at each stage. */
  method SumScenario(kt: KeyType) returns (sums: seq<int>, bsts: seq<bool>)
    requires kt.minVal <= 0 && kt.maxVal > 64
    ensures sums == [10, 37, 64]
    ensures bsts == [true, true, true]
  {
    SumTree1Stage(kt);
    SumTree3Stage(kt);
    SumTree5Stage(kt);
    var t := new Tree.WithRoot(kt, 10);
    assert t.nodes == SumTree1;
    var s0, b0 := t.Sum(), t.IsBst();
    GrowSumTree3(t);
    var s1, b1 := t.Sum(), t.IsBst();
    GrowSumTree5(t);
    var s2, b2 := t.Sum(), t.IsBst();
    sums, bsts := [s0, s1, s2], [b0, b1, b2];
  }

  /**
    `test_max_path_sum`: on the five-node tree the best path runs through
    every node, so `max_path_sum() == sum()`; on the three-node stage both are 37.
  */
  method MaxPathIsSumScenario(kt: KeyType) returns (m3: int, s3: int, m5: int, s5: int)
    requires kt.minVal <= 0 && kt.maxVal > 64
    ensures m3 == s3 == 37
    ensures m5 == s5 == 64
  {
    SumTree3Stage(kt);
    SumTree5Stage(kt);
    var t := new Tree.WithRoot(kt, 10);
    assert t.nodes == SumTree1;
    GrowSumTree3(t);
    m3, s3 := t.MaxPathSum(), t.Sum();
    GrowSumTree5(t);
    m5, s5 := t.MaxPathSum(), t.Sum();
  }

  // ---- test_is_bst_root and test_is_bst ----

  /** `test_is_bst_root`: a single node is accepted. */
  method IsBstRootScenario(kt: KeyType) returns (b: bool)
    requires kt.minVal <= 0 && kt.maxVal > 1
    ensures b
  {
    var t := new Tree.WithRoot(kt, 1);
    assert t.nodes == [Leaf(1)];
    assert IsBstRec(t.nodes, kt, Some(0)).0;
    b := t.IsBst();
  }

  const BstTree3: seq<Node> := [Node(50, Some(1), Some(2)), Leaf(15), Leaf(90)]

  function BstTree4(kt: KeyType): seq<Node>
  {
    [Node(50, Some(1), Some(2)), Node(15, None, Some(3)), Leaf(90), Leaf(kt.maxVal)]
  }

  lemma BstTreeStages(kt: KeyType)
    requires kt.minVal <= 0 && kt.maxVal > 90
    ensures ForwardLinks(BstTree3) && ForwardLinks(BstTree4(kt))
    ensures IsBstRec([Leaf(50)], kt, Some(0)).0
    ensures IsBstRec([Node(50, Some(1), None), Leaf(15)], kt, Some(0)).0
    ensures IsBstRec(BstTree3, kt, Some(0)).0
    ensures !IsBstRec(BstTree4(kt), kt, Some(0)).0
  {
    var t := BstTree4(kt);
    assert IsBstRec(t, kt, Some(3)) == (false, kt.maxVal, kt.maxVal);
    assert !IsBstRec(t, kt, Some(1)).0;
    assert IsBstRec(BstTree3, kt, Some(1)) == (true, kt.maxVal, 15);
    assert IsBstRec(BstTree3, kt, Some(2)) == (true, kt.maxVal, 90);
  }

  method GrowBstTree2(t: Tree)
    requires t.Valid() && t.keyType.Holds(15) && t.nodes == [Leaf(50)]
    modifies t
    ensures t.Valid() && t.nodes == [Node(50, Some(1), None), Leaf(15)]
  {
    var _ := t.AddNode(0, 15, true);
  }

  method GrowBstTree3(t: Tree)
    requires t.Valid() && t.keyType.Holds(90) && t.nodes == [Node(50, Some(1), None), Leaf(15)]
    modifies t
    ensures t.Valid() && t.nodes == BstTree3
  {
    var _ := t.AddNode(0, 90, false);
    assert t.nodes == BstTree3;
  }

  method GrowBstTree4(t: Tree)
    requires t.Valid() && t.nodes == BstTree3
    modifies t
    ensures t.Valid() && t.nodes == BstTree4(t.keyType)
  {
    var _ := t.AddNode(1, t.keyType.maxVal, false);
    assert t.nodes == BstTree4(t.keyType);
  }

  /**
    `test_is_bst`: 50, then 15 on its left, then 90 on its right are accepted;
    adding the type maximum as the right child of 15 is rejected.
  */
  method IsBstScenario(kt: KeyType) returns (bsts: seq<bool>)
    requires kt.minVal <= 0 && kt.maxVal > 90
    ensures bsts == [true, true, true, false]
  {
    BstTreeStages(kt);
    var t := new Tree.WithRoot(kt, 50);
    var b0 := t.IsBst();
    GrowBstTree2(t);
    var b1 := t.IsBst();
    GrowBstTree3(t);
    var b2 := t.IsBst();
    GrowBstTree4(t);
    var b3 := t.IsBst();
    bsts := [b0, b1, b2, b3];
  }

  // ---- test_max_path_sum_2: 3, then 4 and 5 under it, then k and 4 under the 4 ----

  function PathTree(k: int): seq<Node>
  {
    [Node(3, Some(1), Some(2)), Node(4, Some(3), Some(4)), Leaf(5), Leaf(k), Leaf(4)]
  }

  lemma PathTreePaths(kt: KeyType, k: int)
    requires kt.minVal <= 0 && kt.maxVal > 20 && kt.Holds(k) && k <= 4
    ensures ForwardLinks(PathTree(k))
    ensures PathSumFits(PathTree(k), kt, Some(0)) && MaxPathSumRec(PathTree(k), Some(0)).1 == Some(16)
  {
    var t := PathTree(k);
    assert ForwardLinks(t);
    assert MaxPathSumRec(t, Some(3)) == (k, Some(k));
    assert MaxPathSumRec(t, Some(4)) == (4, Some(4));
    assert MaxPathSumRec(t, Some(1)) == (8, Some(Max3(k + 8, k, 4)));
    assert MaxPathSumRec(t, Some(2)) == (5, Some(5));
    assert MaxPathSumRec(t, Some(0)) == (11, Some(16));
    assert PathSumFits(t, kt, Some(3)) && PathSumFits(t, kt, Some(4)) && PathSumFits(t, kt, Some(2));
    assert PathSumFits(t, kt, Some(1));
  }

  lemma PathTreeNotBst(kt: KeyType, k: int)
    requires kt.minVal <= 0 && kt.maxVal > 20 && kt.Holds(k) && k <= 4
    ensures ForwardLinks(PathTree(k))
    ensures !IsBstRec(PathTree(k), kt, Some(0)).0
  {
    var t := PathTree(k);
    assert ForwardLinks(t);
    assert IsBstRec(t, kt, Some(3)).2 == k;
    assert IsBstRec(t, kt, Some(4)).2 == 4;
    assert IsBstRec(t, kt, Some(1)).2 == 4;
  }

  method GrowPathTree(t: Tree, k: int)
    requires t.Valid() && t.keyType.Holds(5) && t.keyType.Holds(k) && t.nodes == [Leaf(3)]
    modifies t
    ensures t.Valid() && t.nodes == PathTree(k)
  {
    var _ := t.AddNode(0, 4, true);
    var _ := t.AddNode(0, 5, false);
    assert t.nodes == [Node(3, Some(1), Some(2)), Leaf(4), Leaf(5)];
    var _ := t.AddNode(1, k, true);
    var _ := t.AddNode(1, 4, false);
    assert t.nodes == PathTree(k);
  }

  /**
    `test_max_path_sum_2`: best path 4 - 4 - 3 - 5 = 16, not a search tree;
    the generic test puts -10 in the slot the `u32` test fills with 2, and the
    answer is the same for every key `k <= 4` there.
  */
  method MaxPath2Scenario(kt: KeyType, k: int) returns (m: int, b: bool)
    requires kt.minVal <= 0 && kt.maxVal > 20 && kt.Holds(k) && k <= 4
    ensures m == 16 && !b
  {
    PathTreePaths(kt, k);
    PathTreeNotBst(kt, k);
    var t := new Tree.WithRoot(kt, 3);
    GrowPathTree(t, k);
    m, b := t.MaxPathSum(), t.IsBst();
  }

  // ---- test_max_path_sum_3: thirteen nodes ----

  /** The shape of the thirteen-node tree, with the keys given in index order. */
  function BigTree(ks: seq<int>): seq<Node>
    requires |ks| == 13
  {
    [ Node(ks[0], Some(1), Some(2)), Node(ks[1], Some(3), Some(4)), Node(ks[2], Some(7), Some(8)),
      Node(ks[3], Some(5), Some(6)), Leaf(ks[4]), Leaf(ks[5]), Leaf(ks[6]), Leaf(ks[7]),
      Node(ks[8], None, Some(9)), Node(ks[9], Some(10), Some(11)), Leaf(ks[10]),
      Node(ks[11], Some(12), None), Leaf(ks[12]) ]
  }

  /** The same tree after its first 4, 7 and 10 nodes. */
  function BigTree4(ks: seq<int>): seq<Node>
    requires |ks| == 13
  {
    [Node(ks[0], Some(1), Some(2)), Node(ks[1], Some(3), None), Leaf(ks[2]), Leaf(ks[3])]
  }

  function BigTree7(ks: seq<int>): seq<Node>
    requires |ks| == 13
  {
    [ Node(ks[0], Some(1), Some(2)), Node(ks[1], Some(3), Some(4)), Leaf(ks[2]),
      Node(ks[3], Some(5), Some(6)), Leaf(ks[4]), Leaf(ks[5]), Leaf(ks[6]) ]
  }

  function BigTree10(ks: seq<int>): seq<Node>
    requires |ks| == 13
  {
    [ Node(ks[0], Some(1), Some(2)), Node(ks[1], Some(3), Some(4)), Node(ks[2], Some(7), Some(8)),
      Node(ks[3], Some(5), Some(6)), Leaf(ks[4]), Leaf(ks[5]), Leaf(ks[6]), Leaf(ks[7]),
      Node(ks[8], None, Some(9)), Leaf(ks[9]) ]
  }

  ghost predicate KeysOfType(kt: KeyType, ks: seq<int>)
  {
    forall i | 0 <= i < |ks| :: kt.Holds(ks[i])
  }

  /** The `add_node` calls of the test, with the keys `ks[1..]`, in four steps. */
  method GrowBigTree4(t: Tree, ks: seq<int>)
    requires |ks| == 13 && KeysOfType(t.keyType, ks) && t.Valid() && t.nodes == [Leaf(ks[0])]
    modifies t
    ensures t.Valid() && t.nodes == BigTree4(ks)
  {
    var _ := t.AddNode(0, ks[1], true);
    var _ := t.AddNode(0, ks[2], false);
    var _ := t.AddNode(1, ks[3], true);
    assert t.nodes == BigTree4(ks);
  }

  method GrowBigTree7(t: Tree, ks: seq<int>)
    requires |ks| == 13 && KeysOfType(t.keyType, ks) && t.Valid() && t.nodes == BigTree4(ks)
    modifies t
    ensures t.Valid() && t.nodes == BigTree7(ks)
  {
    var _ := t.AddNode(1, ks[4], false);
    var _ := t.AddNode(3, ks[5], true);
    var _ := t.AddNode(3, ks[6], false);
    assert t.nodes == BigTree7(ks);
  }

  method GrowBigTree10(t: Tree, ks: seq<int>)
    requires |ks| == 13 && KeysOfType(t.keyType, ks) && t.Valid() && t.nodes == BigTree7(ks)
    modifies t
    ensures t.Valid() && t.nodes == BigTree10(ks)
  {
    var _ := t.AddNode(2, ks[7], true);
    var _ := t.AddNode(2, ks[8], false);
    assert t.nodes == BigTree10(ks)[..9][8 := Leaf(ks[8])];
    var _ := t.AddNode(8, ks[9], false);
    assert t.nodes == BigTree10(ks);
  }

  method GrowBigTree13(t: Tree, ks: seq<int>)
    requires |ks| == 13 && KeysOfType(t.keyType, ks) && t.Valid() && t.nodes == BigTree10(ks)
    modifies t
    ensures t.Valid() && t.nodes == BigTree(ks)
  {
    var _ := t.AddNode(9, ks[10], true);
    var _ := t.AddNode(9, ks[11], false);
    var _ := t.AddNode(11, ks[12], true);
    assert t.nodes == BigTree(ks);
  }

  method GrowBigTree(t: Tree, ks: seq<int>)
    requires |ks| == 13 && KeysOfType(t.keyType, ks) && t.Valid() && t.nodes == [Leaf(ks[0])]
    modifies t
    ensures t.Valid() && t.nodes == BigTree(ks)
  {
    GrowBigTree4(t, ks);
    GrowBigTree7(t, ks);
    GrowBigTree10(t, ks);
    GrowBigTree13(t, ks);
  }

  const SignedKeys: seq<int> := [-15, 5, 6, -8, 1, 2, -3, 3, 9, 0, 4, -1, 10]
  const UnsignedKeys: seq<int> := [0, 5, 6, 8, 1, 2, 3, 3, 9, 0, 4, 1, 10]

  /** The thirteen-node tree with the generic test's keys, and with the `u32` test's. */
  const SignedBigTree: seq<Node> :=
    [ Node(-15, Some(1), Some(2)), Node(5, Some(3), Some(4)), Node(6, Some(7), Some(8)),
      Node(-8, Some(5), Some(6)), Leaf(1), Leaf(2), Leaf(-3), Leaf(3),
      Node(9, None, Some(9)), Node(0, Some(10), Some(11)), Leaf(4),
      Node(-1, Some(12), None), Leaf(10) ]
  const UnsignedBigTree: seq<Node> :=
    [ Node(0, Some(1), Some(2)), Node(5, Some(3), Some(4)), Node(6, Some(7), Some(8)),
      Node(8, Some(5), Some(6)), Leaf(1), Leaf(2), Leaf(3), Leaf(3),
      Node(9, None, Some(9)), Node(0, Some(10), Some(11)), Leaf(4),
      Node(1, Some(12), None), Leaf(10) ]

  lemma BigTreeShapes()
    ensures BigTree(SignedKeys) == SignedBigTree
    ensures BigTree(UnsignedKeys) == UnsignedBigTree
  {
  }

  lemma BigTreeKeysFit()
    ensures KeysOfType(ISIZE, SignedKeys) && KeysOfType(U32, UnsignedKeys)
  {
  }

  lemma BigTreeLinks()
    ensures ForwardLinks(SignedBigTree) && ForwardLinks(UnsignedBigTree)
  {
  }

  /** The subtree under node 2 of the thirteen-node tree. */
  lemma SignedBigTreeRight()
    ensures ForwardLinks(SignedBigTree)
    ensures MaxPathSumRec(SignedBigTree, Some(2)) == (24, Some(27)) && PathSumFits(SignedBigTree, ISIZE, Some(2))
  {
    BigTreeLinks();
    assert MaxPathSumRec(SignedBigTree, Some(12)) == (10, Some(10));
    assert MaxPathSumRec(SignedBigTree, Some(11)) == (9, Some(10));
    assert MaxPathSumRec(SignedBigTree, Some(10)) == (4, Some(4));
    assert MaxPathSumRec(SignedBigTree, Some(9)) == (9, Some(13));
    assert MaxPathSumRec(SignedBigTree, Some(8)) == (18, Some(18));
    assert MaxPathSumRec(SignedBigTree, Some(7)) == (3, Some(3));
    assert PathSumFits(SignedBigTree, ISIZE, Some(12));
    assert PathSumFits(SignedBigTree, ISIZE, Some(11));
    assert PathSumFits(SignedBigTree, ISIZE, Some(10));
    assert PathSumFits(SignedBigTree, ISIZE, Some(9));
    assert PathSumFits(SignedBigTree, ISIZE, Some(8));
    assert PathSumFits(SignedBigTree, ISIZE, Some(7));
  }

  /** The subtree under node 1 of the thirteen-node tree. */
  lemma SignedBigTreeLeft()
    ensures ForwardLinks(SignedBigTree)
    ensures MaxPathSumRec(SignedBigTree, Some(1)) == (6, Some(2)) && PathSumFits(SignedBigTree, ISIZE, Some(1))
  {
    BigTreeLinks();
    assert MaxPathSumRec(SignedBigTree, Some(6)) == (-3, Some(-3));
    assert MaxPathSumRec(SignedBigTree, Some(5)) == (2, Some(2));
    assert MaxPathSumRec(SignedBigTree, Some(4)) == (1, Some(1));
    assert MaxPathSumRec(SignedBigTree, Some(3)) == (-6, Some(2));
    assert PathSumFits(SignedBigTree, ISIZE, Some(6));
    assert PathSumFits(SignedBigTree, ISIZE, Some(5));
    assert PathSumFits(SignedBigTree, ISIZE, Some(4));
    assert PathSumFits(SignedBigTree, ISIZE, Some(3));
  }

  lemma SignedBigTreePaths()
    ensures ForwardLinks(SignedBigTree)
    ensures MaxPathSumRec(SignedBigTree, Some(0)).1 == Some(27)
    ensures PathSumFits(SignedBigTree, ISIZE, Some(0))
  {
    SignedBigTreeRight();
    SignedBigTreeLeft();
  }

  lemma SignedBigTreeNotBst()
    ensures ForwardLinks(SignedBigTree)
    ensures !IsBstRec(SignedBigTree, ISIZE, Some(0)).0
  {
    BigTreeLinks();
    assert IsBstRec(SignedBigTree, ISIZE, Some(4)).2 == 1;
    assert IsBstRec(SignedBigTree, ISIZE, Some(5)).2 == 2;
    assert IsBstRec(SignedBigTree, ISIZE, Some(6)).2 == -3;
    assert IsBstRec(SignedBigTree, ISIZE, Some(3)).2 == 2;
    assert IsBstRec(SignedBigTree, ISIZE, Some(1)).2 == 5;
  }

  /** The subtree under node 2 of the thirteen-node tree. */
  lemma UnsignedBigTreeRight()
    ensures ForwardLinks(UnsignedBigTree)
    ensures MaxPathSumRec(UnsignedBigTree, Some(2)) == (26, Some(29)) && PathSumFits(UnsignedBigTree, U32, Some(2))
  {
    BigTreeLinks();
    assert MaxPathSumRec(UnsignedBigTree, Some(12)) == (10, Some(10));
    assert MaxPathSumRec(UnsignedBigTree, Some(11)) == (11, Some(11));
    assert MaxPathSumRec(UnsignedBigTree, Some(10)) == (4, Some(4));
    assert MaxPathSumRec(UnsignedBigTree, Some(9)) == (11, Some(15));
    assert MaxPathSumRec(UnsignedBigTree, Some(8)) == (20, Some(20));
    assert MaxPathSumRec(UnsignedBigTree, Some(7)) == (3, Some(3));
    assert PathSumFits(UnsignedBigTree, U32, Some(12));
    assert PathSumFits(UnsignedBigTree, U32, Some(11));
    assert PathSumFits(UnsignedBigTree, U32, Some(10));
    assert PathSumFits(UnsignedBigTree, U32, Some(9));
    assert PathSumFits(UnsignedBigTree, U32, Some(8));
    assert PathSumFits(UnsignedBigTree, U32, Some(7));
  }

  /** The subtree under node 1 of the thirteen-node tree. */
  lemma UnsignedBigTreeLeft()
    ensures ForwardLinks(UnsignedBigTree)
    ensures MaxPathSumRec(UnsignedBigTree, Some(1)) == (16, Some(17)) && PathSumFits(UnsignedBigTree, U32, Some(1))
  {
    BigTreeLinks();
    assert MaxPathSumRec(UnsignedBigTree, Some(6)) == (3, Some(3));
    assert MaxPathSumRec(UnsignedBigTree, Some(5)) == (2, Some(2));
    assert MaxPathSumRec(UnsignedBigTree, Some(4)) == (1, Some(1));
    assert MaxPathSumRec(UnsignedBigTree, Some(3)) == (11, Some(13));
    assert PathSumFits(UnsignedBigTree, U32, Some(6));
    assert PathSumFits(UnsignedBigTree, U32, Some(5));
    assert PathSumFits(UnsignedBigTree, U32, Some(4));
    assert PathSumFits(UnsignedBigTree, U32, Some(3));
  }

  lemma UnsignedBigTreePaths()
    ensures ForwardLinks(UnsignedBigTree)
    ensures MaxPathSumRec(UnsignedBigTree, Some(0)).1 == Some(42)
    ensures PathSumFits(UnsignedBigTree, U32, Some(0))
  {
    UnsignedBigTreeRight();
    UnsignedBigTreeLeft();
  }

  lemma UnsignedBigTreeNotBst()
    ensures ForwardLinks(UnsignedBigTree)
    ensures !IsBstRec(UnsignedBigTree, U32, Some(0)).0
  {
    BigTreeLinks();
    assert IsBstRec(UnsignedBigTree, U32, Some(4)).2 == 1;
    assert !IsBstRec(UnsignedBigTree, U32, Some(1)).0;
  }

  /** `test_max_path_sum_3` of the generic tree, on `isize`: best path 27, not a search tree. */
  method SignedMaxPath3Scenario() returns (m: int, b: bool)
    ensures m == 27 && !b
  {
    BigTreeShapes();
    BigTreeKeysFit();
    SignedBigTreePaths();
    SignedBigTreeNotBst();
    var t := new Tree.WithRoot(ISIZE, SignedKeys[0]);
    GrowBigTree(t, SignedKeys);
    assert t.nodes == SignedBigTree;
    m, b := t.MaxPathSum(), t.IsBst();
  }

  /** `test_max_path_sum_3` of the `u32` tree: best path 42, not a search tree. */
  method U32MaxPath3Scenario() returns (m: int, b: bool)
    ensures m == 42 && !b
  {
    BigTreeShapes();
    BigTreeKeysFit();
    UnsignedBigTreePaths();
    UnsignedBigTreeNotBst();
    var t := new Tree.WithRoot(U32, UnsignedKeys[0]);
    GrowBigTree(t, UnsignedKeys);
    assert t.nodes == UnsignedBigTree;
    m, b := t.MaxPathSum(), t.IsBst();
  }

  // ---- test_max_path_sum_4: 2, 2 on its left, then 1 and 3 under that, then 6 under the 1 ----

  const ChainTree3: seq<Node> := [Node(2, Some(1), None), Node(2, None, Some(2)), Leaf(1)]
  const ChainTree4: seq<Node> := [Node(2, Some(1), None), Node(2, Some(3), Some(2)), Leaf(1), Leaf(3)]
  const ChainTree5: seq<Node> :=
    [Node(2, Some(1), None), Node(2, Some(3), Some(2)), Node(1, None, Some(4)), Leaf(3), Leaf(6)]

  lemma ChainTree3Stage(kt: KeyType)
    requires kt.minVal <= 0 && kt.maxVal > 20
    ensures ForwardLinks(ChainTree3)
    ensures PathSumFits(ChainTree3, kt, Some(0)) && MaxPathSumRec(ChainTree3, Some(0)).1 == Some(5)
  {
    assert ForwardLinks(ChainTree3);
    assert MaxPathSumRec(ChainTree3, Some(2)) == (1, Some(1));
    assert MaxPathSumRec(ChainTree3, Some(1)) == (3, Some(3));
    assert PathSumFits(ChainTree3, kt, Some(2));
    assert PathSumFits(ChainTree3, kt, Some(1));
  }

  lemma ChainTree4Stage(kt: KeyType)
    requires kt.minVal <= 0 && kt.maxVal > 20
    ensures ForwardLinks(ChainTree4)
    ensures PathSumFits(ChainTree4, kt, Some(0)) && MaxPathSumRec(ChainTree4, Some(0)).1 == Some(7)
    ensures !IsBstRec(ChainTree4, kt, Some(0)).0
  {
    assert ForwardLinks(ChainTree4);
    assert MaxPathSumRec(ChainTree4, Some(3)) == (3, Some(3));
    assert MaxPathSumRec(ChainTree4, Some(2)) == (1, Some(1));
    assert MaxPathSumRec(ChainTree4, Some(1)) == (5, Some(6));
    assert PathSumFits(ChainTree4, kt, Some(3)) && PathSumFits(ChainTree4, kt, Some(2));
    assert PathSumFits(ChainTree4, kt, Some(1));
    assert IsBstRec(ChainTree4, kt, Some(3)).2 == 3;
    assert !IsBstRec(ChainTree4, kt, Some(1)).0;
  }

  lemma ChainTree5NotBst(kt: KeyType)
    requires kt.minVal <= 0 && kt.maxVal > 20
    ensures ForwardLinks(ChainTree5)
    ensures !IsBstRec(ChainTree5, kt, Some(0)).0
  {
    assert ForwardLinks(ChainTree5);
    assert IsBstRec(ChainTree5, kt, Some(3)).2 == 3;
    assert !IsBstRec(ChainTree5, kt, Some(1)).0;
  }

  lemma ChainTree5Stage(kt: KeyType)
    requires kt.minVal <= 0 && kt.maxVal > 20
    ensures ForwardLinks(ChainTree5)
    ensures PathSumFits(ChainTree5, kt, Some(0)) && MaxPathSumRec(ChainTree5, Some(0)).1 == Some(12)
  {
    assert ForwardLinks(ChainTree5);
    assert MaxPathSumRec(ChainTree5, Some(4)) == (6, Some(6));
    assert MaxPathSumRec(ChainTree5, Some(3)) == (3, Some(3));
    assert MaxPathSumRec(ChainTree5, Some(2)) == (7, Some(7));
    assert MaxPathSumRec(ChainTree5, Some(1)) == (9, Some(12));
    assert PathSumFits(ChainTree5, kt, Some(4)) && PathSumFits(ChainTree5, kt, Some(3));
    assert PathSumFits(ChainTree5, kt, Some(2));
    assert PathSumFits(ChainTree5, kt, Some(1));
  }

  method GrowChainTree(t: Tree)
    requires t.Valid() && t.keyType.Holds(2) && t.nodes == [Leaf(2)]
    modifies t
    ensures t.Valid() && t.nodes == ChainTree3
  {
    var _ := t.AddNode(0, 2, true);
    var _ := t.AddNode(1, 1, false);
    assert t.nodes == ChainTree3;
  }

  method GrowChainTree4(t: Tree)
    requires t.Valid() && t.keyType.Holds(3) && t.nodes == ChainTree3
    modifies t
    ensures t.Valid() && t.nodes == ChainTree4
  {
    var _ := t.AddNode(1, 3, true);
    assert t.nodes == ChainTree4;
  }

  method GrowChainTree5(t: Tree)
    requires t.Valid() && t.keyType.Holds(6) && t.nodes == ChainTree4
    modifies t
    ensures t.Valid() && t.nodes == ChainTree5
  {
    var _ := t.AddNode(2, 6, false);
    assert t.nodes == ChainTree5;
  }

  /**
    `test_max_path_sum_4`: best paths 5, then 7, then 12 (the last step only
    in the `u32` test); not a search tree once 3 is left of the inner 2.
  */
  method MaxPath4Scenario(kt: KeyType) returns (paths: seq<int>, b4: bool, b5: bool)
    requires kt.minVal <= 0 && kt.maxVal > 20
    ensures paths == [5, 7, 12] && !b4 && !b5
  {
    ChainTree3Stage(kt);
    ChainTree4Stage(kt);
    ChainTree5Stage(kt);
    ChainTree5NotBst(kt);
    var t := new Tree.WithRoot(kt, 2);
    GrowChainTree(t);
    var m3 := t.MaxPathSum();
    GrowChainTree4(t);
    var m4 := t.MaxPathSum();
    b4 := t.IsBst();
    GrowChainTree5(t);
    var m5 := t.MaxPathSum();
    b5 := t.IsBst();
    paths := [m3, m4, m5];
  }

  // ---- the two panics of add_node ----

  /**
    A second left child, a second right child and a missing parent are each
    refused with their own error, and leave the tree as it was.
  */
  method AddErrorsScenario(kt: KeyType) returns (e1: Result<nat, AddError>, e2: Result<nat, AddError>, e3: Result<nat, AddError>, size: nat)
    requires kt.minVal <= 0 && kt.maxVal > 20
    ensures e1 == Err(LeftTaken) && e2 == Err(RightTaken) && e3 == Err(ParentMissing)
    ensures size == 3
  {
    var t := new Tree.WithRoot(kt, 10);
    var _ := t.AddNode(0, 5, true);
    var _ := t.AddNode(0, 15, false);
    e1 := t.AddNode(0, 1, true);
    e2 := t.AddNode(0, 20, false);
    e3 := t.AddNode(3, 7, true);
    size := |t.nodes|;
  }

  // ---- the scenarios at the key types of the tests ----

  /**
    The parameterised scenarios run at the key types the tests use: untyped
    literals in the generic tests default to `i32`, `1usize` and `u128::MAX`
    fix the type of two of them, and every key of the second tree is a `u32`.
    Each call shows that the type meets its scenario's precondition.
  */
  method TestTypesScenario() returns (sums: seq<int>, sumsU: seq<int>, root: bool, rootU: bool,
                                      bsts: seq<bool>, bstsU: seq<bool>, m2: int, m2U: int,
                                      paths: seq<int>, pathsU: seq<int>)
    ensures sums == sumsU == [10, 37, 64]
    ensures root && rootU
    ensures bsts == bstsU == [true, true, true, false]
    ensures m2 == m2U == 16
    ensures paths == pathsU == [5, 7, 12]
  {
    var sumBsts, sumBstsU, b2, b2U, b4, b5, b4U, b5U;
    sums, sumBsts := SumScenario(I32);
    sumsU, sumBstsU := SumScenario(U32);
    root := IsBstRootScenario(USIZE);
    rootU := IsBstRootScenario(U32);
    bsts := IsBstScenario(U128);
    bstsU := IsBstScenario(U32);
    var _, _, _, _ := MaxPathIsSumScenario(I32);
    var _, _, _, _ := MaxPathIsSumScenario(U32);
    m2, b2 := MaxPath2Scenario(I32, -10);
    m2U, b2U := MaxPath2Scenario(U32, 2);
    paths, b4, b5 := MaxPath4Scenario(I32);
    pathsU, b4U, b5U := MaxPath4Scenario(U32);
  }
}
