/**
  The documented meaning of `max_path_sum`: the largest sum of a path between
  two special nodes, a special node being one connected to exactly one other
  node.  `max_path_sum_rec` computes something else when keys can be
  negative: its downward paths may stop at any node with an empty child slot,
  so its best path may end at a node with a parent and a child.  This module
  defines the documented set of paths, the recursion that computes its
  maximum, the arena on which the code's answer differs, and the proof that
  for keys that are never negative the code's answer is the documented one.
*/
module SpecialPath {
  import opened Arena
  import opened MaxPath

  /** How many children `n` has. */
  function ChildCount(n: Node): nat
  {
    (if n.left.Some? then 1 else 0) + (if n.right.Some? then 1 else 0)
  }

  /** The number of nodes `j` is connected to: its children and the nodes holding it as a child. */
  ghost function Degree(nodes: seq<Node>, j: nat): nat
    requires j < |nodes|
  {
    ChildCount(nodes[j]) + RefCount(nodes, j)
  }

  /** A special node is connected to exactly one other node. */
  ghost predicate Special(nodes: seq<Node>, j: nat)
    requires j < |nodes|
  {
    Degree(nodes, j) == 1
  }

  /** In a tree, a node other than the root is special iff it has no child; the root iff it has one. */
  lemma SpecialNodes(nodes: seq<Node>, j: nat)
    requires WellFormed(nodes) && j < |nodes|
    ensures j > 0 ==> (Special(nodes, j) <==> ChildCount(nodes[j]) == 0)
    ensures j == 0 ==> (Special(nodes, j) <==> ChildCount(nodes[j]) == 1)
  {
    if j == 0 {
      RefCountZero(nodes, 0);
    }
  }

  /**
    Sums of the downward paths that start at the root of `c` and end at a
    special node other than the tree's root.
  */
  ghost function EndSums(nodes: seq<Node>, c: Option<nat>): set<int>
    requires ForwardLinks(nodes) && InRange(nodes, c)
    decreases Rank(nodes, c)
  {
    match c
    case None => {}
    case Some(i) =>
      var n := nodes[i];
      var below := EndSums(nodes, n.left) + EndSums(nodes, n.right);
      (if i > 0 && Special(nodes, i) then {n.key} else {}) + (set s | s in below :: n.key + s)
  }

  /** Sums of the paths between special nodes that bend at node `i`, one end under each child. */
  ghost function JoinsAt(nodes: seq<Node>, i: nat): set<int>
    requires ForwardLinks(nodes) && i < |nodes|
  {
    var n := nodes[i];
    set a, b | a in EndSums(nodes, n.left) && b in EndSums(nodes, n.right) :: a + n.key + b
  }

  /**
    Sums of the paths between two special nodes whose highest node lies in `c`
    and has one end under each of its children.
  */
  ghost function Joins(nodes: seq<Node>, c: Option<nat>): set<int>
    requires ForwardLinks(nodes) && InRange(nodes, c)
    decreases Rank(nodes, c)
  {
    match c
    case None => {}
    case Some(i) =>
      JoinsAt(nodes, i) + Joins(nodes, nodes[i].left) + Joins(nodes, nodes[i].right)
  }

  /**
    Sums of the paths between two distinct special nodes.  A path in a tree
    has one highest node.  Either its two ends lie under different children
    of that node, or the highest node is itself an end.  In the second case it
    has a child on the path, so it is special only if it is the root.
  */
  ghost function SpecialPathSums(nodes: seq<Node>): set<int>
    requires ForwardLinks(nodes) && |nodes| >= 1
  {
    var n := nodes[0];
    Joins(nodes, Some(0))
      + (if Special(nodes, 0) then set s | s in EndSums(nodes, n.left) + EndSums(nodes, n.right) :: n.key + s else {})
  }

  /** `m` is the largest element of `s`, and is absent exactly when `s` is empty. */
  ghost predicate IsMaxOf(m: Option<int>, s: set<int>)
  {
    && (m.Some? <==> s != {})
    && (m.Some? ==> m.value in s && forall x | x in s :: x <= m.value)
  }

  /** The larger of two optional values, absent only when both are. */
  function Best(x: Option<int>, y: Option<int>): Option<int>
  {
    match (x, y)
    case (None, _) => y
    case (_, None) => x
    case (Some(a), Some(b)) => Some(Max(a, b))
  }

  lemma BestOfUnion(x: Option<int>, xs: set<int>, y: Option<int>, ys: set<int>)
    requires IsMaxOf(x, xs) && IsMaxOf(y, ys)
    ensures IsMaxOf(Best(x, y), xs + ys)
  {
  }

  /** The path joining downward paths `dl` and `dr` at a node with key `key`, when both exist. */
  function Join(dl: Option<int>, key: int, dr: Option<int>): Option<int>
  {
    if dl.Some? && dr.Some? then Some(dl.value + key + dr.value) else None
  }

  /**
    The recursion `max_path_sum_rec` evidently intends: (best downward path
    from the root of `c` to a node with no child, best path joining two such
    paths under different children of a node of `c`), each absent when there
    is none.
  */
  function SpecialPathRec(nodes: seq<Node>, c: Option<nat>): (r: (Option<int>, Option<int>))
    requires ForwardLinks(nodes) && InRange(nodes, c)
    ensures r.0.Some? <==> c.Some?
    decreases Rank(nodes, c)
  {
    match c
    case None => (None, None)
    case Some(i) =>
      var n := nodes[i];
      var l := SpecialPathRec(nodes, n.left);
      var r := SpecialPathRec(nodes, n.right);
      var below := Best(l.0, r.0);
      var down := n.key + (if below.Some? then below.value else 0);
      (Some(down), Best(Best(Join(l.0, n.key, r.0), l.1), r.1))
  }

  /** The path the intended recursion joins at node `i`, present only when `i` has two children. */
  function JoinHere(nodes: seq<Node>, i: nat): Option<int>
    requires ForwardLinks(nodes) && i < |nodes|
  {
    Join(SpecialPathRec(nodes, nodes[i].left).0, nodes[i].key, SpecialPathRec(nodes, nodes[i].right).0)
  }

  /**
    The evidently intended `max_path_sum`: the best join in the tree, or the
    best path from a root with one child down to a node with no child.
  */
  function MaxSpecialPathSum(nodes: seq<Node>): Option<int>
    requires ForwardLinks(nodes) && |nodes| >= 1
  {
    var n := nodes[0];
    var best := SpecialPathRec(nodes, Some(0)).1;
    var below := Best(SpecialPathRec(nodes, n.left).0, SpecialPathRec(nodes, n.right).0);
    var fromRoot := if ChildCount(n) == 1 && below.Some? then Some(n.key + below.value) else None;
    Best(best, fromRoot)
  }

  /** Below the tree's root, the intended downward value is the best path to a special node. */
  lemma {:induction false} DownIsBestEnd(nodes: seq<Node>, c: Option<nat>)
    requires WellFormed(nodes) && InRange(nodes, c) && c.Some? && c.value > 0
    ensures IsMaxOf(SpecialPathRec(nodes, c).0, EndSums(nodes, c))
    decreases Rank(nodes, c)
  {
    var i := c.value;
    var n := nodes[i];
    SpecialNodes(nodes, i);
    var dl := SpecialPathRec(nodes, n.left).0;
    var dr := SpecialPathRec(nodes, n.right).0;
    if n.left.Some? {
      DownIsBestEnd(nodes, n.left);
    }
    if n.right.Some? {
      DownIsBestEnd(nodes, n.right);
    }
    var below := EndSums(nodes, n.left) + EndSums(nodes, n.right);
    BestOfUnion(dl, EndSums(nodes, n.left), dr, EndSums(nodes, n.right));
    var b := Best(dl, dr);
    if b.Some? {
      assert n.key + b.value in EndSums(nodes, c);
      forall s | s in EndSums(nodes, c)
        ensures s <= n.key + b.value
      {
        var t :| t in below && s == n.key + t;
      }
    }
  }

  /** The join the intended recursion forms at node `i` is the best path between special nodes bending there. */
  lemma {:induction false} HereIsBestJoinAt(nodes: seq<Node>, i: nat)
    requires WellFormed(nodes) && i < |nodes|
    ensures IsMaxOf(JoinHere(nodes, i), JoinsAt(nodes, i))
  {
    var n := nodes[i];
    var el := EndSums(nodes, n.left);
    var er := EndSums(nodes, n.right);
    if n.left.Some? && n.right.Some? {
      var dl := SpecialPathRec(nodes, n.left).0.value;
      var dr := SpecialPathRec(nodes, n.right).0.value;
      DownIsBestEnd(nodes, n.left);
      DownIsBestEnd(nodes, n.right);
      assert dl + n.key + dr in JoinsAt(nodes, i);
      forall s | s in JoinsAt(nodes, i)
        ensures s <= dl + dr + n.key
      {
        var a, b :| a in el && b in er && s == a + n.key + b;
      }
    } else {
      assert el == {} || er == {};
      assert JoinsAt(nodes, i) == {};
    }
  }

  /** `Best` of three maxima is the maximum of the union of the three sets. */
  lemma BestOfThree(m: Option<int>, s: set<int>, x: Option<int>, xs: set<int>, y: Option<int>, ys: set<int>,
                    z: Option<int>, zs: set<int>)
    requires IsMaxOf(x, xs) && IsMaxOf(y, ys) && IsMaxOf(z, zs)
    requires m == Best(Best(x, y), z) && s == xs + ys + zs
    ensures IsMaxOf(m, s)
  {
    BestOfUnion(x, xs, y, ys);
    BestOfUnion(Best(x, y), xs + ys, z, zs);
  }

  /** One step of `BestIsBestJoin`, from the facts about the children and the join at `i`. */
  lemma BestJoinStep(nodes: seq<Node>, i: nat)
    requires ForwardLinks(nodes) && i < |nodes|
    requires IsMaxOf(SpecialPathRec(nodes, nodes[i].left).1, Joins(nodes, nodes[i].left))
    requires IsMaxOf(SpecialPathRec(nodes, nodes[i].right).1, Joins(nodes, nodes[i].right))
    requires IsMaxOf(JoinHere(nodes, i), JoinsAt(nodes, i))
    ensures IsMaxOf(SpecialPathRec(nodes, Some(i)).1, Joins(nodes, Some(i)))
  {
    var n := nodes[i];
    BestOfThree(SpecialPathRec(nodes, Some(i)).1, Joins(nodes, Some(i)),
                JoinHere(nodes, i), JoinsAt(nodes, i), SpecialPathRec(nodes, n.left).1, Joins(nodes, n.left),
                SpecialPathRec(nodes, n.right).1, Joins(nodes, n.right));
  }

  /** The intended best path of a subtree is the largest of its joins. */
  lemma {:induction false} BestIsBestJoin(nodes: seq<Node>, c: Option<nat>)
    requires WellFormed(nodes) && InRange(nodes, c)
    ensures IsMaxOf(SpecialPathRec(nodes, c).1, Joins(nodes, c))
    decreases Rank(nodes, c)
  {
    if c.Some? {
      var i := c.value;
      BestIsBestJoin(nodes, nodes[i].left);
      BestIsBestJoin(nodes, nodes[i].right);
      HereIsBestJoinAt(nodes, i);
      BestJoinStep(nodes, i);
    }
  }

  /**
    The intended `max_path_sum` is the largest sum of a path between two
    special nodes, and is absent exactly when there is no such path.
  */
  lemma {:induction false} MaxSpecialPathSumIsMax(nodes: seq<Node>)
    requires WellFormed(nodes)
    ensures IsMaxOf(MaxSpecialPathSum(nodes), SpecialPathSums(nodes))
  {
    var n := nodes[0];
    SpecialNodes(nodes, 0);
    BestIsBestJoin(nodes, Some(0));
    var dl := SpecialPathRec(nodes, n.left).0;
    var dr := SpecialPathRec(nodes, n.right).0;
    var below := Best(dl, dr);
    var ends := EndSums(nodes, n.left) + EndSums(nodes, n.right);
    var fromRoot := if ChildCount(n) == 1 && below.Some? then Some(n.key + below.value) else None;
    var rootPaths := if Special(nodes, 0) then set s | s in ends :: n.key + s else {};
    if ChildCount(n) == 1 {
      if n.left.Some? {
        DownIsBestEnd(nodes, n.left);
      } else {
        DownIsBestEnd(nodes, n.right);
      }
      BestOfUnion(dl, EndSums(nodes, n.left), dr, EndSums(nodes, n.right));
      assert n.key + below.value in rootPaths;
      forall s | s in rootPaths
        ensures s <= n.key + below.value
      {
        var t :| t in ends && s == n.key + t;
      }
    }
    BestOfUnion(SpecialPathRec(nodes, Some(0)).1, Joins(nodes, Some(0)), fromRoot, rootPaths);
  }

  /**
    The code's recursion agrees with the intended one on `c`: the same
    downward value, never negative, and as best path the larger of the
    intended best join and that downward value.
  */
  ghost predicate Agrees(nodes: seq<Node>, c: Option<nat>)
    requires ForwardLinks(nodes) && InRange(nodes, c)
  {
    c.Some? ==>
      var code := MaxPathSumRec(nodes, c);
      var intended := SpecialPathRec(nodes, c);
      && code.0 == intended.0.value && code.0 >= 0
      && code.1 == Best(intended.1, intended.0)
  }

  /** One step of `CodeMatchesIntended`: agreement on the children of a node with a non-negative key. */
  lemma AgreesStep(nodes: seq<Node>, i: nat)
    requires ForwardLinks(nodes) && i < |nodes| && nodes[i].key >= 0
    requires Agrees(nodes, nodes[i].left) && Agrees(nodes, nodes[i].right)
    ensures Agrees(nodes, Some(i))
  {
  }

  /**
    With keys that are never negative, the code's downward value equals the
    intended one and is not negative, and the code's best path is the larger
    of the intended best join and the downward value.
  */
  lemma {:induction false} CodeMatchesIntended(nodes: seq<Node>, kt: KeyType, c: Option<nat>)
    requires ForwardLinks(nodes) && InRange(nodes, c) && kt.minVal >= 0 && KeysFit(nodes, kt)
    ensures Agrees(nodes, c)
    decreases Rank(nodes, c)
  {
    if c.Some? {
      var n := nodes[c.value];
      CodeMatchesIntended(nodes, kt, n.left);
      CodeMatchesIntended(nodes, kt, n.right);
      AgreesStep(nodes, c.value);
    }
  }

  /** A tree of two or more nodes has a root with a child. */
  lemma RootHasChild(nodes: seq<Node>)
    requires WellFormed(nodes) && |nodes| >= 2
    ensures ChildCount(nodes[0]) >= 1
  {
    assert Paths(nodes, Some(0), 1) == 1;
  }

  /**
    With keys that are never negative, on a tree of two or more nodes,
    `max_path_sum_rec` returns the intended answer.
  */
  lemma {:induction false} UnsignedBestIsSpecial(nodes: seq<Node>, kt: KeyType)
    requires WellFormed(nodes) && |nodes| >= 2 && kt.minVal >= 0 && KeysFit(nodes, kt)
    ensures MaxPathSumRec(nodes, Some(0)).1 == MaxSpecialPathSum(nodes)
  {
    var n := nodes[0];
    RootHasChild(nodes);
    CodeMatchesIntended(nodes, kt, Some(0));
    if n.left.Some? {
      CodeMatchesIntended(nodes, kt, n.left);
    }
    if n.right.Some? {
      CodeMatchesIntended(nodes, kt, n.right);
    }
  }

  /**
    With keys that are never negative, on a tree of two or more nodes,
    `max_path_sum_rec`'s best path is the largest sum of a path between two
    special nodes.
  */
  lemma {:induction false} UnsignedBestIsMaxSpecial(nodes: seq<Node>, kt: KeyType)
    requires WellFormed(nodes) && |nodes| >= 2 && kt.minVal >= 0 && KeysFit(nodes, kt)
    ensures IsMaxOf(MaxPathSumRec(nodes, Some(0)).1, SpecialPathSums(nodes))
  {
    UnsignedBestIsSpecial(nodes, kt);
    MaxSpecialPathSumIsMax(nodes);
  }

  /**
    With a negative key the code's answer is not the documented one.  On root
    5 with children 3 and 4, and -10 under the 3, the code returns 12 for the
    path 3 - 5 - 4, which ends at the 3 (a node with a parent and a child).
    The only path between two special nodes is -10 - 3 - 5 - 4, with sum 2.
  */
  lemma BestPathNotBetweenSpecialNodes()
    ensures var nodes := [Node(5, Some(1), Some(2)), Node(3, Some(3), None), Leaf(4), Leaf(-10)];
      && WellFormed(nodes)
      && MaxPathSumRec(nodes, Some(0)).1 == Some(12)
      && MaxSpecialPathSum(nodes) == Some(2)
      && IsMaxOf(Some(2), SpecialPathSums(nodes))
  {
    var nodes := [Node(5, Some(1), Some(2)), Node(3, Some(3), None), Leaf(4), Leaf(-10)];
    var s1 := Attach([Leaf(5)], 0, 3, true);
    var s2 := Attach(s1, 0, 4, false);
    assert s2 == [Node(5, Some(1), Some(2)), Leaf(3), Leaf(4)];
    assert nodes == Attach(s2, 1, -10, true);
    RootAloneWellFormed(5);
    AttachWellFormed([Leaf(5)], 0, 3, true);
    AttachWellFormed(s1, 0, 4, false);
    AttachWellFormed(s2, 1, -10, true);
    assert MaxPathSumRec(nodes, Some(3)) == (-10, Some(-10));
    assert MaxPathSumRec(nodes, Some(2)) == (4, Some(4));
    assert MaxPathSumRec(nodes, Some(1)) == (3, Some(-7));
    assert SpecialPathRec(nodes, Some(3)) == (Some(-10), None);
    assert SpecialPathRec(nodes, Some(2)) == (Some(4), None);
    assert SpecialPathRec(nodes, Some(1)) == (Some(-7), None);
    assert SpecialPathRec(nodes, Some(0)) == (Some(9), Some(2));
    MaxSpecialPathSumIsMax(nodes);
  }
}
