/**
  The arena that owns every node of a tree.  Nodes refer to their children by
  position in the arena, never by owning link.  This module holds the node
  record, the key type's bounds, the shape invariant that construction keeps,
  and `Attach`, the effect of a successful `add_node` on the arena.
*/
module Arena {

  datatype Option<T> = None | Some(value: T)

  /** A node: its key and the arena positions of its left and right child, if any. */
  datatype Node = Node(key: int, left: Option<nat>, right: Option<nat>)

  /** `Node::new`: a node with the given key and both child slots empty. */
  function Leaf(key: int): Node
  {
    Node(key, None, None)
  }

  /**
    The integer type the keys are drawn from, given by its least and greatest
    representable values; its additive identity is 0.  `u32` is
    `KeyType(0, 0xFFFF_FFFF)`.
  */
  datatype KeyType = KeyType(minVal: int, maxVal: int) {
    predicate Valid() { minVal <= 0 <= maxVal }
    predicate Holds(x: int) { minVal <= x <= maxVal }
  }

  function Max(a: int, b: int): int { if a >= b then a else b }

  function Max3(a: int, b: int, c: int): int { Max(Max(a, b), c) }

  function Min(a: int, b: int): int { if a <= b then a else b }

  function Min3(a: int, b: int, c: int): int { Min(Min(a, b), c) }

  /** Every key stored in the arena is a value of the key type. */
  ghost predicate KeysFit(nodes: seq<Node>, kt: KeyType)
  {
    forall i | 0 <= i < |nodes| :: kt.Holds(nodes[i].key)
  }

  /** A subtree reference: absent, or a position inside the arena. */
  predicate InRange(nodes: seq<Node>, c: Option<nat>)
  {
    c.Some? ==> c.value < |nodes|
  }

  /** Termination measure of the recursions over subtrees: `|nodes| - id`. */
  function Rank(nodes: seq<Node>, c: Option<nat>): nat
  {
    if c.Some? && c.value < |nodes| then |nodes| - c.value else 0
  }

  /** Every child index of node `i` lies strictly after `i` and inside the arena. */
  ghost predicate ForwardLinks(nodes: seq<Node>)
  {
    forall i | 0 <= i < |nodes| ::
      && (nodes[i].left.Some? ==> i < nodes[i].left.value < |nodes|)
      && (nodes[i].right.Some? ==> i < nodes[i].right.value < |nodes|)
  }

  /** How many of the two child slots of `n` hold index `j`. */
  function Slots(n: Node, j: nat): nat
  {
    (if n.left == Some(j) then 1 else 0) + (if n.right == Some(j) then 1 else 0)
  }

  /** How many child slots, over the whole arena, hold index `j`. */
  ghost function RefCount(nodes: seq<Node>, j: nat): nat
  {
    if nodes == [] then 0 else RefCount(nodes[..|nodes| - 1], j) + Slots(nodes[|nodes| - 1], j)
  }

  /** The number of downward paths from the subtree root `c` to node `j`. */
  ghost function Paths(nodes: seq<Node>, c: Option<nat>, j: nat): nat
    requires ForwardLinks(nodes) && InRange(nodes, c)
    decreases Rank(nodes, c)
  {
    match c
    case None => 0
    case Some(i) =>
      (if i == j then 1 else 0) + Paths(nodes, nodes[i].left, j) + Paths(nodes, nodes[i].right, j)
  }

  /**
    The shape invariant of a tree: the arena is never empty, child indices
    point forward (so there is no dangling index and no cycle), every node but
    the root is the child of exactly one node, and every node is reached from
    the root along exactly one path.
  */
  ghost predicate WellFormed(nodes: seq<Node>)
  {
    && |nodes| >= 1
    && ForwardLinks(nodes)
    && (forall j: nat | 0 < j < |nodes| :: RefCount(nodes, j) == 1)
    && (forall j: nat | j < |nodes| :: Paths(nodes, Some(0), j) == 1)
  }

  /** The chosen child slot of `n` (left iff `isLeft`) is empty. */
  predicate SlotFree(n: Node, isLeft: bool)
  {
    if isLeft then n.left.None? else n.right.None?
  }

  /**
    The arena after a successful `add_node(parent, key, isLeft)`: a childless
    node holding `key` is pushed at position `|nodes|`, and the chosen slot of
    `parent` is set to that position.
  */
  function Attach(nodes: seq<Node>, parent: nat, key: int, isLeft: bool): (r: seq<Node>)
    requires parent < |nodes|
    ensures |r| == |nodes| + 1
    ensures r[|nodes|] == Leaf(key)
    ensures r[parent].key == nodes[parent].key
    ensures isLeft ==> r[parent].left == Some(|nodes|) && r[parent].right == nodes[parent].right
    ensures !isLeft ==> r[parent].right == Some(|nodes|) && r[parent].left == nodes[parent].left
    ensures forall i | 0 <= i < |nodes| && i != parent :: r[i] == nodes[i]
    ensures ForwardLinks(nodes) ==> ForwardLinks(r)
  {
    var p := nodes[parent];
    var linked := if isLeft then p.(left := Some(|nodes|)) else p.(right := Some(|nodes|));
    (nodes + [Leaf(key)])[parent := linked]
  }

  /** A one-node arena (`with_root`) is a well-formed tree. */
  lemma {:induction false} RootAloneWellFormed(key: int)
    ensures WellFormed([Leaf(key)])
  {
    var nodes := [Leaf(key)];
    assert Paths(nodes, Some(0), 0) == 1;
  }

  lemma {:induction false} RefCountAppend(s: seq<Node>, x: Node, j: nat)
    ensures RefCount(s + [x], j) == RefCount(s, j) + Slots(x, j)
  {
    assert (s + [x])[..|s|] == s;
  }

  /** Replacing one node changes the count of `j` by the difference of its slots. */
  lemma {:induction false} RefCountUpdate(s: seq<Node>, p: nat, x: Node, j: nat)
    requires p < |s|
    ensures RefCount(s[p := x], j) + Slots(s[p], j) == RefCount(s, j) + Slots(x, j)
  {
    var n := |s| - 1;
    if p == n {
      assert s[p := x][..n] == s[..n];
    } else {
      assert s[p := x][..n] == s[..n][p := x];
      RefCountUpdate(s[..n], p, x, j);
    }
  }

  /** An index held by no slot has count zero. */
  lemma {:induction false} RefCountZero(s: seq<Node>, j: nat)
    requires forall i | 0 <= i < |s| :: Slots(s[i], j) == 0
    ensures RefCount(s, j) == 0
  {
    if s != [] {
      var n := |s| - 1;
      assert forall i | 0 <= i < n :: s[..n][i] == s[i];
      RefCountZero(s[..n], j);
    }
  }

  /** No downward path leads from a node to an earlier node. */
  lemma {:induction false} PathsBackward(nodes: seq<Node>, c: Option<nat>, j: nat)
    requires ForwardLinks(nodes) && InRange(nodes, c)
    requires c.Some? ==> j < c.value
    ensures Paths(nodes, c, j) == 0
    decreases Rank(nodes, c)
  {
    if c.Some? {
      var n := nodes[c.value];
      PathsBackward(nodes, n.left, j);
      PathsBackward(nodes, n.right, j);
    }
  }

  /**
    After `Attach`, paths to old nodes are unchanged and the paths to the new
    node are exactly the paths to its parent.
  */
  lemma {:induction false} PathsAttach(nodes: seq<Node>, parent: nat, key: int, isLeft: bool, c: Option<nat>, j: nat)
    requires ForwardLinks(nodes) && parent < |nodes| && SlotFree(nodes[parent], isLeft)
    requires InRange(nodes, c) && j <= |nodes|
    ensures Paths(Attach(nodes, parent, key, isLeft), c, j)
         == if j < |nodes| then Paths(nodes, c, j) else Paths(nodes, c, parent)
    decreases Rank(nodes, c), 1
  {
    if c.Some? {
      var i := c.value;
      if i == parent {
        PathsAttachAtParent(nodes, parent, key, isLeft, j);
      } else {
        PathsAttach(nodes, parent, key, isLeft, nodes[i].left, j);
        PathsAttach(nodes, parent, key, isLeft, nodes[i].right, j);
      }
    }
  }

  /** `PathsAttach` from the parent itself: its filled slot now leads to the new node alone. */
  lemma {:induction false} PathsAttachAtParent(nodes: seq<Node>, parent: nat, key: int, isLeft: bool, j: nat)
    requires ForwardLinks(nodes) && parent < |nodes| && SlotFree(nodes[parent], isLeft)
    requires j <= |nodes|
    ensures Paths(Attach(nodes, parent, key, isLeft), Some(parent), j)
         == if j < |nodes| then Paths(nodes, Some(parent), j) else Paths(nodes, Some(parent), parent)
    decreases Rank(nodes, Some(parent)), 0
  {
    var r := Attach(nodes, parent, key, isLeft);
    var n := nodes[parent];
    var other := if isLeft then n.right else n.left;
    PathsAttach(nodes, parent, key, isLeft, other, j);
    assert Paths(r, Some(|nodes|), j) == if j == |nodes| then 1 else 0;
    if j == |nodes| {
      PathsBackward(nodes, other, parent);
      PathsBackward(nodes, n.left, parent);
      PathsBackward(nodes, n.right, parent);
    }
  }

  /** `add_node` keeps the shape invariant when the chosen slot was free. */
  lemma {:induction false} AttachWellFormed(nodes: seq<Node>, parent: nat, key: int, isLeft: bool)
    requires WellFormed(nodes) && parent < |nodes| && SlotFree(nodes[parent], isLeft)
    ensures WellFormed(Attach(nodes, parent, key, isLeft))
  {
    var r := Attach(nodes, parent, key, isLeft);
    var n := |nodes|;
    var p := nodes[parent];
    var linked := if isLeft then p.(left := Some(n)) else p.(right := Some(n));
    assert r == (nodes + [Leaf(key)])[parent := linked];
    forall j: nat | 0 < j < |r|
      ensures RefCount(r, j) == 1
    {
      RefCountUpdate(nodes + [Leaf(key)], parent, linked, j);
      RefCountAppend(nodes, Leaf(key), j);
      if j == n {
        RefCountZero(nodes, n);
      }
    }
    forall j: nat | j < |r|
      ensures Paths(r, Some(0), j) == 1
    {
      PathsAttach(nodes, parent, key, isLeft, Some(0), j);
    }
  }
}
