/**
  `max_path_sum` / `max_path_sum_rec`.  The recursion returns, per subtree,
  the best downward path sum from its root and the best path sum found inside
  it (absent for an absent subtree).  A downward path starts at a node and
  descends until it steps into an absent child, which contributes 0; a path
  inside a subtree joins two downward paths from the children of its highest
  node.  The lemmas prove that the two components are the maxima of those
  sets of sums.
*/
module MaxPath {
  import opened Arena

  /** `max_path_sum_rec`: (best downward path, best path found in the subtree). */
  function MaxPathSumRec(nodes: seq<Node>, c: Option<nat>): (r: (int, Option<int>))
    requires ForwardLinks(nodes) && InRange(nodes, c)
    ensures r.1.Some? <==> c.Some?
    decreases Rank(nodes, c)
  {
    match c
    case None => (0, None)
    case Some(i) =>
      var n := nodes[i];
      var (bpl, bsl) := MaxPathSumRec(nodes, n.left);
      var (bpr, bsr) := MaxPathSumRec(nodes, n.right);
      var here := bpl + bpr + n.key;
      var best :=
        match (bsl, bsr)
        case (None, None) => here
        case (Some(x), Some(y)) => Max3(here, x, y)
        case (None, Some(x)) => Max(here, x)
        case (Some(x), None) => Max(here, x);
      (n.key + Max(bpl, bpr), Some(best))
  }

  /**
    Sums of the downward paths from the root of `c`: an absent subtree offers
    the empty path (sum 0); a node extends any downward path of either child.
  */
  ghost function DownSums(nodes: seq<Node>, c: Option<nat>): set<int>
    requires ForwardLinks(nodes) && InRange(nodes, c)
    decreases Rank(nodes, c)
  {
    match c
    case None => {0}
    case Some(i) =>
      var below := DownSums(nodes, nodes[i].left) + DownSums(nodes, nodes[i].right);
      set s | s in below :: nodes[i].key + s
  }

  /**
    Sums of the bent paths inside the subtree `c`: for each node, a downward
    path of its left child, the node itself, and a downward path of its right
    child.  Since a downward path ends only at an empty child slot, not every
    path of the tree is one of these.
  */
  ghost function BentSums(nodes: seq<Node>, c: Option<nat>): set<int>
    requires ForwardLinks(nodes) && InRange(nodes, c)
    decreases Rank(nodes, c)
  {
    match c
    case None => {}
    case Some(i) =>
      var n := nodes[i];
      var dl := DownSums(nodes, n.left);
      var dr := DownSums(nodes, n.right);
      (set a, b | a in dl && b in dr :: a + b + n.key)
        + BentSums(nodes, n.left) + BentSums(nodes, n.right)
  }

  /** The best downward path is a member of `DownSums`, and no member of `DownSums` exceeds it. */
  lemma {:induction false} BestDownwardIsMax(nodes: seq<Node>, c: Option<nat>)
    requires ForwardLinks(nodes) && InRange(nodes, c)
    ensures var d := MaxPathSumRec(nodes, c).0;
      d in DownSums(nodes, c) && forall s | s in DownSums(nodes, c) :: s <= d
    decreases Rank(nodes, c)
  {
    if c.Some? {
      var n := nodes[c.value];
      BestDownwardIsMax(nodes, n.left);
      BestDownwardIsMax(nodes, n.right);
      var bpl := MaxPathSumRec(nodes, n.left).0;
      var bpr := MaxPathSumRec(nodes, n.right).0;
      var below := DownSums(nodes, n.left) + DownSums(nodes, n.right);
      assert Max(bpl, bpr) in below;
      forall s | s in DownSums(nodes, c)
        ensures s <= n.key + Max(bpl, bpr)
      {
        var t :| t in below && s == n.key + t;
      }
    }
  }

  /** `bpl + bpr + key` is the largest join at node `i` of one `DownSums` path of each child. */
  lemma {:induction false} BestJoinIsMax(nodes: seq<Node>, i: nat)
    requires ForwardLinks(nodes) && i < |nodes|
    ensures var n := nodes[i];
      var here := MaxPathSumRec(nodes, n.left).0 + MaxPathSumRec(nodes, n.right).0 + n.key;
      var joined := set a, b | a in DownSums(nodes, n.left) && b in DownSums(nodes, n.right) :: a + b + n.key;
      here in joined && forall s | s in joined :: s <= here
  {
    var n := nodes[i];
    var dl := DownSums(nodes, n.left);
    var dr := DownSums(nodes, n.right);
    BestDownwardIsMax(nodes, n.left);
    BestDownwardIsMax(nodes, n.right);
    var here := MaxPathSumRec(nodes, n.left).0 + MaxPathSumRec(nodes, n.right).0 + n.key;
    var joined := set a, b | a in dl && b in dr :: a + b + n.key;
    forall s | s in joined
      ensures s <= here
    {
      var a, b :| a in dl && b in dr && s == a + b + n.key;
    }
  }

  /**
    `max_path_sum_rec`'s best path of a present subtree is a member of
    `BentSums`, and no member of `BentSums` is larger.
  */
  lemma {:induction false} BestPathIsMax(nodes: seq<Node>, c: Option<nat>)
    requires ForwardLinks(nodes) && InRange(nodes, c) && c.Some?
    ensures var best := MaxPathSumRec(nodes, c).1.value;
      best in BentSums(nodes, c) && forall s | s in BentSums(nodes, c) :: s <= best
    decreases Rank(nodes, c)
  {
    var n := nodes[c.value];
    BestJoinIsMax(nodes, c.value);
    if n.left.Some? {
      BestPathIsMax(nodes, n.left);
    }
    if n.right.Some? {
      BestPathIsMax(nodes, n.right);
    }
  }

  /**
    Every addition `max_path_sum_rec` performs on the subtree `c` yields a
    value of the key type.
  */
  ghost predicate PathSumFits(nodes: seq<Node>, kt: KeyType, c: Option<nat>)
    requires ForwardLinks(nodes) && InRange(nodes, c)
    decreases Rank(nodes, c)
  {
    match c
    case None => true
    case Some(i) =>
      var bpl := MaxPathSumRec(nodes, nodes[i].left).0;
      var bpr := MaxPathSumRec(nodes, nodes[i].right).0;
      && PathSumFits(nodes, kt, nodes[i].left)
      && PathSumFits(nodes, kt, nodes[i].right)
      && kt.Holds(bpl + bpr)
      && kt.Holds(bpl + bpr + nodes[i].key)
      && kt.Holds(nodes[i].key + Max(bpl, bpr))
  }

  /** Under `PathSumFits`, the best path of a present subtree is a value of the key type. */
  lemma {:induction false} BestPathFits(nodes: seq<Node>, kt: KeyType, c: Option<nat>)
    requires ForwardLinks(nodes) && InRange(nodes, c) && c.Some? && PathSumFits(nodes, kt, c)
    ensures kt.Holds(MaxPathSumRec(nodes, c).1.value)
    decreases Rank(nodes, c)
  {
    var n := nodes[c.value];
    if n.left.Some? {
      BestPathFits(nodes, kt, n.left);
    }
    if n.right.Some? {
      BestPathFits(nodes, kt, n.right);
    }
  }
}
