/**
  `sum` / `rec_sum`: the post-order sum of the keys of a subtree, and the
  theorem that on a well-formed tree the sum from the root is the sum of every
  key in the arena.
*/
module TreeSum {
  import opened Arena

  /** `rec_sum`: left sum plus right sum plus the node's key; an absent subtree gives zero. */
  function SubtreeSum(nodes: seq<Node>, c: Option<nat>): int
    requires ForwardLinks(nodes) && InRange(nodes, c)
    decreases Rank(nodes, c)
  {
    match c
    case None => 0
    case Some(i) => SubtreeSum(nodes, nodes[i].left) + SubtreeSum(nodes, nodes[i].right) + nodes[i].key
  }

  /** The keys of the arena, in index order. */
  function Keys(nodes: seq<Node>): (ks: seq<int>)
    ensures |ks| == |nodes|
    ensures forall i | 0 <= i < |nodes| :: ks[i] == nodes[i].key
  {
    seq(|nodes|, i requires 0 <= i < |nodes| => nodes[i].key)
  }

  /** The arithmetic sum of a sequence of integers. */
  function Total(xs: seq<int>): int
  {
    if xs == [] then 0 else Total(xs[..|xs| - 1]) + xs[|xs| - 1]
  }

  /**
    Every addition `rec_sum` performs on the subtree `c` yields a value of the
    key type: the no-overflow condition under which the fixed-width sum agrees
    with `SubtreeSum`.
  */
  ghost predicate SumFits(nodes: seq<Node>, kt: KeyType, c: Option<nat>)
    requires ForwardLinks(nodes) && InRange(nodes, c)
    decreases Rank(nodes, c)
  {
    match c
    case None => true
    case Some(i) =>
      var sl := SubtreeSum(nodes, nodes[i].left);
      var sr := SubtreeSum(nodes, nodes[i].right);
      && SumFits(nodes, kt, nodes[i].left)
      && SumFits(nodes, kt, nodes[i].right)
      && kt.Holds(sl + sr)
      && kt.Holds(sl + sr + nodes[i].key)
  }

  /** The keys of the first `m` nodes, each counted once per path from `c` to it. */
  ghost function WeightedKeys(nodes: seq<Node>, c: Option<nat>, m: nat): int
    requires ForwardLinks(nodes) && InRange(nodes, c) && m <= |nodes|
  {
    if m == 0 then 0 else WeightedKeys(nodes, c, m - 1) + Paths(nodes, c, m - 1) * nodes[m - 1].key
  }

  lemma {:induction false} WeightedKeysOfNone(nodes: seq<Node>, m: nat)
    requires ForwardLinks(nodes) && m <= |nodes|
    ensures WeightedKeys(nodes, None, m) == 0
  {
    if m > 0 {
      WeightedKeysOfNone(nodes, m - 1);
    }
  }

  /** The weighted key sum of a node splits into its own key and its two subtrees'. */
  lemma {:induction false} WeightedKeysSplit(nodes: seq<Node>, i: nat, m: nat)
    requires ForwardLinks(nodes) && i < |nodes| && m <= |nodes|
    ensures WeightedKeys(nodes, Some(i), m)
         == (if i < m then nodes[i].key else 0)
          + WeightedKeys(nodes, nodes[i].left, m) + WeightedKeys(nodes, nodes[i].right, m)
  {
    if m > 0 {
      WeightedKeysSplit(nodes, i, m - 1);
      var n := nodes[i];
      var k := nodes[m - 1].key;
      var pl := Paths(nodes, n.left, m - 1);
      var pr := Paths(nodes, n.right, m - 1);
      var here: int := if i == m - 1 then 1 else 0;
      assert Paths(nodes, Some(i), m - 1) == here + pl + pr;
      MulDistributes(here, pl, pr, k);
      assert WeightedKeys(nodes, n.left, m) == WeightedKeys(nodes, n.left, m - 1) + pl * k;
      assert WeightedKeys(nodes, n.right, m) == WeightedKeys(nodes, n.right, m - 1) + pr * k;
    }
  }

  lemma MulDistributes(a: int, b: int, c: int, k: int)
    ensures (a + b + c) * k == a * k + b * k + c * k
  {
  }

  /** `rec_sum` counts every key once per path that reaches it. */
  lemma {:induction false} SubtreeSumWeighted(nodes: seq<Node>, c: Option<nat>)
    requires ForwardLinks(nodes) && InRange(nodes, c)
    ensures SubtreeSum(nodes, c) == WeightedKeys(nodes, c, |nodes|)
    decreases Rank(nodes, c)
  {
    match c
    case None =>
      WeightedKeysOfNone(nodes, |nodes|);
    case Some(i) =>
      SubtreeSumWeighted(nodes, nodes[i].left);
      SubtreeSumWeighted(nodes, nodes[i].right);
      WeightedKeysSplit(nodes, i, |nodes|);
  }

  /** When each of the first `m` nodes is reached from the root once, the weights vanish. */
  lemma {:induction false} WeightedKeysOfTree(nodes: seq<Node>, m: nat)
    requires WellFormed(nodes) && m <= |nodes|
    ensures WeightedKeys(nodes, Some(0), m) == Total(Keys(nodes)[..m])
  {
    if m > 0 {
      WeightedKeysOfTree(nodes, m - 1);
      assert Keys(nodes)[..m][..m - 1] == Keys(nodes)[..m - 1];
    }
  }

  /** `sum()`: on a well-formed tree the post-order sum from the root is the sum of all keys. */
  lemma {:induction false} SumIsTotal(nodes: seq<Node>)
    requires WellFormed(nodes)
    ensures SubtreeSum(nodes, Some(0)) == Total(Keys(nodes))
  {
    SubtreeSumWeighted(nodes, Some(0));
    WeightedKeysOfTree(nodes, |nodes|);
    assert Keys(nodes)[..|nodes|] == Keys(nodes);
  }

  /** Each `add_node` raises the total of the keys by exactly the added key. */
  lemma {:induction false} TotalAttach(nodes: seq<Node>, parent: nat, key: int, isLeft: bool)
    requires parent < |nodes|
    ensures Total(Keys(Attach(nodes, parent, key, isLeft))) == Total(Keys(nodes)) + key
  {
    var ks := Keys(Attach(nodes, parent, key, isLeft));
    assert ks == Keys(nodes) + [key];
    assert ks[..|nodes|] == Keys(nodes);
  }
}
