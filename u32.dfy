/**
  The `u32` instance of the tree (keys in 0 .. 2^32 - 1, sentinels `u32::MAX`
  and `u32::MIN`), and what unsigned keys buy: since no key is negative, no
  partial sum exceeds the total.  So `sum` avoids overflow exactly when the
  total of the keys fits, and `max_path_sum` avoids it whenever the total
  fits (though it may also avoid it when the total does not).
*/
module U32Keys {
  import opened Arena
  import opened TreeSum
  import opened MaxPath

  const U32: KeyType := KeyType(0, 0xFFFF_FFFF)

  lemma {:induction false} SubtreeSumNonNegative(nodes: seq<Node>, kt: KeyType, c: Option<nat>)
    requires ForwardLinks(nodes) && InRange(nodes, c) && kt.minVal == 0 && KeysFit(nodes, kt)
    ensures SubtreeSum(nodes, c) >= 0
    decreases Rank(nodes, c)
  {
    if c.Some? {
      SubtreeSumNonNegative(nodes, kt, nodes[c.value].left);
      SubtreeSumNonNegative(nodes, kt, nodes[c.value].right);
    }
  }

  /** With unsigned keys, `rec_sum` never overflows iff its final result fits. */
  lemma {:induction false} UnsignedSumFits(nodes: seq<Node>, kt: KeyType, c: Option<nat>)
    requires ForwardLinks(nodes) && InRange(nodes, c) && kt.Valid() && kt.minVal == 0 && KeysFit(nodes, kt)
    ensures SumFits(nodes, kt, c) <==> SubtreeSum(nodes, c) <= kt.maxVal
    decreases Rank(nodes, c)
  {
    if c.Some? {
      var n := nodes[c.value];
      UnsignedSumFits(nodes, kt, n.left);
      UnsignedSumFits(nodes, kt, n.right);
      SubtreeSumNonNegative(nodes, kt, n.left);
      SubtreeSumNonNegative(nodes, kt, n.right);
    }
  }

  /** With unsigned keys, both results of `max_path_sum_rec` lie between 0 and the subtree's sum. */
  lemma {:induction false} PathSumsWithinSum(nodes: seq<Node>, kt: KeyType, c: Option<nat>)
    requires ForwardLinks(nodes) && InRange(nodes, c) && kt.minVal == 0 && KeysFit(nodes, kt)
    ensures var r := MaxPathSumRec(nodes, c);
      && 0 <= r.0 <= SubtreeSum(nodes, c)
      && (r.1.Some? ==> 0 <= r.1.value <= SubtreeSum(nodes, c))
    decreases Rank(nodes, c)
  {
    if c.Some? {
      var n := nodes[c.value];
      PathSumsWithinSum(nodes, kt, n.left);
      PathSumsWithinSum(nodes, kt, n.right);
      SubtreeSumNonNegative(nodes, kt, n.left);
      SubtreeSumNonNegative(nodes, kt, n.right);
    }
  }

  /** With unsigned keys, `max_path_sum_rec` cannot overflow when the subtree's sum fits. */
  lemma {:induction false} UnsignedPathSumFits(nodes: seq<Node>, kt: KeyType, c: Option<nat>)
    requires ForwardLinks(nodes) && InRange(nodes, c) && kt.minVal == 0 && KeysFit(nodes, kt)
    requires SubtreeSum(nodes, c) <= kt.maxVal
    ensures PathSumFits(nodes, kt, c)
    decreases Rank(nodes, c)
  {
    if c.Some? {
      var n := nodes[c.value];
      SubtreeSumNonNegative(nodes, kt, n.left);
      SubtreeSumNonNegative(nodes, kt, n.right);
      PathSumsWithinSum(nodes, kt, n.left);
      PathSumsWithinSum(nodes, kt, n.right);
      UnsignedPathSumFits(nodes, kt, n.left);
      UnsignedPathSumFits(nodes, kt, n.right);
    }
  }

  /** A `u32` tree's `sum()` does not overflow iff the total of its keys is at most `u32::MAX`. */
  lemma {:induction false} U32SumFits(nodes: seq<Node>)
    requires WellFormed(nodes) && KeysFit(nodes, U32)
    ensures SumFits(nodes, U32, Some(0)) <==> Total(Keys(nodes)) <= 0xFFFF_FFFF
  {
    UnsignedSumFits(nodes, U32, Some(0));
    SumIsTotal(nodes);
  }

  /** A `u32` tree whose keys total at most `u32::MAX` computes `max_path_sum()` without overflow. */
  lemma {:induction false} U32PathSumFits(nodes: seq<Node>)
    requires WellFormed(nodes) && KeysFit(nodes, U32) && Total(Keys(nodes)) <= 0xFFFF_FFFF
    ensures PathSumFits(nodes, U32, Some(0))
  {
    SumIsTotal(nodes);
    UnsignedPathSumFits(nodes, U32, Some(0));
  }
}
