/**
  `is_bst` / `is_bst_rec`, modelled literally.  The recursion returns
  (valid, "min", max) with the sentinels (true, type max, type min) for an
  absent subtree, and reduces BOTH bounds with a maximum.  The lemmas below
  pin down what it therefore decides: the "min" bound is always the type
  maximum, so the right-child test `rmin > key` only asks `key < maxVal`, and
  the validity bit says "every key in each left subtree is at most its node's
  key, and no node holds the type maximum".
*/
module BstCheck {
  import opened Arena

  /** `is_bst_rec`: the triple (valid, "min", max) for the subtree `c`. */
  function IsBstRec(nodes: seq<Node>, kt: KeyType, c: Option<nat>): (bool, int, int)
    requires ForwardLinks(nodes) && InRange(nodes, c)
    decreases Rank(nodes, c)
  {
    match c
    case None => (true, kt.maxVal, kt.minVal)
    case Some(i) =>
      var n := nodes[i];
      var (lprop, lmin, lmax) := IsBstRec(nodes, kt, n.left);
      var (rprop, rmin, rmax) := IsBstRec(nodes, kt, n.right);
      var prop := lprop && rprop && lmax <= n.key && rmin > n.key;
      (prop, Max3(lmin, rmin, n.key), Max3(lmax, rmax, n.key))
  }

  /** Every key in the subtree `c` is at most `b`. */
  ghost predicate KeysAtMost(nodes: seq<Node>, c: Option<nat>, b: int)
    requires ForwardLinks(nodes) && InRange(nodes, c)
    decreases Rank(nodes, c)
  {
    match c
    case None => true
    case Some(i) =>
      nodes[i].key <= b && KeysAtMost(nodes, nodes[i].left, b) && KeysAtMost(nodes, nodes[i].right, b)
  }

  /** Every key in the subtree `c` is greater than `b`. */
  ghost predicate KeysAbove(nodes: seq<Node>, c: Option<nat>, b: int)
    requires ForwardLinks(nodes) && InRange(nodes, c)
    decreases Rank(nodes, c)
  {
    match c
    case None => true
    case Some(i) =>
      nodes[i].key > b && KeysAbove(nodes, nodes[i].left, b) && KeysAbove(nodes, nodes[i].right, b)
  }

  /**
    What `is_bst_rec` decides: at every node, the whole left subtree is at
    most the key, and the key is below the type maximum.  The right subtree's
    keys are never compared with the node's key.
  */
  ghost predicate LeftOrdered(nodes: seq<Node>, kt: KeyType, c: Option<nat>)
    requires ForwardLinks(nodes) && InRange(nodes, c)
    decreases Rank(nodes, c)
  {
    match c
    case None => true
    case Some(i) =>
      && LeftOrdered(nodes, kt, nodes[i].left)
      && LeftOrdered(nodes, kt, nodes[i].right)
      && KeysAtMost(nodes, nodes[i].left, nodes[i].key)
      && nodes[i].key < kt.maxVal
  }

  /**
    The search-tree order the documentation describes: at every node, every
    key of the left subtree is at most the key and every key of the right
    subtree is greater.
  */
  ghost predicate SearchTree(nodes: seq<Node>, c: Option<nat>)
    requires ForwardLinks(nodes) && InRange(nodes, c)
    decreases Rank(nodes, c)
  {
    match c
    case None => true
    case Some(i) =>
      && SearchTree(nodes, nodes[i].left)
      && SearchTree(nodes, nodes[i].right)
      && KeysAtMost(nodes, nodes[i].left, nodes[i].key)
      && KeysAbove(nodes, nodes[i].right, nodes[i].key)
  }

  lemma {:induction false} KeysAtMostMono(nodes: seq<Node>, c: Option<nat>, b: int, b': int)
    requires ForwardLinks(nodes) && InRange(nodes, c)
    requires KeysAtMost(nodes, c, b) && b <= b'
    ensures KeysAtMost(nodes, c, b')
    decreases Rank(nodes, c)
  {
    if c.Some? {
      KeysAtMostMono(nodes, nodes[c.value].left, b, b');
      KeysAtMostMono(nodes, nodes[c.value].right, b, b');
    }
  }

  /** The "min" component, reduced with `max`, is the type maximum for every subtree. */
  lemma {:induction false} IsBstMinIsTypeMax(nodes: seq<Node>, kt: KeyType, c: Option<nat>)
    requires ForwardLinks(nodes) && InRange(nodes, c) && KeysFit(nodes, kt)
    ensures IsBstRec(nodes, kt, c).1 == kt.maxVal
    decreases Rank(nodes, c)
  {
    if c.Some? {
      IsBstMinIsTypeMax(nodes, kt, nodes[c.value].left);
      IsBstMinIsTypeMax(nodes, kt, nodes[c.value].right);
    }
  }

  /**
    The max component is the least value, not below the type minimum, that
    bounds every key of the subtree: the largest key, or the type minimum for
    an absent subtree.
  */
  lemma {:induction false} IsBstMaxIsLargestKey(nodes: seq<Node>, kt: KeyType, c: Option<nat>)
    requires ForwardLinks(nodes) && InRange(nodes, c)
    ensures var m := IsBstRec(nodes, kt, c).2;
      && m >= kt.minVal
      && KeysAtMost(nodes, c, m)
      && forall b :: b >= kt.minVal && KeysAtMost(nodes, c, b) ==> m <= b
    decreases Rank(nodes, c)
  {
    if c.Some? {
      var n := nodes[c.value];
      IsBstMaxIsLargestKey(nodes, kt, n.left);
      IsBstMaxIsLargestKey(nodes, kt, n.right);
      var m := IsBstRec(nodes, kt, c).2;
      KeysAtMostMono(nodes, n.left, IsBstRec(nodes, kt, n.left).2, m);
      KeysAtMostMono(nodes, n.right, IsBstRec(nodes, kt, n.right).2, m);
    }
  }

  /** The validity bit of `is_bst_rec` holds exactly when the subtree is `LeftOrdered`. */
  lemma {:induction false} IsBstRecDecides(nodes: seq<Node>, kt: KeyType, c: Option<nat>)
    requires ForwardLinks(nodes) && InRange(nodes, c) && KeysFit(nodes, kt)
    ensures IsBstRec(nodes, kt, c).0 <==> LeftOrdered(nodes, kt, c)
    decreases Rank(nodes, c)
  {
    if c.Some? {
      var n := nodes[c.value];
      IsBstRecDecides(nodes, kt, n.left);
      IsBstRecDecides(nodes, kt, n.right);
      IsBstMinIsTypeMax(nodes, kt, n.right);
      IsBstMaxIsLargestKey(nodes, kt, n.left);
      var lmax := IsBstRec(nodes, kt, n.left).2;
      if lmax <= n.key {
        KeysAtMostMono(nodes, n.left, lmax, n.key);
      }
    }
  }

  /** Every search tree whose keys lie below the type maximum is accepted. */
  lemma {:induction false} SearchTreeAccepted(nodes: seq<Node>, kt: KeyType, c: Option<nat>)
    requires ForwardLinks(nodes) && InRange(nodes, c) && KeysFit(nodes, kt)
    requires SearchTree(nodes, c) && KeysAtMost(nodes, c, kt.maxVal - 1)
    ensures IsBstRec(nodes, kt, c).0
    decreases Rank(nodes, c)
  {
    IsBstRecDecides(nodes, kt, c);
    SearchTreeLeftOrdered(nodes, kt, c);
  }

  lemma {:induction false} SearchTreeLeftOrdered(nodes: seq<Node>, kt: KeyType, c: Option<nat>)
    requires ForwardLinks(nodes) && InRange(nodes, c)
    requires SearchTree(nodes, c) && KeysAtMost(nodes, c, kt.maxVal - 1)
    ensures LeftOrdered(nodes, kt, c)
    decreases Rank(nodes, c)
  {
    if c.Some? {
      SearchTreeLeftOrdered(nodes, kt, nodes[c.value].left);
      SearchTreeLeftOrdered(nodes, kt, nodes[c.value].right);
    }
  }

  /**
    The converse fails: root 50 with right child 10 is accepted although 10 is
    not greater than 50, because the right test compares 50 with the "min"
    bound, which is the type maximum.  The checker with a minimum rejects it.
  */
  lemma RightOrderUnchecked(kt: KeyType)
    requires kt.Holds(10) && kt.Holds(50) && kt.maxVal > 50
    ensures var nodes := [Node(50, None, Some(1)), Leaf(10)];
      && ForwardLinks(nodes)
      && IsBstRec(nodes, kt, Some(0)).0
      && !SearchTree(nodes, Some(0))
      && !IsBstRecFixed(nodes, kt, Some(0)).0
  {
    var nodes := [Node(50, None, Some(1)), Leaf(10)];
    assert IsBstRec(nodes, kt, Some(1)) == (true, kt.maxVal, 10);
    assert IsBstRecFixed(nodes, kt, Some(1)) == (true, 10, 10);
  }

  /** A node holding the type maximum always makes the check fail. */
  lemma {:induction false} TypeMaxRejected(nodes: seq<Node>, kt: KeyType, c: Option<nat>, j: nat)
    requires ForwardLinks(nodes) && InRange(nodes, c) && KeysFit(nodes, kt)
    requires j < |nodes| && nodes[j].key == kt.maxVal && Paths(nodes, c, j) > 0
    ensures !IsBstRec(nodes, kt, c).0
    decreases Rank(nodes, c)
  {
    IsBstRecDecides(nodes, kt, c);
    TypeMaxNotLeftOrdered(nodes, kt, c, j);
  }

  lemma {:induction false} TypeMaxNotLeftOrdered(nodes: seq<Node>, kt: KeyType, c: Option<nat>, j: nat)
    requires ForwardLinks(nodes) && InRange(nodes, c)
    requires j < |nodes| && nodes[j].key == kt.maxVal && Paths(nodes, c, j) > 0
    ensures !LeftOrdered(nodes, kt, c)
    decreases Rank(nodes, c)
  {
    var i := c.value;
    if i != j {
      if Paths(nodes, nodes[i].left, j) > 0 {
        TypeMaxNotLeftOrdered(nodes, kt, nodes[i].left, j);
      } else {
        TypeMaxNotLeftOrdered(nodes, kt, nodes[i].right, j);
      }
    }
  }

  /**
    The checker the comments describe: the same recursion with the second
    component reduced with a minimum, so that it is the least key of the
    subtree (the type maximum for an absent one).
  */
  function IsBstRecFixed(nodes: seq<Node>, kt: KeyType, c: Option<nat>): (bool, int, int)
    requires ForwardLinks(nodes) && InRange(nodes, c)
    decreases Rank(nodes, c)
  {
    match c
    case None => (true, kt.maxVal, kt.minVal)
    case Some(i) =>
      var n := nodes[i];
      var (lprop, lmin, lmax) := IsBstRecFixed(nodes, kt, n.left);
      var (rprop, rmin, rmax) := IsBstRecFixed(nodes, kt, n.right);
      var prop := lprop && rprop && lmax <= n.key && rmin > n.key;
      (prop, Min3(lmin, rmin, n.key), Max3(lmax, rmax, n.key))
  }

  /** The max component is computed as in `IsBstRec`. */
  lemma {:induction false} FixedMaxUnchanged(nodes: seq<Node>, kt: KeyType, c: Option<nat>)
    requires ForwardLinks(nodes) && InRange(nodes, c)
    ensures IsBstRecFixed(nodes, kt, c).2 == IsBstRec(nodes, kt, c).2
    decreases Rank(nodes, c)
  {
    if c.Some? {
      FixedMaxUnchanged(nodes, kt, nodes[c.value].left);
      FixedMaxUnchanged(nodes, kt, nodes[c.value].right);
    }
  }

  /**
    The min component is at most the type maximum, and exceeds a bound below
    the type maximum exactly when every key of the subtree does.
  */
  lemma {:induction false} FixedMinIsLeastKey(nodes: seq<Node>, kt: KeyType, c: Option<nat>)
    requires ForwardLinks(nodes) && InRange(nodes, c) && KeysFit(nodes, kt)
    ensures IsBstRecFixed(nodes, kt, c).1 <= kt.maxVal
    ensures forall b | b < kt.maxVal :: IsBstRecFixed(nodes, kt, c).1 > b <==> KeysAbove(nodes, c, b)
    decreases Rank(nodes, c)
  {
    if c.Some? {
      FixedMinIsLeastKey(nodes, kt, nodes[c.value].left);
      FixedMinIsLeastKey(nodes, kt, nodes[c.value].right);
    }
  }

  /**
    The corrected checker accepts exactly the search trees whose keys lie
    below the type maximum (a key equal to it still fails `rmin > key`
    against the sentinel of an absent right child).
  */
  lemma {:induction false} FixedIsBstDecides(nodes: seq<Node>, kt: KeyType, c: Option<nat>)
    requires ForwardLinks(nodes) && InRange(nodes, c) && KeysFit(nodes, kt)
    ensures IsBstRecFixed(nodes, kt, c).0 <==> SearchTree(nodes, c) && KeysAtMost(nodes, c, kt.maxVal - 1)
    decreases Rank(nodes, c)
  {
    if c.Some? {
      var n := nodes[c.value];
      FixedIsBstDecides(nodes, kt, n.left);
      FixedIsBstDecides(nodes, kt, n.right);
      FixedMinIsLeastKey(nodes, kt, n.right);
      FixedMaxUnchanged(nodes, kt, n.left);
      IsBstMaxIsLargestKey(nodes, kt, n.left);
      var lmax := IsBstRec(nodes, kt, n.left).2;
      if lmax <= n.key {
        KeysAtMostMono(nodes, n.left, lmax, n.key);
      }
    }
  }
}
