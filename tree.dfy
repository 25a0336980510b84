/**
  The tree object: it owns the arena and is built by `with_root` followed by
  `add_node` calls, then queried with `sum`, `is_bst` and `max_path_sum`.
  `add_node`'s two panics (missing parent, occupied slot) are fail-fast
  checks made before anything is changed; here they are error results that
  leave the tree as it was.
*/
module Trees {
  import opened Arena
  import opened TreeSum
  import opened BstCheck
  import opened MaxPath
  import opened SpecialPath

  /** Why `add_node` refuses: the parent index does not exist, or its chosen slot is taken. */
  datatype AddError = ParentMissing | LeftTaken | RightTaken

  datatype Result<T, E> = Ok(value: T) | Err(error: E)

  /** What `add_node(parentId, _, isLeft)` reports on the arena `nodes`, if it refuses. */
  function AddCheck(nodes: seq<Node>, parentId: nat, isLeft: bool): (e: Option<AddError>)
    ensures e == None <==> parentId < |nodes| && SlotFree(nodes[parentId], isLeft)
    ensures e == Some(ParentMissing) <==> parentId >= |nodes|
  {
    if parentId >= |nodes| then Some(ParentMissing)
    else if isLeft && nodes[parentId].left.Some? then Some(LeftTaken)
    else if !isLeft && nodes[parentId].right.Some? then Some(RightTaken)
    else None
  }

  class Tree {
    /** The key type the tree is instantiated with. */
    const keyType: KeyType
    var nodes: seq<Node>

    ghost predicate Valid()
      reads this
    {
      keyType.Valid() && WellFormed(nodes) && KeysFit(nodes, keyType)
    }

    /** `with_root`: a tree of exactly one node, holding `key`, with both slots empty. */
    constructor WithRoot(kt: KeyType, key: int)
      requires kt.Valid() && kt.Holds(key)
      ensures Valid() && keyType == kt
      ensures nodes == [Leaf(key)]
    {
      keyType := kt;
      nodes := [Leaf(key)];
      RootAloneWellFormed(key);
    }

    /**
      `add_node`: on success, returns the old length, pushes a childless node
      holding `key` and links it into the chosen slot of `parentId`, nothing
      else changing; on failure, reports why and changes nothing.
    */
    method AddNode(parentId: nat, key: int, isLeft: bool) returns (r: Result<nat, AddError>)
      requires Valid() && keyType.Holds(key)
      modifies this
      ensures Valid()
      ensures AddCheck(old(nodes), parentId, isLeft).Some? ==>
        r == Err(AddCheck(old(nodes), parentId, isLeft).value) && nodes == old(nodes)
      ensures AddCheck(old(nodes), parentId, isLeft).None? ==>
        r == Ok(old(|nodes|)) && nodes == Attach(old(nodes), parentId, key, isLeft)
      ensures Total(Keys(nodes)) == Total(Keys(old(nodes))) + (if r.Ok? then key else 0)
    {
      var check := AddCheck(nodes, parentId, isLeft);
      if check.Some? {
        return Err(check.value);
      }
      var childId := |nodes|;
      AttachWellFormed(nodes, parentId, key, isLeft);
      TotalAttach(nodes, parentId, key, isLeft);
      nodes := nodes + [Leaf(key)];
      var parent := nodes[parentId];
      if isLeft {
        nodes := nodes[parentId := parent.(left := Some(childId))];
      } else {
        nodes := nodes[parentId := parent.(right := Some(childId))];
      }
      r := Ok(childId);
    }

    /**
      `sum`: the sum of every key in the tree, when no addition of the
      post-order traversal leaves the key type.
    */
    function Sum(): (s: int)
      reads this
      requires Valid() && SumFits(nodes, keyType, Some(0))
      ensures s == Total(Keys(nodes))
      ensures keyType.Holds(s)
    {
      SumIsTotal(nodes);
      SubtreeSum(nodes, Some(0))
    }

    /**
      `is_bst`: at every node the left subtree's keys are at most the node's
      key, and no key equals the type maximum.
    */
    function IsBst(): (b: bool)
      reads this
      requires Valid()
      ensures b <==> LeftOrdered(nodes, keyType, Some(0))
    {
      IsBstRecDecides(nodes, keyType, Some(0));
      IsBstRec(nodes, keyType, Some(0)).0
    }

    /**
      `max_path_sum`: the largest sum of a path joining, at its highest node,
      two downward paths that each end at an empty child slot (`BentSums`);
      the root always yields one, so the unwrap is safe.
      With unsigned keys and two or more nodes this is the documented answer,
      the largest sum of a path between two special nodes.
    */
    function MaxPathSum(): (m: int)
      reads this
      requires Valid() && PathSumFits(nodes, keyType, Some(0))
      ensures m in BentSums(nodes, Some(0))
      ensures forall s | s in BentSums(nodes, Some(0)) :: s <= m
      ensures keyType.Holds(m)
      ensures keyType.minVal == 0 && |nodes| >= 2 ==> IsMaxOf(Some(m), SpecialPathSums(nodes))
    {
      BestPathIsMax(nodes, Some(0));
      BestPathFits(nodes, keyType, Some(0));
      var m := MaxPathSumRec(nodes, Some(0)).1.value;
      if keyType.minVal == 0 && |nodes| >= 2 then
        UnsignedBestIsMaxSpecial(nodes, keyType);
        m
      else
        m
    }
  }
}
