/** A shard's prefix tree and its leaf buckets (crates/logdrain/src/tree.rs). */
module Tree {
  import opened Wrappers
  import opened Options
  import opened Index

  /** The ids at a leaf, with a capacity. */
  class LeafBucket {
    const cap: nat
    var ids: seq<Id>
    /** The leaf this bucket was made for. */
    ghost const key: LeafKey

    constructor (cap: nat, ghost key: LeafKey)
      ensures this.cap == cap && ids == [] && this.key == key
    {
      this.cap := cap;
      this.key := key;
      ids := [];
    }

    predicate IsFull()
      reads this
    {
      |ids| >= cap
    }

    method Insert(id: Id)
      modifies this
      ensures ids == old(ids) + [id]
    {
      ids := ids + [id];
    }

    /** Removes `id` if present; the last id takes its place. */
    method Remove(id: Id)
      modifies this
      ensures ids == SwapRemove(old(ids), id)
      ensures id !in old(ids) ==> ids == old(ids)
      ensures id in old(ids) ==>
                exists p ::
                  && 0 <= p < |old(ids)| && old(ids)[p] == id && (forall j | 0 <= j < p :: old(ids)[j] != id)
                  && |ids| == |old(ids)| - 1
                  && forall j | 0 <= j < |ids| :: ids[j] == if j == p then old(ids)[|old(ids)| - 1] else old(ids)[j]
    {
      var pos := 0;
      while pos < |ids| && ids[pos] != id
        invariant pos <= |ids| && forall j | 0 <= j < pos :: ids[j] != id
      {
        pos := pos + 1;
      }
      if pos < |ids| {
        assert IndexOf(ids, id) == pos;
        ids := ids[pos := ids[|ids| - 1]][..|ids| - 1];
      }
    }
  }

  /** A node of the prefix tree. A node is owned by its parent, so it is a value here; the bucket, which
      is handed out by reference, is an object. */
  datatype TreeNode = Internal(children: map<string, TreeNode>) | Leaf(bucket: LeafBucket)

  const EMPTY_NODE: TreeNode := Internal(map[])

  /** Every leaf of `node` is exactly `height` keys down; a node without keys left to descend has no
      children. */
  ghost predicate Uniform(node: TreeNode, height: nat) {
    match node
    case Leaf(_) => height == 0
    case Internal(children) =>
      forall k | k in children :: height > 0 && Uniform(children[k], height - 1)
  }

  /** Read-only descent. */
  function Descend(node: TreeNode, keys: seq<string>): Option<LeafBucket> {
    match node
    case Leaf(bucket) => if keys == [] then Some(bucket) else None
    case Internal(children) =>
      if keys == [] || keys[0] !in children then None else Descend(children[keys[0]], keys[1..])
  }

  /** The tree with `leaf` at the end of `keys`, building what is missing on the way. */
  function Plant(node: TreeNode, keys: seq<string>, leaf: LeafBucket): TreeNode
    decreases |keys|
  {
    if keys == [] then Leaf(leaf)
    else
      var children := if node.Internal? then node.children else map[];
      var child := if keys[0] in children then children[keys[0]] else EMPTY_NODE;
      Internal(children[keys[0] := Plant(child, keys[1..], leaf)])
  }

  /** Planting keeps the shape, so neither impossible case of the source is reached: an internal node is
      met exactly while keys are left, and becoming a leaf discards no children. */
  lemma {:induction false} PlantKeepsShape(node: TreeNode, keys: seq<string>, leaf: LeafBucket)
    requires Uniform(node, |keys|)
    ensures Uniform(Plant(node, keys, leaf), |keys|)
    ensures keys != [] ==> node.Internal?
    ensures keys == [] && node.Internal? ==> node.children == map[]
    decreases |keys|
  {
    if keys != [] && keys[0] in node.children {
      PlantKeepsShape(node.children[keys[0]], keys[1..], leaf);
    } else if keys != [] {
      PlantKeepsShape(EMPTY_NODE, keys[1..], leaf);
    }
  }

  /** Afterwards `keys` leads to the leaf and every other path of that length resolves as before. */
  lemma {:induction false} PlantResolves(node: TreeNode, keys: seq<string>, leaf: LeafBucket, path: seq<string>)
    requires Uniform(node, |keys|) && |path| == |keys|
    ensures Descend(Plant(node, keys, leaf), path) == if path == keys then Some(leaf) else Descend(node, path)
    decreases |keys|
  {
    if keys != [] && path[0] == keys[0] {
      assert path == keys <==> path[1..] == keys[1..] by {
        assert path == [path[0]] + path[1..] && keys == [keys[0]] + keys[1..];
      }
      var child := if keys[0] in node.children then node.children[keys[0]] else EMPTY_NODE;
      PlantResolves(child, keys[1..], leaf, path[1..]);
    }
  }

  /** Planting the leaf that is already there changes nothing. */
  lemma {:induction false} PlantAgain(node: TreeNode, keys: seq<string>, leaf: LeafBucket)
    requires Descend(node, keys) == Some(leaf)
    ensures Plant(node, keys, leaf) == node
    decreases |keys|
  {
    if keys != [] {
      PlantAgain(node.children[keys[0]], keys[1..], leaf);
      assert node.children[keys[0] := node.children[keys[0]]] == node.children;
    }
  }

  /** Descends `keys`, creating nodes and the leaf as needed; returns the updated node and the leaf. */
  method DescendOrCreate(node: TreeNode, keys: seq<string>, leafCap: nat, ghost key: LeafKey)
    returns (updated: TreeNode, leaf: LeafBucket)
    requires Uniform(node, |keys|)
    ensures updated == Plant(node, keys, leaf)
    ensures match Descend(node, keys)
            case Some(found) => leaf == found && updated == node
            case None => fresh(leaf) && leaf.ids == [] && leaf.cap == leafCap && leaf.key == key
    decreases |keys|
  {
    if keys == [] {
      match node {
        case Leaf(bucket) =>
          leaf := bucket;
          updated := node;
        case Internal(children) =>
          assert children == map[];
          leaf := new LeafBucket(leafCap, key);
          updated := Leaf(leaf);
      }
    } else {
      assert node.Internal?;
      var head, rest := keys[0], keys[1..];
      var children := node.children;
      if head !in children {
        if rest == [] {
          var bucket := new LeafBucket(leafCap, key);
          children := children[head := Leaf(bucket)];
        } else {
          children := children[head := EMPTY_NODE];
        }
      }
      var child;
      child, leaf := DescendOrCreate(children[head], rest, leafCap, key);
      updated := Internal(children[head := child]);
      if Descend(node, keys).Some? {
        PlantAgain(node, keys, leaf);
      }
    }
  }

  /** A shard: the prefix tree of one token count. */
  class Shard {
    var root: TreeNode
    ghost const count: nat

    constructor (ghost count: nat)
      ensures root == EMPTY_NODE && this.count == count
    {
      root := EMPTY_NODE;
      this.count := count;
    }
  }
}
