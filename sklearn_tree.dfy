/** The `tree_to_dict`/`recurse` serialiser shared by train-rf.py and
    train-xgb.py: sklearn's parallel-array encoding of a fitted decision
    tree turned into a nested tree, starting at node 0. */
module SklearnTree {
  /** sklearn's `_tree.TREE_UNDEFINED`, the feature of a leaf node. */
  const TreeUndefined: int := -2

  /** The exported document: `{"value": v}` or
      `{"feature_index", "threshold", "left", "right"}`. */
  datatype Tree =
    | Leaf(value: real)
    | Split(featureIndex: int, threshold: real, left: Tree, right: Tree)

  /** The arrays of `tree_`: `feature`, `threshold`, `children_left`,
      `children_right`, and `value[node][0][0]` as `value`. */
  datatype TreeArrays = TreeArrays(
    feature: seq<int>,
    threshold: seq<real>,
    childrenLeft: seq<int>,
    childrenRight: seq<int>,
    value: seq<real>)

  /** The shape sklearn produces, assumed rather than checked by the
      scripts: at least one node, arrays of one length, and every split
      node's children numbered after it and inside the arrays. */
  predicate WellFormed(t: TreeArrays) {
    && |t.feature| > 0
    && |t.threshold| == |t.feature|
    && |t.childrenLeft| == |t.feature|
    && |t.childrenRight| == |t.feature|
    && |t.value| == |t.feature|
    && forall i :: 0 <= i < |t.feature| && t.feature[i] != TreeUndefined ==>
         i < t.childrenLeft[i] < |t.feature| && i < t.childrenRight[i] < |t.feature|
  }

  /** Number of levels of an exported tree. */
  function Depth(tr: Tree): nat
  {
    match tr
    case Leaf(_) => 1
    case Split(_, _, l, r) => 1 + if Depth(l) < Depth(r) then Depth(r) else Depth(l)
  }

  /** Number of leaves of an exported tree. */
  function LeafCount(tr: Tree): nat
  {
    match tr
    case Leaf(_) => 1
    case Split(_, _, l, r) => LeafCount(l) + LeafCount(r)
  }

  /** `recurse(node)`: a leaf carrying `value[node][0][0]` exactly when the
      node's feature is undefined, otherwise a split carrying the node's own
      feature and threshold. The recursion never nests deeper than the
      number of nodes from `node` on. */
  function Export(t: TreeArrays, node: int): (r: Tree)
    requires WellFormed(t) && 0 <= node < |t.feature|
    ensures r.Leaf? <==> t.feature[node] == TreeUndefined
    ensures r.Leaf? ==> r.value == t.value[node]
    ensures r.Split? ==> r.featureIndex == t.feature[node] && r.threshold == t.threshold[node]
    ensures Depth(r) <= |t.feature| - node
    decreases |t.feature| - node
  {
    if t.feature[node] != TreeUndefined then
      Split(t.feature[node], t.threshold[node],
            Export(t, t.childrenLeft[node]), Export(t, t.childrenRight[node]))
    else
      Leaf(t.value[node])
  }

  /** The nodes `recurse(node)` visits: the node and, for a split, every
      node reachable through its children. */
  ghost function Reach(t: TreeArrays, node: int): (r: set<int>)
    requires WellFormed(t) && 0 <= node < |t.feature|
    ensures node in r
    ensures forall m :: m in r ==> node <= m < |t.feature|
    decreases |t.feature| - node
  {
    if t.feature[node] == TreeUndefined then {node}
    else {node} + Reach(t, t.childrenLeft[node]) + Reach(t, t.childrenRight[node])
  }

  /** The reachable nodes whose feature is undefined. */
  ghost function ReachableLeaves(t: TreeArrays, node: int): set<int>
    requires WellFormed(t) && 0 <= node < |t.feature|
  {
    set m | m in Reach(t, node) && 0 <= m < |t.feature| && t.feature[m] == TreeUndefined
  }

  /** The arrays encode a tree rather than a DAG: no node is reachable
      through both children of a split (true of sklearn's trees). */
  ghost predicate NoSharing(t: TreeArrays)
    requires WellFormed(t)
  {
    forall i :: 0 <= i < |t.feature| && t.feature[i] != TreeUndefined ==>
      Reach(t, t.childrenLeft[i]) !! Reach(t, t.childrenRight[i])
  }

  /** The export has one leaf per reachable node with undefined feature. */
  lemma {:induction false} LeafCountIsReachableLeaves(t: TreeArrays, node: int)
    requires WellFormed(t) && NoSharing(t) && 0 <= node < |t.feature|
    ensures LeafCount(Export(t, node)) == |ReachableLeaves(t, node)|
    decreases |t.feature| - node
  {
    if t.feature[node] == TreeUndefined {
      assert ReachableLeaves(t, node) == {node};
    } else {
      var l, r := t.childrenLeft[node], t.childrenRight[node];
      LeafCountIsReachableLeaves(t, l);
      LeafCountIsReachableLeaves(t, r);
      assert ReachableLeaves(t, node) == ReachableLeaves(t, l) + ReachableLeaves(t, r);
      assert ReachableLeaves(t, l) !! ReachableLeaves(t, r);
    }
  }
}
