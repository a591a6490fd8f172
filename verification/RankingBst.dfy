/**
 The order-statistics tree of `utils/bst.h`. Its node pool holds roots of whole subtrees: a
 cleared tree goes back as one entry, and taking an entry puts its children back.
 */
module RankingBst {
  class Node {
    var left: Node?
    var right: Node?
    var value: int
    var size: nat

    constructor ()
      ensures left == null && right == null
    {
      left, right := null, null;
    }
  }

  /** The tree that a pointer stands for: which nodes, holding which values, in which order. */
  datatype Shape = Leaf | Tree(left: Shape, node: Node, value: int, right: Shape)

  ghost function Nodes(t: Shape): set<Node> {
    match t
    case Leaf => {}
    case Tree(l, x, _, r) => Nodes(l) + {x} + Nodes(r)
  }

  lemma {:induction false} NodesAllocated(t: Shape)
    ensures forall x :: x in Nodes(t) ==> allocated(x)
  {
    match t
    case Leaf =>
    case Tree(l, _, _, r) => NodesAllocated(l); NodesAllocated(r);
  }

  ghost function Inorder(t: Shape): seq<int> {
    match t
    case Leaf => []
    case Tree(l, _, v, r) => Inorder(l) + [v] + Inorder(r)
  }

  /** `n` points at the tree `t`; no node occurs twice in it. */
  ghost predicate Links(n: Node?, t: Shape)
    reads Nodes(t)
  {
    match t
    case Leaf => n == null
    case Tree(l, x, _, r) =>
      && n == x
      && x !in Nodes(l) && x !in Nodes(r) && Nodes(l) !! Nodes(r)
      && Links(x.left, l) && Links(x.right, r)
  }

  /** Every node of a live tree carries its value and the exact size of its subtree. */
  ghost predicate Labelled(t: Shape)
    reads Nodes(t)
  {
    match t
    case Leaf => true
    case Tree(l, x, v, r) => x.value == v && x.size == |Inorder(t)| && Labelled(l) && Labelled(r)
  }

  // ---- Sorted sequences ---------------------------------------------------------------------

  ghost predicate Sorted(s: seq<int>) { forall i, j :: 0 <= i < j < |s| ==> s[i] <= s[j] }

  /** A multiset has only one sorted listing, so "its k-th element" is well defined. */
  lemma {:induction false} SortedListingIsUnique(a: seq<int>, b: seq<int>)
    requires Sorted(a) && Sorted(b) && multiset(a) == multiset(b)
    ensures a == b
    decreases |a|
  {
    assert |a| == |multiset(a)| == |multiset(b)| == |b|;
    if a != [] {
      SmallestFirst(a, b);
      SmallestFirst(b, a);
      assert multiset(a[1..]) == multiset(a) - multiset{a[0]} by { assert a == [a[0]] + a[1..]; }
      assert multiset(b[1..]) == multiset(b) - multiset{b[0]} by { assert b == [b[0]] + b[1..]; }
      SortedListingIsUnique(a[1..], b[1..]);
      assert a == [a[0]] + a[1..] && b == [b[0]] + b[1..];
    }
  }

  lemma SmallestFirst(a: seq<int>, b: seq<int>)
    requires Sorted(a) && multiset(a) == multiset(b) && |a| == |b| > 0
    ensures a[0] <= b[0]
  {
    assert b[0] in multiset(a);
  }

  /** `s'` lists `s` and one more element, and is sorted if `s` is. */
  ghost predicate Grown(s: seq<int>, s': seq<int>, v: int) {
    && multiset(s') == multiset(s) + multiset{v}
    && (Sorted(s) ==> Sorted(s'))
  }

  lemma ElementsOfParts(a: seq<int>, w: int, b: seq<int>)
    ensures multiset(a + [w] + b) == multiset(a) + multiset{w} + multiset(b)
  {
  }

  lemma SortedSplit(a: seq<int>, w: int, b: seq<int>)
    requires Sorted(a + [w] + b)
    ensures Sorted(a) && Sorted(b) && (forall u :: u in a ==> u <= w) && (forall u :: u in b ==> w <= u)
  {
    var s := a + [w] + b;
    assert s[..|a|] == a && s[|a|] == w && s[|a| + 1..] == b;
  }

  lemma SortedJoin(a: seq<int>, w: int, b: seq<int>)
    requires Sorted(a) && Sorted(b) && (forall u :: u in a ==> u <= w) && (forall u :: u in b ==> w <= u)
    ensures Sorted(a + [w] + b)
  {
    var s := a + [w] + b;
    forall i, j | 0 <= i < j < |s| ensures s[i] <= s[j] {
      assert i < |a| ==> s[i] in a;
      assert j > |a| ==> s[j] in b;
    }
  }

  lemma SameElements(a: seq<int>, b: seq<int>, v: int)
    requires multiset(a) == multiset(b) + multiset{v}
    ensures forall u :: u in a <==> u in b || u == v
  {
    forall u ensures u in a <==> u in b || u == v {
      assert u in a <==> u in multiset(a);
    }
  }

  lemma GrownLeft(a: seq<int>, a': seq<int>, w: int, b: seq<int>, v: int)
    requires Grown(a, a', v) && v < w
    ensures Grown(a + [w] + b, a' + [w] + b, v)
  {
    ElementsOfParts(a, w, b);
    ElementsOfParts(a', w, b);
    if Sorted(a + [w] + b) {
      SortedSplit(a, w, b);
      SameElements(a', a, v);
      SortedJoin(a', w, b);
    }
  }

  lemma GrownRight(a: seq<int>, w: int, b: seq<int>, b': seq<int>, v: int)
    requires Grown(b, b', v) && w <= v
    ensures Grown(a + [w] + b, a + [w] + b', v)
  {
    ElementsOfParts(a, w, b);
    ElementsOfParts(a, w, b');
    if Sorted(a + [w] + b) {
      SortedSplit(a, w, b);
      SameElements(b', b, v);
      SortedJoin(a, w, b');
    }
  }

  ghost function Inserted(t: Shape, x: Node, v: int): Shape {
    match t
    case Leaf => Tree(Leaf, x, v, Leaf)
    case Tree(l, y, w, r) =>
      if v < w then Tree(Inserted(l, x, v), y, w, r) else Tree(l, y, w, Inserted(r, x, v))
  }

  lemma GrownTree(t: Shape, t': Shape, v: int)
    requires t.Tree? && t'.Tree? && t'.value == t.value
    requires v < t.value ==> t'.right == t.right && Grown(Inorder(t.left), Inorder(t'.left), v)
    requires v >= t.value ==> t'.left == t.left && Grown(Inorder(t.right), Inorder(t'.right), v)
    ensures Grown(Inorder(t), Inorder(t'), v)
  {
    if v < t.value {
      GrownLeft(Inorder(t.left), Inorder(t'.left), t.value, Inorder(t.right), v);
    } else {
      GrownRight(Inorder(t.left), t.value, Inorder(t.right), Inorder(t'.right), v);
    }
  }

  /** Insertion adds exactly the new value and keeps the listing sorted. */
  lemma {:induction false} InsertedGrows(t: Shape, x: Node, v: int)
    ensures Grown(Inorder(t), Inorder(Inserted(t, x, v)), v)
  {
    match t
    case Leaf => assert Inorder(Inserted(t, x, v)) == [v];
    case Tree(l, y, w, r) =>
      if v < w { InsertedGrows(l, x, v); } else { InsertedGrows(r, x, v); }
      GrownTree(t, Inserted(t, x, v), v);
  }

  // ---- The pool -----------------------------------------------------------------------------

  ghost function PoolNodes(pool: seq<Shape>): set<Node> {
    if pool == [] then {} else PoolNodes(pool[..|pool| - 1]) + Nodes(pool[|pool| - 1])
  }

  lemma {:induction false} PoolNodesAllocated(pool: seq<Shape>)
    ensures forall x :: x in PoolNodes(pool) ==> allocated(x)
  {
    if pool != [] {
      PoolNodesAllocated(pool[..|pool| - 1]);
      NodesAllocated(pool[|pool| - 1]);
    }
  }

  /** Each entry points at a non-empty tree, and no node belongs to two of them. */
  ghost predicate PoolLinks(entries: seq<Node?>, pool: seq<Shape>)
    reads PoolNodes(pool)
  {
    && |entries| == |pool|
    && (pool != [] ==>
          var last := |pool| - 1;
          && pool[last].Tree? && Links(entries[last], pool[last])
          && Nodes(pool[last]) !! PoolNodes(pool[..last])
          && PoolLinks(entries[..last], pool[..last]))
  }

  lemma PoolPush(entries: seq<Node?>, pool: seq<Shape>, n: Node, t: Shape)
    requires PoolLinks(entries, pool) && t.Tree? && Links(n, t) && Nodes(t) !! PoolNodes(pool)
    ensures PoolLinks(entries + [n], pool + [t]) && PoolNodes(pool + [t]) == PoolNodes(pool) + Nodes(t)
  {
    assert (entries + [n])[..|pool|] == entries && (pool + [t])[..|pool|] == pool;
  }

  lemma PoolPop(entries: seq<Node?>, pool: seq<Shape>)
    requires PoolLinks(entries, pool) && pool != []
    ensures var last := |pool| - 1;
      && PoolLinks(entries[..last], pool[..last])
      && pool[last].Tree? && Links(entries[last], pool[last])
      && Nodes(pool[last]) !! PoolNodes(pool[..last])
      && PoolNodes(pool) == PoolNodes(pool[..last]) + Nodes(pool[last])
  {
  }

  // ---- The k-th element ---------------------------------------------------------------------

  /** `GetKthElementInternal`: descends by subtree sizes to position `k` of the in-order listing. */
  function KthElement(n: Node, ghost t: Shape, k: nat): (v: int)
    requires Links(n, t) && Labelled(t) && k < |Inorder(t)|
    reads Nodes(t)
    ensures v == Inorder(t)[k]
    decreases t
  {
    assert Links(n.left, t.left) && Links(n.right, t.right);
    assert Labelled(t.left) && Labelled(t.right);
    assert Inorder(t) == Inorder(t.left) + [n.value] + Inorder(t.right);
    var leftSize := if n.left == null then 0 else n.left.size;
    if k < leftSize then KthElement(n.left, t.left, k)
    else if k == leftSize then n.value
    else KthElement(n.right, t.right, k - (leftSize + 1))
  }

  class RankingBST {
    var root: Node?
    var nodePool: seq<Node?>
    ghost var tree: Shape
    ghost var pool: seq<Shape>

    ghost predicate TreeOk()
      reads this, Nodes(tree)
    {
      Links(root, tree) && Labelled(tree) && Sorted(Inorder(tree))
    }

    ghost predicate Valid()
      reads this, Nodes(tree), PoolNodes(pool)
    {
      && TreeOk()
      && PoolLinks(nodePool, pool)
      && Nodes(tree) !! PoolNodes(pool)
    }

    /** Every node of the tree and of the pool. */
    ghost function Repr(): set<Node>
      reads this
    {
      Nodes(tree) + PoolNodes(pool)
    }

    /** Everything inserted since the last `Clear`. */
    ghost function Elements(): multiset<int>
      reads this
    {
      multiset(Inorder(tree))
    }

    constructor (initialNodePoolSize: nat)
      ensures Valid() && Elements() == multiset{} && |nodePool| == initialNodePoolSize
      ensures fresh(PoolNodes(pool))
    {
      root, nodePool, tree, pool := null, [], Leaf, [];
      new;
      for i := 0 to initialNodePoolSize
        invariant Valid() && tree == Leaf && |nodePool| == i && fresh(PoolNodes(pool))
      {
        PoolNodesAllocated(pool);
        var node := new Node();
        ghost var t := Tree(Leaf, node, 0, Leaf);
        assert Links(null, Leaf) && Nodes(Leaf) == {};
        PushChild(node, t);
      }
    }

    /**
     The whole tree becomes one entry of the pool. Clearing an empty tree puts a null pointer
     there, and the pool is usable afterwards exactly if the tree was not empty.
     */
    method Clear()
      requires Valid()
      modifies this
      ensures Elements() == multiset{} && root == null
      ensures Valid() <==> old(root) != null
      ensures old(root) != null ==> Repr() == old(Repr())
    {
      if root != null {
        PoolPush(nodePool, pool, root, tree);
      } else {
        assert (pool + [tree])[|pool|] == Leaf;
      }
      nodePool, pool := nodePool + [root], pool + [tree];
      root, tree := null, Leaf;
    }

    method Size() returns (n: nat)
      requires Valid()
      ensures n == |Elements()|
    {
      n := if root == null then 0 else root.size;
    }

    method PushChild(child: Node, ghost t: Shape)
      requires PoolLinks(nodePool, pool) && t.Tree? && Links(child, t) && Nodes(t) !! PoolNodes(pool)
      modifies this`nodePool, this`pool
      ensures PoolLinks(nodePool, pool) && PoolNodes(pool) == old(PoolNodes(pool)) + Nodes(t)
      ensures |nodePool| == old(|nodePool|) + 1
    {
      PoolPush(nodePool, pool, child, t);
      nodePool, pool := nodePool + [child], pool + [t];
    }

    method DetachLeft(node: Node, ghost l: Shape, ghost r: Shape)
      requires PoolLinks(nodePool, pool) && Links(node.left, l) && Links(node.right, r)
      requires node !in Nodes(l) + Nodes(r) + PoolNodes(pool)
      requires Nodes(l) !! PoolNodes(pool) && Nodes(r) !! PoolNodes(pool) && Nodes(l) !! Nodes(r)
      modifies this`nodePool, this`pool, node`left
      ensures PoolLinks(nodePool, pool) && PoolNodes(pool) == old(PoolNodes(pool)) + Nodes(l)
      ensures node.left == null && Links(node.right, r)
    {
      assert node.left == null ==> l == Leaf;
      NodesAllocated(r);
      if node.left != null {
        PushChild(node.left, l);
        node.left := null;
      }
    }

    method DetachRight(node: Node, ghost r: Shape)
      requires PoolLinks(nodePool, pool) && Links(node.right, r)
      requires node !in Nodes(r) + PoolNodes(pool) && Nodes(r) !! PoolNodes(pool)
      modifies this`nodePool, this`pool, node`right
      ensures PoolLinks(nodePool, pool) && PoolNodes(pool) == old(PoolNodes(pool)) + Nodes(r)
      ensures node.right == null
    {
      assert node.right == null ==> r == Leaf;
      if node.right != null {
        PushChild(node.right, r);
        node.right := null;
      }
    }

    method PopEntry() returns (node: Node, ghost left: Shape, ghost right: Shape)
      requires PoolLinks(nodePool, pool) && nodePool != []
      modifies this`nodePool, this`pool
      ensures PoolLinks(nodePool, pool) && Links(node.left, left) && Links(node.right, right)
      ensures old(PoolNodes(pool)) == PoolNodes(pool) + Nodes(left) + {node} + Nodes(right)
      ensures node !in Nodes(left) + Nodes(right) + PoolNodes(pool)
      ensures Nodes(left) !! PoolNodes(pool) && Nodes(right) !! PoolNodes(pool) && Nodes(left) !! Nodes(right)
    {
      PoolPop(nodePool, pool);
      var last := |nodePool| - 1;
      node, left, right := nodePool[last], pool[last].left, pool[last].right;
      assert Links(node.left, left) && Links(node.right, right);
      nodePool, pool := nodePool[..last], pool[..last];
    }

    /** The last entry of the pool, cut off from its children, which become entries themselves. */
    method TakeNode() returns (node: Node)
      requires PoolLinks(nodePool, pool) && nodePool != []
      modifies this`nodePool, this`pool, PoolNodes(pool)
      ensures PoolLinks(nodePool, pool) && node.left == null && node.right == null
      ensures node !in PoolNodes(pool) && PoolNodes(pool) + {node} == old(PoolNodes(pool))
    {
      ghost var left, right;
      node, left, right := PopEntry();
      DetachLeft(node, left, right);
      DetachRight(node, right);
    }

    /** Taking a node changes pool nodes only; once taken it is outside the pool. */
    method NewNode(value: int) returns (node: Node)
      requires PoolLinks(nodePool, pool)
      modifies this`nodePool, this`pool, PoolNodes(pool)
      ensures PoolLinks(nodePool, pool) && node !in PoolNodes(pool)
      ensures node.left == null && node.right == null && node.value == value && node.size == 1
      ensures old(nodePool) == [] ==> fresh(node) && PoolNodes(pool) == {}
      ensures old(nodePool) != [] ==> PoolNodes(pool) + {node} == old(PoolNodes(pool))
    {
      if |nodePool| == 0 {
        node := new Node();
      } else {
        node := TakeNode();
      }
      node.value := value;
      node.size := 1;
    }

    /** In particular `NewNode` never hands out a node of the live tree. */
    method NewNodeBesideTree(value: int) returns (node: Node)
      requires Valid()
      modifies this`nodePool, this`pool, PoolNodes(pool)
      ensures Valid() && node !in Nodes(tree) && node !in PoolNodes(pool)
      ensures node.left == null && node.right == null && node.value == value && node.size == 1
      ensures old(nodePool) == [] ==> fresh(node) && PoolNodes(pool) == {}
      ensures old(nodePool) != [] ==> PoolNodes(pool) + {node} == old(PoolNodes(pool))
    {
      NodesAllocated(tree);
      node := NewNode(value);
      assert TreeOk();
    }

    method Insert(value: int)
      requires Valid()
      modifies this, Repr()
      ensures Elements() == old(Elements()) + multiset{value}
      ensures old(nodePool) != [] ==> Repr() == old(Repr())
      ensures fresh(Repr() - old(Repr()))
      ensures Valid()
    {
      var node := NewNodeBesideTree(value);
      AttachBesidePool(node);
    }

    method AttachBesidePool(node: Node)
      requires Valid() && node !in Nodes(tree) && node !in PoolNodes(pool)
      requires node.left == null && node.right == null && node.size == 1
      modifies this`root, this`tree, Nodes(tree)
      ensures Nodes(tree) == old(Nodes(tree)) + {node}
      ensures Elements() == old(Elements()) + multiset{node.value}
      ensures Valid()
    {
      PoolNodesAllocated(pool);
      Attach(node);
      assert PoolLinks(nodePool, pool);
    }

    method Attach(node: Node)
      requires TreeOk() && node !in Nodes(tree)
      requires node.left == null && node.right == null && node.size == 1
      modifies this`root, this`tree, Nodes(tree)
      ensures TreeOk() && Nodes(tree) == old(Nodes(tree)) + {node}
      ensures Elements() == old(Elements()) + multiset{node.value}
    {
      root, tree := InsertSorted(root, tree, node);
    }

    /** Element `kth` of the sorted listing of what was inserted; nothing exactly when there is none. */
    method GetKthElement(kth: nat) returns (found: bool, value: int)
      requires Valid()
      ensures found <==> kth < |Elements()|
      ensures found ==> forall s :: Sorted(s) && multiset(s) == Elements() ==> |s| == |Elements()| && s[kth] == value
    {
      found, value := false, 0;
      if root == null || kth >= root.size { return; }
      found, value := true, KthElement(root, tree, kth);
      forall s | Sorted(s) && multiset(s) == Elements() ensures |s| == |Elements()| && s[kth] == value {
        SortedListingIsUnique(s, Inorder(tree));
      }
    }
  }

  /** `Maintain`: the size of a node from the sizes of its children, whose own sizes are exact. */
  method Maintain(node: Node, ghost l: Shape, ghost r: Shape)
    requires Links(node.left, l) && Labelled(l) && Links(node.right, r) && Labelled(r)
    requires node !in Nodes(l) && node !in Nodes(r) && Nodes(l) !! Nodes(r)
    modifies node`size
    ensures Links(node, Tree(l, node, node.value, r)) && Labelled(Tree(l, node, node.value, r))
  {
    assert node.left != null ==> l.Tree? && l.node == node.left && node.left.size == |Inorder(l)|;
    assert node.right != null ==> r.Tree? && r.node == node.right && node.right.size == |Inorder(r)|;
    node.size := 1;
    if node.left != null { node.size := node.size + node.left.size; }
    if node.right != null { node.size := node.size + node.right.size; }
    assert Links(node.left, l) && Labelled(l);
    assert Links(node.right, r) && Labelled(r);
  }

  method AttachLeft(current: Node, child: Node, ghost l: Shape, ghost r: Shape)
    requires Links(child, l) && Labelled(l) && Links(current.right, r) && Labelled(r)
    requires current !in Nodes(l) && current !in Nodes(r) && Nodes(l) !! Nodes(r)
    modifies current
    ensures Links(current, Tree(l, current, old(current.value), r)) && Labelled(Tree(l, current, old(current.value), r))
  {
    current.left := child;
    Maintain(current, l, r);
  }

  method AttachRight(current: Node, child: Node, ghost l: Shape, ghost r: Shape)
    requires Links(current.left, l) && Labelled(l) && Links(child, r) && Labelled(r)
    requires current !in Nodes(l) && current !in Nodes(r) && Nodes(l) !! Nodes(r)
    modifies current
    ensures Links(current, Tree(l, current, old(current.value), r)) && Labelled(Tree(l, current, old(current.value), r))
  {
    current.right := child;
    Maintain(current, l, r);
  }

  /**
   `InsertInternal`; the result is what the caller's pointer to the subtree becomes. Duplicates
   go to the right.
   */
  method InsertInternal(current: Node?, ghost t: Shape, node: Node) returns (r: Node, ghost t': Shape)
    requires Links(current, t) && Labelled(t) && node !in Nodes(t)
    requires node.left == null && node.right == null && node.size == 1
    modifies Nodes(t)
    ensures Links(r, t') && Labelled(t') && Nodes(t') == Nodes(t) + {node}
    ensures t' == Inserted(t, node, node.value)
    decreases t
  {
    if current == null {
      assert Links(null, Leaf) && Labelled(Leaf);
      return node, Tree(Leaf, node, node.value, Leaf);
    }
    r := current;
    ghost var left, right := t.left, t.right;
    assert Links(current.left, left) && Links(current.right, right) && Labelled(left) && Labelled(right);
    assert Nodes(left) !! Nodes(right) && current !in Nodes(left) + Nodes(right) && Nodes(t) == Nodes(left) + {current} + Nodes(right);
    NodesAllocated(left);
    NodesAllocated(right);
    if node.value < current.value {
      var child, grown := InsertInternal(current.left, left, node);
      AttachLeft(current, child, grown, right);
      t' := Tree(grown, current, current.value, right);
    } else {
      var child, grown := InsertInternal(current.right, right, node);
      AttachRight(current, child, left, grown);
      t' := Tree(left, current, current.value, grown);
    }
  }

  method InsertSorted(root: Node?, ghost t: Shape, node: Node) returns (r: Node, ghost t': Shape)
    requires Links(root, t) && Labelled(t) && node !in Nodes(t)
    requires node.left == null && node.right == null && node.size == 1
    modifies Nodes(t)
    ensures Links(r, t') && Labelled(t') && Nodes(t') == Nodes(t) + {node}
    ensures Grown(Inorder(t), Inorder(t'), node.value)
  {
    InsertedGrows(t, node, node.value);
    r, t' := InsertInternal(root, t, node);
  }

  // ---- Any sequence of operations -------------------------------------------------------------

  datatype Operation = Add(value: int) | Reset

  /** What was inserted since the last `Clear`. */
  function Since(m: multiset<int>, ops: seq<Operation>): multiset<int>
    decreases |ops|
  {
    if ops == [] then m
    else match ops[0]
      case Add(v) => Since(m + multiset{v}, ops[1..])
      case Reset => Since(multiset{}, ops[1..])
  }

  /** No `Clear` meets an empty tree. */
  predicate ClearsSomething(m: multiset<int>, ops: seq<Operation>)
    decreases |ops|
  {
    ops == []
    || match ops[0]
       case Add(v) => ClearsSomething(m + multiset{v}, ops[1..])
       case Reset => m != multiset{} && ClearsSomething(multiset{}, ops[1..])
  }

  method Drive(t: RankingBST, ops: seq<Operation>)
    requires t.Valid() && ClearsSomething(t.Elements(), ops)
    modifies t, t.Repr()
    ensures t.Valid() && t.Elements() == Since(old(t.Elements()), ops)
    ensures forall x :: x in t.Repr() ==> x in old(t.Repr()) || fresh(x)
    decreases |ops|
  {
    if ops == [] {
      ReprAllocated(t);
    } else {
      Perform(t, ops[0]);
      Drive(t, ops[1..]);
    }
  }

  lemma ReprAllocated(t: RankingBST)
    ensures forall x :: x in t.Repr() ==> allocated(x)
  {
    NodesAllocated(t.tree);
    PoolNodesAllocated(t.pool);
  }

  method Perform(t: RankingBST, op: Operation)
    requires t.Valid() && (op.Reset? ==> t.Elements() != multiset{})
    modifies t, t.Repr()
    ensures t.Valid() && forall x :: x in t.Repr() ==> x in old(t.Repr()) || fresh(x)
    ensures t.Elements() == if op.Reset? then multiset{} else old(t.Elements()) + multiset{op.value}
  {
    match op {
      case Add(v) =>
        ghost var before := t.Repr();
        t.Insert(v);
        ReprAllocated(t);
        assert forall x :: x in t.Repr() ==> x in before || x in t.Repr() - before;
      case Reset =>
        NonEmptyTree(t.root, t.tree);
        t.Clear();
    }
  }

  lemma NonEmptyTree(n: Node?, t: Shape)
    requires Links(n, t) && Inorder(t) != []
    ensures n != null
  {
  }

  /** After any sequence of inserts and clears of non-empty trees, element `k` of what was inserted since the last clear. */
  method KthAfter(initialNodePoolSize: nat, ops: seq<Operation>, kth: nat) returns (found: bool, value: int)
    requires ClearsSomething(multiset{}, ops)
    ensures found <==> kth < |Since(multiset{}, ops)|
    ensures found ==> forall s :: Sorted(s) && multiset(s) == Since(multiset{}, ops) ==> |s| == |Since(multiset{}, ops)| && s[kth] == value
  {
    var t := new RankingBST(initialNodePoolSize);
    Drive(t, ops);
    found, value := t.GetKthElement(kth);
  }
}
