/**
 Reading trees of trees: lookup, traversal, find-first (rbtree.c:889-993).
 */
module ArrayWalk {
  import opened Shapes
  import opened Tables
  import opened RbHeap
  import opened RbTable
  import opened Nests
  import opened ArrayTree

  /** One level of a lookup. */
  lemma {:induction false} LookupStep(n: Nest, x: uint32, rest: seq<uint32>, k: nat)
    requires k >= 1 && Rep(n, k + 1)
    ensures |Entries(n.shape)| == |n.kids|
    ensures var es, m := Entries(n.shape), KidsAt(Entries(n.shape), n.kids, x);
            if m == [] then Get(es, x) == Null && FlatGet(Flat(n, k + 1), [x] + rest) == Null
            else Get(es, x) == Sub(m[0].tree) && Rep(m[0], k) &&
                 FlatGet(Flat(n, k + 1), [x] + rest) == FlatGet(Flat(m[0], k), rest)
  {
    var es := Entries(n.shape);
    GetDeep(es, n.kids, x, rest, k);
    SplitRep(es, n.kids, x, k);
    SplitKids(es, n.kids, x);
    SplitSorted(es, x);
  }

  method LookupArray(tree: Tree, key: seq<uint32>, ghost n: Nest) returns (data: Value)
    requires key != [] && n.tree == tree && Rep(n, |key|)
    ensures data == FlatGet(Flat(n, |key|), key)
    decreases |key|
  {
    hide MapOf, MapGet, Pow2;
    ghost var steps;
    if |key| == 1 {
      GetLast(Contents(tree), key[0]);
      assert key == [key[0]];
      data, steps := Lookup(tree, key[0]);
      return;
    }
    ghost var m := KidsAt(Entries(n.shape), n.kids, key[0]);
    LookupStep(n, key[0], key[1..], |key| - 1);
    assert key == [key[0]] + key[1..];
    if m != [] { assert allocated(Trees(m[0])) && allocated(Nodes(m[0])); }
    data, steps := Lookup(tree, key[0]);
    if data == Null {
      return;
    }
    data := LookupArray(data.tree, key[1..], m[0]);
  }

  ghost function Values(items: seq<Item>): seq<Value> {
    if items == [] then [] else [items[0].value] + Values(items[1..])
  }

  lemma {:induction false} ValuesConcat(a: seq<Item>, b: seq<Item>)
    ensures Values(a + b) == Values(a) + Values(b)
  {
    if a == [] {
      assert a + b == b;
    } else {
      assert (a + b)[1..] == a[1..] + b;
      ValuesConcat(a[1..], b);
    }
  }

  lemma {:induction false} ValuesPrefix(x: uint32, items: seq<Item>)
    ensures Values(Prefix(x, items)) == Values(items)
  {
    if items != [] { ValuesPrefix(x, items[1..]); }
  }

  /** The nests of the left subtree, of the root and of the right subtree. */
  ghost predicate Parts(t: RbShape, kids: seq<Nest>, b: seq<Nest>, kid: Nest, a: seq<Nest>) {
    t.Nd? && kids == b + [kid] + a && |b| == |Entries(t.left)| && |a| == |Entries(t.right)|
  }

  lemma {:induction false} PartsRep(t: RbShape, kids: seq<Nest>, b: seq<Nest>, kid: Nest, a: seq<Nest>, k: nat)
    requires Parts(t, kids, b, kid, a) && RepKids(Entries(t), kids, k)
    ensures RepKids(Entries(t.left), b, k) && RepKids(Entries(t.right), a, k) && t.e.data == Sub(kid.tree)
            && Rep(kid, k)
  {
    var l, e, r := Entries(t.left), t.e, Entries(t.right);
    RepConcat(l + [e], b + [kid], r, a, k);
    RepConcat(l, b, [e], [kid], k);
  }

  lemma {:induction false} PartsValues(t: RbShape, kids: seq<Nest>, b: seq<Nest>, kid: Nest, a: seq<Nest>, k: nat)
    requires Parts(t, kids, b, kid, a)
    ensures Values(FlatKids(Entries(t), kids, k)) ==
            Values(FlatKids(Entries(t.left), b, k)) + Values(Flat(kid, k)) + Values(FlatKids(Entries(t.right), a, k))
    ensures t.left == Leaf ==> Values(FlatKids(Entries(t.left), b, k)) == []
    ensures t.right == Leaf ==> Values(FlatKids(Entries(t.right), a, k)) == []
  {
    var l, e, r := Entries(t.left), t.e, Entries(t.right);
    FlatConcat(l + [e], b + [kid], r, a, k);
    FlatConcat(l, b, [e], [kid], k);
    OneKid(e, kid, k);
    ValuesConcat(FlatKids(l, b, k) + FlatKids([e], [kid], k), FlatKids(r, a, k));
    ValuesConcat(FlatKids(l, b, k), FlatKids([e], [kid], k));
    ValuesPrefix(e.key, Flat(kid, k));
  }

  lemma {:induction false} PartsSets(t: RbShape, kids: seq<Nest>, b: seq<Nest>, kid: Nest, a: seq<Nest>)
    requires Parts(t, kids, b, kid, a)
    ensures TreesOf(kids) == TreesOf(b) + Trees(kid) + TreesOf(a)
            && NodesOf(kids) == NodesOf(b) + Nodes(kid) + NodesOf(a)
  {
    KidsConcat(b + [kid], a);
    KidsConcat(b, [kid]);
    KidsAtOne(kid);
  }

  lemma {:induction false} LeafValues(t: RbShape)
    requires t.Nd?
    ensures Values(Leaves(Entries(t)))
            == Values(Leaves(Entries(t.left))) + [t.e.data] + Values(Leaves(Entries(t.right)))
  {
    var l, r := Entries(t.left), Entries(t.right);
    LeavesConcat(l + [t.e], r);
    LeavesConcat(l, [t.e]);
    OneLeaf(t.e);
    ValuesConcat(Leaves(l) + Leaves([t.e]), Leaves(r));
    ValuesConcat(Leaves(l), Leaves([t.e]));
    assert [Item([t.e.key], t.e.data)][1..] == [];
  }

  /** In-order visit below one node; the result is the sequence of data the callback sees. */
  function TraverseNode(node: Node, keylen: nat, ghost tree: Tree, ghost p: Node?, ghost t: RbShape,
                        ghost kids: seq<Nest>): (seen: seq<Value>)
    requires t.Nd? && t.e.id == node && Is(t, tree, p)
    requires keylen > 0 ==> RepKids(Entries(t), kids, keylen)
    reads Ids(t), TreesOf(kids), NodesOf(kids)
    ensures seen == Values(if keylen == 0 then Leaves(Entries(t)) else FlatKids(Entries(t), kids, keylen))
    decreases keylen, 1, t
  {
    if keylen == 0 then
      LeafValues(t);
      var before := if node.left != null then TraverseNode(node.left, 0, tree, node, t.left, []) else [];
      var after := if node.right != null then TraverseNode(node.right, 0, tree, node, t.right, []) else [];
      before + [node.data] + after
    else
      ghost var i := |Entries(t.left)|;
      ghost var b, kid, a := kids[..i], kids[i], kids[i + 1..];
      PartsRep(t, kids, b, kid, a, keylen);
      PartsSets(t, kids, b, kid, a);
      PartsValues(t, kids, b, kid, a, keylen);
      var before := if node.left != null then TraverseNode(node.left, keylen, tree, node, t.left, b) else [];
      var here := Traverse(node.data.tree, keylen, kid);
      var after := if node.right != null then TraverseNode(node.right, keylen, tree, node, t.right, a) else [];
      before + here + after
  }

  /** The whole traversal: the values of the flat table, each once, in its order. */
  function Traverse(tree: Tree, keylen: nat, ghost n: Nest): (seen: seq<Value>)
    requires n.tree == tree && Rep(n, keylen)
    reads Trees(n), Nodes(n)
    ensures seen == Values(Flat(n, keylen))
    decreases keylen, 0
  {
    var node := tree.root;
    if node == null then []
    else TraverseNode(node, keylen - 1, tree, null, n.shape, n.kids)
  }

  // ---------- find first ----------

  /** A nest with a non-empty tree stores something: no subtree is empty. */
  lemma {:induction false} FlatNonEmpty(n: Nest, k: nat)
    requires Rep(n, k) && n.shape.Nd?
    ensures Flat(n, k) != []
    decreases n
  {
    assert Entries(n.shape) != [];
    if k > 1 {
      FlatNonEmpty(n.kids[0], k - 1);
      PrefixAt(Entries(n.shape)[0].key, Flat(n.kids[0], k - 1));
    }
  }

  /** The leftmost node of a tree holds its first entry (rbtree.c:980-982). */
  method Leftmost(tree: Tree) returns (node: Node)
    requires Valid(tree) && tree.root != null
    ensures Contents(tree) != [] && node.data == Contents(tree)[0].data
  {
    node := tree.root;
    ghost var t, p := tree.shape, null;
    while node.left != null
      invariant t.Nd? && t.e.id == node && Is(t, tree, p) && Entries(t) <= Contents(tree)
      decreases t
    {
      t, p := t.left, node;
      node := node.left;
    }
  }

  method FindFirst(tree: Tree, keylen: nat, ghost n: Nest) returns (data: Value)
    requires n.tree == tree && (keylen >= 1 ==> Rep(n, keylen))
    ensures data == if keylen == 0 || Flat(n, keylen) == [] then Null else Flat(n, keylen)[0].value
    decreases keylen
  {
    if keylen < 1 {
      return Null;
    }
    if tree.root == null {
      return Null;
    }
    FlatNonEmpty(n, keylen);
    if keylen == 1 {
      var last := Leftmost(tree);
      return last.data;
    }
    ghost var kid := n.kids[0];
    FlatNonEmpty(kid, keylen - 1);
    PrefixAt(Contents(tree)[0].key, Flat(kid, keylen - 1));
    assert allocated(Trees(kid)) && allocated(Nodes(kid));
    var node := Leftmost(tree);
    data := FindFirst(node.data.tree, keylen - 1, kid);
  }
}
