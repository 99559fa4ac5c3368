/**
 Freeing an entry of a tree of trees. A node freed with its data leaves its tree; a subtree that
 becomes empty frees itself, and with it the outer node that hangs off it (rbtree.c:583-586, 601-627,
 849-866), level by level.
 */
module ArrayFree {
  import opened Shapes
  import opened Tables
  import opened RbHeap
  import opened RbTable
  import opened Nests
  import opened ArrayTree

  lemma {:induction false} LastRemoved(es: seq<RbEntry>, x: uint32) returns (c: Change)
    requires Sorted(es)
    ensures Changes(Leaves(es), Leaves(Removed(es, x)), c, [x], []) && (c.m == [] <==> At(es, x) == [])
  {
    var b, m, a := Tables.Below(es, x), At(es, x), Tables.Above(es, x);
    SplitSorted(es, x);
    LeavesConcat(b + m, a);
    LeavesConcat(b, m);
    LeavesConcat(b, a);
    if m != [] { OneLeaf(m[0]); }
    c := Change(Leaves(b), Leaves(m), Leaves(a));
    assert c.p + [] == c.p;
  }

  method FreeLast(tree: Tree, x: uint32, ghost n: Nest) returns (gone: bool, ghost n': Nest, ghost c: Change)
    requires n.tree == tree && Rep(n, 1) && Apart(n)
    modifies Trees(n), Nodes(n)
    ensures n'.tree == tree && Rep(n', 1) && Apart(n') && tree.flags == old(tree.flags)
    ensures Trees(n') <= Trees(n) && Nodes(n') <= Nodes(n)
    ensures Changes(Flat(n, 1), Flat(n', 1), c, [x], []) && (c.m == [] ==> n' == n)
    ensures c.m == [] ==> [x] !in FlatMap(Flat(n, 1))
    ensures gone == (c.m != [] && tree.flags % 2 == 1 && n'.shape.Leaf?)
  {
    c := LastRemoved(Contents(tree), x);
    GetLast(Contents(tree), x);
    RemovedFacts(Contents(tree), x);
    gone := Delete(tree, x);
    n' := Nest(tree, tree.shape, []);
  }

  /** Free the entry at `key`: nothing else in the flat table changes, no subtree is left empty, and the tree reports
      whether it freed itself. */
  method FreeArray(tree: Tree, key: seq<uint32>, ghost n: Nest) returns (gone: bool, ghost n': Nest, ghost c: Change)
    requires key != [] && n.tree == tree && Rep(n, |key|) && Apart(n)
    modifies Trees(n), Nodes(n)
    ensures n'.tree == tree && Rep(n', |key|) && Apart(n') && tree.flags == old(tree.flags)
    ensures Trees(n') <= Trees(n) && Nodes(n') <= Nodes(n)
    ensures Changes(Flat(n, |key|), Flat(n', |key|), c, key, []) && (c.m == [] ==> n' == n)
    ensures c.m == [] ==> key !in FlatMap(Flat(n, |key|))
    ensures gone == (c.m != [] && tree.flags % 2 == 1 && n'.shape.Leaf?)
    decreases |key|, 1
  {
    assert key == [key[0]] + key[1..];
    if |key| == 1 {
      assert key == [key[0]];
      gone, n', c := FreeLast(tree, key[0], n);
    } else {
      gone, n', c := FreeDeep(tree, key[0], key[1..], n);
    }
  }

  /** The rest stays as it is while the subtree is worked on. */
  method FreeSub(sub: Tree, key: seq<uint32>, ghost kid: Nest, ghost tree: Tree, ghost re: seq<RbEntry>,
                 ghost rk: seq<Nest>)
    returns (gone: bool, ghost kid': Nest, ghost c: Change)
    requires key != [] && kid.tree == sub && Rep(kid, |key|) && Apart(kid) && AutoFree(sub.flags) && kid.shape.Nd?
    requires Rest(tree, re, rk, |key|)
    requires tree !in Trees(kid) && Ids(tree.shape) !! Nodes(kid) && TreesOf(rk) !! Trees(kid)
             && NodesOf(rk) !! Nodes(kid)
    modifies Trees(kid), Nodes(kid)
    ensures kid'.tree == sub && Rep(kid', |key|) && Apart(kid') && AutoFree(sub.flags) && gone == kid'.shape.Leaf?
    ensures Trees(kid') <= Trees(kid) && Nodes(kid') <= Nodes(kid)
    ensures Changes(Flat(kid, |key|), Flat(kid', |key|), c, key, []) && (gone ==> c.m != [])
    ensures c.m == [] ==> key !in FlatMap(Flat(kid, |key|))
    ensures Rest(tree, re, rk, |key|) && unchanged(tree) && (c.m == [] ==> kid' == kid)
    decreases |key|, 2
  {
    assert allocated(Ids(tree.shape)) && allocated(TreesOf(rk)) && allocated(NodesOf(rk));
    gone, kid', c := FreeArray(sub, key, kid);
  }

  /** The outer node goes with its subtree. */
  method DropNode(tree: Tree, node: Node, x: uint32, ghost ctx: RbCtx, ghost t: RbShape, ghost re: seq<RbEntry>,
                  ghost rk: seq<Nest>, ghost k: nat)
    returns (gone: bool)
    requires Rest(tree, re, rk, k) && Spot(tree.shape, node, true, false, ctx, t, x)
    requires tree !in TreesOf(rk) && Ids(tree.shape) !! NodesOf(rk)
    modifies tree, Ids(tree.shape)
    ensures Rest(tree, re, rk, k) && tree.flags == old(tree.flags) && Ids(tree.shape) <= old(Ids(tree.shape))
    ensures Contents(tree) == Others(old(Contents(tree)), x)
    ensures gone == (tree.flags % 2 == 1 && tree.shape.Leaf?)
  {
    assert allocated(TreesOf(rk)) && allocated(NodesOf(rk));
    RemovedFacts(Contents(tree), x);
    AppendTop(ctx);
    ZipAppend(tree, ctx, Top, t);
    gone := FreeNode(tree, node, ctx, t);
  }

  /** The nest without one of its subtrees. */
  lemma {:induction false} DropKid(tree: Tree, shape: RbShape, shape': RbShape, b: seq<Nest>, kid: Nest, a: seq<Nest>)
    requires Apart(Whole(tree, shape, b, [kid], a)) && Ids(shape') <= Ids(shape)
    ensures Apart(Whole(tree, shape', b, [], a))
    ensures Trees(Whole(tree, shape', b, [], a)) <= Trees(Whole(tree, shape, b, [kid], a))
    ensures Nodes(Whole(tree, shape', b, [], a)) <= Nodes(Whole(tree, shape, b, [kid], a))
  {
    WholeParts(tree, shape, b, [kid], a);
    WholeParts(tree, shape', b, [], a);
  }

  /** The nest with a smaller subtree. */
  lemma {:induction false} ShrinkKid(tree: Tree, shape: RbShape, b: seq<Nest>, kid: Nest, kid': Nest, a: seq<Nest>)
    requires Apart(Whole(tree, shape, b, [kid], a)) && Apart(kid') && Trees(kid') <= Trees(kid)
             && Nodes(kid') <= Nodes(kid)
    ensures Apart(Whole(tree, shape, b, [kid'], a))
    ensures Trees(Whole(tree, shape, b, [kid'], a)) <= Trees(Whole(tree, shape, b, [kid], a))
    ensures Nodes(Whole(tree, shape, b, [kid'], a)) <= Nodes(Whole(tree, shape, b, [kid], a))
  {
    KidsAtOne(kid);
    KidsAtOne(kid');
    WholeParts(tree, shape, b, [kid], a);
    WholeParts(tree, shape, b, [kid'], a);
  }

  /** The flat tables before and after work on the subtree at `x`; an empty result is left out. */
  lemma {:induction false} DeepRemoved(n: Nest, x: uint32, b: seq<Nest>, kid: Nest, kid': Nest, a: seq<Nest>, k: nat,
                                       ck: Change, key: seq<uint32>)
    returns (c: Change)
    requires k >= 1 && SplitAs(n, x, b, [kid], a) && At(Entries(n.shape), x) != []
    requires Changes(Flat(kid, k), Flat(kid', k), ck, key, [])
    ensures var es := Entries(n.shape);
            Changes(Flat(n, k + 1),
                    FlatKids(Tables.Below(es, x), b, k) + Prefix(x, Flat(kid', k))
                    + FlatKids(Tables.Above(es, x), a, k),
                    c, [x] + key, [])
    ensures |c.m| == |ck.m|
  {
    var es := Entries(n.shape);
    var l, r := FlatKids(Tables.Below(es, x), b, k), FlatKids(Tables.Above(es, x), a, k);
    SplitFlat(es, n.kids, x, k);
    SplitSorted(es, x);
    OneKid(At(es, x)[0], kid, k);
    c := LiftChange(l, r, x, Flat(kid, k), Flat(kid', k), ck, key, []);
  }

  /** The subtree is empty and gone. */
  lemma {:induction false} EndDropped(n': Nest, es: seq<RbEntry>, x: uint32, b: seq<Nest>, kid': Nest, a: seq<Nest>,
                                      k: nat)
    requires k >= 1 && n' == Whole(n'.tree, n'.shape, b, [], a) && n'.tree.shape == n'.shape && Valid(n'.tree)
    requires Entries(n'.shape) == Others(es, x) && RepKids(Others(es, x), b + a, k) && |b| == |Tables.Below(es, x)|
    requires kid'.shape.Leaf?
    ensures Rep(n', k + 1)
    ensures Flat(n', k + 1)
            == FlatKids(Tables.Below(es, x), b, k) + Prefix(x, Flat(kid', k)) + FlatKids(Tables.Above(es, x), a, k)
  {
    assert b + [] + a == b + a;
    FlatConcat(Tables.Below(es, x), b, Tables.Above(es, x), a, k);
    assert Flat(kid', k) == [];
  }

  /** The subtree is smaller and stays. */
  lemma {:induction false} EndKept(n': Nest, x: uint32, b: seq<Nest>, kid': Nest, a: seq<Nest>, k: nat)
    requires k >= 1 && n' == Whole(n'.tree, n'.shape, b, [kid'], a) && n'.tree.shape == n'.shape && Valid(n'.tree)
    requires var es := Entries(n'.shape);
             RepKids(Others(es, x), b + a, k) && |b| == |Tables.Below(es, x)| &&
             At(es, x) != [] && At(es, x)[0].data == Sub(kid'.tree)
    requires Rep(kid', k) && kid'.shape.Nd? && AutoFree(kid'.tree.flags)
    ensures Rep(n', k + 1)
    ensures var es := Entries(n'.shape);
            Flat(n', k + 1)
            == FlatKids(Tables.Below(es, x), b, k) + Prefix(x, Flat(kid', k)) + FlatKids(Tables.Above(es, x), a, k)
  {
    var es := Entries(n'.shape);
    SplitSorted(es, x);
    RepConcat(Tables.Below(es, x), b, Tables.Above(es, x), a, k);
    CloseRep(n', Tables.Below(es, x), b, At(es, x)[0], kid', Tables.Above(es, x), a, k);
    CloseFlat(n', Tables.Below(es, x), b, At(es, x)[0], kid', Tables.Above(es, x), a, k);
  }

  lemma NoChange(items: seq<Item>, key: seq<uint32>)
    ensures Changes(items, items, Change(items, [], []), key, [])
  {
    assert items + [] + [] == items;
  }

  /** What is known about the subtree at `x` before the work starts. */
  lemma {:induction false} OpenFree(n: Nest, x: uint32, rest: seq<uint32>, b: seq<Nest>, m: seq<Nest>, a: seq<Nest>)
    requires SplitAs(n, x, b, m, a) && RepKids(Entries(n.shape), n.kids, |rest|)
    ensures if At(Entries(n.shape), x) == [] then [x] + rest !in FlatMap(FlatKids(Entries(n.shape), n.kids, |rest|))
            else |m| == 1 && m == [m[0]] && Get(Entries(n.shape), x) == Sub(m[0].tree)
  {
    OpenNest(n, x, b, m, a, |rest|);
    SplitSorted(Entries(n.shape), x);
    GetDeep(Entries(n.shape), n.kids, x, rest, |rest|);
  }

  method FreeDeep(tree: Tree, x: uint32, rest: seq<uint32>, ghost n: Nest)
    returns (gone: bool, ghost n': Nest, ghost c: Change)
    requires |rest| >= 1 && n.tree == tree && Rep(n, |rest| + 1) && Apart(n)
    modifies Trees(n), Nodes(n)
    ensures n'.tree == tree && Rep(n', |rest| + 1) && Apart(n') && tree.flags == old(tree.flags)
    ensures Trees(n') <= Trees(n) && Nodes(n') <= Nodes(n)
    ensures Changes(Flat(n, |rest| + 1), Flat(n', |rest| + 1), c, [x] + rest, []) && (c.m == [] ==> n' == n)
    ensures c.m == [] ==> [x] + rest !in FlatMap(Flat(n, |rest| + 1))
    ensures gone == (c.m != [] && tree.flags % 2 == 1 && n'.shape.Leaf?)
    decreases |rest| + 1, 0
  {
    ghost var es := Contents(tree);
    ghost var b, m, a := KidsBelow(es, n.kids, x), KidsAt(es, n.kids, x), KidsAbove(es, n.kids, x);
    var spot, found, left, previous;
    ghost var ctx, t;
    OpenNest(n, x, b, m, a, |rest|);
    OpenFree(n, x, rest, b, m, a);
    NoChange(Flat(n, |rest| + 1), [x] + rest);
    assert allocated(Trees(n)) && allocated(Nodes(n));
    spot, found, left, previous, ctx, t := DescendOuter(tree, x, At(es, x), m, Others(es, x), b + a, |rest|);
    if !found {
      gone, n', c := false, n, Change(Flat(n, |rest| + 1), [], []);
    } else {
      gone, n', c := FreeFound(tree, spot, x, rest, previous.tree, ctx, t, n, b, m[0], a);
    }
  }

  method FreeFound(tree: Tree, node: Node, x: uint32, rest: seq<uint32>, sub: Tree, ghost ctx: RbCtx, ghost t: RbShape,
                   ghost n: Nest, ghost b: seq<Nest>, ghost kid: Nest, ghost a: seq<Nest>)
    returns (gone: bool, ghost n': Nest, ghost c: Change)
    requires |rest| >= 1 && n.tree == tree && n.shape == tree.shape
             && Rest(tree, Others(Contents(tree), x), b + a, |rest|)
    requires SplitAs(n, x, b, [kid], a) && n == Whole(tree, n.shape, b, [kid], a) && Apart(n)
    requires Spot(tree.shape, node, true, false, ctx, t, x) && sub == kid.tree
             && RepKids(At(Contents(tree), x), [kid], |rest|)
    requires |b| == |Tables.Below(Contents(tree), x)|
    modifies Trees(n), Nodes(n)
    ensures n'.tree == tree && Rep(n', |rest| + 1) && Apart(n') && tree.flags == old(tree.flags)
    ensures Trees(n') <= Trees(n) && Nodes(n') <= Nodes(n)
    ensures Changes(Flat(n, |rest| + 1), Flat(n', |rest| + 1), c, [x] + rest, []) && (c.m == [] ==> n' == n)
    ensures c.m == [] ==> [x] + rest !in FlatMap(Flat(n, |rest| + 1))
    ensures gone == (c.m != [] && tree.flags % 2 == 1 && n'.shape.Leaf?)
    decreases |rest|, 3
  {
    ghost var es := Contents(tree);
    ghost var kid', ck;
    var subGone;
    RestClear(tree, n.shape, b, kid, a);
    GetDeep(es, n.kids, x, rest, |rest|);
    assert At(es, x) != [] && At(es, x)[0].data == Sub(sub) && Rep(kid, |rest|) && kid.shape.Nd?;
    subGone, kid', ck := FreeSub(sub, rest, kid, tree, Others(es, x), b + a);
    c := DeepRemoved(n, x, b, kid, kid', a, |rest|, ck, rest);
    if subGone {
      gone := DropNode(tree, node, x, ctx, t, Others(es, x), b + a, |rest|);
      n' := Whole(tree, tree.shape, b, [], a);
      DropKid(tree, n.shape, n'.shape, b, kid, a);
      EndDropped(n', es, x, b, kid', a, |rest|);
    } else {
      gone := false;
      n' := Whole(tree, tree.shape, b, [kid'], a);
      ShrinkKid(tree, n.shape, b, kid, kid', a);
      EndKept(n', x, b, kid', a, |rest|);
    }
  }
}
