/** `delete_node` of rbtree.c:440-589: unlinking one node object from a tree. */
module RbRemove {
  import opened Shapes
  import opened RbRules
  import opened RbHeap
  import opened RbDelete

  /** Hang the subtree `s` where `node` hung (rbtree.c:504-515). */
  method Replace(node: Node, child: Node, ghost tree: Tree, ghost ctx: RbCtx, ghost t: RbShape, ghost s: RbShape,
                 ghost q: Node?)
    requires t.Nd? && t.e.id == node && Zip(tree, ctx, t)
    requires s.Nd? && s.e.id == child && Is(s, tree, q) && Distinct(s)
    requires Ids(s) !! CtxIds(ctx) && node !in Ids(s)
    modifies tree`root, CtxIds(ctx), Ids(s)
    ensures Zip(tree, ctx, s)
  {
    assert allocated(Ids(s)) && allocated(CtxIds(ctx));
    Relink(node.tree, node, child, ctx);
    assert Is(s, tree, q);
    child.parent := node.parent;
  }

  /** The black height bookkeeping of a node with at most one child. */
  lemma {:induction false} OnlyChild(t: RbShape, h: nat)
    requires t.Nd? && RB(t, h) && (t.left.Leaf? || t.right.Leaf?)
    ensures t.color == Red ==> h == 0 && t.left.Leaf? && t.right.Leaf?
    ensures t.color == Black ==> h == 1 && RB(t.left, 0) && RB(t.right, 0)
    ensures t.left.Nd? ==> t.left.color == Red
    ensures t.right.Nd? ==> t.right.color == Red
  {
    assert t.left.Leaf? ==> RB(t.left, 0);
  }

  /** What hangs below a node with at most one child once the missing child is made a black dummy. */
  ghost function Heir(t: RbShape, dummy: RbShape): RbShape
    requires t.Nd?
  {
    if t.right.Nd? then t.right else if t.left.Nd? then t.left else dummy
  }

  ghost predicate IsDummy(s: RbShape) {
    s.Nd? && s.color == Black && s.left.Leaf? && s.right.Leaf?
  }

  /** Restore the balance after `node` gave way to `child` (rbtree.c:518-524). */
  method Rebalance(node: Node, child: Node, ghost tree: Tree, ghost ctx: RbCtx, ghost t: RbShape, ghost s: RbShape,
                   ghost h: nat)
    returns (ghost ctx': RbCtx)
    requires t.Nd? && RB(t, h) && Fits(ctx, h, t.color) && (t.left.Leaf? || t.right.Leaf?)
    requires s.Nd? && s.e.id == child && Heir(t, s) == s && (t.left.Leaf? && t.right.Leaf? ==> IsDummy(s))
    requires node.color == t.color && node !in CtxIds(ctx) && node !in Ids(s)
    requires Zip(tree, ctx, s)
    modifies tree`root, CtxIds(ctx), Ids(s)
    ensures Zip(tree, ctx', s.(color := Black)) && SameAround(ctx, ctx')
    ensures if t.left.Leaf? && t.right.Leaf? then Fits(ctx', 0, Black)
            else Fits(ctx', 1, Black) && RB(s.(color := Black), 1)
  {
    ctx' := ctx;
    OnlyChild(t, h);
    if node.color == Black {
      if GetColor(child) == Red {
        Paint(child, Black, tree, ctx, s);
      } else {
        ctx' := DeleteCase1(child, tree, ctx, s, 0);
      }
    }
  }

  /** The child that takes the node's place, or a fresh black dummy (rbtree.c:482-502). */
  method ChooseHeir(node: Node, ghost ctx: RbCtx, ghost t: RbShape)
    returns (child: Node, dummy: bool, ghost s: RbShape)
    requires t.Nd? && t.e.id == node && (t.left.Leaf? || t.right.Leaf?)
    requires Zip(node.tree, ctx, t)
    ensures Zip(node.tree, ctx, t) && dummy == (t.left.Leaf? && t.right.Leaf?)
    ensures s.Nd? && s.e.id == child && Is(s, node.tree, child.parent) && Distinct(s)
    ensures if dummy then IsDummy(s) && fresh(child) else s == (if t.right.Nd? then t.right else t.left)
    ensures Ids(s) !! CtxIds(ctx) && node !in Ids(s) && Heir(t, s) == s
  {
    var c := node.left;
    if node.right != null {
      c := node.right;
    }
    dummy := c == null;
    if dummy {
      assert allocated(Ids(t)) && allocated(CtxIds(ctx));
      child := new Node(node.tree, null, 0, Null);
      s := Nd(Leaf, Black, Entry(child, 0, Null), Leaf);
    } else {
      child := c;
      s := if t.right.Nd? then t.right else t.left;
      assert Is(s, node.tree, node);
    }
  }

  /** Take the dummy out again (rbtree.c:538-546); what is left is the new tree. */
  method DropDummy(child: Node, dummy: bool, ghost ctx: RbCtx, ghost s: RbShape)
    returns (ghost w: RbShape)
    requires s.Nd? && s.e.id == child && Zip(child.tree, ctx, s)
    requires if dummy then Fits(ctx, 0, Black) else Fits(ctx, 1, Black) && RB(s, 1) && s.color == Black
    modifies child.tree`root, CtxIds(ctx)
    ensures Sound(child.tree, w, Before(ctx) + (if dummy then [] else Entries(s)) + After(ctx))
    ensures Ids(w) == CtxIds(ctx) + (if dummy then {} else Ids(s))
  {
    ghost var t' := if dummy then Leaf else s;
    if dummy {
      Relink(child.tree, child, null, ctx);
      assert Zip(child.tree, ctx, Leaf);
    }
    Close(child.tree, ctx, t', if dummy then 0 else 1);
    PlugIds(ctx, t');
    w := Plug(ctx, t');
  }

  lemma {:induction false} HeirContents(t: RbShape, s: RbShape)
    requires t.Nd? && (t.left.Leaf? || t.right.Leaf?) && s.Nd? && Heir(t, s) == s && Distinct(t)
    ensures var none := t.left.Leaf? && t.right.Leaf?;
            Entries(t.left) + Entries(t.right) == (if none then [] else Entries(s.(color := Black))) &&
            Ids(t.left) + Ids(t.right) == (if none then {} else Ids(s.(color := Black)))
  {
    assert Entries(s.(color := Black)) == Entries(s) && Ids(s.(color := Black)) == Ids(s);
    assert t.left.Leaf? ==> Entries(t.left) + Entries(t.right) == Entries(t.right);
    assert t.right.Leaf? ==> Entries(t.left) + Entries(t.right) == Entries(t.left);
  }

  /** The node gives way to its heir and the balance is restored (rbtree.c:481-524). */
  method GiveWay(node: Node, ghost ctx: RbCtx, ghost t: RbShape, ghost h: nat)
    returns (child: Node, dummy: bool, ghost ctx': RbCtx, ghost s: RbShape)
    requires t.Nd? && t.e.id == node && (t.left.Leaf? || t.right.Leaf?)
    requires RB(t, h) && Fits(ctx, h, t.color)
    requires Zip(node.tree, ctx, t)
    modifies node.tree`root, CtxIds(ctx), Ids(t)
    ensures s.Nd? && s.e.id == child && s.color == Black
    ensures Zip(old(node.tree), ctx', s) && SameAround(ctx, ctx') && (dummy ==> fresh(child))
    ensures if dummy then Fits(ctx', 0, Black) else Fits(ctx', 1, Black) && RB(s, 1)
    ensures Entries(t.left) + Entries(t.right) == (if dummy then [] else Entries(s))
    ensures Ids(t.left) + Ids(t.right) == (if dummy then {} else Ids(s))
    ensures unchanged(node)
  {
    var tree := node.tree;
    child, dummy, s := ChooseHeir(node, ctx, t);
    HeirContents(t, s);
    assert node.color == t.color && node !in CtxIds(ctx);
    Replace(node, child, tree, ctx, t, s, child.parent);
    ctx' := Rebalance(node, child, tree, ctx, t, s, h);
    s := s.(color := Black);
  }

  /** Unlink a node with at most one child, with the help of a dummy leaf (rbtree.c:481-546). */
  method SpliceOut(node: Node, ghost ctx: RbCtx, ghost t: RbShape, ghost h: nat)
    returns (ghost w: RbShape)
    requires t.Nd? && t.e.id == node && (t.left.Leaf? || t.right.Leaf?)
    requires RB(t, h) && Fits(ctx, h, t.color)
    requires Zip(node.tree, ctx, t)
    modifies node.tree`root, CtxIds(ctx), Ids(t)
    ensures Sound(old(node.tree), w, Before(ctx) + (Entries(t.left) + Entries(t.right)) + After(ctx))
    ensures Ids(w) == CtxIds(ctx) + (Ids(t.left) + Ids(t.right))
    ensures unchanged(node)
  {
    ghost var s, ctx';
    var child, dummy;
    child, dummy, ctx', s := GiveWay(node, ctx, t, h);
    w := DropDummy(child, dummy, ctx', s);
  }

  /** Where a node's left subtree hangs, once the node carries entry `e`. */
  ghost function LeftOf(ctx: RbCtx, t: RbShape, e: RbEntry): RbCtx
    requires t.Nd?
  {
    In(ctx, true, t.color, e, t.right)
  }

  /** The next smaller node: the rightmost one of the left subtree (rbtree.c:457-461). */
  method FindPredecessor(node: Node, ghost tree: Tree, ghost ctx: RbCtx, ghost t: RbShape)
    returns (temp: Node, ghost path: RbCtx, ghost x: RbShape)
    requires t.Nd? && t.e.id == node && t.left.Nd?
    requires Zip(tree, ctx, t)
    ensures Zip(tree, ctx, t) && Plug(path, x) == t.left && After(path) == []
    ensures x.Nd? && x.right.Leaf? && x.e.id == temp && temp.key == x.e.key && temp.data == x.e.data
  {
    temp := node.left;
    path, x := Top, t.left;
    ghost var base := LeftOf(ctx, t, t.e);
    ZipDown(tree, ctx, t);
    while temp.right != null
      invariant Zip(tree, ctx, t)
      invariant x.Nd? && x.e.id == temp && Zip(tree, Append(path, base), x)
      invariant Plug(path, x) == t.left && After(path) == []
      decreases x
    {
      ZipDown(tree, Append(path, base), x);
      path, x := In(path, false, x.color, x.e, x.left), x.right;
      temp := temp.right;
    }
  }

  /** The predecessor's key and data move up (rbtree.c:466-472). */
  method MoveUp(node: Node, temp: Node, ghost tree: Tree, ghost ctx: RbCtx, ghost t: RbShape, ghost path: RbCtx,
                ghost x: RbShape)
    requires t.Nd? && t.e.id == node && x.Nd? && x.e.id == temp && Plug(path, x) == t.left
    requires temp.key == x.e.key && temp.data == x.e.data
    requires Zip(tree, ctx, t)
    modifies node`key, node`data, temp`key, temp`data
    ensures var e := Entry(node, x.e.key, x.e.data);
            Zip(tree, Append(path, LeftOf(ctx, t, e)), x.(e := Entry(temp, 0xFFFF_FFFF, Null)))
  {
    ghost var e := Entry(node, x.e.key, x.e.data);
    Retitle(node, temp.key, temp.data, tree, ctx, t);
    ZipDown(tree, ctx, t.(e := e));
    ZipAppend(tree, path, LeftOf(ctx, t, e), x);
    Retitle(temp, 0xFFFF_FFFF, Null, tree, Append(path, LeftOf(ctx, t, e)), x);
  }

  /** `temp` copies every field of `node` (rbtree.c:554-560, 569, 573). */
  method CopyFields(node: Node, temp: Node)
    requires node != temp
    modifies temp
    ensures temp.tree == old(temp.tree) && temp.parent == node.parent && temp.left == node.left
    ensures temp.right == node.right && temp.color == node.color && temp.key == node.key && temp.data == node.data
  {
    temp.key := node.key;
    temp.color := node.color;
    temp.data := node.data;
    temp.parent := node.parent;
    temp.left := node.left;
    temp.right := node.right;
  }

  /** Both subtrees learn their new parent (rbtree.c:570-576). */
  method Adopt(temp: Node, ghost node: Node, ghost tree: Tree, ghost l: RbShape, ghost r: RbShape)
    requires Is(l, tree, node) && Is(r, tree, node) && Distinct(l) && Distinct(r) && Ids(l) !! Ids(r)
    requires temp !in Ids(l) && temp !in Ids(r) && temp.left == RootOf(l) && temp.right == RootOf(r)
    modifies Ids(l), Ids(r)
    ensures Is(l, tree, temp) && Is(r, tree, temp)
  {
    assert allocated(Ids(l)) && allocated(Ids(r));
    SetParent(temp.left, temp, node, tree, l);
    SetParent(temp.right, temp, node, tree, r);
  }

  /** All links to and from `node` move to `temp` (rbtree.c:553-581). */
  method TakePlace(node: Node, temp: Node, ghost ctx: RbCtx, ghost y: RbShape)
    requires y.Nd? && y.e.id == node && Zip(temp.tree, ctx, y)
    requires temp !in CtxIds(ctx) && temp !in Ids(y)
    modifies temp.tree`root, temp, CtxIds(ctx), Ids(y.left), Ids(y.right)
    ensures Zip(old(temp.tree), ctx, y.(e := y.e.(id := temp)))
  {
    ghost var tree, l, r := temp.tree, y.left, y.right;
    assert Is(l, tree, node) && Is(r, tree, node) && Distinct(l) && Distinct(r);
    assert allocated(Ids(l)) && allocated(Ids(r)) && allocated(CtxIds(ctx));
    CopyFields(node, temp);
    Relink(temp.tree, node, temp, ctx);
    Adopt(temp, node, tree, l, r);
  }

  /** `temp` replaces `node` in the tree, keeping its place in the contents. */
  method Substitute(node: Node, temp: Node, ghost w: RbShape, ghost p: seq<RbEntry>, ghost e: RbEntry,
                    ghost s: seq<RbEntry>)
    returns (ghost w': RbShape)
    requires Sound(temp.tree, w, p + [e] + s) && e.id == node && temp !in Ids(w)
    requires forall f :: f in p ==> f.id != node
    modifies temp.tree`root, temp, Ids(w)
    ensures Sound(old(temp.tree), w', p + [e.(id := temp)] + s)
    ensures node.tree == old(temp.tree)
  {
    ghost var tree := temp.tree;
    EntryIds(w);
    assert e in Entries(w);
    ghost var path, y := Locate(w, node);
    PlugEntries(path, y);
    PlugIds(path, y);
    AppendTop(path);
    ZipAppend(tree, path, Top, y);
    ghost var H: nat :| RB(w, H);
    ghost var h := UnplugRedBlack(path, y, H);
    Exchange(path, y, p, e, s, temp);
    TakePlace(node, temp, path, y);
    ghost var y' := y.(e := e.(id := temp));
    Close(tree, path, y', h);
    w' := Plug(path, y');
  }

  /** The contents on either side of the position of the predecessor after the move, and that the predecessor's object
      is not among them. */
  lemma {:induction false} PredecessorParts(ctx: RbCtx, t: RbShape, path: RbCtx, x: RbShape)
    requires t.Nd? && x.Nd? && x.right.Leaf? && Plug(path, x) == t.left && After(path) == []
    ensures var p := Before(ctx) + (Before(path) + Entries(x.left));
            var s := Entries(t.right) + After(ctx);
            var e := Entry(t.e.id, x.e.key, x.e.data);
            var c := Append(path, LeftOf(ctx, t, e));
            Before(c) + (Entries(x.left) + Entries(x.right)) + After(c) == p + [e] + s &&
            Before(ctx) + (Entries(t.left) + Entries(t.right)) + After(ctx) == p + [x.e] + s
  {
    var e := Entry(t.e.id, x.e.key, x.e.data);
    AppendFacts(path, LeftOf(ctx, t, e));
    PlugEntries(path, x);
    Unfold(Before(ctx), Before(path), Entries(x.left), [e], Entries(t.right), After(ctx));
    Unfold(Before(ctx), Before(path), Entries(x.left), [x.e], Entries(t.right), After(ctx));
  }

  lemma Unfold<T>(a: seq<T>, b: seq<T>, c: seq<T>, d: seq<T>, f: seq<T>, g: seq<T>)
    ensures (a + b) + (c + []) + ([] + ((d + f) + g)) == a + (b + c) + d + (f + g)
    ensures a + ((b + (c + d + []) + []) + f) + g == a + (b + c) + d + (f + g)
  {
  }

  /** Black heights at the predecessor. */
  lemma {:induction false} PredecessorFits(ctx: RbCtx, t: RbShape, path: RbCtx, x: RbShape, e: RbEntry, h: nat)
    returns (k: nat)
    requires t.Nd? && RB(t, h) && Fits(ctx, h, t.color) && x.Nd? && Plug(path, x) == t.left
    ensures RB(x, k) && Fits(Append(path, LeftOf(ctx, t, e)), k, x.color)
  {
    k := AppendFits(path, LeftOf(ctx, t, e), x, if t.color == Red then h else h - 1);
  }

  /** The object of the predecessor is not in the tree any more once it has been unlinked, and the victim's object does
      not occur left of its own entry. */
  lemma {:induction false} PredecessorGone(ctx: RbCtx, t: RbShape, path: RbCtx, x: RbShape, w: RbShape)
    requires t.Nd? && x.Nd? && x.right.Leaf? && Plug(path, x) == t.left && After(path) == []
    requires Distinct(t) && Ids(t) !! CtxIds(ctx) && CtxDistinct(ctx)
    requires var e := Entry(t.e.id, x.e.key, x.e.data);
             var c := Append(path, LeftOf(ctx, t, e));
             CtxDistinct(c) && Distinct(x) && Ids(x) !! CtxIds(c) &&
             Entries(w) == Before(c) + (Entries(x.left) + Entries(x.right)) + After(c)
    ensures x.e.id !in Ids(w)
    ensures Ids(w) <= CtxIds(Append(path, LeftOf(ctx, t, Entry(t.e.id, x.e.key, x.e.data)))) + Ids(x)
    ensures forall f :: f in Before(ctx) + (Before(path) + Entries(x.left)) ==> f.id != t.e.id
  {
    var e := Entry(t.e.id, x.e.key, x.e.data);
    var c := Append(path, LeftOf(ctx, t, e));
    CtxEntryIds(c);
    EntryIdIn(x.left);
    EntryIds(w);
    assert x.e.id in Ids(x);
    CtxEntryIds(ctx);
    CtxEntryIds(path);
    PlugIds(path, x);
    assert t.e.id in Ids(t);
  }

  /** The two-child case up to the recursive call: the predecessor's key and data are copied into the node, and the
      predecessor's own fields are cleared (rbtree.c:454-472). */
  method Promote(node: Node, ghost ctx: RbCtx, ghost t: RbShape, ghost h: nat)
    returns (temp: Node, ghost path: RbCtx, ghost x: RbShape, ghost k: nat)
    requires t.Nd? && t.e.id == node && t.left.Nd? && RB(t, h) && Fits(ctx, h, t.color)
    requires Zip(node.tree, ctx, t)
    modifies Ids(t)
    ensures Plug(path, x) == t.left && After(path) == [] && x.Nd? && x.right.Leaf? && x.e.id == temp
    ensures var c := Append(path, LeftOf(ctx, t, Entry(node, x.e.key, x.e.data)));
            var x' := x.(e := Entry(temp, 0xFFFF_FFFF, Null));
            Zip(old(node.tree), c, x') && RB(x', k) && Fits(c, k, x'.color) &&
            CtxIds(c) + Ids(x') == CtxIds(ctx) + Ids(t) && temp.tree == old(node.tree)
  {
    ghost var tree := node.tree;
    temp, path, x := FindPredecessor(node, tree, ctx, t);
    ghost var e := Entry(node, x.e.key, x.e.data);
    PlugIds(path, x);
    AppendFacts(path, LeftOf(ctx, t, e));
    k := PredecessorFits(ctx, t, path, x, e, h);
    assert temp in Ids(t);
    MoveUp(node, temp, tree, ctx, t, path, x);
  }

  /** Take `node` out of its tree. The other objects keep their keys, their data and their order. */
  method DeleteNode(node: Node, ghost ctx: RbCtx, ghost t: RbShape, ghost h: nat)
    returns (ghost w: RbShape)
    requires t.Nd? && t.e.id == node && RB(t, h) && Fits(ctx, h, t.color)
    requires Zip(node.tree, ctx, t)
    modifies node.tree`root, CtxIds(ctx), Ids(t)
    ensures Sound(old(node.tree), w, Before(ctx) + (Entries(t.left) + Entries(t.right)) + After(ctx))
    ensures node.tree == old(node.tree)
    decreases t.right.Nd?
  {
    if node.left != null && node.right != null {
      ghost var path, x, k;
      var temp;
      temp, path, x, k := Promote(node, ctx, t, h);
      ghost var e := Entry(node, x.e.key, x.e.data);
      ghost var c := Append(path, LeftOf(ctx, t, e));
      PredecessorParts(ctx, t, path, x);
      w := DeleteNode(temp, c, x.(e := Entry(temp, 0xFFFF_FFFF, Null)), k);
      PredecessorGone(ctx, t, path, x, w);
      w := Substitute(node, temp, w, Before(ctx) + (Before(path) + Entries(x.left)), e, Entries(t.right) + After(ctx));
    } else {
      w := SpliceOut(node, ctx, t, h);
    }
  }
}
