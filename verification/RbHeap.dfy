/**
 The heap of rbtree.c: node and tree objects, what it means that the objects around
 a node are laid out as a given zipper, and the in-place steps (rotations, colour
 assignments) that every operation is made of.
 */
module RbHeap {
  import opened Shapes

  /** A `void *` stored in a node: NULL, a caller's pointer, or a subtree (rbtree.c:849-866). */
  datatype Value = Null | User(addr: int) | Sub(tree: Tree)

  type RbShape = Shape<Node, Value>
  type RbCtx = Ctx<Node, Value>
  type RbEntry = Entry<Node, Value>

  class Node {
    var tree: Tree
    var parent: Node?
    var left: Node?
    var right: Node?
    var color: Color
    var key: uint32
    var data: Value

    constructor (tree: Tree, parent: Node?, key: uint32, data: Value)
      ensures this.tree == tree && this.parent == parent && left == null && right == null
      ensures color == Black && this.key == key && this.data == data
    {
      this.tree, this.parent, left, right := tree, parent, null, null;
      color, this.key, this.data := Black, key, data;
    }
  }

  class Tree {
    var root: Node?
    var flags: uint32
    ghost var shape: RbShape  // the abstract value: what hangs below `root`

    constructor (flags: uint32)
      ensures root == null && this.flags == flags && shape == Leaf
    {
      root, this.flags, shape := null, flags, Leaf;
    }
  }

  ghost function RootOf(t: RbShape): Node? {
    if t.Leaf? then null else t.e.id
  }

  ghost function Hub(ctx: RbCtx): Node? {
    if ctx.Top? then null else ctx.e.id
  }

  /** Object `e.id` carries exactly entry `e`, colour `c` and the given links. */
  ghost predicate Holds(tree: Tree, p: Node?, l: Node?, r: Node?, c: Color, e: RbEntry)
    reads e.id
  {
    var n := e.id;
    n.tree == tree && n.parent == p && n.left == l && n.right == r &&
    n.color == c && n.key == e.key && n.data == e.data
  }

  /** The heap below parent `p` is laid out as `t`. */
  ghost predicate Is(t: RbShape, tree: Tree, p: Node?)
    reads Ids(t)
  {
    match t
    case Leaf => true
    case Nd(l, c, e, r) =>
      Holds(tree, p, RootOf(l), RootOf(r), c, e) && Is(l, tree, e.id) && Is(r, tree, e.id)
  }

  /** The heap around the hole is laid out as `ctx`, with `child` hanging in the hole. */
  ghost predicate Around(ctx: RbCtx, tree: Tree, child: Node?)
    reads tree`root, CtxIds(ctx)
  {
    match ctx
    case Top => tree.root == child
    case In(up, d, c, e, s) =>
      (if d then Holds(tree, Hub(up), child, RootOf(s), c, e)
       else Holds(tree, Hub(up), RootOf(s), child, c, e)) &&
      Is(s, tree, e.id) && Around(up, tree, e.id)
  }

  ghost predicate Zip(tree: Tree, ctx: RbCtx, t: RbShape)
    reads tree`root, CtxIds(ctx), Ids(t)
  {
    Around(ctx, tree, RootOf(t)) && Is(t, tree, Hub(ctx)) &&
    CtxDistinct(ctx) && Distinct(t) && Ids(t) !! CtxIds(ctx)
  }

  lemma ZipUp(tree: Tree, ctx: RbCtx, t: RbShape)
    requires ctx.In? && Zip(tree, ctx, t)
    ensures Zip(tree, ctx.up, Join(ctx.onLeft, ctx.color, ctx.e, t, ctx.sib))
  {
  }

  lemma ZipDown(tree: Tree, ctx: RbCtx, t: RbShape)
    requires t.Nd? && Zip(tree, ctx, t)
    ensures Zip(tree, In(ctx, true, t.color, t.e, t.right), t.left)
    ensures Zip(tree, In(ctx, false, t.color, t.e, t.left), t.right)
  {
  }

  lemma ZipAcross(tree: Tree, ctx: RbCtx, t: RbShape)
    requires ctx.In? && Zip(tree, ctx, t)
    ensures Zip(tree, ctx.(onLeft := !ctx.onLeft, sib := t), ctx.sib)
  {
  }

  lemma {:induction false} ZipPlug(tree: Tree, ctx: RbCtx, t: RbShape)
    requires Zip(tree, ctx, t)
    ensures Zip(tree, Top, Plug(ctx, t))
  {
    match ctx
    case Top =>
    case In(up, d, c, e, s) =>
      ZipUp(tree, ctx, t);
      ZipPlug(tree, up, Join(d, c, e, t, s));
  }

  /** Moving the focus down a path inside the subtree in focus. */
  lemma {:induction false} ZipAppend(tree: Tree, path: RbCtx, base: RbCtx, t: RbShape)
    requires Zip(tree, base, Plug(path, t))
    ensures Zip(tree, Append(path, base), t)
  {
    match path
    case Top =>
    case In(up, d, c, e, s) =>
      ZipAppend(tree, up, base, Join(d, c, e, t, s));
      ZipDown(tree, Append(up, base), Join(d, c, e, t, s));
  }

  // ---------- rotations (rbtree.c:127-171) ----------

  /** Hang `child` where `node` hung (the first block of both rotations, rbtree.c:132-140). */
  method Relink(tree: Tree, node: Node, child: Node?, ghost ctx: RbCtx)
    requires Around(ctx, tree, node) && CtxDistinct(ctx) && node.parent == Hub(ctx) && node !in CtxIds(ctx)
    modifies tree`root, CtxIds(ctx)
    ensures Around(ctx, tree, child)
  {
    if node.parent != null {
      if node.parent.left == node {
        node.parent.left := child;
      } else {
        node.parent.right := child;
      }
    } else {
      tree.root := child;
    }
  }

  method SetParent(node: Node?, p: Node, ghost q: Node, ghost tree: Tree, ghost t: RbShape)
    requires Is(t, tree, q) && Distinct(t) && node == RootOf(t)
    modifies Ids(t)
    ensures Is(t, tree, p)
  {
    if node != null {
      node.parent := p;
    }
  }

  /** The links among a node, its right child and the subtree between them (rbtree.c:141-147). */
  method SwingLeft(node: Node, ghost p: Node?, ghost a: RbShape, ghost b: RbShape, ghost c: RbShape,
                   ghost cx: Color, ghost cy: Color, ghost ex: RbEntry, ghost ey: RbEntry)
    requires ex.id == node && ey.id != node
    requires Holds(node.tree, p, RootOf(a), ey.id, cx, ex)
    requires Holds(node.tree, node, RootOf(b), RootOf(c), cy, ey)
    requires Is(b, node.tree, ey.id) && Distinct(b) && node !in Ids(b) && ey.id !in Ids(b)
    modifies node, ey.id, Ids(b)
    ensures Holds(old(node.tree), ey.id, RootOf(a), RootOf(b), cx, ex)
    ensures Holds(old(node.tree), p, node, RootOf(c), cy, ey)
    ensures Is(b, node.tree, node)
  {
    node.right.parent := node.parent;
    node.parent := node.right;
    node.right := node.right.left;
    SetParent(node.right, node, ey.id, node.tree, b);
    node.parent.left := node;
  }

  method TurnLeft(node: Node, ghost p: Node?, ghost t: RbShape)
    requires t.Nd? && t.e.id == node && t.right.Nd?
    requires Is(t, node.tree, p) && Distinct(t)
    modifies Ids(t)
    ensures node.tree == old(node.tree) && Is(RotL(t), node.tree, p)
  {
    ghost var tree, a, b, c := node.tree, t.left, t.right.left, t.right.right;
    assert Is(t.right, tree, node);
    assert allocated(Ids(a)) && allocated(Ids(c));
    SwingLeft(node, p, a, b, c, t.color, t.right.color, t.e, t.right.e);
    assert Is(RotL(t).left, tree, t.right.e.id);
  }

  method SwingRight(node: Node, ghost p: Node?, ghost a: RbShape, ghost b: RbShape, ghost c: RbShape,
                    ghost cx: Color, ghost cy: Color, ghost ex: RbEntry, ghost ey: RbEntry)
    requires ex.id == node && ey.id != node
    requires Holds(node.tree, p, ey.id, RootOf(a), cx, ex)
    requires Holds(node.tree, node, RootOf(c), RootOf(b), cy, ey)
    requires Is(b, node.tree, ey.id) && Distinct(b) && node !in Ids(b) && ey.id !in Ids(b)
    modifies node, ey.id, Ids(b)
    ensures Holds(old(node.tree), ey.id, RootOf(b), RootOf(a), cx, ex)
    ensures Holds(old(node.tree), p, RootOf(c), node, cy, ey)
    ensures Is(b, node.tree, node)
  {
    node.left.parent := node.parent;
    node.parent := node.left;
    node.left := node.left.right;
    SetParent(node.left, node, ey.id, node.tree, b);
    node.parent.right := node;
  }

  method TurnRight(node: Node, ghost p: Node?, ghost t: RbShape)
    requires t.Nd? && t.e.id == node && t.left.Nd?
    requires Is(t, node.tree, p) && Distinct(t)
    modifies Ids(t)
    ensures node.tree == old(node.tree) && Is(RotR(t), node.tree, p)
  {
    ghost var tree, a, b, c := node.tree, t.right, t.left.right, t.left.left;
    assert Is(t.left, tree, node);
    assert allocated(Ids(a)) && allocated(Ids(c));
    SwingRight(node, p, a, b, c, t.color, t.left.color, t.e, t.left.e);
    assert Is(RotR(t).right, tree, t.left.e.id);
  }

  method RotateLeft(node: Node, ghost ctx: RbCtx, ghost t: RbShape)
    requires t.Nd? && t.e.id == node && t.right.Nd?
    requires Zip(node.tree, ctx, t)
    modifies node.tree`root, CtxIds(ctx), Ids(t)
    ensures Zip(old(node.tree), ctx, Rot(false, t))
    ensures All(ctx, Rot(false, t)) == All(ctx, t)
  {
    RotFacts(false, t);
    assert allocated(Ids(t)) && allocated(CtxIds(ctx));
    Relink(node.tree, node, node.right, ctx);
    TurnLeft(node, Hub(ctx), t);
  }

  method RotateRight(node: Node, ghost ctx: RbCtx, ghost t: RbShape)
    requires t.Nd? && t.e.id == node && t.left.Nd?
    requires Zip(node.tree, ctx, t)
    modifies node.tree`root, CtxIds(ctx), Ids(t)
    ensures Zip(old(node.tree), ctx, Rot(true, t))
    ensures All(ctx, Rot(true, t)) == All(ctx, t)
  {
    RotFacts(true, t);
    assert allocated(Ids(t)) && allocated(CtxIds(ctx));
    Relink(node.tree, node, node.left, ctx);
    TurnRight(node, Hub(ctx), t);
  }

  /** One colour assignment. */
  method Paint(node: Node, color: Color, ghost tree: Tree, ghost ctx: RbCtx, ghost t: RbShape)
    requires t.Nd? && t.e.id == node
    requires Zip(tree, ctx, t)
    modifies node`color
    ensures Zip(tree, ctx, t.(color := color))
    ensures All(ctx, t.(color := color)) == All(ctx, t)
  {
    node.color := color;
  }

  /** The assignments to key32 and data of one node. */
  method Retitle(node: Node, key: uint32, data: Value, ghost tree: Tree, ghost ctx: RbCtx, ghost t: RbShape)
    requires t.Nd? && t.e.id == node
    requires Zip(tree, ctx, t)
    modifies node`key, node`data
    ensures Zip(tree, ctx, t.(e := Entry(node, key, data)))
  {
    node.key := key;
    node.data := data;
  }

  /** The heap holds a red-black tree `w` with contents `es`. */
  ghost predicate Sound(tree: Tree, w: RbShape, es: seq<RbEntry>)
    reads tree`root, Ids(w)
  {
    Zip(tree, Top, w) && RedBlack(w) && Entries(w) == es
  }

  lemma Close(tree: Tree, ctx: RbCtx, t: RbShape, h: nat)
    requires Zip(tree, ctx, t) && RB(t, h) && Fits(ctx, h, ColorOf(t))
    ensures Sound(tree, Plug(ctx, t), All(ctx, t))
  {
    ZipPlug(tree, ctx, t);
    PlugRedBlack(ctx, t, h);
    PlugEntries(ctx, t);
  }
}
