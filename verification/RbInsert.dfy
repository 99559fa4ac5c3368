/** The insert fix-up of rbtree.c:224-306, case by case. */
module RbInsert {
  import opened Shapes
  import opened RbRules
  import opened RbHeap

  /** Colour assignments to the parent and the grandparent of the focus. */
  method PaintPair(parent: Node, c: Color, grandparent: Node, k: Color, ghost tree: Tree, ghost ctx: RbCtx,
                   ghost t: RbShape)
    requires ctx.In? && ctx.up.In? && parent == ctx.e.id && grandparent == ctx.up.e.id
    requires Zip(tree, ctx, t)
    modifies parent`color, grandparent`color
    ensures Zip(tree, ctx.up.up, Lift(ctx, t, c, k))
  {
    ghost var up := ctx.up;
    ghost var p := Join(ctx.onLeft, ctx.color, ctx.e, t, ctx.sib);
    ZipUp(tree, ctx, t);
    Paint(parent, c, tree, up, p);
    ZipUp(tree, up, p.(color := c));
    Paint(grandparent, k, tree, up.up, Join(up.onLeft, up.color, up.e, p.(color := c), up.sib));
  }

  method InsertCase5(node: Node, ghost tree: Tree, ghost ctx: RbCtx, ghost t: RbShape, ghost h: nat)
    returns (ghost w: RbShape)
    requires RedRed(ctx, t, h) && t.e.id == node && ColorOf(ctx.up.sib) == Black && ctx.onLeft == ctx.up.onLeft
    requires Zip(tree, ctx, t)
    modifies tree`root, CtxIds(ctx), Ids(t)
    ensures Sound(tree, w, All(ctx, t))
  {
    var parent := node.parent;
    var grandparent := parent.parent;
    ghost var d, top, g := ctx.onLeft, ctx.up.up, Lift(ctx, t, Black, Red);
    Case5Rule(ctx, t, h);
    LiftAll(ctx, t, Black, Red);
    PaintPair(parent, Black, grandparent, Red, tree, ctx, t);
    if node == parent.left && parent == grandparent.left {
      RotateRight(grandparent, top, g);
    } else {
      RotateLeft(grandparent, top, g);
    }
    Close(tree, top, Rot(d, g), h + 1);
    w := Plug(top, Rot(d, g));
  }

  method InsertCase4(node: Node, ghost tree: Tree, ghost ctx: RbCtx, ghost t: RbShape, ghost h: nat)
    returns (ghost w: RbShape)
    requires RedRed(ctx, t, h) && t.e.id == node && ColorOf(ctx.up.sib) == Black
    requires Zip(tree, ctx, t)
    modifies tree`root, CtxIds(ctx), Ids(t)
    ensures Sound(tree, w, All(ctx, t))
  {
    var parent := node.parent;
    var grandparent := parent.parent;
    if grandparent == null {
      assert false;
      return;
    }
    ghost var ctx', t', p := ctx, t, Join(ctx.onLeft, Red, ctx.e, t, ctx.sib);
    ZipUp(tree, ctx, t);
    AllUp(ctx, t);
    var next := node;
    if node == parent.right && parent == grandparent.left {
      Case4Rule(ctx, t, h);
      RotateLeft(parent, ctx.up, p);
      next := node.left;
      ctx', t' := Inner(ctx, t), Rot(false, p).left;
      ZipDown(tree, ctx.up, Rot(false, p));
      AllUp(ctx', t');
    } else if node == parent.left && parent == grandparent.right {
      Case4Rule(ctx, t, h);
      RotateRight(parent, ctx.up, p);
      next := node.right;
      ctx', t' := Inner(ctx, t), Rot(true, p).right;
      ZipDown(tree, ctx.up, Rot(true, p));
      AllUp(ctx', t');
    }
    w := InsertCase5(next, tree, ctx', t', h);
  }

  function Uncle(node: Node, ghost tree: Tree, ghost ctx: RbCtx, ghost t: RbShape): (uncle: Node?)
    requires t.Nd? && t.e.id == node && Zip(tree, ctx, t)
    reads tree`root, CtxIds(ctx), Ids(t)
    ensures uncle == if ctx.In? && ctx.up.In? then RootOf(ctx.up.sib) else null
    ensures uncle != null ==> uncle.color == ColorOf(ctx.up.sib)
  {
    var parent := node.parent;
    if parent == null then null else
    var grandparent := parent.parent;
    assert Around(ctx.up, tree, parent);
    if grandparent == null then null else
    assert Is(ctx.up.sib, tree, grandparent);
    if parent == grandparent.left then grandparent.right else grandparent.left
  }

  /** Recolouring of case 3: parent and uncle black, grandparent red. */
  method PaintFamily(parent: Node, uncle: Node, grandparent: Node, ghost tree: Tree, ghost ctx: RbCtx, ghost t: RbShape)
    requires ctx.In? && ctx.up.In? && ctx.up.sib.Nd?
    requires parent == ctx.e.id && grandparent == ctx.up.e.id && uncle == ctx.up.sib.e.id
    requires Zip(tree, ctx, t)
    modifies parent`color, uncle`color, grandparent`color
    ensures Zip(tree, ctx.up.up, Lift(Soften(ctx), t, Black, Red))
  {
    ghost var up, p := ctx.up, Join(ctx.onLeft, Black, ctx.e, t, ctx.sib);
    PaintPair(parent, Black, grandparent, Red, tree, ctx, t);
    ghost var g := Lift(ctx, t, Black, Red);
    ghost var side := In(up.up, !up.onLeft, Red, up.e, p);
    ZipDown(tree, up.up, g);
    Paint(uncle, Black, tree, side, up.sib);
    ZipUp(tree, side, up.sib.(color := Black));
  }

  method InsertCase3(tree: Tree, node: Node, ghost ctx: RbCtx, ghost t: RbShape, ghost h: nat)
    returns (ghost w: RbShape)
    requires RedRed(ctx, t, h) && t.e.id == node
    requires Zip(tree, ctx, t)
    modifies tree`root, CtxIds(ctx), Ids(t)
    ensures Sound(tree, w, All(ctx, t))
    decreases ctx, 0
  {
    var uncle := Uncle(node, tree, ctx, t);
    if uncle != null && uncle.color == Red {
      var parent := node.parent;
      var grandparent := parent.parent;
      Case3Rule(ctx, t, h);
      PaintFamily(parent, uncle, grandparent, tree, ctx, t);
      ghost var g := Lift(Soften(ctx), t, Black, Red);
      SoftenFacts(ctx, t);
      w := InsertCase1(tree, grandparent, ctx.up.up, g, h + 1);
    } else {
      w := InsertCase4(node, tree, ctx, t, h);
    }
  }

  method InsertCase2(tree: Tree, node: Node, ghost ctx: RbCtx, ghost t: RbShape, ghost h: nat)
    returns (ghost w: RbShape)
    requires t.Nd? && t.e.id == node && t.color == Red && RB(t, h) && ctx.In? && Fits(ctx, h, Black)
    requires Zip(tree, ctx, t)
    modifies tree`root, CtxIds(ctx), Ids(t)
    ensures Sound(tree, w, All(ctx, t))
    decreases ctx, 1
  {
    var parent := node.parent;
    if parent.color == Black {
      Close(tree, ctx, t, h);
      w := Plug(ctx, t);
      return;
    }
    RedParent(ctx, h);
    w := InsertCase3(tree, node, ctx, t, h);
  }

  /** The insert fix-up: `node` is red, and the only possible defect is that its parent is red too or that it is the
      root. */
  method InsertCase1(tree: Tree, node: Node, ghost ctx: RbCtx, ghost t: RbShape, ghost h: nat)
    returns (ghost w: RbShape)
    requires t.Nd? && t.e.id == node && t.color == Red && RB(t, h) && Fits(ctx, h, Black)
    requires Zip(tree, ctx, t)
    modifies tree`root, CtxIds(ctx), Ids(t)
    ensures Sound(tree, w, All(ctx, t))
    decreases ctx, 2
  {
    var parent := node.parent;
    if parent == null {
      Paint(node, Black, tree, ctx, t);
      Close(tree, ctx, t.(color := Black), h + 1);
      w := t.(color := Black);
      return;
    }
    w := InsertCase2(tree, node, ctx, t, h);
  }
}
