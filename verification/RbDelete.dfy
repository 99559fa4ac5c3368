/** The delete fix-up of rbtree.c:308-438, case by case. */
module RbDelete {
  import opened Shapes
  import opened RbRules
  import opened RbHeap

  function GetColor(node: Node?): Color
    reads node
  {
    if node == null then Black else node.color
  }

  function GetColorLeft(node: Node?): Color
    reads node, if node == null then {} else {node.left}
  {
    if node == null || node.left == null then Black else node.left.color
  }

  function GetColorRight(node: Node?): Color
    reads node, if node == null then {} else {node.right}
  {
    if node == null || node.right == null then Black else node.right.color
  }

  function Sibling(node: Node, ghost tree: Tree, ghost ctx: RbCtx, ghost t: RbShape): (sibling: Node?)
    requires t.Nd? && t.e.id == node && Zip(tree, ctx, t)
    reads tree`root, CtxIds(ctx), Ids(t)
    ensures sibling == if ctx.In? then RootOf(ctx.sib) else null
  {
    var parent := node.parent;
    if parent == null then null
    else if node == parent.left then parent.right else parent.left
  }

  /** The colour tests of the cases read the colours of the shape. */
  lemma SiblingColors(tree: Tree, ctx: RbCtx, t: RbShape)
    requires ctx.In? && ctx.sib.Nd? && Zip(tree, ctx, t)
    ensures var s := ctx.sib.e.id;
            GetColor(ctx.e.id) == ctx.color && GetColor(s) == ctx.sib.color &&
            GetColorLeft(s) == ColorOf(ctx.sib.left) && GetColorRight(s) == ColorOf(ctx.sib.right)
  {
    var s := ctx.sib;
    assert Is(s, tree, ctx.e.id);
    assert Is(s.left, tree, s.e.id) && Is(s.right, tree, s.e.id);
  }

  /** `trbt_set_color(sibling, k)`. */
  method PaintSibling(sibling: Node, k: Color, ghost tree: Tree, ghost ctx: RbCtx, ghost t: RbShape)
    requires ctx.In? && ctx.sib.Nd? && sibling == ctx.sib.e.id
    requires Zip(tree, ctx, t)
    modifies sibling`color
    ensures Zip(tree, Repaint(ctx, ctx.color, k), t) && SameAround(ctx, Repaint(ctx, ctx.color, k))
  {
    ghost var across := ctx.(onLeft := !ctx.onLeft, sib := t);
    ghost var s := ctx.sib.(color := k);
    ZipAcross(tree, ctx, t);
    Paint(sibling, k, tree, across, ctx.sib);
    ZipAcross(tree, across, s);
    SameSib(ctx, s, ctx.color);
  }

  /** `trbt_set_color(parent, c)`. */
  method PaintParent(parent: Node, c: Color, ghost tree: Tree, ghost ctx: RbCtx, ghost t: RbShape)
    requires ctx.In? && parent == ctx.e.id
    requires Zip(tree, ctx, t)
    modifies parent`color
    ensures Zip(tree, ctx.(color := c), t) && SameAround(ctx, ctx.(color := c))
  {
    parent.color := c;
  }

  /** `trbt_set_color_left/right(sibling, TRBT_BLACK)`; a missing child is left alone. */
  method PaintNephew(sibling: Node, left: bool, ghost tree: Tree, ghost ctx: RbCtx, ghost t: RbShape)
    requires ctx.In? && ctx.sib.Nd? && sibling == ctx.sib.e.id
    requires Zip(tree, ctx, t)
    modifies Ids(ctx.sib)
    ensures Zip(tree, BlackNephew(ctx, left), t) && SameAround(ctx, BlackNephew(ctx, left))
  {
    ghost var across, s := ctx.(onLeft := !ctx.onLeft, sib := t), ctx.sib;
    ghost var n := if left then s.left else s.right;
    ghost var under := In(across, left, s.color, s.e, if left then s.right else s.left);
    ZipAcross(tree, ctx, t);
    ZipDown(tree, across, s);
    var nephew := if left then sibling.left else sibling.right;
    assert nephew == RootOf(n);
    if nephew == null {
      assert BlackNephew(ctx, left) == ctx;
      return;
    }
    Paint(nephew, Black, tree, under, n);
    ZipUp(tree, under, n.(color := Black));
    ghost var s' := BlackNephew(ctx, left).sib;
    assert s' == Join(left, s.color, s.e, n.(color := Black), under.sib);
    ZipAcross(tree, across, s');
    SameSib(ctx, s', ctx.color);
  }

  /** The rotation at the parent that brings the sibling up, seen from the node. */
  method RotateParent(node: Node, parent: Node, ghost tree: Tree, ghost ctx: RbCtx, ghost t: RbShape)
    requires t.Nd? && t.e.id == node && ctx.In? && ctx.sib.Nd? && parent == ctx.e.id
    requires Zip(tree, ctx, t)
    modifies tree`root, CtxIds(ctx), Ids(t)
    ensures Zip(tree, Swung(ctx), t) && SameAround(ctx, Swung(ctx))
  {
    ghost var d, p := ctx.onLeft, Join(ctx.onLeft, ctx.color, ctx.e, t, ctx.sib);
    ZipUp(tree, ctx, t);
    if node == parent.left {
      RotateLeft(parent, ctx.up, p);
    } else {
      RotateRight(parent, ctx.up, p);
    }
    ghost var q := Rot(!d, p);
    ZipDown(tree, ctx.up, q);
    ZipDown(tree, Swung(ctx).up, if d then q.left else q.right);
    SwungFacts(ctx);
  }

  /** The rotation at the sibling that brings its near child up. */
  method RotateSibling(sibling: Node, left: bool, ghost tree: Tree, ghost ctx: RbCtx, ghost t: RbShape)
    requires ctx.In? && ctx.sib.Nd? && sibling == ctx.sib.e.id && left == ctx.onLeft && Near(ctx).Nd?
    requires Zip(tree, ctx, t)
    modifies tree`root, CtxIds(ctx), Ids(t)
    ensures var ctx' := ctx.(sib := Rot(ctx.onLeft, ctx.sib));
            Zip(tree, ctx', t) && SameAround(ctx, ctx')
  {
    ghost var across, s := ctx.(onLeft := !ctx.onLeft, sib := t), ctx.sib;
    ZipAcross(tree, ctx, t);
    if left {
      RotateRight(sibling, across, s);
    } else {
      RotateLeft(sibling, across, s);
    }
    ZipAcross(tree, across, Rot(left, s));
    RotFacts(left, s);
    SameSib(ctx, Rot(left, s), ctx.color);
  }

  method DeleteCase6(node: Node, ghost tree: Tree, ghost ctx: RbCtx, ghost t: RbShape, ghost h: nat)
    returns (ghost ctx': RbCtx)
    requires t.Nd? && t.e.id == node && ctx.In? && Fits(ctx, h + 1, Black)
    requires ctx.sib.Nd? && ctx.sib.color == Black && ColorOf(Far(ctx)) == Red
    requires Zip(tree, ctx, t)
    modifies tree`root, CtxIds(ctx), Ids(t)
    ensures Zip(tree, ctx', t) && Fits(ctx', h, Black) && SameAround(ctx, ctx')
  {
    var sibling := Sibling(node, tree, ctx, t);
    var parent := node.parent;
    SiblingColors(tree, ctx, t);
    DCase6Rule(ctx, h);
    PaintSibling(sibling, parent.color, tree, ctx, t);
    PaintParent(parent, Black, tree, Repaint(ctx, ctx.color, ctx.color), t);
    ghost var c1 := Repaint(ctx, Black, ctx.color);
    PaintNephew(sibling, node != parent.left, tree, c1, t);
    ghost var c2 := BlackNephew(c1, !ctx.onLeft);
    RotateParent(node, parent, tree, c2, t);
    ctx' := Swung(c2);
  }

  method DeleteCase5(node: Node, ghost tree: Tree, ghost ctx: RbCtx, ghost t: RbShape, ghost h: nat)
    returns (ghost ctx': RbCtx)
    requires t.Nd? && t.e.id == node && ctx.In? && Fits(ctx, h + 1, Black)
    requires ctx.sib.Nd? && ctx.sib.color == Black && (ColorOf(Near(ctx)) == Red || ColorOf(Far(ctx)) == Red)
    requires Zip(tree, ctx, t)
    modifies tree`root, CtxIds(ctx), Ids(t)
    ensures Zip(tree, ctx', t) && Fits(ctx', h, Black) && SameAround(ctx, ctx')
  {
    var parent := node.parent;
    var sibling := Sibling(node, tree, ctx, t);
    SiblingColors(tree, ctx, t);
    if node == parent.left && GetColor(sibling) == Black
       && GetColorLeft(sibling) == Red && GetColorRight(sibling) == Black {
      ctx' := TurnSibling(node, sibling, true, tree, ctx, t, h);
      ctx' := DeleteCase6(node, tree, ctx', t, h);
      return;
    }
    if node == parent.right && GetColor(sibling) == Black
       && GetColorRight(sibling) == Red && GetColorLeft(sibling) == Black {
      ctx' := TurnSibling(node, sibling, false, tree, ctx, t, h);
      ctx' := DeleteCase6(node, tree, ctx', t, h);
      return;
    }
    ctx' := DeleteCase6(node, tree, ctx, t, h);
  }

  /** The body of both branches of case 5 (rbtree.c:356-358 and 366-368). */
  method TurnSibling(node: Node, sibling: Node, left: bool,
                     ghost tree: Tree, ghost ctx: RbCtx, ghost t: RbShape, ghost h: nat)
    returns (ghost ctx': RbCtx)
    requires t.Nd? && t.e.id == node && ctx.In? && Fits(ctx, h + 1, Black) && left == ctx.onLeft
    requires ctx.sib.Nd? && ctx.sib.color == Black && ColorOf(Near(ctx)) == Red && ColorOf(Far(ctx)) == Black
    requires sibling == ctx.sib.e.id
    requires Zip(tree, ctx, t)
    modifies tree`root, CtxIds(ctx), Ids(t)
    ensures Zip(tree, ctx', t) && Fits(ctx', h + 1, Black) && SameAround(ctx, ctx')
    ensures ctx'.In? && ctx'.sib.Nd? && ctx'.sib.color == Black && ColorOf(Far(ctx')) == Red
  {
    DCase5Rule(ctx, h);
    PaintSibling(sibling, Red, tree, ctx, t);
    ghost var c1 := Repaint(ctx, ctx.color, Red);
    PaintNephew(sibling, left, tree, c1, t);
    ghost var c2 := BlackNephew(c1, ctx.onLeft);
    RotateSibling(sibling, left, tree, c2, t);
    ctx' := c2.(sib := Rot(ctx.onLeft, c2.sib));
  }

  method DeleteCase4(node: Node, ghost tree: Tree, ghost ctx: RbCtx, ghost t: RbShape, ghost h: nat)
    returns (ghost ctx': RbCtx)
    requires t.Nd? && t.e.id == node && ctx.In? && Fits(ctx, h + 1, Black)
    requires ctx.sib.Nd? && ctx.sib.color == Black
    requires ctx.color == Red || ColorOf(ctx.sib.left) == Red || ColorOf(ctx.sib.right) == Red
    requires Zip(tree, ctx, t)
    modifies tree`root, CtxIds(ctx), Ids(t)
    ensures Zip(tree, ctx', t) && Fits(ctx', h, Black) && SameAround(ctx, ctx')
  {
    var sibling := Sibling(node, tree, ctx, t);
    SiblingColors(tree, ctx, t);
    if GetColor(node.parent) == Red && GetColor(sibling) == Black
       && GetColorLeft(sibling) == Black && GetColorRight(sibling) == Black {
      DCase4Rule(ctx, h);
      PaintSibling(sibling, Red, tree, ctx, t);
      PaintParent(node.parent, Black, tree, Repaint(ctx, ctx.color, Red), t);
      ctx' := Repaint(ctx, Black, Red);
    } else {
      ctx' := DeleteCase5(node, tree, ctx, t, h);
    }
  }

  /** Recursion reaches case 1 again only under a black parent, so a red parent counts as depth 0. */
  ghost function Climb(ctx: RbCtx): nat
    requires ctx.In?
  {
    if ctx.color == Red then 0 else Depth(ctx)
  }

  method DeleteCase3(node: Node, ghost tree: Tree, ghost ctx: RbCtx, ghost t: RbShape, ghost h: nat)
    returns (ghost ctx': RbCtx)
    requires t.Nd? && t.e.id == node && ctx.In? && Fits(ctx, h + 1, Black)
    requires ctx.sib.Nd? && ctx.sib.color == Black
    requires Zip(tree, ctx, t)
    modifies tree`root, CtxIds(ctx), Ids(t)
    ensures Zip(tree, ctx', t) && Fits(ctx', h, Black) && SameAround(ctx, ctx')
    decreases Climb(ctx), 0
  {
    var sibling := Sibling(node, tree, ctx, t);
    SiblingColors(tree, ctx, t);
    if GetColor(node.parent) == Black && GetColor(sibling) == Black
       && GetColorLeft(sibling) == Black && GetColorRight(sibling) == Black {
      DCase3Rule(ctx, h);
      var parent := node.parent;
      PaintSibling(sibling, Red, tree, ctx, t);
      ghost var c1 := Repaint(ctx, Black, Red);
      ghost var p := Join(c1.onLeft, Black, c1.e, t, c1.sib);
      ZipUp(tree, c1, t);
      ghost var up := DeleteCase1(parent, tree, c1.up, p, h + 1);
      ctx' := c1.(up := up);
      ZipDown(tree, up, p);
    } else {
      ctx' := DeleteCase4(node, tree, ctx, t, h);
    }
  }

  method DeleteCase2(node: Node, ghost tree: Tree, ghost ctx: RbCtx, ghost t: RbShape, ghost h: nat)
    returns (ghost ctx': RbCtx)
    requires t.Nd? && t.e.id == node && ctx.In? && Fits(ctx, h + 1, Black)
    requires Zip(tree, ctx, t)
    modifies tree`root, CtxIds(ctx), Ids(t)
    ensures Zip(tree, ctx', t) && Fits(ctx', h, Black) && SameAround(ctx, ctx')
    decreases Depth(ctx), 1
  {
    var sibling := Sibling(node, tree, ctx, t);
    SiblingExists(ctx, h);
    SiblingColors(tree, ctx, t);
    if GetColor(sibling) == Red {
      DCase2Rule(ctx, h);
      var parent := node.parent;
      PaintParent(parent, Red, tree, ctx, t);
      PaintSibling(sibling, Black, tree, ctx.(color := Red), t);
      ghost var c1 := Repaint(ctx, Red, Black);
      RotateParent(node, parent, tree, c1, t);
      ctx' := DeleteCase3(node, tree, Swung(c1), t, h);
    } else {
      ctx' := DeleteCase3(node, tree, ctx, t, h);
    }
  }

  /** The delete fix-up: the paths through `node` lack one black node, and end up with one more. */
  method DeleteCase1(node: Node, ghost tree: Tree, ghost ctx: RbCtx, ghost t: RbShape, ghost h: nat)
    returns (ghost ctx': RbCtx)
    requires t.Nd? && t.e.id == node && Fits(ctx, h + 1, Black)
    requires Zip(tree, ctx, t)
    modifies tree`root, CtxIds(ctx), Ids(t)
    ensures Zip(tree, ctx', t) && Fits(ctx', h, Black) && SameAround(ctx, ctx')
    decreases Depth(ctx), 2
  {
    if node.parent == null {
      ctx' := ctx;
    } else {
      ctx' := DeleteCase2(node, tree, ctx, t, h);
    }
  }
}
