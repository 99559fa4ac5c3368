/**
 What each fix-up case of rbtree.c does to the balance of a tree, as facts about
 shapes and contexts. The methods in modules RbInsert and RbDelete perform these steps on the heap.
 */
module RbRules {
  import opened Shapes

  /** The insert fix-up stands at a red node whose parent is red too: the only defect in the tree is that edge. */
  ghost predicate RedRed<N, D>(ctx: Ctx<N, D>, t: Shape<N, D>, h: nat) {
    t.Nd? && t.color == Red && RB(t, h) &&
    ctx.In? && ctx.color == Red && ctx.up.In? && Fits(ctx, h, Black)
  }

  /** The parent and grandparent rebuilt with new colours. */
  ghost function Lift<N, D>(ctx: Ctx<N, D>, t: Shape<N, D>, c: Color, k: Color): Shape<N, D>
    requires ctx.In? && ctx.up.In?
  {
    Join(ctx.up.onLeft, k, ctx.up.e, Join(ctx.onLeft, c, ctx.e, t, ctx.sib), ctx.up.sib)
  }

  lemma {:induction false} LiftAll<N, D>(ctx: Ctx<N, D>, t: Shape<N, D>, c: Color, k: Color)
    requires ctx.In? && ctx.up.In?
    ensures All(ctx.up.up, Lift(ctx, t, c, k)) == All(ctx, t)
  {
    AllUp(ctx.(color := c), t);
    AllUp(ctx.up.(color := k), Join(ctx.onLeft, c, ctx.e, t, ctx.sib));
  }

  /** A red parent is never the root, and its own parent is black. */
  lemma {:induction false} RedParent<N, D>(ctx: Ctx<N, D>, h: nat)
    requires ctx.In? && ctx.color == Red && Fits(ctx, h, Black)
    ensures ctx.up.In? && ctx.up.color == Black && Fits(ctx.up.up, h + 1, Black)
    ensures ColorOf(ctx.sib) == Black && RB(ctx.sib, h) && RB(ctx.up.sib, h)
  {
    assert Fits(ctx.up, h, Red);
  }

  /** The same context with a black uncle. */
  ghost function Soften<N, D>(ctx: Ctx<N, D>): Ctx<N, D>
    requires ctx.In? && ctx.up.In? && ctx.up.sib.Nd?
  {
    ctx.(up := ctx.up.(sib := ctx.up.sib.(color := Black)))
  }

  lemma {:induction false} SoftenFacts<N, D>(ctx: Ctx<N, D>, t: Shape<N, D>)
    requires ctx.In? && ctx.up.In? && ctx.up.sib.Nd?
    ensures All(ctx.up.up, Lift(Soften(ctx), t, Black, Red)) == All(ctx, t)
    ensures Ids(Lift(Soften(ctx), t, Black, Red)) + CtxIds(ctx.up.up) == Ids(t) + CtxIds(ctx)
  {
    LiftAll(Soften(ctx), t, Black, Red);
    var u := ctx.up.sib;
    assert Entries(u.(color := Black)) == Entries(u) && Ids(u.(color := Black)) == Ids(u);
    assert All(Soften(ctx), t) == All(ctx, t) by {
      assert Before(Soften(ctx).up) == Before(ctx.up) && After(Soften(ctx).up) == After(ctx.up);
    }
    assert Ids(Join(ctx.onLeft, Black, ctx.e, t, ctx.sib)) == Ids(t) + {ctx.e.id} + Ids(ctx.sib);
    assert CtxIds(ctx.up) == CtxIds(ctx.up.up) + {ctx.up.e.id} + Ids(u);
  }

  /** Case 3, red uncle: the defect moves to the grandparent, two levels up. */
  lemma {:induction false} Case3Rule<N, D>(ctx: Ctx<N, D>, t: Shape<N, D>, h: nat)
    requires RedRed(ctx, t, h) && ColorOf(ctx.up.sib) == Red
    ensures RB(Lift(Soften(ctx), t, Black, Red), h + 1) && Fits(ctx.up.up, h + 1, Black)
  {
    RedParent(ctx, h);
  }

  /** The context of the old parent after the inner rotation of case 4. */
  ghost function Inner<N, D>(ctx: Ctx<N, D>, t: Shape<N, D>): Ctx<N, D>
    requires ctx.In? && ctx.up.In? && t.Nd?
  {
    var d := ctx.up.onLeft;
    In(ctx.up, d, Red, t.e, if d then t.right else t.left)
  }

  /** Case 4: after the inner rotation the defect is an outer one. */
  lemma {:induction false} Case4Rule<N, D>(ctx: Ctx<N, D>, t: Shape<N, D>, h: nat)
    requires RedRed(ctx, t, h) && ctx.onLeft != ctx.up.onLeft
    ensures var u := Rot(ctx.onLeft, Join(ctx.onLeft, Red, ctx.e, t, ctx.sib));
            var t' := if ctx.up.onLeft then u.left else u.right;
            t'.Nd? && t'.e == ctx.e && RedRed(Inner(ctx, t), t', h) &&
            u == Join(ctx.up.onLeft, Red, t.e, t', Inner(ctx, t).sib)
  {
    RedParent(ctx, h);
  }

  /** Case 5: recolouring and one rotation at the grandparent end the fix-up. */
  lemma {:induction false} Case5Rule<N, D>(ctx: Ctx<N, D>, t: Shape<N, D>, h: nat)
    requires RedRed(ctx, t, h) && ColorOf(ctx.up.sib) == Black && ctx.onLeft == ctx.up.onLeft
    ensures var g := Rot(ctx.onLeft, Lift(ctx, t, Black, Red));
            RB(g, h + 1) && ColorOf(g) == Black && Fits(ctx.up.up, h + 1, Black)
  {
    RedParent(ctx, h);
  }

  // ---------- delete ----------

  /** Both contexts have the same contents on the left, on the right, and the same objects. */
  ghost predicate SameAround<N, D>(a: Ctx<N, D>, b: Ctx<N, D>) {
    Before(a) == Before(b) && After(a) == After(b) && CtxIds(a) == CtxIds(b)
  }

  /** The child of the sibling that is closer to the hole. */
  ghost function Near<N, D>(ctx: Ctx<N, D>): Shape<N, D>
    requires ctx.In? && ctx.sib.Nd?
  {
    if ctx.onLeft then ctx.sib.left else ctx.sib.right
  }

  ghost function Far<N, D>(ctx: Ctx<N, D>): Shape<N, D>
    requires ctx.In? && ctx.sib.Nd?
  {
    if ctx.onLeft then ctx.sib.right else ctx.sib.left
  }

  /** Parent painted `c`, sibling painted `k`. */
  ghost function Repaint<N, D>(ctx: Ctx<N, D>, c: Color, k: Color): (r: Ctx<N, D>)
    requires ctx.In? && ctx.sib.Nd?
    ensures r.In? && r.sib.Nd?
  {
    ctx.(color := c, sib := ctx.sib.(color := k))
  }

  /** A child of the sibling painted black; painting NULL black is a no-op (rbtree.c:201-222). */
  ghost function BlackNephew<N, D>(ctx: Ctx<N, D>, left: bool): (r: Ctx<N, D>)
    requires ctx.In? && ctx.sib.Nd?
    ensures r.In? && r.sib.Nd?
  {
    var n := if left then ctx.sib.left else ctx.sib.right;
    var n' := if n.Nd? then n.(color := Black) else n;
    ctx.(sib := if left then ctx.sib.(left := n') else ctx.sib.(right := n'))
  }

  /** The context of the hole after the rotation at its parent that brings the sibling up. */
  ghost function Swung<N, D>(ctx: Ctx<N, D>): Ctx<N, D>
    requires ctx.In? && ctx.sib.Nd?
  {
    In(In(ctx.up, ctx.onLeft, ctx.sib.color, ctx.sib.e, Far(ctx)), ctx.onLeft, ctx.color, ctx.e, Near(ctx))
  }

  lemma {:induction false} SameSib<N, D>(ctx: Ctx<N, D>, s: Shape<N, D>, c: Color)
    requires ctx.In? && Entries(s) == Entries(ctx.sib) && Ids(s) == Ids(ctx.sib)
    ensures SameAround(ctx, ctx.(sib := s, color := c))
  {
  }

  lemma {:induction false} SwungFacts<N, D>(ctx: Ctx<N, D>)
    requires ctx.In? && ctx.sib.Nd?
    ensures SameAround(ctx, Swung(ctx))
  {
    var s := ctx.sib;
    var a, e, b := Entries(s.left), s.e, Entries(s.right);
    var sw := Swung(ctx);
    if ctx.onLeft {
      calc {
        After(sw);
        ([ctx.e] + a) + (([e] + b) + After(ctx.up));
        ([ctx.e] + (a + [e] + b)) + After(ctx.up);
        After(ctx);
      }
    } else {
      calc {
        Before(sw);
        (Before(ctx.up) + (a + [e])) + (b + [ctx.e]);
        Before(ctx.up) + ((a + [e] + b) + [ctx.e]);
        Before(ctx);
      }
    }
    assert CtxIds(sw) == CtxIds(sw.up) + {ctx.e.id} + Ids(Near(ctx));
    assert CtxIds(sw.up) == CtxIds(ctx.up) + {e.id} + Ids(Far(ctx));
    assert Ids(s) == Ids(s.left) + {e.id} + Ids(s.right);
  }

  /** Case 2: a red sibling has a black parent; after the rotation the parent is red and the new sibling is a black
      node. */
  lemma {:induction false} DCase2Rule<N, D>(ctx: Ctx<N, D>, h: nat)
    requires ctx.In? && Fits(ctx, h + 1, Black) && ColorOf(ctx.sib) == Red
    ensures Fits(Swung(Repaint(ctx, Red, Black)), h + 1, Black)
    ensures Near(ctx).Nd? && ColorOf(Near(ctx)) == Black
  {
    assert Fits(In(ctx.up, ctx.onLeft, Black, ctx.sib.e, Far(ctx)), h + 1, Red);
  }

  /** Case 3: with everything black the sibling turns red and the parent takes over the defect. */
  lemma {:induction false} DCase3Rule<N, D>(ctx: Ctx<N, D>, h: nat)
    requires ctx.In? && Fits(ctx, h + 1, Black) && ctx.color == Black
    requires ColorOf(ctx.sib) == Black && ctx.sib.Nd?
    requires ColorOf(ctx.sib.left) == Black && ColorOf(ctx.sib.right) == Black
    ensures Fits(ctx.up, h + 2, Black) && RB(ctx.sib.(color := Red), h)
  {
  }

  /** Case 4: under a red parent, swapping the two colours restores the balance. */
  lemma {:induction false} DCase4Rule<N, D>(ctx: Ctx<N, D>, h: nat)
    requires ctx.In? && Fits(ctx, h + 1, Black) && ctx.color == Red
    requires ColorOf(ctx.sib) == Black && ctx.sib.Nd?
    requires ColorOf(ctx.sib.left) == Black && ColorOf(ctx.sib.right) == Black
    ensures Fits(Repaint(ctx, Black, Red), h, Black)
  {
    assert Fits(ctx.up, h + 1, Red);
    assert Fits(ctx.up, h + 1, Black);
  }

  /** Case 5: a red near nephew becomes the sibling, and the old sibling the red far nephew. */
  lemma {:induction false} DCase5Rule<N, D>(ctx: Ctx<N, D>, h: nat)
    requires ctx.In? && Fits(ctx, h + 1, Black) && ctx.sib.Nd? && ctx.sib.color == Black
    requires ColorOf(Near(ctx)) == Red && ColorOf(Far(ctx)) == Black
    ensures var s := BlackNephew(Repaint(ctx, ctx.color, Red), ctx.onLeft).sib;
            var ctx' := ctx.(sib := Rot(ctx.onLeft, s));
            Fits(ctx', h + 1, Black) && ctx'.sib.color == Black && ColorOf(Far(ctx')) == Red
  {
    assert RB(Near(ctx), h) && RB(Far(ctx), h);
  }

  /** Case 6: a red far nephew pays for the missing black node. */
  lemma {:induction false} DCase6Rule<N, D>(ctx: Ctx<N, D>, h: nat)
    requires ctx.In? && Fits(ctx, h + 1, Black) && ctx.sib.Nd? && ctx.sib.color == Black
    requires ColorOf(Far(ctx)) == Red
    ensures Fits(Swung(BlackNephew(Repaint(ctx, Black, ctx.color), !ctx.onLeft)), h, Black)
  {
    var ctx' := BlackNephew(Repaint(ctx, Black, ctx.color), !ctx.onLeft);
    assert RB(Near(ctx), h) && RB(Far(ctx), h);
    assert RB(Far(ctx'), h + 1) && Near(ctx') == Near(ctx);
    assert Fits(In(ctx.up, ctx.onLeft, ctx.color, ctx.sib.e, Far(ctx')), h + 1, Black);
  }

  /** A context that lacks one black node has a real sibling. */
  lemma {:induction false} SiblingExists<N, D>(ctx: Ctx<N, D>, h: nat)
    requires ctx.In? && Fits(ctx, h + 1, Black)
    ensures ctx.sib.Nd? && RB(ctx.sib, h + 1)
  {
  }
}
