/**
 The abstract values behind a red-black tree of rbtree.c: coloured binary trees
 whose nodes name the heap object they stand for, and one-hole contexts
 (zippers) that let a fix-up step talk about "this node, and everything around it".

 Nothing here mentions the heap.
 */
module Shapes {

  newtype uint32 = x: int | 0 <= x < 0x1_0000_0000

  datatype Color = Red | Black

  /** What one node object carries: its identity, its key and its data. */
  datatype Entry<N, D> = Entry(id: N, key: uint32, data: D)

  datatype Shape<N, D> =
    | Leaf
    | Nd(left: Shape<N, D>, color: Color, e: Entry<N, D>, right: Shape<N, D>)

  /** A tree with one subtree missing, seen from the hole outwards: the parent of the hole, which side of it the hole is
      on, and the subtree on the other side. */
  datatype Ctx<N, D> =
    | Top
    | In(up: Ctx<N, D>, onLeft: bool, color: Color, e: Entry<N, D>, sib: Shape<N, D>)

  ghost function Join<N, D>(onLeft: bool, c: Color, e: Entry<N, D>, t: Shape<N, D>, sib: Shape<N, D>): Shape<N, D> {
    if onLeft then Nd(t, c, e, sib) else Nd(sib, c, e, t)
  }

  ghost function Plug<N, D>(ctx: Ctx<N, D>, t: Shape<N, D>): Shape<N, D> {
    match ctx
    case Top => t
    case In(up, d, c, e, s) => Plug(up, Join(d, c, e, t, s))
  }

  ghost function Depth<N, D>(ctx: Ctx<N, D>): nat {
    if ctx.Top? then 0 else 1 + Depth(ctx.up)
  }

  // ---------- in-order contents ----------

  ghost function Entries<N, D>(t: Shape<N, D>): seq<Entry<N, D>> {
    match t
    case Leaf => []
    case Nd(l, _, e, r) => Entries(l) + [e] + Entries(r)
  }

  /** The entries left of the hole, in order. */
  ghost function Before<N, D>(ctx: Ctx<N, D>): seq<Entry<N, D>> {
    match ctx
    case Top => []
    case In(up, d, _, e, s) => if d then Before(up) else Before(up) + (Entries(s) + [e])
  }

  /** The entries right of the hole, in order. */
  ghost function After<N, D>(ctx: Ctx<N, D>): seq<Entry<N, D>> {
    match ctx
    case Top => []
    case In(up, d, _, e, s) => if d then ([e] + Entries(s)) + After(up) else After(up)
  }

  /** The entries of the whole tree. */
  ghost function All<N, D>(ctx: Ctx<N, D>, t: Shape<N, D>): seq<Entry<N, D>> {
    Before(ctx) + Entries(t) + After(ctx)
  }

  lemma Regroup<T>(a: seq<T>, b: seq<T>, c: seq<T>, d: seq<T>, f: seq<T>)
    ensures a + (b + c + d) + f == a + b + ((c + d) + f)
    ensures a + (b + c + d) + f == (a + (b + c)) + d + f
  {
  }

  /** Moving the focus to the parent keeps the contents. */
  lemma {:induction false} AllUp<N, D>(ctx: Ctx<N, D>, t: Shape<N, D>)
    requires ctx.In?
    ensures All(ctx, t) == All(ctx.up, Join(ctx.onLeft, ctx.color, ctx.e, t, ctx.sib))
  {
    var up, e, s := ctx.up, ctx.e, ctx.sib;
    if ctx.onLeft {
      Regroup(Before(up), Entries(t), [e], Entries(s), After(up));
    } else {
      Regroup(Before(up), Entries(s), [e], Entries(t), After(up));
    }
  }

  lemma {:induction false} PlugEntries<N, D>(ctx: Ctx<N, D>, t: Shape<N, D>)
    ensures Entries(Plug(ctx, t)) == All(ctx, t)
  {
    match ctx
    case Top =>
    case In(up, d, c, e, s) =>
      AllUp(ctx, t);
      PlugEntries(up, Join(d, c, e, t, s));
  }

  // ---------- object identities ----------

  ghost function Ids<N, D>(t: Shape<N, D>): set<N> {
    match t
    case Leaf => {}
    case Nd(l, _, e, r) => Ids(l) + {e.id} + Ids(r)
  }

  ghost function CtxIds<N, D>(ctx: Ctx<N, D>): set<N> {
    match ctx
    case Top => {}
    case In(up, _, _, e, s) => CtxIds(up) + {e.id} + Ids(s)
  }

  /** No object occurs twice. */
  ghost predicate Distinct<N, D>(t: Shape<N, D>) {
    match t
    case Leaf => true
    case Nd(l, _, e, r) =>
      Distinct(l) && Distinct(r) && e.id !in Ids(l) && e.id !in Ids(r) && Ids(l) !! Ids(r)
  }

  ghost predicate CtxDistinct<N, D>(ctx: Ctx<N, D>) {
    match ctx
    case Top => true
    case In(up, _, _, e, s) =>
      CtxDistinct(up) && Distinct(s) && e.id !in CtxIds(up) && e.id !in Ids(s) && Ids(s) !! CtxIds(up)
  }

  lemma {:induction false} PlugIds<N, D>(ctx: Ctx<N, D>, t: Shape<N, D>)
    ensures Ids(Plug(ctx, t)) == CtxIds(ctx) + Ids(t)
  {
    match ctx
    case Top =>
    case In(up, d, c, e, s) => PlugIds(up, Join(d, c, e, t, s));
  }

  // ---------- red-black balance ----------

  /** NULL nodes are black (rbtree.c:173-180). */
  ghost function ColorOf<N, D>(t: Shape<N, D>): Color {
    if t.Leaf? then Black else t.color
  }

  /** `t` has no red-red edge and exactly `h` black nodes on every path down. */
  ghost predicate RB<N, D>(t: Shape<N, D>, h: nat) {
    match t
    case Leaf => h == 0
    case Nd(l, Red, _, r) => ColorOf(l) == Black && ColorOf(r) == Black && RB(l, h) && RB(r, h)
    case Nd(l, Black, _, r) => h > 0 && RB(l, h - 1) && RB(r, h - 1)
  }

  /** The context becomes a red-black tree once a balanced tree of black height `h` and root colour `c` is put in its
      hole. */
  ghost predicate Fits<N, D>(ctx: Ctx<N, D>, h: nat, c: Color) {
    match ctx
    case Top => c == Black
    case In(up, _, Red, _, s) => c == Black && ColorOf(s) == Black && RB(s, h) && Fits(up, h, Red)
    case In(up, _, Black, _, s) => RB(s, h) && Fits(up, h + 1, Black)
  }

  ghost predicate RedBlack<N, D>(t: Shape<N, D>) {
    ColorOf(t) == Black && exists h: nat :: RB(t, h)
  }

  lemma {:induction false} PlugRedBlack<N, D>(ctx: Ctx<N, D>, t: Shape<N, D>, h: nat)
    requires RB(t, h) && Fits(ctx, h, ColorOf(t))
    ensures RedBlack(Plug(ctx, t))
  {
    match ctx
    case Top =>
    case In(up, d, c, e, s) => PlugRedBlack(up, Join(d, c, e, t, s), if c.Black? then h + 1 else h);
  }

  lemma {:induction false} UnplugRedBlack<N, D>(ctx: Ctx<N, D>, t: Shape<N, D>, H: nat) returns (h: nat)
    requires RB(Plug(ctx, t), H) && ColorOf(Plug(ctx, t)) == Black
    ensures RB(t, h) && Fits(ctx, h, ColorOf(t))
  {
    match ctx
    case Top => h := H;
    case In(up, d, c, e, s) =>
      h := UnplugRedBlack(up, Join(d, c, e, t, s), H);
      if c.Black? { h := h - 1; }
  }

  // ---------- rotations, as values ----------

  ghost function RotL<N, D>(t: Shape<N, D>): (r: Shape<N, D>)
    requires t.Nd? && t.right.Nd?
  {
    Nd(Nd(t.left, t.color, t.e, t.right.left), t.right.color, t.right.e, t.right.right)
  }

  ghost function RotR<N, D>(t: Shape<N, D>): (r: Shape<N, D>)
    requires t.Nd? && t.left.Nd?
  {
    Nd(t.left.left, t.left.color, t.left.e, Nd(t.left.right, t.color, t.e, t.right))
  }

  lemma {:induction false} RotLEntries<N, D>(t: Shape<N, D>)
    requires t.Nd? && t.right.Nd?
    ensures Entries(RotL(t)) == Entries(t)
  {
    var a, x, b, y, c := Entries(t.left), t.e, Entries(t.right.left), t.right.e, Entries(t.right.right);
    calc {
      Entries(RotL(t));
      Entries(RotL(t).left) + [y] + c;
      (a + [x] + b) + [y] + c;
      a + [x] + (b + [y] + c);
      Entries(t);
    }
  }

  lemma {:induction false} RotLIds<N, D>(t: Shape<N, D>)
    requires t.Nd? && t.right.Nd?
    ensures Ids(RotL(t)) == Ids(t)
    ensures Distinct(t) <==> Distinct(RotL(t))
  {
    var a, x, b, y, c := Ids(t.left), t.e.id, Ids(t.right.left), t.right.e.id, Ids(t.right.right);
    assert Ids(t.right) == b + {y} + c;
    assert Ids(RotL(t).left) == a + {x} + b;
  }

  /** Rotate so that the child on side `left` comes up. */
  ghost function Rot<N, D>(left: bool, t: Shape<N, D>): (r: Shape<N, D>)
    requires t.Nd? && (if left then t.left.Nd? else t.right.Nd?)
  {
    if left then RotR(t) else RotL(t)
  }

  lemma {:induction false} RotFacts<N, D>(left: bool, t: Shape<N, D>)
    requires t.Nd? && (if left then t.left.Nd? else t.right.Nd?)
    ensures Entries(Rot(left, t)) == Entries(t) && Ids(Rot(left, t)) == Ids(t)
    ensures Distinct(t) <==> Distinct(Rot(left, t))
  {
    if left {
      RotLEntries(RotR(t));
      RotLIds(RotR(t));
    } else {
      RotLEntries(t);
      RotLIds(t);
    }
  }

  // ---------- paths below paths ----------

  /** The context of a position inside a subtree, seen from the whole tree. */
  ghost function Append<N, D>(path: Ctx<N, D>, base: Ctx<N, D>): Ctx<N, D> {
    match path
    case Top => base
    case In(up, d, c, e, s) => In(Append(up, base), d, c, e, s)
  }

  lemma {:induction false} AppendTop<N, D>(path: Ctx<N, D>)
    ensures Append(path, Top) == path
  {
    if path.In? { AppendTop(path.up); }
  }

  lemma {:induction false} AppendFacts<N, D>(path: Ctx<N, D>, base: Ctx<N, D>)
    ensures Before(Append(path, base)) == Before(base) + Before(path)
    ensures After(Append(path, base)) == After(path) + After(base)
    ensures CtxIds(Append(path, base)) == CtxIds(path) + CtxIds(base)
  {
    match path
    case Top =>
    case In(up, d, c, e, s) => AppendFacts(up, base);
  }

  lemma {:induction false} AppendFits<N, D>(path: Ctx<N, D>, base: Ctx<N, D>, t: Shape<N, D>, H: nat) returns (h: nat)
    requires RB(Plug(path, t), H) && Fits(base, H, ColorOf(Plug(path, t)))
    ensures RB(t, h) && Fits(Append(path, base), h, ColorOf(t))
  {
    match path
    case Top => h := H;
    case In(up, d, c, e, s) =>
      h := AppendFits(up, base, Join(d, c, e, t, s), H);
      if c.Black? { h := h - 1; }
  }

  lemma {:induction false} EntryIds<N, D>(t: Shape<N, D>)
    ensures Ids(t) == set e | e in Entries(t) :: e.id
  {
    match t
    case Leaf =>
    case Nd(l, _, e, r) =>
      EntryIds(l);
      EntryIds(r);
      assert forall f :: f in Entries(t) <==> f in Entries(l) || f == e || f in Entries(r);
  }

  lemma {:induction false} EntryIdIn<N, D>(t: Shape<N, D>)
    ensures forall f :: f in Entries(t) ==> f.id in Ids(t)
  {
    if t.Nd? {
      EntryIdIn(t.left);
      EntryIdIn(t.right);
    }
  }

  lemma {:induction false} CtxEntryIds<N, D>(ctx: Ctx<N, D>)
    ensures forall f :: f in Before(ctx) ==> f.id in CtxIds(ctx)
    ensures forall f :: f in After(ctx) ==> f.id in CtxIds(ctx)
  {
    match ctx
    case Top =>
    case In(up, d, _, e, s) =>
      CtxEntryIds(up);
      EntryIdIn(s);
  }

  /** Every object of a tree sits at a position of it. */
  lemma {:induction false} Locate<N, D>(t: Shape<N, D>, n: N) returns (path: Ctx<N, D>, x: Shape<N, D>)
    requires n in Ids(t)
    ensures Plug(path, x) == t && x.Nd? && x.e.id == n
  {
    if n == t.e.id {
      path, x := Top, t;
    } else if n in Ids(t.left) {
      path, x := Locate(t.left, n);
      var base := In(Top, true, t.color, t.e, t.right);
      PlugAppend(path, base, x);
      path := Append(path, base);
    } else {
      path, x := Locate(t.right, n);
      var base := In(Top, false, t.color, t.e, t.left);
      PlugAppend(path, base, x);
      path := Append(path, base);
    }
  }

  lemma {:induction false} PlugAppend<N, D>(path: Ctx<N, D>, base: Ctx<N, D>, t: Shape<N, D>)
    ensures Plug(Append(path, base), t) == Plug(base, Plug(path, t))
  {
    if path.In? { PlugAppend(path.up, base, Join(path.onLeft, path.color, path.e, t, path.sib)); }
  }

  lemma UniqueSplit<T>(p: seq<T>, e: T, s: seq<T>, p': seq<T>, s': seq<T>)
    requires p + [e] + s == p' + [e] + s' && e !in p && e !in p'
    ensures p == p' && s == s'
  {
    var w := p + [e] + s;
    assert w[|p|] == e && w[|p'|] == e;
    assert p == w[..|p|] && s == w[|p| + 1..];
    assert p' == w[..|p'|] && s' == w[|p'| + 1..];
  }

  ghost function LeftPart<N, D>(path: Ctx<N, D>, y: Shape<N, D>): seq<Entry<N, D>>
    requires y.Nd?
  {
    Before(path) + Entries(y.left)
  }

  ghost function RightPart<N, D>(path: Ctx<N, D>, y: Shape<N, D>): seq<Entry<N, D>>
    requires y.Nd?
  {
    Entries(y.right) + After(path)
  }

  lemma AllParts<N, D>(path: Ctx<N, D>, y: Shape<N, D>)
    requires y.Nd?
    ensures All(path, y) == LeftPart(path, y) + [y.e] + RightPart(path, y)
  {
  }

  lemma {:induction false} PartIds<N, D>(path: Ctx<N, D>, y: Shape<N, D>)
    requires y.Nd? && Distinct(y) && Ids(y) !! CtxIds(path)
    ensures forall f :: f in LeftPart(path, y) ==> (f.id in CtxIds(path) || f.id in Ids(y.left)) && f.id != y.e.id
    ensures forall f :: f in RightPart(path, y) ==> (f.id in CtxIds(path) || f.id in Ids(y.right)) && f.id != y.e.id
  {
    CtxEntryIds(path);
    EntryIdIn(y.left);
    EntryIdIn(y.right);
    assert y.e.id in Ids(y) && y.e.id !in CtxIds(path);
  }

  /** In a tree without repeated objects, exchanging the object at one position exchanges exactly that object's place in
      the contents. */
  lemma {:induction false} Exchange<N, D>(path: Ctx<N, D>, y: Shape<N, D>, p: seq<Entry<N, D>>, e: Entry<N, D>,
                                          s: seq<Entry<N, D>>, m: N)
    requires y.Nd? && y.e.id == e.id && Distinct(y) && Ids(y) !! CtxIds(path)
    requires All(path, y) == p + [e] + s && forall f :: f in p ==> f.id != e.id
    ensures y.e == e && All(path, y.(e := e.(id := m))) == p + [e.(id := m)] + s
  {
    AllParts(path, y);
    PartIds(path, y);
    var before, after, all := LeftPart(path, y), RightPart(path, y), All(path, y);
    assert all[|p|] == e;
    assert all[|before|] == y.e;
    UniqueSplit(before, e, after, p, s);
    AllParts(path, y.(e := e.(id := m)));
  }

  /** Taking one entry out of the contents takes exactly its object out of the tree. */
  lemma {:induction false} IdsWithout<N, D>(path: Ctx<N, D>, y: Shape<N, D>, w: Shape<N, D>)
    requires y.Nd? && Distinct(y) && Ids(y) !! CtxIds(path)
    requires Entries(w) == LeftPart(path, y) + RightPart(path, y)
    ensures Ids(w) == Ids(Plug(path, y)) - {y.e.id}
  {
    var s, l, r := Plug(path, y), LeftPart(path, y), RightPart(path, y);
    PlugEntries(path, y);
    AllParts(path, y);
    PartIds(path, y);
    EntryIds(w);
    EntryIds(s);
    assert forall f :: f in Entries(s) <==> f in l || f == y.e || f in r;
    assert forall f :: f in Entries(w) <==> f in l || f in r;
  }
}
