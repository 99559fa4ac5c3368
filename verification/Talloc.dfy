/**
 The allocator of talloc.c on whole heaps: parents, allocation, stealing, totals. The forest that the
 heap holds is a ghost parameter; each operation says what it becomes.
 */
module Talloc {
  import opened Forests
  import opened Transfers
  import opened Chunks

  const MAX_TALLOC_SIZE := 0x7FFF_FFFF

  ghost function Opt(c: Chunk?): Option<Chunk> {
    if c == null then None else (var d: Chunk := c; Some(d))
  }

  ghost predicate Has(w: Grove, c: Chunk) {
    c in Ids(w) && Find(w, c).info.tie.Tied?
  }

  /** Every chunk of the heap sits at a place. */
  lemma Focus(w: Grove, c: Chunk) returns (p: Spot, g: Grove)
    requires Zip(Top, w) && c in Ids(w)
    ensures Zip(p, g) && Plug(p, g) == w && g.Cons? && g.c == c && Ids(w) == PlaceIds(p) + Ids(g)
    ensures Find(w, c) == g && Cut(w, c) == Plug(p, g.next) && ParentOf(w, c) == PlaceParent(p)
  {
    p, g := Locate(w, c);
    ZipAppend(p, Top, g);
    AppendTop(p);
    AtPlace(p, g);
    PlugIds(p, g);
  }

  lemma {:induction false} ModeParent(p: Spot)
    ensures Par(ModeOf(p)) == Ref(PlaceParent(p))
  {
    if p.InNext? { ModeParent(p.up); }
  }

  /** The fields of a chunk in the heap are those in the forest. */
  lemma FieldsAt(w: Grove, c: Chunk)
    requires Zip(Top, w) && c in Ids(w)
    ensures Carries(c, Find(w, c).info)
  {
    var p, f := Focus(w, c);
  }

  // ---------- parents (talloc.c:182-194, 395-414) ----------

  /** The walk from `c` ends at `par`: its parent, or what it keeps of its parent after it has left. */
  ghost predicate Under(w: Grove, c: Chunk, par: Option<Chunk>) {
    c in Ids(w) &&
    match Find(w, c).info.tie
    case Tied => ParentOf(w, c) == par
    case Loose(None, parent) => parent == par
    case Loose(Some(s), _) => Has(w, s) && ParentOf(w, s) == par
  }

  /** A chunk with a predecessor is behind it in the list. */
  lemma Back(p: Spot, f: Grove)
    requires f.Cons? && Zip(p, f) && f.info.tie.Tied? && f.c.prev != null
    ensures p.InNext? && p.c == f.c.prev && p.info.tie.Tied? && PlaceParent(p.up) == PlaceParent(p)
    ensures Zip(p.up, Fill(p, f))
  {
    ZipUp(p, f);
  }

  /** A chunk without a predecessor stores its parent. */
  lemma FirstStores(p: Spot, f: Grove)
    requires f.Cons? && Zip(p, f) && f.info.tie.Tied? && f.c.prev == null
    ensures f.c.parent == Ref(PlaceParent(p))
  {
    ModeParent(p);
  }

  /** Walking `prev` and reading the parent stored in the first sibling finds the real parent. */
  method ParentChunk(c: Chunk, ghost w: Grove, ghost par: Option<Chunk>) returns (r: Chunk?)
    requires Zip(Top, w) && Under(w, c, par)
    ensures r == Ref(par) && Zip(Top, w)
  {
    var tc := c;
    ghost var p, f := Focus(w, c);
    while tc.prev != null
      invariant Zip(Top, w) && f.Cons? && f.c == tc && Zip(p, f) && Plug(p, f) == w
      invariant f.info.tie.Tied? ==> PlaceParent(p) == par
      invariant f.info.tie.Loose? ==> tc == c && f == Find(w, c)
      decreases f.info.tie.Loose?, p
    {
      assert f.info.tie.Loose? ==> tc.prev == Ref(f.info.tie.prev);
      tc := tc.prev;
      if f.info.tie.Loose? {
        p, f := Focus(w, tc);
      } else {
        Back(p, f);
        p, f := p.up, Fill(p, f);
      }
    }
    r := tc.parent;
    if f.info.tie.Tied? { FirstStores(p, f); }
  }

  /** `path` leads from its first chunk upwards to `ptr`, or to the top. */
  ghost predicate Trail(w: Grove, path: seq<Chunk>, ptr: Chunk) {
    forall j :: 0 <= j < |path| && path[j] != ptr ==> Under(w, path[j], At(path, j + 1))
  }

  /** Is `ptr` the context, or on the way up from it? */
  method IsParent(ctx: Chunk?, ptr: Chunk, ghost w: Grove, ghost path: seq<Chunk>) returns (r: bool)
    requires Zip(Top, w) && Trail(w, path, ptr) && Opt(ctx) == At(path, 0)
    ensures r == (ptr in path) && Zip(Top, w)
  {
    if ctx == null {
      return false;
    }
    assert allocated(Ids(w));
    hide Zip, Under;
    var tc: Chunk? := ctx;
    ghost var n := 0;
    while tc != null
      invariant Zip(Top, w) && 0 <= n <= |path| && Opt(tc) == At(path, n) && ptr !in path[..n]
      decreases |path| - n
    {
      if tc == ptr {
        return true;
      }
      tc := ParentChunk(tc, w, At(path, n + 1));
      assert path[..n + 1] == path[..n] + [path[n]];
      n := n + 1;
    }
    assert path[..n] == path;
    r := false;
  }

  /** The stored predecessor is the real one. */
  lemma StoredPrev(w: Grove, c: Chunk)
    requires Zip(Top, w) && Has(w, c)
    ensures Opt(c.prev) == PrevOf(w, c)
  {
    var p, f := Focus(w, c);
    ModeParent(p);
    PrevInside(p, f, c);
  }

  // ---------- allocation (talloc.c:229-261, 266-286) ----------

  /** A new chunk is the first child of its context. */
  method Alloc(ctx: Chunk?, size: nat, ghost w: Grove) returns (c: Chunk?)
    requires Zip(Top, w) && (ctx != null ==> ctx in Ids(w))
    modifies Ids(w)
    ensures size >= 0x7FFF_FFFF <==> c == null
    ensures c == null ==> Zip(Top, w)
    ensures c != null ==> fresh(c) && Zip(Top, Hang(w, Opt(ctx), c, Info(size, NoDestructor, false, Tied), Nil))
  {
    if size >= MAX_TALLOC_SIZE {
      return null;
    }
    assert allocated(Ids(w));
    var tc := new Chunk(size);
    c := tc;
    Settle(ctx, tc, w, Info(size, NoDestructor, false, Tied), Nil);
  }

  /** A chunk without a place goes below `ctx`, or to the top level. */
  method Settle(ctx: Chunk?, c: Chunk, ghost w: Grove, ghost i: Info<Chunk>, ghost k: Grove)
    requires Zip(Top, w) && (ctx != null ==> ctx in Ids(w))
    requires Adrift(c, i, k) && i.tie.Tied? && c !in Ids(w) && Ids(k) !! Ids(w)
    modifies c, Ids(w)
    ensures Zip(Top, Hang(w, Opt(ctx), c, i, k))
  {
    if ctx != null {
      SettleBelow(ctx, c, w, i, k);
    } else {
      Uproot(c, w, i, k);
    }
  }

  method SettleBelow(ctx: Chunk, c: Chunk, ghost w: Grove, ghost i: Info<Chunk>, ghost k: Grove)
    requires Zip(Top, w) && ctx in Ids(w)
    requires Adrift(c, i, k) && i.tie.Tied? && c !in Ids(w) && Ids(k) !! Ids(w)
    modifies c, Ids(w)
    ensures Zip(Top, Graft(w, ctx, c, i, k))
  {
    ghost var p, f := Focus(w, ctx);
    GraftInside(p, f, ctx, c, i, k);
    Adopt(ctx, c, p, f, i, k);
    ZipPlug(p, f.(kids := Cons(c, i, k, f.kids)));
  }

  // ---------- stealing (talloc.c:421-471) ----------

  /** A first child stays where it is when its parent steals it. */
  lemma FrontStays(p: Spot, f: Grove)
    requires f.Cons? && p.InKids? && PlaceDistinct(p) && Distinct(f) && Ids(f) !! PlaceIds(p)
    ensures f.c in Ids(Plug(p, f)) && Moved(Plug(p, f), f.c, Some(p.c)) == Plug(p, f)
  {
    AtPlace(p, f);
    AtPlace(p.up, Fill(p, f.next));
  }

  lemma StoresParent(p: Spot, f: Grove)
    requires f.Cons? && Zip(p, f) && f.info.tie.Tied? && f.c.parent != null
    ensures p.InKids? && p.c == f.c.parent
  {
  }

  /** `x` leaves its list and the heap holds the rest. */
  method TakeOut(x: Chunk, ghost w: Grove)
    requires Zip(Top, w) && Has(w, x)
    modifies Ids(w)
    ensures Zip(Top, Cut(w, x)) && Adrift(x, Find(w, x).info, Find(w, x).kids)
    ensures x.prev == old(x.prev) && x.parent == old(x.parent)
  {
    ghost var p, f := Focus(w, x);
    Unlink(x, p, f);
    ZipPlug(p, f.next);
  }

  method Steal(newCtx: Chunk?, x: Chunk?, ghost w: Grove) returns (r: Chunk?)
    requires Zip(Top, w) && (x != null ==> Has(w, x))
    requires x != null && newCtx != null && newCtx != x ==> CanMove(w, x, Some(newCtx))
    modifies Ids(w)
    ensures r == x
    ensures Zip(Top, if x == null || newCtx == x then w else Moved(w, x, Opt(newCtx)))
  {
    r := x;
    if x == null {
      return;
    }
    if newCtx != null {
      if x == newCtx {
        return;
      }
      if x.parent == newCtx {
        ghost var p, f := Focus(w, x);
        StoresParent(p, f);
        FrontStays(p, f);
        return;
      }
    }
    TreeFacts(w, x);
    CutFacts(w, x);
    TakeOut(x, w);
    Settle(newCtx, x, Cut(w, x), Find(w, x).info, Find(w, x).kids);
  }

  // ---------- stealing into the own tree ----------

  /** The first child of a chunk is in the same tree. */
  lemma {:induction false} ChildInside(f: Grove, m: Mode, q: Chunk)
    requires Rep(f, m) && q in Ids(f)
    ensures q.child != null ==> q.child in Ids(f)
  {
    if f.c != q {
      if q in Ids(f.kids) { ChildInside(f.kids, Sib(null, f.c), q); } else { ChildInside(f.next, After(m, f.c), q); }
    }
  }

  /** The same statements as `Steal`, with a new parent below `x`: the heap is left with the rest of the forest and, cut
      off from it, a cycle through `x` and its new parent. */
  method StealInside(newCtx: Chunk, x: Chunk, ghost w: Grove)
    requires Zip(Top, w) && Has(w, x) && newCtx in Ids(Find(w, x).kids)
    modifies Ids(w)
    ensures Zip(Top, Cut(w, x)) && Ids(Cut(w, x)) == Ids(w) - TreeIds(w, x) && x.parent == newCtx && newCtx.child == x
  {
    TreeFacts(w, x);
    CutFacts(w, x);
    ghost var v, k := Cut(w, x), Find(w, x).kids;
    assert allocated(Ids(w));
    TakeOut(x, w);
    ChildInside(k, Sib(null, x), newCtx);
    Enclose(newCtx, x, v, k);
  }

  method Enclose(newCtx: Chunk, x: Chunk, ghost v: Grove, ghost k: Grove)
    requires Zip(Top, v) && newCtx in Ids(k) && x !in Ids(k) && x !in Ids(v) && Ids(k) !! Ids(v)
    requires newCtx.child != null ==> newCtx.child in Ids(k)
    modifies x, Ids(k)
    ensures Zip(Top, v) && x.parent == newCtx && newCtx.child == x
  {
    x.parent := newCtx;
    var hd := newCtx.child;
    if hd != null {
      hd.parent := null;
      hd.prev := x;
    }
    x.next, x.prev := hd, null;
    newCtx.child := x;
  }
}
