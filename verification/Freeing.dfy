/**
 `_talloc_free` (talloc.c:476-581) in the heap. Chunks below the freed one may be handles of references to chunks
 anywhere, and chunks anywhere may be handles of references to chunks below it.
 */
module Freeing {
  import opened Forests
  import opened Transfers
  import opened Releases
  import opened RefMaps
  import opened Ownership
  import opened Drains
  import opened Stacks
  import opened DrainFacts
  import opened Ascents
  import opened Chunks
  import T = Talloc

  /** Where the chunks keep their lists of reference handles. */
  class RefLists {
    var of: RefMap<Chunk>

    constructor ()
      ensures of == map[]
    {
      of := map[];
    }
  }

  // ---------- the destructor (talloc.c:323-328, 509-520) ----------

  /** The lists after the destructor of `c` has run. */
  ghost function Told(t: RefMap<Chunk>, d: Destructor<Chunk>, c: Chunk): RefMap<Chunk> {
    if d.Handle? then Unlisted(t, d.target, c) else t
  }

  /** The destructor of a reference handle takes the handle out of its target's list. */
  method RunDestructor(d: Destructor<Chunk>, c: Chunk, refs: RefLists) returns (ok: bool)
    modifies refs
    ensures ok == !d.Refuses? && refs.of == Told(old(refs.of), d, c)
  {
    ok := !d.Refuses?;
    if d.Handle? {
      refs.of := Unlisted(refs.of, d.target, c);
    }
  }

  method AskDestructor(c: Chunk, refs: RefLists) returns (ok: bool)
    modifies c`destructor, refs
    ensures ok == !(old(c.destructor).Refuses? || old(c.destructor).Running?)
    ensures c.destructor == if ok then NoDestructor else old(c.destructor)
    ensures refs.of == Told(old(refs.of), old(c.destructor), c)
  {
    ok := true;
    if c.destructor != NoDestructor {
      var d := c.destructor;
      if d == Running {
        return false;
      }
      c.destructor := Running;
      ok := RunDestructor(d, c, refs);
      c.destructor := if ok then NoDestructor else d;
    }
  }

  ghost function Quiet(f: Grove): Grove
    requires f.Cons?
  {
    Cons(f.c, f.info.(des := NoDestructor), f.kids, f.next)
  }

  method Ask(c: Chunk, refs: RefLists, ghost p: Spot, ghost f: Grove) returns (ok: bool)
    requires f.Cons? && f.c == c && Zip(p, f)
    modifies c, refs
    ensures ok == !Refusing(f.info) && Zip(p, if ok then Quiet(f) else f)
    ensures refs.of == Told(old(refs.of), f.info.des, c)
  {
    assert allocated(PlaceIds(p)) && allocated(Ids(f.kids)) && allocated(Ids(f.next));
    hide Told;
    ok := AskDestructor(c, refs);
    ZipCons(p, c, if ok then f.info.(des := NoDestructor) else f.info, f.kids, f.next);
  }

  /** `v` differs from `w` in the destructor of `c` at most. */
  ghost predicate AtEase(w: Grove, v: Grove, c: Chunk) {
    && c in Ids(w) && c in Ids(v) && Ids(v) == Ids(w) && Cut(v, c) == Cut(w, c) && Find(v, c).kids == Find(w, c).kids
    && ParentOf(v, c) == ParentOf(w, c) && PrevOf(v, c) == PrevOf(w, c) && Find(v, c).info.tie == Find(w, c).info.tie
    && Find(v, c).info.size == Find(w, c).info.size
  }

  lemma QuietFacts(p: Spot, f: Grove)
    requires f.Cons? && PlaceDistinct(p) && Distinct(f) && Ids(f) !! PlaceIds(p)
    ensures AtEase(Plug(p, f), Plug(p, Quiet(f)), f.c)
  {
    PlugIds(p, f);
    PlugIds(p, Quiet(f));
    AtPlace(p, f);
    AtPlace(p, Quiet(f));
    PrevInside(p, f, f.c);
    PrevInside(p, Quiet(f), f.c);
  }

  method AskAt(c: Chunk, refs: RefLists, ghost w: Grove) returns (ok: bool, ghost w': Grove)
    requires Zip(Top, w) && c in Ids(w)
    modifies refs, Ids(w)
    ensures ok == !Refusing(Find(w, c).info) && Zip(Top, w') && (!ok ==> w' == w) && AtEase(w, w', c)
    ensures ok ==> Find(w', c).info.des == NoDestructor
    ensures refs.of == Told(old(refs.of), Find(w, c).info.des, c)
  {
    ghost var p, f := T.Focus(w, c);
    ok := Ask(c, refs, p, f);
    ZipPlug(p, if ok then Quiet(f) else f);
    QuietFacts(p, f);
    AtPlace(p, Quiet(f));
    w' := Plug(p, if ok then Quiet(f) else f);
  }

  // ---------- leaving the list (talloc.c:525-535) ----------

  /** A chunk that left its list is marked with the loop flag and waits at the top level. */
  method MarkGoing(c: Chunk, ghost tie: Tie<Chunk>, ghost i: Info<Chunk>, ghost k: Grove, ghost rest: Grove)
    requires Zip(Top, rest) && Adrift(c, i, k) && c !in Ids(rest) && Ids(k) !! Ids(rest)
    requires tie == Loose(T.Opt(c.prev), T.Opt(c.parent))
    modifies c
    ensures Zip(Top, Cons(c, Info(i.size, i.des, true, tie), k, rest))
  {
    c.loop := true;
  }

  lemma OldLinks(w: Grove, c: Chunk)
    requires Zip(Top, w) && T.Has(w, c)
    ensures Loose(T.Opt(c.prev), T.Opt(c.parent)) == Leaving(w, c).tie
  {
    T.StoredPrev(w, c);
    var p, f := T.Focus(w, c);
    if c.prev == null { T.FirstStores(p, f); }
  }

  method Withdraw(c: Chunk, ghost w: Grove)
    requires Zip(Top, w) && T.Has(w, c) && Find(w, c).info.des == NoDestructor
    modifies Ids(w)
    ensures Zip(Top, Left(w, c))
  {
    OldLinks(w, c);
    TreeFacts(w, c);
    CutFacts(w, c);
    ghost var i, tie := Find(w, c).info, Leaving(w, c).tie;
    T.TakeOut(c, w);
    MarkGoing(c, tie, i, Find(w, c).kids, Cut(w, c));
  }

  // ---------- freeing ----------

  /** The chunk `c` can be freed in this state: nothing is being freed, or `c` is the next child of the innermost chunk
      that is, or it is a handle, or one of the chunks that are being freed. */
  ghost predicate Takes(w: Grove, t: RefMap<Chunk>, st: seq<Chunk>, z: Zone<Chunk>, c: Chunk) {
    && Fit(w, t, st, z) && c in Ids(w)
    && (st == [] || c in st || (w.kids.Cons? && c == w.kids.c) || (Find(w, c).kids.Nil? && RefsOf(t, c) == []))
  }

  ghost predicate Ends<N>(r: Result<N>) {
    r.Freed? || r.Kept?
  }

  lemma ToldGone(w: Grove, t: RefMap<Chunk>, c: Chunk)
    requires Named(w, t) && c in Ids(w)
    ensures Told(t, Find(w, c).info.des, c) - {c} == Purged(t, {c})
  {
    var d := Find(w, c).info.des;
    forall x | x in t && c in t[x] ensures d == Handle(x) { assert c in RefsOf(t, x) && Proper(w, t, x, c); }
    if d.Handle? { PurgedOne(t, d.target, c); } else { PurgedKey(t, c); }
  }

  /** Nobody refers to `c` and its destructor agrees: the loop over its children. */
  lemma TryWilling(w: Grove, t: RefMap<Chunk>, st: seq<Chunk>, z: Zone<Chunk>, c: Chunk)
    requires Takes(w, t, st, z, c) && c !in st && RefsOf(t, c) == [] && !Refusing(Find(w, c).info)
    ensures TryFree(w, t, c) == Drain(c, Leaving(w, c), Find(w, c).kids, Cut(w, c), Purged(t, {c}))
    ensures Find(w, c).kids.Cons? ==> Fit(Left(w, c), Purged(t, {c}), [c] + st, if st == [] then ZoneOf(w, c) else z)
    ensures Count(Left(w, c)) == Count(w)
  {
    LeftFacts(w, c);
    if st == [] {
      assert [c] + [] == [c];
      FitFirst(w, t, c);
    } else if w.kids.Cons? && c == w.kids.c {
      FitLeft(w, t, st, z);
    }
  }

  /** Somebody refers to `c`: its newest handle goes. */
  lemma TryReferenced(w: Grove, t: RefMap<Chunk>, st: seq<Chunk>, z: Zone<Chunk>, c: Chunk)
    requires Takes(w, t, st, z, c) && RefsOf(t, c) != [] && Ends(TryFree(w, t, c))
    ensures var h, s := RefsOf(t, c)[0], Purged(t, {RefsOf(t, c)[0]});
            && h in Ids(w) && c !in st && (Strays(w, c, h) ==> Sighted(w)) && Takes(w, t, st, z, h) && h !in st
            && Find(w, h).kids.Nil? && RefsOf(t, h) == [] && Ids(Cut(w, h)) <= Ids(w)
            && TryFree(w, t, h) == Freed(Cut(w, h), s, {h}) && Takes(Cut(w, h), s, st, z, c)
            && Count(Cut(w, h)) < Count(w)
            && TryFree(w, t, c) ==
               if h in TreeIds(w, c) then Also(TryFree(Cut(w, h), s, c), {h}) else Kept(Cut(w, h), s, {h})
  {
    var h := RefsOf(t, c)[0];
    FitShed(w, t, st, z, c, h);
    TryHandle(w, t, st, z, c, h);
    assert Proper(w, t, c, h);
    if st != [] { FirstStays(w, t, st, z, h); }
  }

  /** The heap and the lists are as a call that ended in `r` leaves them. */
  ghost predicate Leaves(r: Result<Chunk>, refs: RefLists)
    requires Ends(r)
    reads refs, Ids(r.w)
  {
    Zip(Top, r.w) && refs.of == r.t
  }

  ghost function Code(r: Result<Chunk>): int {
    if r.Freed? then 0 else -1
  }

  /** A chunk that was freed has left the forest, and one that was not is still in it. */
  lemma GoneIff(w: Grove, t: RefMap<Chunk>, st: seq<Chunk>, z: Zone<Chunk>, c: Chunk)
    requires Takes(w, t, st, z, c) && c !in st && Ends(TryFree(w, t, c))
    ensures var r := TryFree(w, t, c); r.Freed? <==> c !in Ids(r.w)
  {
    if st == [] {
      AnyZone(w, t, z);
      TryFirst(w, t, c);
    } else if w.kids.Cons? && c == w.kids.c {
      TryFacts(w, t, st, z);
    } else {
      CutFacts(w, c);
    }
  }

  lemma AnyZone(w: Grove, t: RefMap<Chunk>, z: Zone<Chunk>)
    requires Fit(w, t, [], z)
    ensures AtRest(w, t)
  {
  }

  lemma HomeOut(w: Grove, t: RefMap<Chunk>, st: seq<Chunk>, z: Zone<Chunk>, c: Chunk)
    requires Takes(w, t, st, z, c) && RefsOf(t, c) != [] && c !in st
    ensures st != [] && z.home.Some? ==> z.home.value !in TreeIds(w, c)
  {
    if st != [] {
      assert w.c == st[0] && w.c in st;
      assert Find(w, c) == w.kids;
    }
  }

  lemma HandlePath(w: Grove, t: RefMap<Chunk>, st: seq<Chunk>, z: Zone<Chunk>, c: Chunk) returns (path: seq<Chunk>)
    requires Takes(w, t, st, z, c) && RefsOf(t, c) != [] && c !in st && RefsOf(t, c)[0] in Ids(w)
    requires Strays(w, c, RefsOf(t, c)[0]) ==> Sighted(w)
    ensures path != [] && path[0] == RefsOf(t, c)[0] && T.Trail(w, path, c)
    ensures c in path <==> RefsOf(t, c)[0] in TreeIds(w, c)
  {
    HomeOut(w, t, st, z, c);
    path := WayTo(w, t, st, z, RefsOf(t, c)[0], c);
  }

  /** Free `c`: afterwards the forest and the lists are as `TryFree` says. A chunk that is already being freed stays. */
  method FreeChunk(c: Chunk, refs: RefLists, ghost w: Grove, ghost st: seq<Chunk>, ghost z: Zone<Chunk>)
    returns (r: int)
    requires Zip(Top, w) && Takes(w, refs.of, st, z, c)
    requires c !in st ==> Ends(TryFree(w, refs.of, c))
    modifies refs, Ids(w)
    ensures c in st ==> r == 0 && Zip(Top, w) && refs.of == old(refs.of)
    ensures c !in st ==> var y := TryFree(w, old(refs.of), c); r == Code(y) && Leaves(y, refs)
    ensures c !in st ==>
              var v := TryFree(w, old(refs.of), c).w; (r == 0 <==> c !in Ids(v)) && (r == -1 <==> c in Ids(v))
    decreases Count(w), Count(Find(w, c).kids), |RefsOf(refs.of, c)|, 5
  {
    if c !in st { GoneIff(w, refs.of, st, z, c); }
    if c in refs.of && refs.of[c] != [] {
      TryReferenced(w, refs.of, st, z, c);
      r := FreeReferenced(c, refs, w, st, z);
    } else {
      r := FreeUnreferenced(c, refs, w, st, z);
    }
  }

  /** The newest handle goes instead (talloc.c:487-502); if it was below `c`, freeing starts again. */
  method FreeReferenced(c: Chunk, refs: RefLists, ghost w: Grove, ghost st: seq<Chunk>, ghost z: Zone<Chunk>)
    returns (r: int)
    requires Zip(Top, w) && Takes(w, refs.of, st, z, c) && RefsOf(refs.of, c) != [] && c !in st
    requires Ends(TryFree(w, refs.of, c))
    modifies refs, Ids(w)
    ensures var y := TryFree(w, old(refs.of), c); r == Code(y) && Leaves(y, refs)
    ensures var v := TryFree(w, old(refs.of), c).w; (r == 0 <==> c !in Ids(v)) && (r == -1 <==> c in Ids(v))
    decreases Count(w), Count(Find(w, c).kids), |RefsOf(refs.of, c)|, 4
  {
    GoneIff(w, refs.of, st, z, c);
    var h := refs.of[c][0];
    TryReferenced(w, refs.of, st, z, c);
    ghost var path := HandlePath(w, refs.of, st, z, c);
    assert allocated(Ids(w));
    hide Zip, Takes, TryFree, Fit, T.Trail, Strays, Sighted;
    var isChild := T.IsParent(h, c, w, path);
    var _ := FreeChunk(h, refs, w, st, z);
    if isChild {
      r := FreeChunk(c, refs, Cut(w, h), st, z);
    } else {
      r := -1;
    }
  }

  /** Nobody refers to `c` (talloc.c:504-580). */
  method FreeUnreferenced(c: Chunk, refs: RefLists, ghost w: Grove, ghost st: seq<Chunk>, ghost z: Zone<Chunk>)
    returns (r: int)
    requires Zip(Top, w) && Takes(w, refs.of, st, z, c) && RefsOf(refs.of, c) == []
    requires c !in st ==> Ends(TryFree(w, refs.of, c))
    modifies refs, Ids(w)
    ensures c in st ==> r == 0 && Zip(Top, w) && refs.of == old(refs.of)
    ensures c !in st ==> var y := TryFree(w, old(refs.of), c); r == Code(y) && Leaves(y, refs)
    decreases Count(w), Count(Find(w, c).kids), 0, 4
  {
    StackTied(w, st, z, c);
    assert c.loop == (c in st) by { var p, g := T.Focus(w, c); }
    if c.loop {
      return 0;
    }
    ghost var w';
    var ok;
    ghost var t := refs.of;
    ok, w' := AskAt(c, refs, w);
    if !ok {
      return -1;
    }
    TryWilling(w, t, st, z, c);
    ToldGone(w, t, c);
    CountCut(w', c);
    assert Left(w', c) == Left(w, c);
    DrainEnds(c, Leaving(w, c), Find(w, c).kids, Cut(w, c), Purged(t, {c}));
    hide Zip, Fit, Takes, TryFree, Drain;
    FreeWilling(c, refs, w', [c] + st, if st == [] then ZoneOf(w, c) else z);
    r := 0;
  }

  /** What remains to be done when the destructor has agreed. The list of `c`, which is empty, goes with it. */
  method FreeWilling(c: Chunk, refs: RefLists, ghost w: Grove, ghost st: seq<Chunk>, ghost z: Zone<Chunk>)
    requires Zip(Top, w) && T.Has(w, c) && Find(w, c).info.des == NoDestructor
    requires Find(w, c).kids.Cons? ==> st != [] && Fit(Left(w, c), refs.of - {c}, st, z)
    requires Drain(c, Leaving(w, c), Find(w, c).kids, Cut(w, c), refs.of - {c}).Freed? && Count(Left(w, c)) == Count(w)
    modifies refs, Ids(w)
    ensures Leaves(Drain(c, Leaving(w, c), Find(w, c).kids, Cut(w, c), old(refs.of) - {c}), refs)
    decreases Count(w), Count(Find(w, c).kids), 0, 3
  {
    TreeFacts(w, c);
    CutFacts(w, c);
    Withdraw(c, w);
    refs.of := refs.of - {c};
    FreeKids(c, refs, Left(w, c), st, z);
  }

  ghost function DrainOf(w: Grove, t: RefMap<Chunk>): Result<Chunk>
    requires w.Cons?
  {
    Drain(w.c, w.info, w.kids, w.next, t)
  }

  ghost function TurnOf(w: Grove, t: RefMap<Chunk>): Result<Chunk>
    requires w.Cons? && w.kids.Cons?
  {
    Turn(w.c, w.info, w.kids, w.next, t)
  }

  /** The loop over the children of a chunk that is being freed; in the end the chunk itself is gone. */
  method FreeKids(c: Chunk, refs: RefLists, ghost w: Grove, ghost st: seq<Chunk>, ghost z: Zone<Chunk>)
    requires Zip(Top, w) && w.Cons? && w.c == c
    requires w.kids.Cons? ==> st != [] && Fit(w, refs.of, st, z)
    requires DrainOf(w, refs.of).Freed?
    modifies refs, Ids(w)
    ensures Leaves(DrainOf(w, old(refs.of)), refs)
    decreases Count(w), Count(w.kids), 0, 2
  {
    ghost var v := w;
    while c.child != null
      invariant Zip(Top, v) && v.Cons? && v.c == c && Ids(v) <= Ids(w)
      invariant v.kids.Cons? ==> st != [] && Fit(v, refs.of, st, z)
      invariant Count(v) < Count(w) || (Count(v) == Count(w) && Count(v.kids) <= Count(w.kids))
      invariant var a, b := DrainOf(v, refs.of), DrainOf(w, old(refs.of)); a.Freed? && a.w == b.w && a.t == b.t
      decreases Count(v), Count(v.kids)
    {
      DrainStep(v, refs.of, st, z);
      v := FreeChild(c, refs, v, st, z);
    }
  }

  lemma DrainStep(w: Grove, t: RefMap<Chunk>, st: seq<Chunk>, z: Zone<Chunk>)
    requires Fit(w, t, st, z) && st != [] && w.kids.Cons? && DrainOf(w, t).Freed?
    ensures var r := TurnOf(w, t);
            && r.Freed? && r.w.Cons? && r.w.c == w.c && Ids(r.w) <= Ids(w) && Fit(r.w, r.t, st, z)
            && (Count(r.w) < Count(w) || (Count(r.w) == Count(w) && Count(r.w.kids) < Count(w.kids)))
            && DrainOf(r.w, r.t).Freed? && DrainOf(r.w, r.t).w == DrainOf(w, t).w
            && DrainOf(r.w, r.t).t == DrainOf(w, t).t
  {
    TurnKeeps(w, t, st, z);
    hide Fit, Turn;
  }

  // ---------- one round of the loop (talloc.c:537-571) ----------

  /** A chunk that is being freed finds its former parent through its old links. */
  lemma OwnKnown(w: Grove, t: RefMap<Chunk>, st: seq<Chunk>, z: Zone<Chunk>)
    requires Fit(w, t, st, z) && st != [] && SeesOwn(w, w.info)
    ensures T.Under(w, w.c, Former(w, w.info))
  {
    StackTies(w, st, z, 0);
    if |st| == 1 && z.old'.Some? {
      var s := z.old'.value;
      OuterParent(w, st, z, s);
      assert s in TreeIds(w, s);
      StackTied(w, st, z, s);
    }
  }

  lemma HolderKnown(w: Grove, t: RefMap<Chunk>, st: seq<Chunk>, z: Zone<Chunk>, y: Chunk)
    requires Fit(w, t, st, z) && RefsOf(t, y) != []
    ensures T.Under(w, RefsOf(t, y)[0], Holder(w, t, y))
  {
    var h := RefsOf(t, y)[0];
    FitShed(w, t, st, z, y, h);
    StackTied(w, st, z, h);
  }

  /** The chunk can be hung below `o` by what the loop does. */
  ghost predicate Adoptable(v: Grove, c: Chunk, y: Chunk, o: Option<Chunk>) {
    && v.Cons? && v.c == c && v.kids.Cons? && v.kids.c == y && v.kids.info.tie.Tied?
    && (o.Some? ==> o.value in Ids(v) && o.value !in Ids(v.kids.kids))
  }

  lemma ChildKept(w: Grove, t: RefMap<Chunk>, st: seq<Chunk>, z: Zone<Chunk>)
    requires Fit(w, t, st, z) && st != [] && w.kids.Cons? && TurnOf(w, t).Freed? && TryFree(w, t, w.kids.c).Kept?
    ensures var y, o, r := w.kids.c, NewParent(w, t, w.info, w.kids.c), TryFree(w, t, w.kids.c);
            && Adoptable(r.w, w.c, y, o) && TurnOf(w, t).w == Settled(r.w, y, o) && TurnOf(w, t).t == r.t
            && Ids(r.w) <= Ids(w) && (Holder(w, t, y).None? ==> AsksParent(w, t, w.kids))
  {
    var y, r := w.kids.c, TryFree(w, t, w.kids.c);
    TryFacts(w, t, st, z);
    KeptWhy(w, t, y);
    NewParentOk(w, t, st, z);
    FirstGone(r.w, st, z);
  }

  lemma ChildFacts(w: Grove, t: RefMap<Chunk>, st: seq<Chunk>, z: Zone<Chunk>)
    requires Fit(w, t, st, z) && st != [] && w.kids.Cons? && (AsksParent(w, t, w.kids) ==> SeesOwn(w, w.info))
    ensures var y := w.kids.c;
            && Takes(w, t, st, z, y) && y !in st
            && (AsksParent(w, t, w.kids) ==> T.Under(w, w.c, Former(w, w.info)))
            && (RefsOf(t, y) != [] ==> T.Under(w, RefsOf(t, y)[0], Holder(w, t, y)))
            && Count(Find(w, y).kids) < Count(w.kids)
  {
    var y := w.kids.c;
    FirstGone(w, st, z);
    if y in st { NotOnStack(w, st, z, y); }
    if AsksParent(w, t, w.kids) { OwnKnown(w, t, st, z); }
    if RefsOf(t, y) != [] { HolderKnown(w, t, st, z, y); }
  }

  lemma TurnEnds(w: Grove, t: RefMap<Chunk>)
    requires Distinct(w) && w.Cons? && w.kids.Cons? && TurnOf(w, t).Freed?
    ensures var y, r := w.kids.c, TryFree(w, t, w.kids.c);
            Ends(r) && (r.Freed? ==> TurnOf(w, t) == r) && (AsksParent(w, t, w.kids) ==> SeesOwn(w, w.info))
  {
  }

  /** A child is freed, or it goes to the parent of its newest handle, or else to the former parent of `c`. */
  method FreeChild(c: Chunk, refs: RefLists, ghost w: Grove, ghost st: seq<Chunk>, ghost z: Zone<Chunk>)
    returns (ghost v: Grove)
    requires Zip(Top, w) && w.Cons? && w.c == c && w.kids.Cons? && st != [] && Fit(w, refs.of, st, z)
    requires TurnOf(w, refs.of).Freed?
    modifies refs, Ids(w)
    ensures v == TurnOf(w, old(refs.of)).w && Zip(Top, v) && refs.of == TurnOf(w, old(refs.of)).t
    decreases Count(w), Count(w.kids), 0, 1
  {
    ghost var t := refs.of;
    ChildFacts(w, t, st, z);
    v := TurnOf(w, t).w;
    assert allocated(Ids(w));
    var child := c.child;
    var newParent, oldParent := FindParents(child, c, refs, w);
    ghost var y := TryFree(w, t, child);
    TurnEnds(w, t);
    if y.Kept? { ChildKept(w, t, st, z); }
    hide Zip, Takes, TryFree, Turn, Fit;
    var r := FreeChunk(child, refs, w, st, z);
    if r == -1 {
      if newParent == null {
        newParent := oldParent;
      }
      Abandon(newParent, c, child, y.w, NewParent(w, t, w.info, child));
    }
  }

  /** The parent of the newest handle; and the former parent, if it may be needed. */
  method FindParents(child: Chunk, c: Chunk, refs: RefLists, ghost w: Grove)
    returns (newParent: Chunk?, oldParent: Chunk?)
    requires Zip(Top, w) && w.Cons? && w.c == c && w.kids.Cons? && w.kids.c == child
    requires AsksParent(w, refs.of, w.kids) ==> T.Under(w, c, Former(w, w.info))
    requires RefsOf(refs.of, child) != [] ==> T.Under(w, RefsOf(refs.of, child)[0], Holder(w, refs.of, child))
    ensures newParent == Ref(Holder(w, refs.of, child)) && Zip(Top, w)
    ensures oldParent == if AsksParent(w, refs.of, w.kids) then Ref(Former(w, w.info)) else null
  {
    newParent, oldParent := null, null;
    assert child.destructor == w.kids.info.des by { assert Rep(w.kids, Sib(null, c)); }
    assert allocated(Ids(w));
    hide Zip, T.Under;
    var refd := child in refs.of && refs.of[child] != [];
    if refd {
      newParent := T.ParentChunk(refs.of[child][0], w, Holder(w, refs.of, child));
    }
    if newParent == null && (refd || child.destructor != NoDestructor) {
      oldParent := T.ParentChunk(c, w, Former(w, w.info));
    }
  }

  /** The order of top-level chunks does not matter. */
  lemma SwapTop(a: Chunk, ia: Info<Chunk>, ka: Grove, b: Chunk, ib: Info<Chunk>, kb: Grove, rest: Grove)
    requires Zip(Top, Cons(a, ia, ka, Cons(b, ib, kb, rest)))
    ensures Zip(Top, Cons(b, ib, kb, Cons(a, ia, ka, rest)))
  {
    assert Rep(Cons(b, ib, kb, rest), Roots) && Distinct(Cons(b, ib, kb, rest));
    assert Rep(Cons(a, ia, ka, rest), Roots) && Distinct(Cons(a, ia, ka, rest));
  }

  lemma FirstOut<N>(v: Forest<N>)
    requires Distinct(v) && v.Cons? && v.kids.Cons?
    ensures var k := v.kids;
            k.c in Ids(v) && Find(v, k.c) == k && Cut(v, k.c) == Cons(v.c, v.info, k.next, v.next)
  {
    var k := v.kids;
    assert Distinct(k) && v.c != k.c;
    CutAbsent(v.next, k.c);
    assert Cut(k, k.c) == k.next;
  }

  /** The child goes below `o`. */
  method Abandon(newParent: Chunk?, c: Chunk, child: Chunk, ghost v: Grove, ghost o: Option<Chunk>)
    requires Zip(Top, v) && Adoptable(v, c, child, o) && newParent == Ref(o)
    modifies Ids(v)
    ensures Zip(Top, Settled(v, child, o))
  {
    ghost var k := v.kids;
    FirstOut(v);
    var _ := T.Steal(newParent, child, v);
    if o.None? { SwapTop(k.c, k.info, k.kids, c, v.info, k.next, v.next); }
  }

  // ---------- where the code goes wrong ----------

  /** The state of the loop after `n` rounds. */
  ghost function Onward(w: Grove, t: RefMap<Chunk>, n: nat): Result<Chunk>
    decreases n
  {
    if n == 0 then Freed(w, t, {})
    else if w.Cons? && w.kids.Cons? && TurnOf(w, t).Freed? then Onward(TurnOf(w, t).w, TurnOf(w, t).t, n - 1)
    else Odd
  }

  method FreeRounds(c: Chunk, refs: RefLists, n: nat, ghost w: Grove, ghost st: seq<Chunk>, ghost z: Zone<Chunk>)
    returns (ghost v: Grove)
    requires Zip(Top, w) && w.Cons? && w.c == c && st != [] && Fit(w, refs.of, st, z)
    requires Onward(w, refs.of, n).Freed?
    modifies refs, Ids(w)
    ensures v == Onward(w, old(refs.of), n).w && refs.of == Onward(w, old(refs.of), n).t
    ensures Zip(Top, v) && v.Cons? && v.c == c && Fit(v, refs.of, st, z) && Ids(v) <= Ids(w)
    decreases n
  {
    v := w;
    if n > 0 {
      TurnKeeps(w, refs.of, st, z);
      v := FreeChild(c, refs, w, st, z);
      v := FreeRounds(c, refs, n - 1, v, st, z);
    }
  }

  /** The loop up to a round in which the old predecessor, which the heap still points to, is gone: the next thing that
      the code does is to read it. */
  method FreeUntilBlind(c: Chunk, refs: RefLists, n: nat, ghost w: Grove, ghost st: seq<Chunk>, ghost z: Zone<Chunk>)
    returns (ghost v: Grove)
    requires Zip(Top, w) && w.Cons? && w.c == c && st != [] && Fit(w, refs.of, st, z)
    requires var r := Onward(w, refs.of, n);
             r.Freed? && r.w.Cons? && r.w.kids.Cons? && AsksParent(r.w, r.t, r.w.kids) && !SeesOwn(r.w, r.w.info)
    modifies refs, Ids(w)
    ensures Zip(Top, v) && v == Onward(w, old(refs.of), n).w && v.Cons? && c == v.c && c.prev != null
            && c.prev !in Ids(v)
  {
    v := FreeRounds(c, refs, n, w, st, z);
  }

  /** The loop up to a round in which a child goes below its own descendant: the heap is left with the rest of the
      forest and, cut off from it, a cycle through the child and its new parent. */
  method FreeUntilHung(c: Chunk, refs: RefLists, n: nat, ghost w: Grove, ghost st: seq<Chunk>, ghost z: Zone<Chunk>)
    returns (ghost v: Grove)
    requires Zip(Top, w) && w.Cons? && w.c == c && st != [] && Fit(w, refs.of, st, z)
    requires var r := Onward(w, refs.of, n); r.Freed? && Hangs(r.w, r.t)
    modifies refs, Ids(w)
    ensures var r := Onward(w, old(refs.of), n);
            && r.Freed? && Hangs(r.w, r.t)
            && var h := TurnOf(r.w, r.t);
               Zip(Top, ForestAfter(h)) && refs.of == h.t && h.y.parent == h.q && h.q.child == h.y
  {
    v := FreeRounds(c, refs, n, w, st, z);
    HangChild(c, refs, v, st, z);
  }

  /** In the next round the child that could not be freed goes below its own descendant. */
  ghost predicate Hangs(w: Grove, t: RefMap<Chunk>) {
    w.Cons? && w.kids.Cons? && TurnOf(w, t).Hung? && TryFree(w, t, w.kids.c).Kept?
  }

  lemma HungFacts(w: Grove, t: RefMap<Chunk>, st: seq<Chunk>, z: Zone<Chunk>)
    requires Fit(w, t, st, z) && st != [] && Hangs(w, t)
    ensures var y, r, h := w.kids.c, TryFree(w, t, w.kids.c), TurnOf(w, t);
            && Ids(r.w) <= Ids(w) && (Holder(w, t, y).None? ==> AsksParent(w, t, w.kids))
            && h.w == r.w && h.t == r.t && h.y == y && NewParent(w, t, w.info, y) == Some(h.q)
            && T.Has(r.w, y) && h.q in Ids(Find(r.w, y).kids) && ForestAfter(h) == Cut(r.w, y)
  {
    var y, r := w.kids.c, TryFree(w, t, w.kids.c);
    KeptWhy(w, t, y);
    TryFacts(w, t, st, z);
    FirstGone(r.w, st, z);
    MoveKeepsAll(r.w, y, Some(TurnOf(w, t).q));
    TreeFacts(r.w, y);
  }

  method HangChild(c: Chunk, refs: RefLists, ghost w: Grove, ghost st: seq<Chunk>, ghost z: Zone<Chunk>)
    requires Zip(Top, w) && w.Cons? && w.c == c && st != [] && Fit(w, refs.of, st, z) && Hangs(w, refs.of)
    modifies refs, Ids(w)
    ensures var h := TurnOf(w, old(refs.of));
            Zip(Top, ForestAfter(h)) && refs.of == h.t && h.y.parent == h.q && h.q.child == h.y
  {
    ghost var t := refs.of;
    ChildFacts(w, t, st, z);
    HungFacts(w, t, st, z);
    assert allocated(Ids(w));
    var child := c.child;
    var newParent, oldParent := FindParents(child, c, refs, w);
    ghost var y := TryFree(w, t, child);
    hide Zip, Takes, TryFree, Turn, Fit;
    var r := FreeChunk(child, refs, w, st, z);
    if newParent == null {
      newParent := oldParent;
    }
    T.StealInside(newParent, child, y.w);
  }
}
