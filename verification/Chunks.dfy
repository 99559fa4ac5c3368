/**
 The chunks of talloc.c in the heap. Siblings form a doubly linked list, and only the first child
 stores its parent; a chunk that is being freed has left its list but keeps its stale links.
 */
module Chunks {
  import opened Forests

  class Chunk {
    var next: Chunk?
    var prev: Chunk?
    var parent: Chunk?
    var child: Chunk?
    var size: nat
    var destructor: Destructor<Chunk>
    var loop: bool

    constructor (size: nat)
      ensures next == null && prev == null && parent == null && child == null
      ensures this.size == size && destructor == NoDestructor && !loop
    {
      next, prev, parent, child := null, null, null, null;
      this.size, destructor, loop := size, NoDestructor, false;
    }
  }

  /** The fields of a chunk other than its links. */
  ghost predicate Carries(c: Chunk, i: Info<Chunk>)
    reads c
  {
    c.size == i.size && c.destructor == i.des && c.loop == i.loop
  }

  type Grove = Forest<Chunk>
  type Spot = Place<Chunk>

  ghost function Ref(o: Option<Chunk>): Chunk? {
    match o
    case None => null
    case Some(c) => c
  }

  /** How the chunks of a list are linked: top-level chunks not at all, children of `par` to each other. */
  datatype Mode = Roots | Sib(prev: Chunk?, par: Chunk)

  ghost function After(m: Mode, c: Chunk): Mode {
    if m.Roots? then Roots else Sib(c, m.par)
  }

  ghost function ModeOf(p: Spot): Mode {
    match p
    case Top => Roots
    case InKids(_, c, _, _) => Sib(null, c)
    case InNext(up, c, _, _) => After(ModeOf(up), c)
  }

  ghost function Head(f: Grove): Chunk? {
    if f.Nil? then null else f.c
  }

  ghost predicate Linked(c: Chunk, m: Mode, next: Chunk?)
    reads c
  {
    match m
    case Roots => c.prev == null && c.next == null && c.parent == null
    case Sib(prev, par) => c.prev == prev && c.next == next && c.parent == (if prev == null then par else null)
  }

  ghost predicate Holds(c: Chunk, i: Info<Chunk>, m: Mode, next: Chunk?, child: Chunk?)
    reads c
  {
    && Carries(c, i) && c.child == child
    && match i.tie
       case Tied => Linked(c, m, next)
       case Loose(prev, parent) => m.Roots? && c.prev == Ref(prev) && c.parent == Ref(parent)
  }

  /** The heap holds the forest `f` as a list in mode `m`. */
  ghost predicate Rep(f: Grove, m: Mode)
    reads Ids(f)
  {
    match f
    case Nil => true
    case Cons(c, i, k, n) => Holds(c, i, m, Head(n), Head(k)) && Rep(k, Sib(null, c)) && Rep(n, After(m, c))
  }

  /** The heap holds everything around the place `p`, with `hd` at the front of the hole. */
  ghost predicate Around(p: Spot, hd: Chunk?)
    reads PlaceIds(p)
  {
    match p
    case Top => true
    case InKids(up, c, i, n) => Holds(c, i, ModeOf(up), Head(n), hd) && Rep(n, After(ModeOf(up), c)) && Around(up, c)
    case InNext(up, c, i, k) => Holds(c, i, ModeOf(up), hd, Head(k)) && Rep(k, Sib(null, c)) && Around(up, c)
  }

  ghost predicate Zip(p: Spot, f: Grove)
    reads PlaceIds(p), Ids(f)
  {
    Around(p, Head(f)) && Rep(f, ModeOf(p)) && PlaceDistinct(p) && Distinct(f) && Ids(f) !! PlaceIds(p)
  }

  lemma ZipCons(p: Spot, c: Chunk, i: Info<Chunk>, k: Grove, n: Grove)
    requires Around(p, c) && Holds(c, i, ModeOf(p), Head(n), Head(k)) && Rep(k, Sib(null, c))
             && Rep(n, After(ModeOf(p), c))
    requires PlaceDistinct(p) && Distinct(Cons(c, i, k, n)) && Ids(Cons(c, i, k, n)) !! PlaceIds(p)
    ensures Zip(p, Cons(c, i, k, n))
  {
  }

  lemma ZipUp(p: Spot, f: Grove)
    requires !p.Top? && Zip(p, f)
    ensures Zip(p.up, Fill(p, f))
  {
  }

  lemma ZipKids(p: Spot, f: Grove)
    requires f.Cons? && Zip(p, f)
    ensures Zip(InKids(p, f.c, f.info, f.next), f.kids)
  {
  }

  lemma ZipNext(p: Spot, f: Grove)
    requires f.Cons? && Zip(p, f)
    ensures Zip(InNext(p, f.c, f.info, f.kids), f.next)
  {
  }

  lemma {:induction false} ZipPlug(p: Spot, f: Grove)
    requires Zip(p, f)
    ensures Zip(Top, Plug(p, f))
  {
    if !p.Top? {
      ZipUp(p, f);
      ZipPlug(p.up, Fill(p, f));
    }
  }

  lemma {:induction false} ZipAppend(path: Spot, base: Spot, f: Grove)
    requires Zip(base, Plug(path, f))
    ensures Zip(Append(path, base), f)
  {
    if !path.Top? {
      ZipAppend(path.up, base, Fill(path, f));
      if path.InKids? {
        ZipKids(Append(path.up, base), Fill(path, f));
      } else {
        ZipNext(Append(path.up, base), Fill(path, f));
      }
    }
  }

  // ---------- unlinking (talloc.c:436-444, 456-464, 525-533) ----------

  /** The rest of a list moves to the front: no predecessor, and the parent is stored in it. */
  method MakeFirst(hd: Chunk?, par: Chunk, ghost q: Chunk, ghost n: Grove)
    requires Rep(n, Sib(q, par)) && Distinct(n) && hd == Head(n)
    modifies Ids(n)
    ensures Rep(n, Sib(null, par))
  {
    if hd != null {
      hd.prev := null;
      hd.parent := par;
    }
  }

  /** The rest of a list learns its new predecessor. */
  method Follow(hd: Chunk?, prev: Chunk, ghost par: Chunk, ghost q: Chunk, ghost n: Grove)
    requires Rep(n, Sib(q, par)) && Distinct(n) && hd == Head(n)
    modifies Ids(n)
    ensures Rep(n, Sib(prev, par))
  {
    if hd != null {
      hd.prev := prev;
    }
  }

  /** Whoever pointed to `c` points to `hd` now. */
  method Repoint(c: Chunk, hd: Chunk?, ghost p: Spot)
    requires Around(p, c) && PlaceDistinct(p) && c !in PlaceIds(p)
    requires Linked(c, ModeOf(p), hd)
    modifies PlaceIds(p)
    ensures Around(p, if ModeOf(p).Roots? then c else hd)
  {
    if c.parent != null {
      c.parent.child := hd;
    } else if c.prev != null {
      c.prev.next := hd;
    }
  }

  lemma RootsAround(p: Spot, a: Chunk?, b: Chunk?)
    requires ModeOf(p).Roots? && Around(p, a)
    ensures Around(p, b)
  {
  }

  /** The neighbours of `c` close ranks; `c` itself is not touched. */
  method CloseGap(c: Chunk, ghost p: Spot, ghost n: Grove)
    requires Around(p, c) && PlaceDistinct(p) && Linked(c, ModeOf(p), Head(n))
    requires Rep(n, After(ModeOf(p), c)) && Distinct(n) && Ids(n) !! PlaceIds(p) && c !in PlaceIds(p) && c !in Ids(n)
    modifies PlaceIds(p), Ids(n)
    ensures Around(p, Head(n)) && Rep(n, ModeOf(p))
  {
    assert allocated(Ids(n)) && allocated(PlaceIds(p));
    Repoint(c, c.next, p);
    if c.parent != null {
      MakeFirst(c.next, c.parent, c, n);
    } else if c.prev != null {
      Follow(c.next, c.prev, ModeOf(p).par, c, n);
    } else {
      RootsAround(p, c, Head(n));
    }
  }

  /** Everything but `c` and its children is as if `c` had never been there. */
  method Leave(c: Chunk, ghost p: Spot, ghost f: Grove)
    requires f.Cons? && f.c == c && f.info.tie.Tied? && Zip(p, f)
    modifies PlaceIds(p), Ids(f.next)
    ensures Zip(p, f.next) && Rep(f.kids, Sib(null, c)) && unchanged(c)
  {
    assert allocated(Ids(f.kids));
    CloseGap(c, p, f.next);
  }

  /** Take `c` out of its list. Its children stay with it; its own links go stale. */
  method Unlink(c: Chunk, ghost p: Spot, ghost f: Grove)
    requires f.Cons? && f.c == c && f.info.tie.Tied? && Zip(p, f)
    modifies PlaceIds(p), Ids(f)
    ensures Zip(p, f.next) && Rep(f.kids, Sib(null, c))
    ensures Carries(c, f.info) && c.child == Head(f.kids) && c.prev == old(c.prev) && c.parent == old(c.parent)
  {
    Leave(c, p, f);
    Forget(c, p, f.next, f.kids);
  }

  /** A chunk that was first forgets its neighbours. */
  method Forget(c: Chunk, ghost p: Spot, ghost n: Grove, ghost k: Grove)
    requires Zip(p, n) && Rep(k, Sib(null, c)) && c !in PlaceIds(p) && c !in Ids(n) && c !in Ids(k)
    requires c.parent != null ==> c.prev == null
    modifies c
    ensures Zip(p, n) && Rep(k, Sib(null, c))
    ensures c.size == old(c.size) && c.destructor == old(c.destructor) && c.loop == old(c.loop)
            && c.child == old(c.child)
    ensures c.prev == old(c.prev) && c.parent == old(c.parent)
  {
    if c.parent != null {
      c.next, c.prev := null, null;
    }
  }

  // ---------- linking (talloc.c:245-258, 466-468) ----------

  /** A chunk with its children but without a place: its own links mean nothing. */
  ghost predicate Adrift(c: Chunk, i: Info<Chunk>, k: Grove)
    reads c, Ids(k)
  {
    Carries(c, i) && c.child == Head(k) && Rep(k, Sib(null, c)) && Distinct(k) && c !in Ids(k)
  }

  /** The old first child gives up its parent pointer and gets a predecessor. */
  method Demote(hd: Chunk?, c: Chunk, ghost par: Chunk, ghost n: Grove)
    requires Rep(n, Sib(null, par)) && Distinct(n) && hd == Head(n)
    modifies Ids(n)
    ensures Rep(n, Sib(c, par))
  {
    if hd != null {
      hd.parent := null;
      hd.prev := c;
    }
  }

  /** `c` goes in front of the children `n` of `par`, which does not know yet. */
  method Prepend(c: Chunk, hd: Chunk?, par: Chunk, ghost i: Info<Chunk>, ghost k: Grove, ghost n: Grove)
    requires Rep(n, Sib(null, par)) && Distinct(n) && hd == Head(n) && Adrift(c, i, k) && i.tie.Tied?
    requires c !in Ids(n) && Ids(k) !! Ids(n)
    modifies c, Ids(n)
    ensures Rep(Cons(c, i, k, n), Sib(null, par))
  {
    assert allocated(Ids(k));
    Demote(hd, c, par, n);
    c.parent, c.next, c.prev := par, hd, null;
  }

  /** The parent learns its new first child. */
  method SetChild(par: Chunk, hd: Chunk?, ghost old': Chunk?, ghost p: Spot)
    requires p.InKids? && p.c == par && Around(p, old') && PlaceDistinct(p)
    modifies par
    ensures Around(p, hd)
  {
    par.child := hd;
  }

  /** `c` becomes the first child of `par`, seen from the list of children. */
  method AdoptInto(par: Chunk, c: Chunk, ghost q: Spot, ghost n: Grove, ghost i: Info<Chunk>, ghost k: Grove)
    requires q.InKids? && q.c == par && Zip(q, n) && Adrift(c, i, k) && i.tie.Tied?
    requires c !in PlaceIds(q) && c !in Ids(n) && Ids(k) !! PlaceIds(q) && Ids(k) !! Ids(n)
    modifies par, c, Ids(n)
    ensures Zip(q, Cons(c, i, k, n))
  {
    assert allocated(PlaceIds(q)) && allocated(Ids(k)) && allocated(Ids(n));
    Prepend(c, par.child, par, i, k, n);
    assert Ids(Cons(c, i, k, n)) !! PlaceIds(q);
    SetChild(par, c, Head(n), q);
    ZipCons(q, c, i, k, n);
  }

  /** `c` becomes the first child of `par`. */
  method Adopt(par: Chunk, c: Chunk, ghost p: Spot, ghost f: Grove, ghost i: Info<Chunk>, ghost k: Grove)
    requires f.Cons? && f.c == par && Zip(p, f) && Adrift(c, i, k) && i.tie.Tied?
    requires c !in PlaceIds(p) && c !in Ids(f) && Ids(k) !! PlaceIds(p) && Ids(k) !! Ids(f)
    modifies par, c, Ids(f.kids)
    ensures Zip(p, f.(kids := Cons(c, i, k, f.kids)))
  {
    ghost var q := InKids(p, par, f.info, f.next);
    ZipKids(p, f);
    AdoptInto(par, c, q, f.kids, i, k);
    ZipUp(q, Cons(c, i, k, f.kids));
  }

  /** `c` becomes a top-level chunk. */
  method Uproot(c: Chunk, ghost w: Grove, ghost i: Info<Chunk>, ghost k: Grove)
    requires Zip(Top, w) && Adrift(c, i, k) && i.tie.Tied? && c !in Ids(w) && Ids(k) !! Ids(w)
    modifies c
    ensures Zip(Top, Cons(c, i, k, w))
  {
    c.parent, c.next, c.prev := null, null, null;
  }

  ghost function Par(m: Mode): Chunk? {
    if m.Roots? then null else m.par
  }
}
