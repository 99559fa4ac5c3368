/** Moving a chunk in memory: `_talloc_realloc` (talloc.c:892-967). */
module Realloc {
  import opened Forests
  import opened Chunks
  import opened Talloc

  /** The forest with `a` renamed to `b`, and of the new size. */
  ghost function Renamed<N>(f: Forest<N>, a: N, b: N, size: nat): Forest<N> {
    match f
    case Nil => Nil
    case Cons(c, i, k, n) =>
      Cons(if c == a then b else c, if c == a then i.(size := size) else i,
           Renamed(k, a, b, size), Renamed(n, a, b, size))
  }

  lemma {:induction false} RenamedAbsent<N>(f: Forest<N>, a: N, b: N, size: nat)
    requires a !in Ids(f)
    ensures Renamed(f, a, b, size) == f
  {
    if f.Cons? {
      RenamedAbsent(f.kids, a, b, size);
      RenamedAbsent(f.next, a, b, size);
    }
  }

  lemma {:induction false} RenamedInside<N>(p: Place<N>, f: Forest<N>, a: N, b: N, size: nat)
    requires a !in PlaceIds(p)
    ensures Renamed(Plug(p, f), a, b, size) == Plug(p, Renamed(f, a, b, size))
  {
    if !p.Top? {
      RenamedInside(p.up, Fill(p, f), a, b, size);
      if p.InKids? { RenamedAbsent(p.next, a, b, size); } else { RenamedAbsent(p.kids, a, b, size); }
    }
  }

  ghost function Alias<N>(y: N, a: N, b: N): N {
    if y == a then b else y
  }

  lemma {:induction false} RenamedIds<N>(f: Forest<N>, a: N, b: N, size: nat)
    requires Distinct(f) && a in Ids(f) && b !in Ids(f)
    ensures Ids(Renamed(f, a, b, size)) == Ids(f) - {a} + {b} && Distinct(Renamed(f, a, b, size))
  {
    if f.c == a {
      RenamedAbsent(f.kids, a, b, size);
      RenamedAbsent(f.next, a, b, size);
    } else if a in Ids(f.kids) {
      RenamedIds(f.kids, a, b, size);
      RenamedAbsent(f.next, a, b, size);
    } else {
      RenamedIds(f.next, a, b, size);
      RenamedAbsent(f.kids, a, b, size);
    }
  }

  /** Renaming renames parents and children alike. */
  lemma {:induction false} RenamedParent<N>(f: Forest<N>, par: Option<N>, a: N, b: N, size: nat, y: N)
    requires Distinct(f) && b !in Ids(f) && y in Ids(f)
    ensures ParentIn(Renamed(f, a, b, size), if par == Some(a) then Some(b) else par, Alias(y, a, b))
         == if ParentIn(f, par, y) == Some(a) then Some(b) else ParentIn(f, par, y)
  {
    RenamedAnywhere(f.kids, a, b, size);
    if f.c != y {
      if y in Ids(f.kids) {
        RenamedParent(f.kids, Some(f.c), a, b, size, y);
      } else {
        RenamedParent(f.next, par, a, b, size, y);
      }
    }
  }

  lemma RenamedAnywhere<N>(f: Forest<N>, a: N, b: N, size: nat)
    requires Distinct(f) && b !in Ids(f)
    ensures Ids(Renamed(f, a, b, size)) == if a in Ids(f) then Ids(f) - {a} + {b} else Ids(f)
  {
    if a in Ids(f) { RenamedIds(f, a, b, size); } else { RenamedAbsent(f, a, b, size); }
  }

  /** The renamed chunk has the new size and otherwise its old fields; all other chunks have theirs. */
  lemma {:induction false} RenamedInfo<N>(f: Forest<N>, a: N, b: N, size: nat, y: N)
    requires Distinct(f) && (b == a || b !in Ids(f)) && y in Ids(f)
    ensures Alias(y, a, b) in Ids(Renamed(f, a, b, size))
    ensures Find(Renamed(f, a, b, size), Alias(y, a, b)).info
            == if y == a then Find(f, y).info.(size := size) else Find(f, y).info
  {
    AnyRenamedIds(f.kids, a, b, size);
    AnyRenamedIds(f.next, a, b, size);
    if f.c != y {
      if y in Ids(f.kids) { RenamedInfo(f.kids, a, b, size, y); } else { RenamedInfo(f.next, a, b, size, y); }
    }
  }

  lemma {:induction false} AnyRenamedIds<N>(f: Forest<N>, a: N, b: N, size: nat)
    requires Distinct(f) && (b == a || b !in Ids(f))
    ensures Ids(Renamed(f, a, b, size)) == if a in Ids(f) then Ids(f) - {a} + {b} else Ids(f)
  {
    if b != a {
      RenamedAnywhere(f, a, b, size);
    } else if f.Cons? {
      AnyRenamedIds(f.kids, a, b, size);
      AnyRenamedIds(f.next, a, b, size);
    }
  }

  /** So the chunk has the new size, and nothing else has changed. */
  lemma RenamedFields<N>(w: Forest<N>, a: N, b: N, size: nat)
    requires Distinct(w) && a in Ids(w) && (b == a || b !in Ids(w))
    ensures var v := Renamed(w, a, b, size);
            && b in Ids(v) && Find(v, b).info == Find(w, a).info.(size := size)
            && forall y :: y in Ids(w) && y != a ==> y in Ids(v) && Find(v, y).info == Find(w, y).info
  {
    var v := Renamed(w, a, b, size);
    RenamedInfo(w, a, b, size, a);
    forall y | y in Ids(w) && y != a ensures y in Ids(v) && Find(v, y).info == Find(w, y).info {
      RenamedInfo(w, a, b, size, y);
    }
  }

  // ---------- in the heap ----------

  /** Only the first sibling knows the parent. */
  lemma {:induction false} Unaware(n: Grove, q: Chunk, a: Chunk, b: Chunk)
    requires Rep(n, Sib(q, a))
    ensures Rep(n, Sib(q, b))
  {
    if n.Cons? { Unaware(n.next, n.c, a, b); }
  }

  /** The children learn the new address of their parent. */
  method Foster(hd: Chunk?, b: Chunk, ghost a: Chunk, ghost k: Grove)
    requires Rep(k, Sib(null, a)) && Distinct(k) && hd == Head(k)
    modifies Ids(k)
    ensures Rep(k, Sib(null, b))
  {
    if hd != null {
      Unaware(k.next, hd, a, b);
      hd.parent := b;
    }
  }

  /** The rest of the list learns the new address of its predecessor. */
  method Trail(next: Chunk?, b: Chunk, ghost a: Chunk, ghost m: Mode, ghost n: Grove)
    requires Rep(n, After(m, a)) && Distinct(n) && next == if m.Roots? then null else Head(n)
    modifies Ids(n)
    ensures Rep(n, After(m, b))
  {
    if next != null {
      Follow(next, b, m.par, a, n);
    }
  }

  /** The neighbours of `c` learn its new address `b`. */
  method Announce(b: Chunk, ghost c: Chunk, ghost p: Spot, ghost f: Grove)
    requires f.Cons? && f.c == c && Zip(p, f) && Linked(c, ModeOf(p), Head(f.next))
    requires Linked(b, ModeOf(p), Head(f.next)) && b.child == Head(f.kids)
    requires b !in PlaceIds(p) && b !in Ids(f)
    modifies PlaceIds(p), Ids(f)
    ensures Around(p, b) && Rep(f.kids, Sib(null, b)) && Rep(f.next, After(ModeOf(p), b))
  {
    assert allocated(PlaceIds(p)) && allocated(Ids(f.kids)) && allocated(Ids(f.next)) && allocated(c);
    Point(b, c, p, Head(f.next));
    Foster(b.child, b, c, f.kids);
    Trail(b.next, b, c, ModeOf(p), f.next);
  }

  method Point(b: Chunk, ghost c: Chunk, ghost p: Spot, ghost next: Chunk?)
    requires Around(p, c) && PlaceDistinct(p) && b !in PlaceIds(p) && Linked(b, ModeOf(p), next)
    modifies PlaceIds(p)
    ensures Around(p, b)
  {
    if b.parent != null {
      b.parent.child := b;
    }
    if b.prev != null {
      b.prev.next := b;
    }
    if ModeOf(p).Roots? { RootsAround(p, c, b); }
  }

  ghost function Replaced(f: Grove, b: Chunk, size: nat): Grove
    requires f.Cons?
  {
    Cons(b, f.info.(size := size), f.kids, f.next)
  }

  lemma RenamedAt(p: Spot, f: Grove, b: Chunk, size: nat)
    requires f.Cons? && PlaceDistinct(p) && Distinct(f) && Ids(f) !! PlaceIds(p)
    ensures Renamed(Plug(p, f), f.c, b, size) == Plug(p, Replaced(f, b, size))
  {
    RenamedInside(p, f, f.c, b, size);
    RenamedAbsent(f.kids, f.c, b, size);
    RenamedAbsent(f.next, f.c, b, size);
  }

  method MoveAt(c: Chunk, size: nat, ghost p: Spot, ghost f: Grove) returns (b: Chunk)
    requires f.Cons? && f.c == c && Zip(p, f) && f.info.tie.Tied?
    modifies PlaceIds(p), Ids(f)
    ensures fresh(b) && Zip(p, Replaced(f, b, size))
  {
    assert allocated(PlaceIds(p)) && allocated(Ids(f));
    b := Copy(c, size);
    Announce(b, c, p, f);
    ZipCons(p, b, f.info.(size := size), f.kids, f.next);
  }

  /** The chunk moves to a new address; the forest is the same up to that name. */
  method Move(c: Chunk, size: nat, ghost w: Grove) returns (b: Chunk)
    requires Zip(Top, w) && Has(w, c)
    modifies Ids(w)
    ensures fresh(b) && Zip(Top, Renamed(w, c, b, size)) && b.size == size
    ensures b in Ids(Renamed(w, c, b, size)) && Find(Renamed(w, c, b, size), b).info == Find(w, c).info.(size := size)
  {
    assert allocated(Ids(w));
    ghost var p, f := Focus(w, c);
    b := MoveAt(c, size, p, f);
    ZipPlug(p, Replaced(f, b, size));
    RenamedAt(p, f, b, size);
    RenamedFields(w, c, b, size);
    FieldsAt(Renamed(w, c, b, size), b);
  }

  method Copy(c: Chunk, size: nat) returns (b: Chunk)
    ensures fresh(b) && b.size == size && b.destructor == c.destructor && b.loop == c.loop
    ensures b.next == c.next && b.prev == c.prev && b.parent == c.parent && b.child == c.child
  {
    b := new Chunk(size);
    b.next, b.prev, b.parent, b.child := c.next, c.prev, c.parent, c.child;
    b.destructor, b.loop := c.destructor, c.loop;
  }
}
