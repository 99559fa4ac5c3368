/**
 The loop of `_talloc_free` over the children of a chunk (talloc.c:537-571), as a function on values. A child that
 somebody refers to loses its newest handle and goes to the parent of that handle; a child that refuses, or whose
 handle had no parent, goes to the former parent of the chunk; any other child is freed, and its own children come
 first.
 */
module Flows {
  import opened Forests
  import opened Transfers
  import opened Releases
  import opened RefMaps

  /** What is around the children: the siblings that wait, all other chunks, and the lists of handles. */
  datatype Yard<N> = Yard(list: Forest<N>, rest: Forest<N>, refs: RefMap<N>)

  /** Where the children go that cannot be freed: to the waiting siblings, when the chunk is itself the child of a chunk
      that is being freed, or below its former parent. */
  datatype Dest<N> = Front | Under(par: Option<N>)

  ghost function Rise<N>(s: Yard<N>, to: Dest<N>, k: Forest<N>): Yard<N>
    requires k.Cons?
  {
    match to
    case Front => s.(list := Cons(k.c, k.info, k.kids, s.list))
    case Under(par) => s.(rest := Hang(s.rest, par, k.c, k.info, k.kids))
  }

  /** The handle `h` is freed. */
  ghost function Shed<N>(s: Yard<N>, h: N): Yard<N> {
    s.(rest := Cut(s.rest, h), refs := Purged(s.refs, {h}))
  }

  /** The first child of `k` goes to `q`, the parent that its handle had. */
  ghost function Leave<N>(s: Yard<N>, to: Dest<N>, k: Forest<N>, q: Option<N>): Yard<N>
    requires k.Cons?
  {
    if q.None? then Rise(s, to, k) else s.(rest := Graft(s.rest, q.value, k.c, k.info, k.kids))
  }

  /** The yard of the children of the first chunk of `k`, which is freed. */
  ghost function Inner<N>(k: Forest<N>, s: Yard<N>): Yard<N>
    requires k.Cons?
  {
    Yard(k.next, s.rest, Purged(s.refs, {k.c}))
  }

  /** One round of the loop: what becomes of the children, and of everything else. */
  ghost function Round<N>(k: Forest<N>, s: Yard<N>, to: Dest<N>): (r: (Forest<N>, Yard<N>))
    requires k.Cons?
    ensures Count(r.0) < Count(k) && Count(r.0) + Count(r.1.list) <= Count(k) + Count(s.list)
    decreases Count(k), 0
  {
    var hs := RefsOf(s.refs, k.c);
    if hs != [] then (k.next, Leave(Shed(s, hs[0]), to, k, ParentOf(s.rest, hs[0])))
    else if Refusing(k.info) then (k.next, Rise(s, to, k))
    else
      var m := Flow(k.kids, Inner(k, s), Front);
      (m.list, Yard(s.list, m.rest, m.refs))
  }

  /** The whole loop. */
  ghost function Flow<N>(k: Forest<N>, s: Yard<N>, to: Dest<N>): (s': Yard<N>)
    ensures Count(s'.list) <= Count(k) + Count(s.list)
    decreases Count(k), 1
  {
    if k.Nil? then s else
      var r := Round(k, s, to);
      Flow(r.0, r.1, to)
  }

  /** The yard of the children of `c` when `c` is freed. */
  ghost function YardOf<N>(w: Forest<N>, t: RefMap<N>, c: N): Yard<N>
    requires c in Ids(w)
  {
    Yard(Nil, Cut(w, c), Purged(t, {c}))
  }

  /** The forest and the lists after `c` has been freed. */
  ghost function Aftermath<N>(w: Forest<N>, t: RefMap<N>, c: N): Yard<N>
    requires c in Ids(w)
  {
    Flow(Find(w, c).kids, YardOf(w, t, c), Under(ParentOf(w, c)))
  }

  // ---------- asking for the former parent ----------

  /** In this round the code looks up the parent of the chunk that is being freed (talloc.c:561-563). */
  ghost predicate Asks<N>(k: Forest<N>, s: Yard<N>) {
    k.Cons? &&
    var hs := RefsOf(s.refs, k.c);
    if hs != [] then ParentOf(s.rest, hs[0]).None? else k.info.des != NoDestructor
  }

  /** The lookup starts at `prev`, the former predecessor: is that still there whenever it is asked? */
  ghost predicate Sees<N>(k: Forest<N>, s: Yard<N>, par: Option<N>, prev: Option<N>)
    decreases Count(k)
  {
    k.Cons? ==>
      && (Asks(k, s) && prev.Some? ==> prev.value in Ids(s.rest))
      && var r := Round(k, s, Under(par)); Sees(r.0, r.1, par, prev)
  }

  /** A chunk without a predecessor stores its parent itself. */
  lemma {:induction false} SeesNone<N>(k: Forest<N>, s: Yard<N>, par: Option<N>)
    ensures Sees(k, s, par, None)
    decreases Count(k)
  {
    if k.Cons? {
      var r := Round(k, s, Under(par));
      SeesNone(r.0, r.1, par);
    }
  }

  // ---------- handles in reach ----------

  /** The chunk `g` has no children, and it and everything above it stand in their lists. */
  ghost predicate Gripped<N>(f: Forest<N>, g: N) {
    match f
    case Nil => false
    case Cons(c, i, k, n) =>
      if c == g then k.Nil? && i.tie.Tied? && !i.loop
      else if g in Ids(k) then i.tie.Tied? && Gripped(k, g)
      else Gripped(n, g)
  }

  lemma {:induction false} GripFind<N>(f: Forest<N>, g: N)
    requires Gripped(f, g)
    ensures g in Ids(f) && Find(f, g).kids.Nil? && Find(f, g).info.tie.Tied? && !Find(f, g).info.loop
  {
    if f.c != g {
      if g in Ids(f.kids) { GripFind(f.kids, g); } else { GripFind(f.next, g); }
    }
  }

  lemma {:induction false} GripCut<N>(f: Forest<N>, h: N, g: N)
    requires Distinct(f) && Gripped(f, g) && Gripped(f, h) && g != h
    ensures Gripped(Cut(f, h), g)
  {
    GripFind(f, g);
    GripFind(f, h);
    if f.c == h {
    } else if h in Ids(f.kids) {
      CutAbsent(f.next, h);
      CutFacts(f.kids, h);
      if g in Ids(f.kids) { GripCut(f.kids, h, g); }
    } else {
      CutAbsent(f.kids, h);
      if g != f.c && g !in Ids(f.kids) { GripCut(f.next, h, g); }
    }
  }

  lemma {:induction false} GripGraft<N>(f: Forest<N>, q: N, c: N, i: Info<N>, k: Forest<N>, g: N)
    requires Distinct(f) && Gripped(f, g) && g != q && c !in Ids(f) && Ids(k) !! Ids(f)
    ensures Gripped(Graft(f, q, c, i, k), g)
  {
    GripFind(f, g);
    if f.c == q {
    } else {
      if q !in Ids(f.kids) { GraftAbsent(f.kids, q, c, i, k); }
      if q !in Ids(f.next) { GraftAbsent(f.next, q, c, i, k); }
      if g in Ids(f.kids) {
        GripGraft(f.kids, q, c, i, k, g);
        GripFind(Graft(f.kids, q, c, i, k), g);
      } else if g != f.c {
        GripGraft(f.next, q, c, i, k, g);
        GraftMember(f.kids, q, c, i, k, g);
      }
    }
  }

  lemma {:induction false} GraftMember<N>(f: Forest<N>, q: N, c: N, i: Info<N>, k: Forest<N>, g: N)
    requires g !in Ids(f) && g != c && g !in Ids(k)
    ensures g !in Ids(Graft(f, q, c, i, k))
  {
    if f.Cons? {
      GraftMember(f.kids, q, c, i, k, g);
      GraftMember(f.next, q, c, i, k, g);
    }
  }

  /** A parent has a child. */
  lemma {:induction false} ParentHasKids<N>(f: Forest<N>, par: Option<N>, x: N)
    requires Distinct(f) && x in Ids(f)
    ensures var q := ParentIn(f, par, x); q == par || (q.Some? && q.value in Ids(f) && !Gripped(f, q.value))
  {
    if f.c != x {
      if x in Ids(f.kids) { ParentHasKids(f.kids, Some(f.c), x); } else { ParentHasKids(f.next, par, x); }
    }
  }
}
