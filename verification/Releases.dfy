/**
 What freeing a chunk does to a forest. Chunks whose destructor refuses survive with everything below
 them; the topmost ones are handed to the parent of the freed chunk, each in front of the ones before it.
 */
module Releases {
  import opened Forests
  import opened Transfers

  ghost predicate Refusing<N>(i: Info<N>) {
    i.des.Refuses? || i.des.Running?
  }

  /** The chunks reached from the list `k` without passing a refusing one. */
  ghost function Freed<N>(k: Forest<N>): set<N> {
    match k
    case Nil => {}
    case Cons(c, i, kk, n) => (if Refusing(i) then {} else {c} + Freed(kk)) + Freed(n)
  }

  /** The refusing chunks on the border of `Freed`. */
  ghost function Topmost<N>(k: Forest<N>): set<N> {
    match k
    case Nil => {}
    case Cons(c, i, kk, n) => (if Refusing(i) then {c} else Topmost(kk)) + Topmost(n)
  }

  ghost function RevOnto<N>(a: Forest<N>, b: Forest<N>): Forest<N> {
    match a
    case Nil => b
    case Cons(c, i, k, n) => RevOnto(n, Cons(c, i, k, b))
  }

  ghost function Concat<N>(a: Forest<N>, b: Forest<N>): Forest<N> {
    match a
    case Nil => b
    case Cons(c, i, k, n) => Cons(c, i, k, Concat(n, b))
  }

  /** The list `acc` after the topmost refusing chunks of `k` have been put in front of it. A freed chunk first gathers
      the refusing chunks below it, so they change their order once per freed level. */
  ghost function Keep<N>(k: Forest<N>, acc: Forest<N>): Forest<N> {
    match k
    case Nil => acc
    case Cons(c, i, kk, n) =>
      if Refusing(i) then Keep(n, Cons(c, i, kk, acc)) else Keep(n, RevOnto(Keep(kk, Nil), acc))
  }

  ghost function HandedTo<N>(w: Forest<N>, q: N, k: Forest<N>): Forest<N> {
    match w
    case Nil => Nil
    case Cons(x, ix, xk, xn) =>
      if x == q then Cons(x, ix, Keep(k, xk), xn) else Cons(x, ix, HandedTo(xk, q, k), HandedTo(xn, q, k))
  }

  /** The forest `w` after the refusing chunks of `k` have gone to `par`. */
  ghost function Handed<N>(w: Forest<N>, par: Option<N>, k: Forest<N>): Forest<N> {
    match par
    case None => Keep(k, w)
    case Some(q) => HandedTo(w, q, k)
  }

  /** The forest after `c` has been freed. */
  ghost function Released<N>(w: Forest<N>, c: N): Forest<N>
    requires c in Ids(w)
  {
    Handed(Cut(w, c), ParentOf(w, c), Find(w, c).kids)
  }

  // ---------- the order of the survivors ----------

  ghost predicate AllRefuse<N>(k: Forest<N>) {
    k.Cons? ==> Refusing(k.info) && AllRefuse(k.next)
  }

  lemma {:induction false} RevConcat<N>(s: Forest<N>, a: Forest<N>, b: Forest<N>)
    ensures RevOnto(s, Concat(a, b)) == Concat(RevOnto(s, a), b)
  {
    if s.Cons? { RevConcat(s.next, Cons(s.c, s.info, s.kids, a), b); }
  }

  lemma {:induction false} KeepConcat<N>(k: Forest<N>, a: Forest<N>, b: Forest<N>)
    ensures Keep(k, Concat(a, b)) == Concat(Keep(k, a), b)
  {
    if k.Cons? {
      if Refusing(k.info) {
        KeepConcat(k.next, Cons(k.c, k.info, k.kids, a), b);
      } else {
        RevConcat(Keep(k.kids, Nil), a, b);
        KeepConcat(k.next, RevOnto(Keep(k.kids, Nil), a), b);
      }
    }
  }

  lemma {:induction false} KeepRefusing<N>(s: Forest<N>, n: Forest<N>, acc: Forest<N>)
    requires AllRefuse(s)
    ensures Keep(Concat(s, n), acc) == Keep(n, RevOnto(s, acc))
  {
    if s.Cons? { KeepRefusing(s.next, n, Cons(s.c, s.info, s.kids, acc)); }
  }

  lemma {:induction false} RevRefusing<N>(s: Forest<N>, acc: Forest<N>)
    requires AllRefuse(s) && AllRefuse(acc)
    ensures AllRefuse(RevOnto(s, acc))
  {
    if s.Cons? { RevRefusing(s.next, Cons(s.c, s.info, s.kids, acc)); }
  }

  lemma {:induction false} KeptRefuse<N>(k: Forest<N>, acc: Forest<N>)
    requires AllRefuse(acc)
    ensures AllRefuse(Keep(k, acc))
  {
    if k.Cons? {
      if Refusing(k.info) {
        KeptRefuse(k.next, Cons(k.c, k.info, k.kids, acc));
      } else {
        KeptRefuse(k.kids, Nil);
        RevRefusing(Keep(k.kids, Nil), acc);
        KeptRefuse(k.next, RevOnto(Keep(k.kids, Nil), acc));
      }
    }
  }

  /** Freeing the first child of a list first hands its refusing children to the list itself. */
  lemma KeepStep<N>(k: Forest<N>, acc: Forest<N>)
    requires k.Cons? && !Refusing(k.info)
    ensures Keep(k, acc) == Keep(Keep(k.kids, k.next), acc)
  {
    KeepConcat(k.kids, Nil, k.next);
    KeptRefuse(k.kids, Nil);
    KeepRefusing(Keep(k.kids, Nil), k.next, acc);
  }

  lemma {:induction false} HandedStep<N>(w: Forest<N>, q: N, k: Forest<N>)
    requires k.Cons? && !Refusing(k.info)
    ensures HandedTo(w, q, k) == HandedTo(w, q, Keep(k.kids, k.next))
  {
    if w.Cons? {
      if w.c == q {
        KeepStep(k, w.kids);
      } else {
        HandedStep(w.kids, q, k);
        HandedStep(w.next, q, k);
      }
    }
  }

  /** The loop of `_talloc_free`, one child at a time: a freed child leaves its refusing children in its place. */
  lemma FreedChild<N>(w: Forest<N>, par: Option<N>, k: Forest<N>)
    requires k.Cons? && !Refusing(k.info)
    ensures Handed(w, par, k) == Handed(w, par, Keep(k.kids, k.next))
  {
    if par.None? { KeepStep(k, w); } else { HandedStep(w, par.value, k); }
  }

  lemma {:induction false} GraftHanded<N>(w: Forest<N>, q: N, k: Forest<N>)
    requires Distinct(w) && k.Cons? && Refusing(k.info) && (Ids(k) !! Ids(w)) && k.c != q
    ensures HandedTo(w, q, k) == HandedTo(Graft(w, q, k.c, k.info, k.kids), q, k.next)
  {
    if w.Cons? && w.c != q {
      GraftHanded(w.kids, q, k);
      GraftHanded(w.next, q, k);
    }
  }

  /** A refusing child goes to the new parent. */
  lemma RefusingChild<N>(w: Forest<N>, par: Option<N>, k: Forest<N>)
    requires Distinct(w) && k.Cons? && Refusing(k.info) && (Ids(k) !! Ids(w)) && (par.Some? ==> par.value in Ids(w))
    ensures Handed(w, par, k) == Handed(Hang(w, par, k.c, k.info, k.kids), par, k.next)
  {
    if par.Some? { GraftHanded(w, par.value, k); }
  }

  lemma {:induction false} NothingHanded<N>(w: Forest<N>, q: N)
    ensures HandedTo(w, q, Nil) == w
  {
    if w.Cons? {
      NothingHanded(w.kids, q);
      NothingHanded(w.next, q);
    }
  }

  // ---------- the survivors ----------

  lemma {:induction false} RevFacts<N>(a: Forest<N>, b: Forest<N>)
    requires Distinct(a) && Distinct(b) && Ids(a) !! Ids(b)
    ensures Ids(RevOnto(a, b)) == Ids(a) + Ids(b) && Distinct(RevOnto(a, b))
  {
    if a.Cons? { RevFacts(a.next, Cons(a.c, a.info, a.kids, b)); }
  }

  lemma {:induction false} FreedInside<N>(k: Forest<N>)
    ensures Freed(k) <= Ids(k) && Topmost(k) <= Ids(k) && (Distinct(k) ==> Topmost(k) !! Freed(k))
  {
    if k.Cons? {
      FreedInside(k.kids);
      FreedInside(k.next);
    }
  }

  /** Of the chunks below a freed one, exactly those in `Freed` are gone. */
  lemma {:induction false} KeepFacts<N>(k: Forest<N>, acc: Forest<N>)
    requires Distinct(k) && Distinct(acc) && Ids(k) !! Ids(acc)
    ensures Ids(Keep(k, acc)) == (Ids(k) - Freed(k)) + Ids(acc) && Distinct(Keep(k, acc))
  {
    if k.Cons? {
      FreedInside(k.kids);
      FreedInside(k.next);
      if Refusing(k.info) {
        KeepFacts(k.next, Cons(k.c, k.info, k.kids, acc));
      } else {
        KeepFacts(k.kids, Nil);
        RevFacts(Keep(k.kids, Nil), acc);
        KeepFacts(k.next, RevOnto(Keep(k.kids, Nil), acc));
      }
    }
  }

  lemma {:induction false} RevFreed<N>(s: Forest<N>, acc: Forest<N>)
    requires AllRefuse(s)
    ensures Freed(RevOnto(s, acc)) == Freed(acc)
  {
    if s.Cons? { RevFreed(s.next, Cons(s.c, s.info, s.kids, acc)); }
  }

  lemma {:induction false} KeepFreed<N>(k: Forest<N>, acc: Forest<N>)
    ensures Freed(Keep(k, acc)) == Freed(acc)
  {
    if k.Cons? {
      if Refusing(k.info) {
        KeepFreed(k.next, Cons(k.c, k.info, k.kids, acc));
      } else {
        KeptRefuse(k.kids, Nil);
        RevFreed(Keep(k.kids, Nil), acc);
        KeepFreed(k.next, RevOnto(Keep(k.kids, Nil), acc));
      }
    }
  }

  /** `y` sits below `par` in the list `g` just as it sits below `from` in the list `f`, with all its children. */
  ghost predicate Alike<N>(g: Forest<N>, par: Option<N>, f: Forest<N>, from: Option<N>, y: N) {
    && y in Ids(f) && y in Ids(g) && ParentIn(g, par, y) == ParentIn(f, from, y)
    && Find(g, y).info == Find(f, y).info && Find(g, y).kids == Find(f, y).kids
  }

  lemma {:induction false} RevAlike<N>(a: Forest<N>, b: Forest<N>, par: Option<N>, y: N)
    requires Distinct(a) && Distinct(b) && (Ids(a) !! Ids(b)) && y in Ids(a) + Ids(b)
    ensures y in Ids(a) ==> Alike(RevOnto(a, b), par, a, par, y)
    ensures y in Ids(b) ==> Alike(RevOnto(a, b), par, b, par, y)
  {
    if a.Cons? { RevAlike(a.next, Cons(a.c, a.info, a.kids, b), par, y); }
  }

  /** Topmost refusing chunks stand directly in the list they were put into. */
  lemma {:induction false} KeepAlike<N>(k: Forest<N>, acc: Forest<N>, par: Option<N>, from: Option<N>, y: N)
    requires Distinct(k) && Distinct(acc) && (Ids(k) !! Ids(acc)) && y in Ids(Keep(k, acc))
    ensures y in Ids(acc) ==> Alike(Keep(k, acc), par, acc, par, y)
    ensures y in Topmost(k) ==> y in Ids(k) && Find(Keep(k, acc), y).info == Find(k, y).info
                                && Find(Keep(k, acc), y).kids == Find(k, y).kids
                                && ParentIn(Keep(k, acc), par, y) == par
    ensures y in Ids(k) - Topmost(k) ==> Alike(Keep(k, acc), par, k, from, y)
  {
    KeepFacts(k, acc);
    if k.Cons? {
      FreedInside(k.kids);
      FreedInside(k.next);
      FreedInside(k);
      if Refusing(k.info) {
        KeepAlike(k.next, Cons(k.c, k.info, k.kids, acc), par, from, y);
      } else {
        var s := Keep(k.kids, Nil);
        KeepFacts(k.kids, Nil);
        RevFacts(s, acc);
        KeepAlike(k.next, RevOnto(s, acc), par, from, y);
        if y in Ids(s) + Ids(acc) { RevAlike(s, acc, par, y); }
        if y in Ids(s) { KeepAlike(k.kids, Nil, par, Some(k.c), y); }
      }
    }
  }

  lemma {:induction false} RevCount<N>(a: Forest<N>, b: Forest<N>)
    ensures Count(RevOnto(a, b)) == Count(a) + Count(b)
  {
    if a.Cons? { RevCount(a.next, Cons(a.c, a.info, a.kids, b)); }
  }

  lemma {:induction false} KeepCount<N>(k: Forest<N>, acc: Forest<N>)
    ensures Count(Keep(k, acc)) <= Count(k) + Count(acc)
  {
    if k.Cons? {
      if Refusing(k.info) {
        KeepCount(k.next, Cons(k.c, k.info, k.kids, acc));
      } else {
        KeepCount(k.kids, Nil);
        RevCount(Keep(k.kids, Nil), acc);
        KeepCount(k.next, RevOnto(Keep(k.kids, Nil), acc));
      }
    }
  }

  lemma {:induction false} HandedFacts<N>(w: Forest<N>, q: N, k: Forest<N>)
    requires Distinct(w) && q in Ids(w) && Distinct(k) && Ids(k) !! Ids(w)
    ensures Ids(HandedTo(w, q, k)) == Ids(w) + (Ids(k) - Freed(k)) && Distinct(HandedTo(w, q, k))
  {
    if w.c == q {
      KeepFacts(k, w.kids);
    } else if q in Ids(w.kids) {
      HandedFacts(w.kids, q, k);
      HandedAbsent(w.next, q, k);
    } else {
      HandedFacts(w.next, q, k);
      HandedAbsent(w.kids, q, k);
    }
  }

  lemma {:induction false} HandedAbsent<N>(w: Forest<N>, q: N, k: Forest<N>)
    requires q !in Ids(w)
    ensures HandedTo(w, q, k) == w
  {
    if w.Cons? {
      HandedAbsent(w.kids, q, k);
      HandedAbsent(w.next, q, k);
    }
  }

  /** What becomes of a survivor `y` of the list `k`, now in the forest `g`: a topmost refusing chunk stands below
      `par`, the others below the same parent as before; all keep their fields and children. */
  ghost predicate Survives<N>(g: Forest<N>, above: Option<N>, par: Option<N>, k: Forest<N>, from: Option<N>, y: N) {
    && y in Ids(k) && y in Ids(g) && Find(g, y).info == Find(k, y).info && Find(g, y).kids == Find(k, y).kids
    && ParentIn(g, above, y) == if y in Topmost(k) then par else ParentIn(k, from, y)
  }

  /** The place of a chunk that was not below the freed one. */
  ghost predicate Stays<N>(g: Forest<N>, f: Forest<N>, above: Option<N>, y: N) {
    && y in Ids(f) && y in Ids(g) && ParentIn(g, above, y) == ParentIn(f, above, y)
    && Find(g, y).info == Find(f, y).info
  }

  lemma KeepSurvivor<N>(k: Forest<N>, acc: Forest<N>, par: Option<N>, from: Option<N>, y: N)
    requires Distinct(k) && Distinct(acc) && Ids(k) !! Ids(acc)
    ensures y in Ids(acc) ==> Stays(Keep(k, acc), acc, par, y)
    ensures y in Ids(k) - Freed(k) ==> Survives(Keep(k, acc), par, par, k, from, y)
  {
    KeepFacts(k, acc);
    if y in Ids(Keep(k, acc)) { KeepAlike(k, acc, par, from, y); }
  }

  lemma {:induction false} HandedSurvivor<N>(w: Forest<N>, above: Option<N>, q: N, k: Forest<N>, from: Option<N>, y: N)
    requires Distinct(w) && q in Ids(w) && Distinct(k) && Ids(k) !! Ids(w)
    ensures y in Ids(w) ==> Stays(HandedTo(w, q, k), w, above, y)
    ensures y in Ids(k) - Freed(k) ==> Survives(HandedTo(w, q, k), above, Some(q), k, from, y)
  {
    HandedFacts(w, q, k);
    if w.c == q {
      KeepFacts(k, w.kids);
      KeepSurvivor(k, w.kids, Some(q), from, y);
    } else if q in Ids(w.kids) {
      HandedFacts(w.kids, q, k);
      HandedAbsent(w.next, q, k);
      HandedSurvivor(w.kids, Some(w.c), q, k, from, y);
    } else {
      HandedFacts(w.next, q, k);
      HandedAbsent(w.kids, q, k);
      HandedSurvivor(w.next, above, q, k, from, y);
    }
  }

  lemma {:induction false} ParentElsewhere<N>(f: Forest<N>, par: Option<N>, x: N)
    requires Distinct(f) && x in Ids(f)
    ensures ParentIn(f, par, x) == par || (ParentIn(f, par, x).Some? && ParentIn(f, par, x).value in Ids(Cut(f, x)))
  {
    if f.c != x {
      if x in Ids(f.kids) {
        CutAbsent(f.next, x);
        ParentElsewhere(f.kids, Some(f.c), x);
      } else {
        CutAbsent(f.kids, x);
        ParentElsewhere(f.next, par, x);
      }
    }
  }

  /** Freeing `c` removes `c` and everything reached from it without passing a refusing chunk, and nothing else. */
  lemma ReleasedFacts<N>(w: Forest<N>, c: N)
    requires Distinct(w) && c in Ids(w)
    ensures Ids(Released(w, c)) == Ids(w) - {c} - Freed(Find(w, c).kids) && Distinct(Released(w, c))
  {
    var t := Find(w, c);
    TreeFacts(w, c);
    CutFacts(w, c);
    FreedInside(t.kids);
    ParentElsewhere(w, None, c);
    if ParentOf(w, c).None? {
      KeepFacts(t.kids, Cut(w, c));
    } else {
      HandedFacts(Cut(w, c), ParentOf(w, c).value, t.kids);
    }
  }

  /** Every surviving chunk keeps its fields and its parent, except that the topmost refusing chunks below `c` have the
      former parent of `c`; whatever survived below `c` keeps its whole subtree. */
  lemma ReleasedSurvivor<N>(w: Forest<N>, c: N, y: N)
    requires Distinct(w) && c in Ids(w) && y in Ids(w) - {c} - Freed(Find(w, c).kids)
    ensures y in Ids(Released(w, c)) && Find(Released(w, c), y).info == Find(w, y).info
    ensures ParentOf(Released(w, c), y) == if y in Topmost(Find(w, c).kids) then ParentOf(w, c) else ParentOf(w, y)
    ensures y in Ids(Find(w, c).kids) ==> Find(Released(w, c), y).kids == Find(w, y).kids
  {
    var t := Find(w, c);
    TreeFacts(w, c);
    CutFacts(w, c);
    FreedInside(t.kids);
    ParentElsewhere(w, None, c);
    ReleasedFacts(w, c);
    if y in Ids(t.kids) {
      TreeParent(w, None, c, y);
      FindInTree(w, c, y);
    } else {
      CutParent(w, None, c, y);
      CutInfo(w, c, y);
    }
    if ParentOf(w, c).None? {
      KeepSurvivor(t.kids, Cut(w, c), None, Some(c), y);
    } else {
      HandedSurvivor(Cut(w, c), None, ParentOf(w, c).value, t.kids, Some(c), y);
    }
  }

  lemma {:induction false} FindInTree<N>(f: Forest<N>, x: N, y: N)
    requires Distinct(f) && x in Ids(f) && y in Ids(Find(f, x).kids)
    ensures y in Ids(f) && Find(f, y) == Find(Find(f, x).kids, y)
  {
    TreeFacts(f, x);
    if f.c != x {
      if x in Ids(f.kids) {
        TreeFacts(f.kids, x);
        FindInTree(f.kids, x, y);
      } else {
        TreeFacts(f.next, x);
        FindInTree(f.next, x, y);
      }
    }
  }

  lemma {:induction false} CutInfo<N>(f: Forest<N>, x: N, y: N)
    requires Distinct(f) && x in Ids(f) && y in Ids(Cut(f, x))
    ensures y in Ids(f) && Find(Cut(f, x), y).info == Find(f, y).info
  {
    CutFacts(f, x);
    TreeFacts(f, x);
    if f.c != x {
      if x in Ids(f.kids) {
        CutAbsent(f.next, x);
        CutFacts(f.kids, x);
        if y in Ids(Cut(f.kids, x)) { CutInfo(f.kids, x, y); }
      } else {
        CutAbsent(f.kids, x);
        CutFacts(f.next, x);
        if y in Ids(Cut(f.next, x)) { CutInfo(f.next, x, y); }
      }
    }
  }

  // ---------- reachability ----------

  /** `a` is `y` or above it. */
  ghost predicate Above<N>(k: Forest<N>, a: N, y: N) {
    a in Ids(k) && y in TreeIds(k, a)
  }

  /** A chunk is freed exactly when no refusing chunk stands on its way up. */
  lemma {:induction false} FreedIff<N>(k: Forest<N>, y: N)
    requires Distinct(k) && y in Ids(k)
    ensures y in Freed(k) <==> forall a :: a in Ids(k) && Above(k, a, y) ==> !Refusing(Find(k, a).info)
  {
    FreedInside(k.kids);
    FreedInside(k.next);
    forall a | a in Ids(k) ensures Distinct(Find(k, a).kids) && Ids(Find(k, a).kids) <= Ids(k) { TreeFacts(k, a); }
    forall a | a in Ids(k.kids) ensures Ids(Find(k.kids, a).kids) <= Ids(k.kids) { TreeFacts(k.kids, a); }
    forall a | a in Ids(k.next) ensures Ids(Find(k.next, a).kids) <= Ids(k.next) { TreeFacts(k.next, a); }
    if y in Ids(k.kids) {
      FreedIff(k.kids, y);
      assert Above(k, k.c, y);
      assert forall a :: a in Ids(k.kids) ==>
        (Above(k.kids, a, y) <==> Above(k, a, y)) && Find(k.kids, a) == Find(k, a);
    } else if y in Ids(k.next) {
      FreedIff(k.next, y);
      assert forall a :: a in Ids(k.next) ==>
        (Above(k.next, a, y) <==> Above(k, a, y)) && Find(k.next, a) == Find(k, a);
    } else {
      assert Above(k, k.c, y);
    }
  }
}
