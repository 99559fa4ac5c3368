/**
 What moving, freeing and replacing chunks does to a forest, as functions on values, and what those
 functions keep: the parent of every other chunk, the chunks themselves, the total size.
 */
module Transfers {
  import opened Forests

  // ---------- moving one tree ----------

  /** The forest with a tree as new first child of `par`, or as a top-level tree. */
  ghost function Hang<N>(w: Forest<N>, par: Option<N>, c: N, i: Info<N>, k: Forest<N>): Forest<N> {
    match par
    case None => Cons(c, i, k, w)
    case Some(q) => Graft(w, q, c, i, k)
  }

  /** The forest after the tree at `x` has moved below `par`. */
  ghost function Moved<N>(w: Forest<N>, x: N, par: Option<N>): Forest<N>
    requires x in Ids(w)
  {
    Hang(Cut(w, x), par, x, Find(w, x).info, Find(w, x).kids)
  }

  ghost function TreeIds<N>(w: Forest<N>, x: N): set<N>
    requires x in Ids(w)
  {
    {x} + Ids(Find(w, x).kids)
  }

  lemma {:induction false} TreeFacts<N>(f: Forest<N>, x: N)
    requires Distinct(f) && x in Ids(f)
    ensures Distinct(Find(f, x).kids) && x !in Ids(Find(f, x).kids) && Ids(Find(f, x).kids) <= Ids(f)
  {
    if f.c != x {
      if x in Ids(f.kids) { TreeFacts(f.kids, x); } else { TreeFacts(f.next, x); }
    }
  }

  lemma {:induction false} CutFacts<N>(f: Forest<N>, x: N)
    requires Distinct(f) && x in Ids(f)
    ensures Distinct(Cut(f, x)) && Ids(Cut(f, x)) == Ids(f) - TreeIds(f, x)
  {
    TreeFacts(f, x);
    if f.c != x {
      if x in Ids(f.kids) {
        TreeFacts(f.kids, x);
        CutFacts(f.kids, x);
        CutAbsent(f.next, x);
      } else {
        TreeFacts(f.next, x);
        CutFacts(f.next, x);
        CutAbsent(f.kids, x);
      }
    }
  }

  lemma {:induction false} CutParent<N>(f: Forest<N>, par: Option<N>, x: N, y: N)
    requires Distinct(f) && x in Ids(f) && y in Ids(Cut(f, x))
    ensures y in Ids(f) && ParentIn(Cut(f, x), par, y) == ParentIn(f, par, y)
  {
    CutFacts(f, x);
    TreeFacts(f, x);
    if f.c != x {
      if x in Ids(f.kids) {
        CutAbsent(f.next, x);
        CutFacts(f.kids, x);
        if y in Ids(Cut(f.kids, x)) { CutParent(f.kids, Some(f.c), x, y); }
      } else {
        CutAbsent(f.kids, x);
        CutFacts(f.next, x);
        if y in Ids(Cut(f.next, x)) { CutParent(f.next, par, x, y); }
      }
    }
  }

  lemma {:induction false} GraftFacts<N>(f: Forest<N>, q: N, c: N, i: Info<N>, k: Forest<N>)
    requires Distinct(f) && q in Ids(f) && c !in Ids(f) && c !in Ids(k) && Distinct(k) && Ids(k) !! Ids(f)
    ensures Distinct(Graft(f, q, c, i, k)) && Ids(Graft(f, q, c, i, k)) == Ids(f) + {c} + Ids(k)
  {
    if f.c != q {
      if q in Ids(f.kids) {
        GraftFacts(f.kids, q, c, i, k);
        GraftAbsent(f.next, q, c, i, k);
      } else {
        GraftFacts(f.next, q, c, i, k);
        GraftAbsent(f.kids, q, c, i, k);
      }
    }
  }

  /** Grafting gives the new chunk its parent and leaves everyone else's alone. */
  lemma {:induction false} GraftParent<N>(f: Forest<N>, par: Option<N>, q: N, c: N, i: Info<N>, k: Forest<N>, y: N)
    requires Distinct(f) && q in Ids(f) && c !in Ids(f) && c !in Ids(k) && Distinct(k) && Ids(k) !! Ids(f)
    requires y in Ids(f) + {c} + Ids(k)
    ensures ParentIn(Graft(f, q, c, i, k), par, y) ==
            if y == c then Some(q) else if y in Ids(k) then ParentIn(k, Some(c), y) else ParentIn(f, par, y)
  {
    if f.c != q {
      if q in Ids(f.kids) {
        GraftFacts(f.kids, q, c, i, k);
        GraftAbsent(f.next, q, c, i, k);
        if y in Ids(f.kids) + {c} + Ids(k) { GraftParent(f.kids, Some(f.c), q, c, i, k, y); }
      } else {
        GraftFacts(f.next, q, c, i, k);
        GraftAbsent(f.kids, q, c, i, k);
        if y in Ids(f.next) + {c} + Ids(k) { GraftParent(f.next, par, q, c, i, k, y); }
      }
    }
  }

  lemma {:induction false} GraftedInfo<N>(f: Forest<N>, q: N, c: N, i: Info<N>, k: Forest<N>, y: N)
    requires Distinct(f) && q in Ids(f) && c !in Ids(f) && c !in Ids(k) && Distinct(k) && Ids(k) !! Ids(f)
    requires y in Ids(f) + {c} + Ids(k)
    ensures y in Ids(Graft(f, q, c, i, k))
    ensures Find(Graft(f, q, c, i, k), y).info == if y == c then i else if y in Ids(k) then Find(k, y).info
            else Find(f, y).info
  {
    GraftFacts(f, q, c, i, k);
    if f.c == q {
      if y in {c} + Ids(k) + Ids(f.kids) {
        assert y in Ids(Cons(c, i, k, f.kids));
      }
    } else if q in Ids(f.kids) {
      GraftFacts(f.kids, q, c, i, k);
      GraftAbsent(f.next, q, c, i, k);
      if y in Ids(f.kids) + {c} + Ids(k) { GraftedInfo(f.kids, q, c, i, k, y); }
    } else {
      GraftFacts(f.next, q, c, i, k);
      GraftAbsent(f.kids, q, c, i, k);
      if y in Ids(f.next) + {c} + Ids(k) { GraftedInfo(f.next, q, c, i, k, y); }
    }
  }

  lemma {:induction false} TreeParent<N>(f: Forest<N>, par: Option<N>, x: N, y: N)
    requires Distinct(f) && x in Ids(f) && y in Ids(Find(f, x).kids)
    ensures ParentIn(f, par, y) == ParentIn(Find(f, x).kids, Some(x), y)
  {
    TreeFacts(f, x);
    if f.c != x {
      if x in Ids(f.kids) {
        TreeFacts(f.kids, x);
        TreeParent(f.kids, Some(f.c), x, y);
      } else {
        TreeFacts(f.next, x);
        TreeParent(f.next, par, x, y);
      }
    }
  }

  /** The new place of a moved tree is legal when it is outside the tree. */
  ghost predicate CanMove<N>(w: Forest<N>, x: N, par: Option<N>) {
    x in Ids(w) && (par.Some? ==> par.value in Ids(w) && par.value !in TreeIds(w, x))
  }

  lemma MovedFacts<N>(w: Forest<N>, x: N, par: Option<N>)
    requires Distinct(w) && CanMove(w, x, par)
    ensures Distinct(Moved(w, x, par)) && Ids(Moved(w, x, par)) == Ids(w)
  {
    TreeFacts(w, x);
    CutFacts(w, x);
    if par.Some? { GraftFacts(Cut(w, x), par.value, x, Find(w, x).info, Find(w, x).kids); }
  }

  /** A move loses no chunk exactly when the new parent is outside the moved tree; otherwise the whole tree goes. */
  lemma MoveKeepsAll<N>(w: Forest<N>, x: N, par: Option<N>)
    requires Distinct(w) && x in Ids(w) && (par.Some? ==> par.value in Ids(w))
    ensures Ids(Moved(w, x, par)) == Ids(w) <==> CanMove(w, x, par)
    ensures !CanMove(w, x, par) ==> Moved(w, x, par) == Cut(w, x)
  {
    TreeFacts(w, x);
    CutFacts(w, x);
    if CanMove(w, x, par) {
      MovedFacts(w, x, par);
    } else {
      GraftAbsent(Cut(w, x), par.value, x, Find(w, x).info, Find(w, x).kids);
    }
  }

  /** A move changes the parent of the moved chunk and of no other. */
  lemma MovedParent<N>(w: Forest<N>, x: N, par: Option<N>, y: N)
    requires Distinct(w) && CanMove(w, x, par) && y in Ids(w)
    ensures ParentOf(Moved(w, x, par), y) == if y == x then par else ParentOf(w, y)
  {
    TreeFacts(w, x);
    CutFacts(w, x);
    var t := Find(w, x);
    if y in Ids(t.kids) { TreeParent(w, None, x, y); }
    if y in Ids(Cut(w, x)) { CutParent(w, None, x, y); }
    if par.Some? { GraftParent(Cut(w, x), None, par.value, x, t.info, t.kids, y); }
  }

  // ---------- totals ----------

  /** What is added up over a tree: the sizes of the chunks, or their number. */
  datatype Measure = Bytes | Blocks

  ghost function Amount<N>(m: Measure, i: Info<N>): nat {
    if m.Blocks? then 1 else i.size
  }

  ghost function Total<N>(m: Measure, f: Forest<N>): nat {
    match f
    case Nil => 0
    case Cons(_, i, k, n) => Amount(m, i) + Total(m, k) + Total(m, n)
  }

  /** The total over the tree at `x`. */
  ghost function Weight<N>(m: Measure, f: Forest<N>, x: N): nat
    requires x in Ids(f)
  {
    Amount(m, Find(f, x).info) + Total(m, Find(f, x).kids)
  }

  lemma {:induction false} CutTotal<N>(m: Measure, f: Forest<N>, x: N)
    requires Distinct(f) && x in Ids(f)
    ensures Total(m, Cut(f, x)) + Weight(m, f, x) == Total(m, f)
  {
    if f.c != x {
      if x in Ids(f.kids) {
        CutTotal(m, f.kids, x);
        CutAbsent(f.next, x);
      } else {
        CutTotal(m, f.next, x);
        CutAbsent(f.kids, x);
      }
    }
  }

  lemma {:induction false} GraftTotal<N>(m: Measure, f: Forest<N>, q: N, c: N, i: Info<N>, k: Forest<N>)
    requires Distinct(f) && q in Ids(f)
    ensures Total(m, Graft(f, q, c, i, k)) == Total(m, f) + Amount(m, i) + Total(m, k)
  {
    if f.c != q {
      if q in Ids(f.kids) {
        GraftTotal(m, f.kids, q, c, i, k);
        GraftAbsent(f.next, q, c, i, k);
      } else {
        GraftTotal(m, f.next, q, c, i, k);
        GraftAbsent(f.kids, q, c, i, k);
      }
    }
  }

  lemma {:induction false} CutWeight<N>(m: Measure, f: Forest<N>, x: N, y: N)
    requires Distinct(f) && x in Ids(f) && y in Ids(Cut(f, x))
    ensures y in Ids(f)
    ensures Weight(m, f, y) == Weight(m, Cut(f, x), y) + if x in Ids(Find(f, y).kids) then Weight(m, f, x) else 0
  {
    CutFacts(f, x);
    TreeFacts(f, x);
    TreeFacts(f, y);
    if f.c != x {
      if x in Ids(f.kids) {
        CutAbsent(f.next, x);
        CutFacts(f.kids, x);
        if y == f.c {
          CutTotal(m, f.kids, x);
        } else if y in Ids(f.kids) {
          CutWeight(m, f.kids, x, y);
        } else {
          TreeFacts(f.next, y);
        }
      } else {
        CutAbsent(f.kids, x);
        CutFacts(f.next, x);
        if y in Ids(f.kids) {
          TreeFacts(f.kids, y);
        } else if y != f.c {
          CutWeight(m, f.next, x, y);
        }
      }
    } else {
      TreeFacts(f.next, y);
    }
  }

  lemma {:induction false} GraftWeight<N>(m: Measure, f: Forest<N>, q: N, c: N, i: Info<N>, k: Forest<N>, y: N)
    requires Distinct(f) && q in Ids(f) && c !in Ids(f) && c !in Ids(k) && Distinct(k) && Ids(k) !! Ids(f)
    requires y in Ids(f)
    ensures y in Ids(Graft(f, q, c, i, k))
    ensures Weight(m, Graft(f, q, c, i, k), y) ==
            Weight(m, f, y) + if q in TreeIds(f, y) then Amount(m, i) + Total(m, k) else 0
  {
    GraftFacts(f, q, c, i, k);
    TreeFacts(f, y);
    if f.c != q {
      if q in Ids(f.kids) {
        GraftFacts(f.kids, q, c, i, k);
        GraftAbsent(f.next, q, c, i, k);
        if y == f.c {
          GraftTotal(m, f.kids, q, c, i, k);
        } else if y in Ids(f.kids) {
          GraftWeight(m, f.kids, q, c, i, k, y);
        } else {
          TreeFacts(f.next, y);
        }
      } else {
        GraftAbsent(f.kids, q, c, i, k);
        GraftFacts(f.next, q, c, i, k);
        if y in Ids(f.kids) {
          TreeFacts(f.kids, y);
        } else if y != f.c {
          GraftWeight(m, f.next, q, c, i, k, y);
        }
      }
    } else if y != f.c {
      if y in Ids(f.kids) {
        TreeFacts(f.kids, y);
        assert Find(Cons(c, i, k, f.kids), y) == Find(f.kids, y);
      } else {
        TreeFacts(f.next, y);
      }
    }
  }

  /** A move conserves the grand total; it takes the weight of the tree from every old ancestor and gives it to every
      new one. */
  lemma MovedTotals<N>(m: Measure, w: Forest<N>, x: N, par: Option<N>, y: N)
    requires Distinct(w) && CanMove(w, x, par) && y in Ids(w) - TreeIds(w, x)
    ensures Total(m, Moved(w, x, par)) == Total(m, w)
    ensures y in Ids(Moved(w, x, par))
    ensures Weight(m, Moved(w, x, par), y) ==
            Weight(m, w, y) - (if x in Ids(Find(w, y).kids) then Weight(m, w, x) else 0)
            + (if par.Some? && par.value in TreeIds(w, y) then Weight(m, w, x) else 0)
  {
    MovedFacts(w, x, par);
    TreeFacts(w, x);
    CutFacts(w, x);
    CutTotal(m, w, x);
    CutWeight(m, w, x, y);
    var t := Find(w, x);
    if par.Some? {
      GraftTotal(m, Cut(w, x), par.value, x, t.info, t.kids);
      GraftWeight(m, Cut(w, x), par.value, x, t.info, t.kids, y);
      CutInTree(w, x, y, par.value);
    }
  }

  lemma {:induction false} CutInTree<N>(f: Forest<N>, x: N, y: N, q: N)
    requires Distinct(f) && x in Ids(f) && y in Ids(Cut(f, x)) && q in Ids(Cut(f, x))
    ensures y in Ids(f) && (q in TreeIds(Cut(f, x), y) <==> q in TreeIds(f, y))
  {
    CutFacts(f, x);
    TreeFacts(f, x);
    TreeFacts(f, y);
    TreeFacts(Cut(f, x), y);
    if f.c != x {
      if x in Ids(f.kids) {
        CutAbsent(f.next, x);
        CutFacts(f.kids, x);
        if y != f.c && y in Ids(f.kids) {
          TreeFacts(f.kids, y);
          TreeFacts(Cut(f.kids, x), y);
          if q in Ids(Cut(f.kids, x)) { CutInTree(f.kids, x, y, q); }
        }
      } else {
        CutAbsent(f.kids, x);
        CutFacts(f.next, x);
        if y != f.c && y in Ids(f.next) {
          TreeFacts(f.next, y);
          TreeFacts(Cut(f.next, x), y);
          if q in Ids(Cut(f.next, x)) { CutInTree(f.next, x, y, q); }
        }
      }
    }
  }
}
