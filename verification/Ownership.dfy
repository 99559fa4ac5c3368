/**
 Owners: a chunk belongs to its parent and to the parents of the handles that refer to it. What every
 operation keeps of the bookkeeping between handles and the lists they are in.
 */
module Ownership {
  import opened Forests
  import opened Transfers
  import opened Releases
  import opened Realloc

  // ---------- tidy forests ----------

  /** At rest, and handles have no children. */
  ghost predicate Tidy<N>(f: Forest<N>) {
    f.Cons? ==> f.info.tie.Tied? && !f.info.loop && (f.info.des.Handle? ==> f.kids.Nil?) && Tidy(f.kids) && Tidy(f.next)
  }

  lemma {:induction false} TidyCalm<N>(f: Forest<N>)
    requires Tidy(f)
    ensures Calm(f)
  {
    if f.Cons? {
      TidyCalm(f.kids);
      TidyCalm(f.next);
    }
  }

  lemma {:induction false} TidyTree<N>(f: Forest<N>, x: N)
    requires Tidy(f) && x in Ids(f)
    ensures Tidy(Find(f, x))
  {
    if f.c != x {
      if x in Ids(f.kids) { TidyTree(f.kids, x); } else { TidyTree(f.next, x); }
    }
  }

  lemma {:induction false} TidyCut<N>(f: Forest<N>, x: N)
    requires Tidy(f)
    ensures Tidy(Cut(f, x))
  {
    if f.Cons? {
      TidyCut(f.kids, x);
      TidyCut(f.next, x);
    }
  }

  ghost predicate IsHandle<N>(f: Forest<N>, x: N)
    requires x in Ids(f)
  {
    Find(f, x).info.des.Handle?
  }

  lemma {:induction false} TidyGraft<N>(f: Forest<N>, q: N, c: N, i: Info<N>, k: Forest<N>)
    requires Distinct(f) && q in Ids(f) && !IsHandle(f, q) && Tidy(f) && Tidy(Cons(c, i, k, Nil))
    ensures Tidy(Graft(f, q, c, i, k))
  {
    if f.c != q {
      if q in Ids(f.kids) {
        TidyGraft(f.kids, q, c, i, k);
        GraftAbsent(f.next, q, c, i, k);
      } else {
        TidyGraft(f.next, q, c, i, k);
        GraftAbsent(f.kids, q, c, i, k);
      }
    }
  }

  lemma {:induction false} ParentNoHandle<N>(f: Forest<N>, par: Option<N>, x: N)
    requires Distinct(f) && Tidy(f) && x in Ids(f)
    ensures var q := ParentIn(f, par, x); q == par || (q.Some? && q.value in Ids(f) && !IsHandle(f, q.value))
  {
    if f.c != x {
      if x in Ids(f.kids) { ParentNoHandle(f.kids, Some(f.c), x); } else { ParentNoHandle(f.next, par, x); }
    }
  }

  lemma TidyMoved<N>(w: Forest<N>, x: N, par: Option<N>)
    requires Distinct(w) && Tidy(w) && CanMove(w, x, par) && (par.Some? ==> !IsHandle(w, par.value))
    ensures Tidy(Moved(w, x, par))
  {
    TidyTree(w, x);
    TidyCut(w, x);
    CutFacts(w, x);
    if par.Some? {
      CutInfo(w, x, par.value);
      TidyGraft(Cut(w, x), par.value, x, Find(w, x).info, Find(w, x).kids);
    }
  }

  lemma {:induction false} TidyRenamed<N>(f: Forest<N>, a: N, b: N, size: nat)
    requires Tidy(f)
    ensures Tidy(Renamed(f, a, b, size))
  {
    if f.Cons? {
      TidyRenamed(f.kids, a, b, size);
      TidyRenamed(f.next, a, b, size);
    }
  }

  // ---------- fields of chunks ----------

  lemma MovedInfo<N>(w: Forest<N>, x: N, par: Option<N>, y: N)
    requires Distinct(w) && CanMove(w, x, par) && y in Ids(w)
    ensures y in Ids(Moved(w, x, par)) && Find(Moved(w, x, par), y).info == Find(w, y).info
  {
    MovedFacts(w, x, par);
    TreeFacts(w, x);
    CutFacts(w, x);
    var t := Find(w, x);
    if y in Ids(t.kids) { FindInTree(w, x, y); }
    if y in Ids(Cut(w, x)) { CutInfo(w, x, y); }
    if par.Some? { GraftedInfo(Cut(w, x), par.value, x, t.info, t.kids, y); }
  }

  // ---------- setting a destructor ----------

  ghost function WithDes<N>(f: Forest<N>, c: N, d: Destructor<N>): Forest<N> {
    match f
    case Nil => Nil
    case Cons(x, i, k, n) => Cons(x, if x == c then i.(des := d) else i, WithDes(k, c, d), WithDes(n, c, d))
  }

  lemma {:induction false} WithDesAbsent<N>(f: Forest<N>, c: N, d: Destructor<N>)
    requires c !in Ids(f)
    ensures WithDes(f, c, d) == f
  {
    if f.Cons? {
      WithDesAbsent(f.kids, c, d);
      WithDesAbsent(f.next, c, d);
    }
  }

  lemma {:induction false} WithDesInside<N>(p: Place<N>, f: Forest<N>, c: N, d: Destructor<N>)
    requires c !in PlaceIds(p)
    ensures WithDes(Plug(p, f), c, d) == Plug(p, WithDes(f, c, d))
  {
    if !p.Top? {
      WithDesInside(p.up, Fill(p, f), c, d);
      if p.InKids? { WithDesAbsent(p.next, c, d); } else { WithDesAbsent(p.kids, c, d); }
    }
  }

  lemma {:induction false} WithDesGraft<N>(w: Forest<N>, q: N, h: N, i: Info<N>, d: Destructor<N>)
    requires h !in Ids(w)
    ensures WithDes(Graft(w, q, h, i, Nil), h, d) == Graft(w, q, h, i.(des := d), Nil)
  {
    if w.Cons? {
      if w.c == q {
        WithDesAbsent(w.kids, h, d);
        WithDesAbsent(w.next, h, d);
        assert WithDes(Cons(h, i, Nil, w.kids), h, d) == Cons(h, i.(des := d), Nil, w.kids);
      } else {
        WithDesGraft(w.kids, q, h, i, d);
        WithDesGraft(w.next, q, h, i, d);
      }
    }
  }

  lemma WithDesHang<N>(w: Forest<N>, o: Option<N>, h: N, i: Info<N>, d: Destructor<N>)
    requires h !in Ids(w)
    ensures WithDes(Hang(w, o, h, i, Nil), h, d) == Hang(w, o, h, i.(des := d), Nil)
  {
    if o.Some? { WithDesGraft(w, o.value, h, i, d); } else { WithDesAbsent(w, h, d); }
  }

  lemma {:induction false} WithDesFacts<N>(f: Forest<N>, c: N, d: Destructor<N>)
    ensures Ids(WithDes(f, c, d)) == Ids(f)
    ensures Distinct(f) ==> Distinct(WithDes(f, c, d))
    ensures Tidy(f) && !d.Handle? ==> Tidy(WithDes(f, c, d))
  {
    if f.Cons? {
      WithDesFacts(f.kids, c, d);
      WithDesFacts(f.next, c, d);
    }
  }

  lemma {:induction false} WithDesInfo<N>(f: Forest<N>, c: N, d: Destructor<N>, y: N)
    requires y in Ids(f)
    ensures y in Ids(WithDes(f, c, d))
    ensures Find(WithDes(f, c, d), y).info == if y == c then Find(f, y).info.(des := d) else Find(f, y).info
  {
    if f.c != y {
      WithDesFacts(f.kids, c, d);
      if y in Ids(f.kids) { WithDesInfo(f.kids, c, d, y); } else { WithDesInfo(f.next, c, d, y); }
    }
  }
}
