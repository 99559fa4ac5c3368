/**
 Forests with a stack of chunks that are being freed in front, the innermost one first. All other chunks stand in their
 lists. What cutting, moving and leaving do to such a forest.
 */
module Stacks {
  import opened Forests
  import opened Transfers
  import opened Releases
  import opened RefMaps
  import opened Ownership
  import opened Drains

  /** Handles have no children. */
  ghost predicate Neat<N>(f: Forest<N>) {
    f.Cons? ==> (f.info.des.Handle? ==> f.kids.Nil?) && Neat(f.kids) && Neat(f.next)
  }

  /** What stays the same while the chunks `dom` are torn down: where the outermost one had its parent and, if there was
      one, its predecessor. Neither belongs to `dom`. */
  datatype Zone<N> = Zone(dom: set<N>, home: Option<N>, old': Option<N>)

  ghost predicate Outer<N>(z: Zone<N>) {
    (z.home.Some? ==> z.home.value !in z.dom) && (z.old'.Some? ==> z.old'.value !in z.dom)
  }

  /** The old links of a chunk lead to the next one on the stack. Those of the outermost one lead home, through the old
      predecessor if there was one. */
  ghost predicate Remembers<N>(w: Forest<N>, st: seq<N>, z: Zone<N>)
    requires w.Cons? && w.info.tie.Loose? && st != []
  {
    if |st| > 1 then w.info.tie == Loose(None, Some(st[1]))
    else
      && w.info.tie.prev == z.old' && (z.old'.None? ==> w.info.tie.parent == z.home)
      && (z.home.Some? ==> z.home.value in Ids(w.next))
      && (z.old'.Some? && z.old'.value in Ids(w.next) ==> ParentOf(w.next, z.old'.value) == z.home)
  }

  ghost predicate Stack<N>(w: Forest<N>, st: seq<N>, z: Zone<N>)
    decreases |st|
  {
    if st == [] then Calm(w)
    else
      && w.Cons? && w.c == st[0] && w.info.tie.Loose? && w.info.loop && w.info.des == NoDestructor && Calm(w.kids)
      && w.c in z.dom && Ids(w.kids) <= z.dom && Remembers(w, st, z) && Stack(w.next, st[1..], z)
  }

  /** `h` is a handle to `x`, and nobody refers to it. */
  ghost predicate Proper<N>(w: Forest<N>, t: RefMap<N>, x: N, h: N) {
    h in Ids(w) && Find(w, h).info.des == Handle(x) && RefsOf(t, h) == []
  }

  ghost predicate Named<N>(w: Forest<N>, t: RefMap<N>) {
    (forall x :: x in t ==> NoDup(t[x])) && (forall x, h :: x in t && h in RefsOf(t, x) ==> Proper(w, t, x, h))
  }

  ghost predicate Fit<N>(w: Forest<N>, t: RefMap<N>, st: seq<N>, z: Zone<N>) {
    && Distinct(w) && Neat(w) && Stack(w, st, z) && Named(w, t) && Outer(z) && (forall x :: x in st ==> x !in t)
    && (st != [] && z.home.Some? ==> z.home.value in Ids(w) && !IsHandle(w, z.home.value))
  }

  // ---------- handles ----------

  lemma {:induction false} NeatLeaf<N>(f: Forest<N>, h: N)
    requires Neat(f) && h in Ids(f) && IsHandle(f, h)
    ensures Find(f, h).kids.Nil?
  {
    if f.c != h {
      if h in Ids(f.kids) { NeatLeaf(f.kids, h); } else { NeatLeaf(f.next, h); }
    }
  }

  lemma {:induction false} NeatCut<N>(f: Forest<N>, x: N)
    requires Neat(f)
    ensures Neat(Cut(f, x))
  {
    if f.Cons? {
      NeatCut(f.kids, x);
      NeatCut(f.next, x);
    }
  }

  lemma {:induction false} NeatTree<N>(f: Forest<N>, x: N)
    requires Neat(f) && x in Ids(f)
    ensures Neat(Find(f, x))
  {
    if f.c != x {
      if x in Ids(f.kids) { NeatTree(f.kids, x); } else { NeatTree(f.next, x); }
    }
  }

  lemma {:induction false} NeatGraft<N>(f: Forest<N>, q: N, c: N, i: Info<N>, k: Forest<N>)
    requires Distinct(f) && q in Ids(f) && !IsHandle(f, q) && Neat(f) && Neat(Cons(c, i, k, Nil))
    ensures Neat(Graft(f, q, c, i, k))
  {
    if f.c != q {
      if q in Ids(f.kids) {
        NeatGraft(f.kids, q, c, i, k);
        GraftAbsent(f.next, q, c, i, k);
      } else {
        NeatGraft(f.next, q, c, i, k);
        GraftAbsent(f.kids, q, c, i, k);
      }
    }
  }

  /** A parent has a child, so it is no handle. */
  lemma {:induction false} ParentIsNone<N>(f: Forest<N>, par: Option<N>, x: N)
    requires Distinct(f) && Neat(f) && x in Ids(f)
    ensures var q := ParentIn(f, par, x); q == par || (q.Some? && q.value in Ids(f) && !IsHandle(f, q.value))
  {
    if f.c != x {
      if x in Ids(f.kids) { ParentIsNone(f.kids, Some(f.c), x); } else { ParentIsNone(f.next, par, x); }
    }
  }

  // ---------- calm forests ----------

  lemma {:induction false} CalmCut<N>(f: Forest<N>, x: N)
    requires Calm(f)
    ensures Calm(Cut(f, x))
  {
    if f.Cons? {
      CalmCut(f.kids, x);
      CalmCut(f.next, x);
    }
  }

  lemma {:induction false} CalmGraft<N>(f: Forest<N>, q: N, c: N, i: Info<N>, k: Forest<N>)
    requires Calm(f) && Calm(Cons(c, i, k, Nil))
    ensures Calm(Graft(f, q, c, i, k))
  {
    if f.Cons? {
      CalmGraft(f.kids, q, c, i, k);
      CalmGraft(f.next, q, c, i, k);
    }
  }

  // ---------- counting ----------

  lemma {:induction false} CountCut<N>(f: Forest<N>, x: N)
    requires Distinct(f) && x in Ids(f)
    ensures Count(Cut(f, x)) + 1 + Count(Find(f, x).kids) == Count(f)
  {
    if f.c != x {
      if x in Ids(f.kids) {
        CutAbsent(f.next, x);
        CountCut(f.kids, x);
      } else {
        CutAbsent(f.kids, x);
        CountCut(f.next, x);
      }
    }
  }

  lemma {:induction false} CountGraft<N>(f: Forest<N>, q: N, c: N, i: Info<N>, k: Forest<N>)
    requires Distinct(f) && q in Ids(f)
    ensures Count(Graft(f, q, c, i, k)) == Count(f) + 1 + Count(k)
  {
    if f.c == q {
    } else if q in Ids(f.kids) {
      GraftAbsent(f.next, q, c, i, k);
      CountGraft(f.kids, q, c, i, k);
    } else {
      GraftAbsent(f.kids, q, c, i, k);
      CountGraft(f.next, q, c, i, k);
    }
  }

  // ---------- a handle goes ----------

  lemma LeafGone<N>(f: Forest<N>, h: N, z: N)
    requires Distinct(f) && (h in Ids(f) ==> Find(f, h).kids.Nil?)
    ensures Distinct(Cut(f, h)) && Ids(Cut(f, h)) == Ids(f) - {h}
    ensures z in Ids(f) && z != h ==>
              ParentOf(Cut(f, h), z) == ParentOf(f, z) && Find(Cut(f, h), z).info == Find(f, z).info
  {
    if h in Ids(f) {
      CutFacts(f, h);
      if z in Ids(f) && z != h {
        CutParent(f, None, h, z);
        CutInfo(f, h, z);
      }
    } else {
      CutAbsent(f, h);
    }
  }

  lemma {:induction false} StackCut<N>(w: Forest<N>, st: seq<N>, z: Zone<N>, h: N)
    requires Distinct(w) && Stack(w, st, z) && h !in st && (st != [] ==> z.home != Some(h))
             && (h in Ids(w) ==> Find(w, h).kids.Nil?)
    ensures Stack(Cut(w, h), st, z)
    decreases |st|
  {
    if st == [] {
      CalmCut(w, h);
    } else {
      assert w.c == st[0] && w.c in st;
      CalmCut(w.kids, h);
      StackCut(w.next, st[1..], z, h);
      LeafGone(w.kids, h, h);
      LeafGone(w.next, h, if z.old'.Some? then z.old'.value else h);
    }
  }

  lemma NotOnStack<N>(w: Forest<N>, st: seq<N>, z: Zone<N>, x: N)
    requires Distinct(w) && Stack(w, st, z) && x in st
    ensures x in Ids(w) && Find(w, x).info.des == NoDestructor && Find(w, x).info.tie.Loose? && ParentOf(w, x) == None
    decreases |st|
  {
    if x != st[0] {
      assert x in st[1..];
      NotOnStack(w.next, st[1..], z, x);
    }
  }

  lemma {:induction false} StackTied<N>(w: Forest<N>, st: seq<N>, z: Zone<N>, x: N)
    requires Distinct(w) && Stack(w, st, z) && x in Ids(w)
    ensures if x in st then Find(w, x).info.loop && Find(w, x).info.tie.Loose?
            else !Find(w, x).info.loop && Find(w, x).info.tie.Tied?
    decreases |st|
  {
    if st == [] {
      CalmTree(w, x);
    } else {
      assert st == [st[0]] + st[1..];
      if x in Ids(w.kids) {
        CalmTree(w.kids, x);
        if x in st { assert x in st[1..]; NotOnStack(w.next, st[1..], z, x); }
      } else if x != w.c {
        StackTied(w.next, st[1..], z, x);
      }
    }
  }

  /** The old links along the stack. */
  lemma {:induction false} StackTies<N>(w: Forest<N>, st: seq<N>, z: Zone<N>, j: nat)
    requires Distinct(w) && Stack(w, st, z) && j < |st|
    ensures st[j] in Ids(w)
    ensures var i := Find(w, st[j]).info.tie;
            if j + 1 < |st| then i == Loose(None, Some(st[j + 1]))
            else i.Loose? && i.prev == z.old' && (z.old'.None? ==> i.parent == z.home)
    decreases |st|
  {
    if j > 0 {
      var up := st[1..];
      StackTies(w.next, up, z, j - 1);
      assert st[j] == up[j - 1];
    }
  }

  /** What is outside the chunks that are being torn down is not below the stack. */
  lemma {:induction false} OuterParent<N>(w: Forest<N>, st: seq<N>, z: Zone<N>, x: N)
    requires Distinct(w) && Stack(w, st, z) && Outer(z) && st != [] && x in Ids(w) && x !in z.dom
    ensures z.old' == Some(x) ==> ParentOf(w, x) == z.home
    ensures forall y :: y in Ids(w) && x in TreeIds(w, y) ==> y !in st
    decreases |st|
  {
    assert st == [st[0]] + st[1..];
    assert x in Ids(w.next);
    if |st| > 1 { OuterParent(w.next, st[1..], z, x); }
    forall y | y in Ids(w) && x in TreeIds(w, y) ensures y !in st {
      if y in Ids(w.kids) { TreeFacts(w.kids, y); }
      if |st| == 1 { assert st[1..] == []; }
    }
  }

  /** The lists after a chunk has gone are right if the others keep their fields. */
  lemma NamedGone<N>(w: Forest<N>, t: RefMap<N>, v: Forest<N>, gone: set<N>)
    requires Named(w, t)
    requires forall z :: z in Ids(w) && z !in gone ==> z in Ids(v) && Find(v, z).info.des == Find(w, z).info.des
    ensures Named(v, Purged(t, gone))
  {
    var s := Purged(t, gone);
    PurgedNoDup(t, gone);
    hide NoDup;
    forall x, g | x in s && g in RefsOf(s, x) ensures Proper(v, s, x, g) {
      PurgedMember(t, gone, x, g);
      assert Proper(w, t, x, g);
      PurgedSame(t, gone, g);
    }
  }

  lemma FitShed<N>(w: Forest<N>, t: RefMap<N>, st: seq<N>, z: Zone<N>, y: N, h: N)
    requires Fit(w, t, st, z) && h in RefsOf(t, y)
    ensures Fit(Cut(w, h), Purged(t, {h}), st, z) && h in Ids(w) && Find(w, h).kids.Nil? && IsHandle(w, h) && h !in st
    ensures Ids(Cut(w, h)) == Ids(w) - {h} && Count(Cut(w, h)) + 1 == Count(w)
  {
    assert Proper(w, t, y, h);
    NeatLeaf(w, h);
    if h in st { NotOnStack(w, st, z, h); }
    StackCut(w, st, z, h);
    NeatCut(w, h);
    CountCut(w, h);
    LeafGone(w, h, if z.home.Some? then z.home.value else h);
    forall z | z in Ids(w) && z != h ensures Find(Cut(w, h), z).info == Find(w, z).info { LeafGone(w, h, z); }
    NamedGone(w, t, Cut(w, h), {h});
    hide Stack, Named, Neat, Distinct;
  }

  // ---------- a tree is hung elsewhere ----------

  ghost predicate Apart<N>(w: Forest<N>, k: Forest<N>) {
    k.Cons? && Distinct(k) && k.c !in Ids(w) && Ids(k.kids) !! Ids(w)
  }

  lemma GraftedParent<N>(f: Forest<N>, q: N, k: Forest<N>, z: N)
    requires Distinct(f) && q in Ids(f) && Apart(f, k) && z in Ids(f)
    ensures var g := Graft(f, q, k.c, k.info, k.kids);
            z in Ids(g) && ParentOf(g, z) == ParentOf(f, z) && Find(g, z).info == Find(f, z).info
  {
    GraftFacts(f, q, k.c, k.info, k.kids);
    GraftParent(f, None, q, k.c, k.info, k.kids, z);
    GraftedInfo(f, q, k.c, k.info, k.kids, z);
  }

  /** A calm tree is hung below `q`. */
  lemma {:induction false} StackGraft<N>(w: Forest<N>, st: seq<N>, z: Zone<N>, q: N, k: Forest<N>)
    requires Distinct(w) && Stack(w, st, z) && Outer(z) && q in Ids(w)
    requires Apart(w, k) && Calm(Cons(k.c, k.info, k.kids, Nil)) && k.c in z.dom && Ids(k.kids) <= z.dom
    ensures Stack(Graft(w, q, k.c, k.info, k.kids), st, z)
    decreases |st|
  {
    if st == [] {
      CalmGraft(w, q, k.c, k.info, k.kids);
    } else if q == w.c {
    } else if q in Ids(w.kids) {
      GraftAbsent(w.next, q, k.c, k.info, k.kids);
      CalmGraft(w.kids, q, k.c, k.info, k.kids);
      GraftFacts(w.kids, q, k.c, k.info, k.kids);
    } else {
      GraftAbsent(w.kids, q, k.c, k.info, k.kids);
      StackGraft(w.next, st[1..], z, q, k);
      GraftFacts(w.next, q, k.c, k.info, k.kids);
      if z.old'.Some? && z.old'.value in Ids(w.next) { GraftedParent(w.next, q, k, z.old'.value); }
    }
  }

  /** The first child of the innermost chunk leaves it. */
  lemma FirstGone<N>(w: Forest<N>, st: seq<N>, z: Zone<N>)
    requires Distinct(w) && Neat(w) && st != [] && Stack(w, st, z) && w.kids.Cons?
    ensures var k, v := w.kids, Cons(w.c, w.info, w.kids.next, w.next);
            && Cut(w, k.c) == v && Find(w, k.c) == k && k.c in Ids(w) && ParentOf(w, k.c) == Some(w.c)
            && PrevOf(w, k.c) == None
            && Distinct(v) && Neat(v) && Stack(v, st, z) && Distinct(k)
            && Apart(v, k) && Calm(Cons(k.c, k.info, k.kids, Nil)) && Neat(Cons(k.c, k.info, k.kids, Nil))
            && Ids(v) == Ids(w) - TreeIds(w, k.c)
  {
    var k := w.kids;
    assert k.c in Ids(k) && ParentIn(k, Some(w.c), k.c) == Some(w.c) && PrevIn(k, None, k.c) == None;
    CutAbsent(w.next, k.c);
    CutAbsent(k.next, k.c);
    CutFacts(w, k.c);
  }

  lemma FitSettled<N>(w: Forest<N>, t: RefMap<N>, st: seq<N>, z: Zone<N>, q: N)
    requires Fit(w, t, st, z) && st != [] && w.kids.Cons? && q in Ids(w) - TreeIds(w, w.kids.c) && !IsHandle(w, q)
    ensures var v := Moved(w, w.kids.c, Some(q));
            && Fit(v, t, st, z) && Ids(v) == Ids(w) && Count(v) == Count(w)
            && v.Cons? && v.c == w.c && v.info == w.info
  {
    var k, x := w.kids, Cut(w, w.kids.c);
    FirstGone(w, st, z);
    MovedFacts(w, k.c, Some(q));
    StackGraft(x, st, z, q, k);
    CutInfo(w, k.c, q);
    NeatGraft(x, q, k.c, k.info, k.kids);
    CountCut(w, k.c);
    CountGraft(x, q, k.c, k.info, k.kids);
    SettledNamed(w, t, k.c, q);
    if z.home.Some? { MovedInfo(w, k.c, Some(q), z.home.value); }
    hide Stack, Named, Neat, Calm;
  }

  lemma SettledNamed<N>(w: Forest<N>, t: RefMap<N>, y: N, q: N)
    requires Distinct(w) && Named(w, t) && CanMove(w, y, Some(q))
    ensures Named(Moved(w, y, Some(q)), t)
  {
    var v := Moved(w, y, Some(q));
    MovedFacts(w, y, Some(q));
    forall z | z in Ids(w) ensures z in Ids(v) && Find(v, z).info.des == Find(w, z).info.des {
      MovedInfo(w, y, Some(q), z);
    }
    PurgedNone(t);
    NamedGone(w, t, v, {});
  }

  /** Without a former parent the chunk becomes a top-level one. */
  lemma FitRooted<N>(w: Forest<N>, t: RefMap<N>, st: seq<N>, z: Zone<N>)
    requires Fit(w, t, st, z) && z.home.None? && |st| == 1 && w.kids.Cons?
    ensures var v := Settled(w, w.kids.c, None);
            && Fit(v, t, st, z) && Ids(v) == Ids(w) && Count(v) == Count(w)
            && v == Cons(w.c, w.info, w.kids.next, Cons(w.kids.c, w.kids.info, w.kids.kids, w.next))
  {
    var k := w.kids;
    FirstGone(w, st, z);
    var v := Settled(w, k.c, None);
    forall x | x in Ids(w) ensures x in Ids(v) && Find(v, x).info == Find(w, x).info {}
    PurgedNone(t);
    NamedGone(w, t, v, {});
  }

  // ---------- a chunk leaves its list ----------

  ghost function Left<N>(w: Forest<N>, y: N): Forest<N>
    requires y in Ids(w)
  {
    Cons(y, Leaving(w, y), Find(w, y).kids, Cut(w, y))
  }

  lemma LeftNamed<N>(w: Forest<N>, t: RefMap<N>, y: N)
    requires Distinct(w) && Named(w, t) && y in Ids(w)
    ensures Named(Left(w, y), Purged(t, {y}))
  {
    TreeFacts(w, y);
    CutFacts(w, y);
    forall z | z in Ids(w) && z != y ensures z in Ids(Left(w, y)) && Find(Left(w, y), z).info == Find(w, z).info {
      LeftInfo(w, y, z);
    }
    NamedGone(w, t, Left(w, y), {y});
  }

  lemma LeftInfo<N>(w: Forest<N>, y: N, z: N)
    requires Distinct(w) && y in Ids(w) && z in Ids(w) && z != y
    ensures z in Ids(Left(w, y)) && Find(Left(w, y), z).info == Find(w, z).info
    ensures ParentOf(Left(w, y), z) == ParentOf(w, z)
  {
    TreeFacts(w, y);
    CutFacts(w, y);
    if z in Ids(Find(w, y).kids) {
      FindInTree(w, y, z);
      TreeParent(w, None, y, z);
    } else {
      CutInfo(w, y, z);
      CutParent(w, None, y, z);
    }
  }

  lemma LeftFacts<N>(w: Forest<N>, y: N)
    requires Distinct(w) && Neat(w) && y in Ids(w)
    ensures Distinct(Left(w, y)) && Neat(Left(w, y)) && Ids(Left(w, y)) == Ids(w) && Count(Left(w, y)) == Count(w)
  {
    TreeFacts(w, y);
    CutFacts(w, y);
    NeatTree(w, y);
    NeatCut(w, y);
    CountCut(w, y);
  }

  /** The first child of the innermost chunk joins the stack. */
  lemma FitLeft<N>(w: Forest<N>, t: RefMap<N>, st: seq<N>, z: Zone<N>)
    requires Fit(w, t, st, z) && st != [] && w.kids.Cons?
    ensures var y := w.kids.c; Fit(Left(w, y), Purged(t, {y}), [y] + st, z)
  {
    var y := w.kids.c;
    FirstGone(w, st, z);
    LeftFacts(w, y);
    LeftNamed(w, t, y);
    assert ([y] + st)[1..] == st;
    if z.home.Some? { LeftInfo(w, y, z.home.value); }
    hide Named, Neat;
  }

  /** The sibling before a chunk has the same parent. */
  lemma {:induction false} PrevParent<N>(f: Forest<N>, par: Option<N>, prev: Option<N>, y: N)
    requires Distinct(f) && y in Ids(f) && (prev.Some? ==> prev.value !in Ids(f))
    ensures var s := PrevIn(f, prev, y);
            && (s == prev && s.Some? ==> ParentIn(f, par, y) == par)
            && (s != prev && s.Some? ==> s.value in Ids(f) && s.value != y && s.value !in Ids(Find(f, y).kids)
                                         && ParentIn(f, par, s.value) == ParentIn(f, par, y))
  {
    if f.c != y {
      if y in Ids(f.kids) {
        PrevParent(f.kids, Some(f.c), None, y);
        TreeFacts(f.kids, y);
      } else {
        PrevParent(f.next, par, Some(f.c), y);
        TreeFacts(f.next, y);
      }
    }
  }

  ghost function ZoneOf<N>(w: Forest<N>, y: N): Zone<N>
    requires y in Ids(w)
  {
    Zone(TreeIds(w, y), ParentOf(w, y), PrevOf(w, y))
  }

  /** A chunk of a forest at rest is the first one on the stack. */
  lemma FitFirst<N>(w: Forest<N>, t: RefMap<N>, y: N)
    requires Distinct(w) && Neat(w) && Calm(w) && Named(w, t) && y in Ids(w)
    ensures Fit(Left(w, y), Purged(t, {y}), [y], ZoneOf(w, y))
  {
    LeftFacts(w, y);
    LeftNamed(w, t, y);
    CalmTree(w, y);
    CalmCut(w, y);
    TreeFacts(w, y);
    CutFacts(w, y);
    ParentElsewhere(w, None, y);
    ParentIsNone(w, None, y);
    PrevParent(w, None, None, y);
    if PrevOf(w, y).Some? { CutParent(w, None, y, PrevOf(w, y).value); }
    if ParentOf(w, y).Some? { LeftInfo(w, y, ParentOf(w, y).value); }
    assert [y][1..] == [];
    var v, z := Left(w, y), ZoneOf(w, y);
    assert Remembers(v, [y], z);
    assert Stack(v, [y], z);
    hide Named, Neat;
  }

  /** The innermost chunk has no children any more and goes. */
  lemma FitEnd<N>(w: Forest<N>, t: RefMap<N>, st: seq<N>, z: Zone<N>)
    requires Fit(w, t, st, z) && st != [] && w.kids.Nil?
    ensures Fit(w.next, t, st[1..], z) && Ids(w.next) == Ids(w) - {w.c} && Count(w.next) + 1 == Count(w)
  {
    forall x, h | x in t && h in RefsOf(t, x) ensures Proper(w.next, t, x, h) {
      assert Proper(w, t, x, h);
    }
    if z.home.Some? { assert z.home.value in Ids(w.next); }
  }
}
