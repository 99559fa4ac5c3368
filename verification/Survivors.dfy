/**
 What is left when a chunk with acyclic references below it has been freed, and whom it belongs to: a chunk lasts if it
 refuses or if one of its owners lasts, and it keeps the owners that last.
 */
module Survivors {
  import opened Forests
  import opened Transfers
  import opened Releases
  import opened RefMaps
  import opened Ownership
  import opened Drains
  import opened Stacks
  import opened DrainFacts
  import opened Ranks

  /** An owner lasts if it is outside the chunks `dom` or in the set `a`. NULL lasts. */
  ghost predicate Up<N>(dom: set<N>, a: set<N>, o: Option<N>) {
    o.None? || o.value !in dom || o.value in a
  }

  /** The handles whose holders last. */
  ghost function Held<N>(w: Forest<N>, dom: set<N>, a: set<N>, hs: seq<N>): seq<N> {
    if hs == [] then []
    else if Up(dom, a, ParentOf(w, hs[0])) then [hs[0]] + Held(w, dom, a, hs[1..])
    else Held(w, dom, a, hs[1..])
  }

  ghost predicate Lasts<N>(w: Forest<N>, t: RefMap<N>, dom: set<N>, a: set<N>, x: N)
    requires x in Ids(w)
  {
    || Refusing(Find(w, x).info) || Up(dom, a, ParentOf(w, x)) || Held(w, dom, a, RefsOf(t, x)) != []
  }

  /** The chunks `a` are those of `dom` that last; those on the stack do not. */
  ghost predicate Solves<N>(w: Forest<N>, t: RefMap<N>, dom: set<N>, st: seq<N>, a: set<N>) {
    && a <= Ids(w) && a <= dom
    && forall x :: x in Ids(w) && x in dom ==> (x in a <==> x !in st && !IsHandle(w, x) && Lasts(w, t, dom, a, x))
  }

  datatype Belonging<N> = Belonging(parent: Option<N>, handles: seq<N>)

  /** Where a chunk that lasts ends up, and which of its handles are left. */
  ghost function EndOf<N>(w: Forest<N>, t: RefMap<N>, dom: set<N>, a: set<N>, home: Option<N>, x: N): Belonging<N> {
    var hs := Held(w, dom, a, RefsOf(t, x));
    if Up(dom, a, ParentOf(w, x)) then Belonging(ParentOf(w, x), hs)
    else if hs != [] then Belonging(ParentOf(w, hs[0]), hs[1..])
    else Belonging(home, [])
  }

  // ---------- lists of handles ----------

  lemma {:induction false} HeldSame<N>(w: Forest<N>, v: Forest<N>, dom: set<N>, a: set<N>, hs: seq<N>)
    requires forall h :: h in hs ==> ParentOf(v, h) == ParentOf(w, h)
    ensures Held(v, dom, a, hs) == Held(w, dom, a, hs)
  {
    if hs != [] { HeldSame(w, v, dom, a, hs[1..]); }
  }

  lemma {:induction false} HeldWithout<N>(w: Forest<N>, dom: set<N>, a: set<N>, hs: seq<N>, gone: set<N>)
    requires forall h :: h in hs && h in gone ==> !Up(dom, a, ParentOf(w, h))
    ensures Held(w, dom, a, Without(hs, gone)) == Held(w, dom, a, hs)
  {
    if hs != [] {
      HeldWithout(w, dom, a, hs[1..], gone);
      if hs[0] !in gone { assert Without(hs, gone)[1..] == Without(hs[1..], gone); }
    }
  }

  lemma {:induction false} HeldAll<N>(w: Forest<N>, dom: set<N>, a: set<N>, hs: seq<N>)
    requires forall h :: h in hs ==> Up(dom, a, ParentOf(w, h))
    ensures Held(w, dom, a, hs) == hs
  {
    if hs != [] { HeldAll(w, dom, a, hs[1..]); }
  }

  lemma {:induction false} HeldIn<N>(w: Forest<N>, dom: set<N>, a: set<N>, hs: seq<N>)
    ensures forall h :: h in Held(w, dom, a, hs) ==> h in hs
  {
    if hs != [] { HeldIn(w, dom, a, hs[1..]); }
  }

  // ---------- one step ----------

  /** `x` has the same parent, and the same handles with lasting holders. */
  ghost predicate Akin<N>(w: Forest<N>, t: RefMap<N>, v: Forest<N>, s: RefMap<N>, dom: set<N>, a: set<N>, x: N) {
    && x in Ids(w) && x in Ids(v) && Find(v, x).info == Find(w, x).info
    && ParentOf(v, x) == ParentOf(w, x) && Held(v, dom, a, RefsOf(s, x)) == Held(w, dom, a, RefsOf(t, x))
  }

  /** The holders of the handles that are left are the same. */
  ghost predicate Holding<N>(w: Forest<N>, t: RefMap<N>, v: Forest<N>, s: RefMap<N>) {
    forall x, h {:trigger h in RefsOf(s, x)} :: x in s && h in RefsOf(s, x) ==>
      h in RefsOf(t, x) && ParentOf(v, h) == ParentOf(w, h)
  }

  ghost predicate Same<N>(w: Forest<N>, t: RefMap<N>, v: Forest<N>, s: RefMap<N>, dom: set<N>, a: set<N>,
                          home: Option<N>) {
    && Ids(v) <= Ids(w)
    && (forall x :: x in Ids(w) && x !in dom && !IsHandle(w, x) ==> x in Ids(v))
    && (forall x :: x in Ids(v) && x in Ids(w) && (x in a || x !in dom) ==>
          Find(v, x).info == Find(w, x).info && EndOf(v, s, dom, a, home, x) == EndOf(w, t, dom, a, home, x))
    && Holding(w, t, v, s)
  }

  /** The step keeps what lasts, and where it ends up. */
  ghost predicate Carries<N>(w: Forest<N>, t: RefMap<N>, v: Forest<N>, s: RefMap<N>, dom: set<N>, st: seq<N>, a: set<N>,
                             home: Option<N>) {
    Solves(v, s, dom, st, a) && Same(w, t, v, s, dom, a, home)
  }

  lemma HoldingTwice<N>(w: Forest<N>, t: RefMap<N>, m: Forest<N>, u: RefMap<N>, v: Forest<N>, s: RefMap<N>)
    requires Holding(w, t, m, u) && Holding(m, u, v, s)
    ensures Holding(w, t, v, s)
  {
    forall x, h | x in s && h in RefsOf(s, x) ensures h in RefsOf(t, x) && ParentOf(v, h) == ParentOf(w, h) {
      assert h in RefsOf(s, x);
      assert h in RefsOf(u, x);
      assert x in u;
    }
  }

  lemma CarriesTwice<N>(w: Forest<N>, t: RefMap<N>, m: Forest<N>, u: RefMap<N>, v: Forest<N>, s: RefMap<N>, dom: set<N>,
                        st: seq<N>, a: set<N>, home: Option<N>)
    requires Same(w, t, m, u, dom, a, home) && Carries(m, u, v, s, dom, st, a, home)
    ensures Carries(w, t, v, s, dom, st, a, home)
  {
    HoldingTwice(w, t, m, u, v, s);
    hide Holding, EndOf, Lasts;
  }

  lemma AlikeLasts<N>(w: Forest<N>, t: RefMap<N>, v: Forest<N>, s: RefMap<N>, dom: set<N>, a: set<N>, home: Option<N>,
                      x: N)
    requires Akin(w, t, v, s, dom, a, x)
    ensures Lasts(v, s, dom, a, x) == Lasts(w, t, dom, a, x)
    ensures Holding(w, t, v, s) ==> EndOf(v, s, dom, a, home, x) == EndOf(w, t, dom, a, home, x)
  {
    HeldIn(v, dom, a, RefsOf(s, x));
    var hs := Held(v, dom, a, RefsOf(s, x));
    if hs != [] && Holding(w, t, v, s) {
      assert hs[0] in RefsOf(s, x);
      assert x in s && ParentOf(v, hs[0]) == ParentOf(w, hs[0]);
    }
  }

  /** What is to be shown of a step that concerns the chunk `y`. */
  ghost predicate Concerns<N>(w: Forest<N>, t: RefMap<N>, v: Forest<N>, s: RefMap<N>, dom: set<N>, st: seq<N>,
                              a: set<N>, home: Option<N>, y: N) {
    y in Ids(v) ==>
      && y in dom && (y in a <==> y !in st && !IsHandle(v, y) && Lasts(v, s, dom, a, y))
      && (y in a ==> y in Ids(w) && Find(v, y).info == Find(w, y).info
                     && EndOf(v, s, dom, a, home, y) == EndOf(w, t, dom, a, home, y))
  }

  /** All other chunks are alike. */
  lemma StepCarries<N>(w: Forest<N>, t: RefMap<N>, v: Forest<N>, s: RefMap<N>, dom: set<N>, st: seq<N>, st': seq<N>,
                       a: set<N>, home: Option<N>, y: N)
    requires Solves(w, t, dom, st, a) && Ids(v) <= Ids(w) && a <= Ids(v) && Holding(w, t, v, s)
    requires forall x :: x in Ids(w) && x !in dom && !IsHandle(w, x) ==> x in Ids(v)
    requires forall x :: x in Ids(v) && x != y ==> Akin(w, t, v, s, dom, a, x) && (x in dom ==> (x in st <==> x in st'))
    requires Concerns(w, t, v, s, dom, st', a, home, y)
    ensures Carries(w, t, v, s, dom, st', a, home)
  {
    hide Lasts, EndOf, Holding;
    assert Solves(v, s, dom, st', a) by {
      forall x | x in Ids(v) && x in dom && x != y
        ensures x in a <==> x !in st' && !IsHandle(v, x) && Lasts(v, s, dom, a, x)
      {
        assert Akin(w, t, v, s, dom, a, x);
        AlikeLasts(w, t, v, s, dom, a, home, x);
      }
    }
    forall x | x in Ids(v) && (x in a || x !in dom) && x != y
      ensures Find(v, x).info == Find(w, x).info && EndOf(v, s, dom, a, home, x) == EndOf(w, t, dom, a, home, x)
    {
      assert Akin(w, t, v, s, dom, a, x);
      AlikeLasts(w, t, v, s, dom, a, home, x);
    }
  }

  // ---------- the steps of the loop ----------

  ghost predicate Heeds<N>(w: Forest<N>, t: RefMap<N>, dom: set<N>) {
    forall x, h :: x in Ids(w) && x in dom && h in RefsOf(t, x) ==> ParentOf(w, h).Some?
  }

  /** The state of the loop. */
  ghost predicate Goes<N>(w: Forest<N>, t: RefMap<N>, st: seq<N>, z: Zone<N>, rank: N -> nat, a: set<N>) {
    Set(w, t, st, z, rank) && Heeds(w, t, z.dom) && Solves(w, t, z.dom, st, a)
  }

  lemma OnlyTarget<N>(w: Forest<N>, t: RefMap<N>, y: N, h: N, x: N)
    requires Named(w, t) && h in RefsOf(t, y) && x != y
    ensures h !in RefsOf(t, x)
  {
    assert Proper(w, t, y, h);
    assert h in RefsOf(t, x) ==> Proper(w, t, x, h);
  }

  /** Nobody else is concerned when the newest handle of `y` goes and `y` moves to its holder. */
  lemma SettleAlike<N>(w: Forest<N>, t: RefMap<N>, st: seq<N>, z: Zone<N>, a: set<N>, q: N, x: N)
    requires Fit(w, t, st, z) && st != [] && w.kids.Cons? && RefsOf(t, w.kids.c) != []
    requires var m := Cut(w, RefsOf(t, w.kids.c)[0]); CanMove(m, w.kids.c, Some(q))
    requires x in Ids(w) && x != RefsOf(t, w.kids.c)[0]
    ensures var y, h := w.kids.c, RefsOf(t, w.kids.c)[0];
            var v, s := Moved(Cut(w, h), y, Some(q)), Purged(t, {h});
            && Holding(w, t, v, s) && x in Ids(v) && Find(v, x).info == Find(w, x).info
            && (x != y ==> ParentOf(v, x) == ParentOf(w, x)) && ParentOf(v, y) == Some(q)
            && Held(v, z.dom, a, RefsOf(s, x)) == Held(w, z.dom, a, if x == y then RefsOf(t, x)[1..] else RefsOf(t, x))
  {
    var y, h := w.kids.c, RefsOf(t, w.kids.c)[0];
    var m, s := Cut(w, h), Purged(t, {h});
    var v := Moved(m, y, Some(q));
    FitShed(w, t, st, z, y, h);
    LeafGone(w, h, x);
    MovedInfo(m, y, Some(q), x);
    MovedParent(m, y, Some(q), x);
    MovedParent(m, y, Some(q), y);
    assert Holding(w, t, v, s) by {
      forall g, b {:trigger g in RefsOf(s, b)} | b in s && g in RefsOf(s, b)
        ensures g in RefsOf(t, b) && ParentOf(v, g) == ParentOf(w, g) {
        PurgedMember(t, {h}, b, g);
        assert Proper(w, t, b, g);
        LeafGone(w, h, g);
        MovedParent(m, y, Some(q), g);
      }
    }
    if x == y {
      WithoutFirst(t[y]);
    } else {
      OnlyTarget(w, t, y, h, x);
      PurgedSame(t, {h}, x);
    }
    forall g | g in RefsOf(s, x) ensures ParentOf(v, g) == ParentOf(w, g) { assert x in s; }
    hide Fit, Moved, Held;
    HeldSame(w, v, z.dom, a, RefsOf(s, x));
  }

  /** The child's own state before a step: its parent is being freed. */
  lemma ChildBefore<N>(w: Forest<N>, t: RefMap<N>, st: seq<N>, z: Zone<N>, rank: N -> nat, a: set<N>)
    requires Goes(w, t, st, z, rank, a) && st != [] && w.kids.Cons?
    ensures var y := w.kids.c;
            && y in Ids(w) && y in z.dom && y !in st && Find(w, y) == w.kids && !Up(z.dom, a, ParentOf(w, y))
            && (y in a <==> !IsHandle(w, y) && (Refusing(w.kids.info) || Held(w, z.dom, a, RefsOf(t, y)) != []))
  {
    var y := w.kids.c;
    FirstDom(w, t, st, z);
    FirstGone(w, st, z);
    if y in st { NotOnStack(w, st, z, y); }
    NotOnStack(w, st, z, st[0]);
    hide Set, Heeds;
  }

  /** The newest handle of the child goes, and the child moves to its holder. */
  lemma LeaveStep<N>(w: Forest<N>, t: RefMap<N>, st: seq<N>, z: Zone<N>, rank: N -> nat, a: set<N>, q: N)
    requires Goes(w, t, st, z, rank, a) && st != [] && w.kids.Cons? && RefsOf(t, w.kids.c) != []
    requires ParentOf(w, RefsOf(t, w.kids.c)[0]) == Some(q)
    requires var m := Cut(w, RefsOf(t, w.kids.c)[0]); CanMove(m, w.kids.c, Some(q))
    ensures var y, h := w.kids.c, RefsOf(t, w.kids.c)[0];
            Carries(w, t, Moved(Cut(w, h), y, Some(q)), Purged(t, {h}), z.dom, st, a, z.home)
  {
    var y, h := w.kids.c, RefsOf(t, w.kids.c)[0];
    var m, s := Cut(w, h), Purged(t, {h});
    var v := Moved(m, y, Some(q));
    FitShed(w, t, st, z, y, h);
    MovedFacts(m, y, Some(q));
    ChildBefore(w, t, st, z, rank, a);
    assert Proper(w, t, y, h);
    forall x | x in Ids(v) && x != y ensures Akin(w, t, v, s, z.dom, a, x) { SettleAlike(w, t, st, z, a, q, x); }
    SettleAlike(w, t, st, z, a, q, y);
    assert Concerns(w, t, v, s, z.dom, st, a, z.home, y) by { LeaveConcerns(w, t, v, s, z.dom, st, a, z.home, y); }
    hide Set, Heeds, Moved, EndOf, Lasts, Concerns, Akin;
    StepCarries(w, t, v, s, z.dom, st, st, a, z.home, y);
  }

  lemma LeaveConcerns<N>(w: Forest<N>, t: RefMap<N>, v: Forest<N>, s: RefMap<N>, dom: set<N>, st: seq<N>, a: set<N>,
                         home: Option<N>, y: N)
    requires y in Ids(w) && y in Ids(v) && y in dom && y !in st && Find(v, y).info == Find(w, y).info
    requires !Up(dom, a, ParentOf(w, y)) && RefsOf(t, y) != [] && ParentOf(v, y) == ParentOf(w, RefsOf(t, y)[0])
    requires Held(v, dom, a, RefsOf(s, y)) == Held(w, dom, a, RefsOf(t, y)[1..]) && Holding(w, t, v, s)
    requires y in a <==> !IsHandle(w, y) && (Refusing(Find(w, y).info) || Held(w, dom, a, RefsOf(t, y)) != [])
    ensures Concerns(w, t, v, s, dom, st, a, home, y)
  {
    var hs := Held(v, dom, a, RefsOf(s, y));
    HeldIn(v, dom, a, RefsOf(s, y));
    if hs != [] {
      assert hs[0] in RefsOf(s, y);
      assert y in s && ParentOf(v, hs[0]) == ParentOf(w, hs[0]);
    }
  }

  /** What a move of the child alone leaves as it is. */
  lemma MoveAlike<N>(w: Forest<N>, t: RefMap<N>, v: Forest<N>, dom: set<N>, a: set<N>, y: N)
    requires Named(w, t) && Ids(v) == Ids(w) && forall g :: y !in RefsOf(t, g)
    requires forall x :: x in Ids(w) ==>
               Find(v, x).info == Find(w, x).info && (x != y ==> ParentOf(v, x) == ParentOf(w, x))
    ensures Holding(w, t, v, t)
    ensures forall x :: x in Ids(w) && x != y ==> Akin(w, t, v, t, dom, a, x)
  {
    NamedThere(w, t);
    forall x | x in Ids(w) && x != y ensures Akin(w, t, v, t, dom, a, x) { HeldSame(w, v, dom, a, RefsOf(t, x)); }
  }

  /** The child refuses and goes to the former parent. */
  lemma RefuseStep<N>(w: Forest<N>, t: RefMap<N>, st: seq<N>, z: Zone<N>, rank: N -> nat, a: set<N>, o: Option<N>)
    requires Goes(w, t, st, z, rank, a) && st != [] && w.kids.Cons? && RefsOf(t, w.kids.c) == []
             && Refusing(w.kids.info)
    requires o == if |st| > 1 then Some(st[1]) else z.home
    requires o.Some? ==> o.value in Ids(w) && o.value !in TreeIds(w, w.kids.c)
    ensures w.kids.c in Ids(w) && Carries(w, t, Settled(w, w.kids.c, o), t, z.dom, st, a, z.home)
  {
    var y := w.kids.c;
    var v := Settled(w, y, o);
    ChildBefore(w, t, st, z, rank, a);
    MoveFacts(w, t, st, z, o);
    PurgedNone(t);
    KeptUnlisted(w, t, y, t, {});
    MoveAlike(w, t, v, z.dom, a, y);
    assert o.Some? && |st| > 1 ==> st[1] in st && !Up(z.dom, a, o) by {
      if |st| > 1 { NotOnStack(w, st, z, st[1]); StackDom(w, st, z, st[1]); }
    }
    assert Concerns(w, t, v, t, z.dom, st, a, z.home, y);
    hide Set, Heeds, EndOf, Lasts, Concerns, Akin, Settled;
    StepCarries(w, t, v, t, z.dom, st, st, a, z.home, y);
  }

  lemma {:induction false} StackDom<N>(w: Forest<N>, st: seq<N>, z: Zone<N>, x: N)
    requires Stack(w, st, z) && x in st
    ensures x in z.dom
    decreases |st|
  {
    if x != st[0] { StackDom(w.next, st[1..], z, x); }
  }

  lemma MoveFacts<N>(w: Forest<N>, t: RefMap<N>, st: seq<N>, z: Zone<N>, o: Option<N>)
    requires Fit(w, t, st, z) && st != [] && w.kids.Cons? && (o.None? ==> z.home.None? && |st| == 1)
    requires o.Some? ==> o.value in Ids(w) && o.value !in TreeIds(w, w.kids.c)
    ensures var y := w.kids.c;
            y in Ids(w) && var v := Settled(w, y, o);
            && Ids(v) == Ids(w) && ParentOf(v, y) == o
            && forall x :: x in Ids(w) ==>
                 Find(v, x).info == Find(w, x).info && (x != y ==> ParentOf(v, x) == ParentOf(w, x))
  {
    var y := w.kids.c;
    FirstGone(w, st, z);
    var v := Settled(w, y, o);
    if o.Some? {
      MovedFacts(w, y, o);
      MovedParent(w, y, o, y);
      forall x | x in Ids(w)
        ensures Find(v, x).info == Find(w, x).info && (x != y ==> ParentOf(v, x) == ParentOf(w, x))
      {
        MovedInfo(w, y, o, x);
        MovedParent(w, y, o, x);
      }
    } else {
      FitRooted(w, t, st, z);
      RootFacts(w);
    }
  }

  lemma RootFacts<N>(w: Forest<N>)
    requires Distinct(w) && w.Cons? && w.kids.Cons?
    ensures var k := w.kids;
            var v := Cons(w.c, w.info, k.next, Cons(k.c, k.info, k.kids, w.next));
            && ParentOf(v, k.c) == None
            && forall x :: x in Ids(w) ==>
                 Find(v, x).info == Find(w, x).info && (x != k.c ==> ParentOf(v, x) == ParentOf(w, x))
  {
    var k := w.kids;
    var v := Cons(w.c, w.info, k.next, Cons(k.c, k.info, k.kids, w.next));
    assert Distinct(k) && k.c in Ids(k) && k.c !in Ids(k.next);
    assert ParentOf(v, k.c) == ParentIn(v.next, None, k.c);
    forall x | x in Ids(w)
      ensures Find(v, x).info == Find(w, x).info && (x != k.c ==> ParentOf(v, x) == ParentOf(w, x))
    {
      assert x in Ids(k) ==> ParentOf(w, x) == ParentIn(k, Some(w.c), x);
      assert x !in Ids(k.next) && x != w.c ==> ParentOf(v, x) == ParentIn(v.next, None, x);
    }
  }

  /** The child joins the stack: it does not last. */
  lemma LeftStep<N>(w: Forest<N>, t: RefMap<N>, st: seq<N>, z: Zone<N>, rank: N -> nat, a: set<N>)
    requires Goes(w, t, st, z, rank, a) && st != [] && w.kids.Cons? && RefsOf(t, w.kids.c) == []
             && !Refusing(w.kids.info)
    ensures var y := w.kids.c;
            && y in Ids(w) && Carries(w, t, Left(w, y), Purged(t, {y}), z.dom, [y] + st, a, z.home)
            && Goes(Left(w, y), Purged(t, {y}), [y] + st, z, rank, a)
  {
    var y := w.kids.c;
    var v, s := Left(w, y), Purged(t, {y});
    ChildBefore(w, t, st, z, rank, a);
    SetLeft(w, t, st, z, rank);
    LeftFacts(w, y);
    LeftHolding(w, t, y);
    forall x | x in Ids(v) && x != y ensures Akin(w, t, v, s, z.dom, a, x) && (x in [y] + st <==> x in st) {
      LeftAlike(w, t, y, z.dom, a, x);
    }
    assert Concerns(w, t, v, s, z.dom, [y] + st, a, z.home, y);
    hide Set, EndOf, Lasts, Concerns, Akin, Left;
    StepCarries(w, t, v, s, z.dom, st, [y] + st, a, z.home, y);
    StillHeeds(w, t, v, s, z.dom);
  }

  lemma StillHeeds<N>(w: Forest<N>, t: RefMap<N>, v: Forest<N>, s: RefMap<N>, dom: set<N>)
    requires Heeds(w, t, dom) && Holding(w, t, v, s) && Ids(v) <= Ids(w)
    ensures Heeds(v, s, dom)
  {
    forall x, h | x in Ids(v) && x in dom && h in RefsOf(s, x) ensures ParentOf(v, h).Some? { assert x in s; }
  }

  lemma LeftHolding<N>(w: Forest<N>, t: RefMap<N>, y: N)
    requires Distinct(w) && Named(w, t) && y in Ids(w)
    ensures Holding(w, t, Left(w, y), Purged(t, {y}))
  {
    var s := Purged(t, {y});
    forall x, h {:trigger h in RefsOf(s, x)} | x in s && h in RefsOf(s, x)
      ensures h in RefsOf(t, x) && ParentOf(Left(w, y), h) == ParentOf(w, h) {
      PurgedMember(t, {y}, x, h);
      assert Proper(w, t, x, h);
      LeftInfo(w, y, h);
    }
  }

  lemma LeftAlike<N>(w: Forest<N>, t: RefMap<N>, y: N, dom: set<N>, a: set<N>, x: N)
    requires Distinct(w) && Named(w, t) && y in Ids(w) && x in Ids(w) && x != y
    requires !Up(dom, a, ParentOf(w, y)) || forall g :: y !in RefsOf(t, g)
    ensures Akin(w, t, Left(w, y), Purged(t, {y}), dom, a, x)
  {
    var v, s := Left(w, y), Purged(t, {y});
    LeftInfo(w, y, x);
    HeldWithout(w, dom, a, RefsOf(t, x), {y});
    LeftHolding(w, t, y);
    forall h | h in RefsOf(s, x) ensures ParentOf(v, h) == ParentOf(w, h) { assert x in s; }
    HeldSame(w, v, dom, a, RefsOf(s, x));
  }

  /** The innermost chunk has no children any more and goes. */
  lemma EndStep<N>(w: Forest<N>, t: RefMap<N>, st: seq<N>, z: Zone<N>, rank: N -> nat, a: set<N>)
    requires Goes(w, t, st, z, rank, a) && st != [] && w.kids.Nil?
    ensures Carries(w, t, w.next, t, z.dom, st[1..], a, z.home)
  {
    var y, v := w.c, w.next;
    FitEnd(w, t, st, z);
    NamedThere(v, t);
    assert st == [y] + st[1..];
    forall x | x in Ids(v) ensures Akin(w, t, v, t, z.dom, a, x) && (x in st <==> x in st[1..]) {
      HeldSame(w, v, z.dom, a, RefsOf(t, x));
    }
    hide Set, Heeds, EndOf, Lasts, Akin;
    StepCarries(w, t, v, t, z.dom, st, st[1..], a, z.home, y);
  }

  // ---------- the loop ----------

  lemma TurnCarries<N>(w: Forest<N>, t: RefMap<N>, st: seq<N>, z: Zone<N>, rank: N -> nat, a: set<N>)
    requires Goes(w, t, st, z, rank, a) && st != [] && w.kids.Cons?
    ensures var r := Turn(w.c, w.info, w.kids, w.next, t);
            r.Freed? ==> Carries(w, t, r.w, r.t, z.dom, st, a, z.home) && Goes(r.w, r.t, st, z, rank, a)
    decreases Count(w), Count(w.kids), 0
  {
    var y, r := w.kids.c, Turn(w.c, w.info, w.kids, w.next, t);
    FirstDom(w, t, st, z);
    if r.Freed? {
      TurnKeeps(w, t, st, z);
      TurnClimbs(w, t, st, z, rank);
      if RefsOf(t, y) != [] {
        TurnLeaves(w, t, st, z, rank, a);
      } else if Refusing(w.kids.info) {
        TurnRefuses(w, t, st, z, rank, a);
      } else {
        LeftStep(w, t, st, z, rank, a);
        LeftFacts(w, y);
        var v, s := Left(w, y), Purged(t, {y});
        DrainCarries(v, s, [y] + st, z, rank, a);
        TurnIsDrain(w, t, st, z);
        assert ([y] + st)[1..] == st;
        hide Goes, Solves;
        CarriesTwice(w, t, v, s, r.w, r.t, z.dom, st, a, z.home);
      }
      GoesOn(w, t, st, z, rank, a, r);
    }
  }

  lemma GoesOn<N>(w: Forest<N>, t: RefMap<N>, st: seq<N>, z: Zone<N>, rank: N -> nat, a: set<N>, r: Result<N>)
    requires Goes(w, t, st, z, rank, a) && r.Freed? && w.Cons? && Turned(w, t, st, z, r) && Climbs(r, rank, z.dom)
    requires Carries(w, t, r.w, r.t, z.dom, st, a, z.home)
    ensures Goes(r.w, r.t, st, z, rank, a)
  {
    StillHeeds(w, t, r.w, r.t, z.dom);
  }

  lemma TurnIsDrain<N>(w: Forest<N>, t: RefMap<N>, st: seq<N>, z: Zone<N>)
    requires Fit(w, t, st, z) && st != [] && w.kids.Cons? && RefsOf(t, w.kids.c) == [] && !Refusing(w.kids.info)
    requires Turn(w.c, w.info, w.kids, w.next, t).Freed?
    ensures var v, s := Left(w, w.kids.c), Purged(t, {w.kids.c});
            Turn(w.c, w.info, w.kids, w.next, t) == Drain(v.c, v.info, v.kids, v.next, s)
  {
    FirstDom(w, t, st, z);
    LeftFacts(w, w.kids.c);
    var y := w.kids.c;
    DrainEnds(y, Leaving(w, y), w.kids.kids, Cut(w, y), Purged(t, {y}));
  }

  lemma TurnLeaves<N>(w: Forest<N>, t: RefMap<N>, st: seq<N>, z: Zone<N>, rank: N -> nat, a: set<N>)
    requires Goes(w, t, st, z, rank, a) && st != [] && w.kids.Cons? && RefsOf(t, w.kids.c) != []
    requires Turn(w.c, w.info, w.kids, w.next, t).Freed?
    ensures var r := Turn(w.c, w.info, w.kids, w.next, t); Carries(w, t, r.w, r.t, z.dom, st, a, z.home)
  {
    var y, h := w.kids.c, RefsOf(t, w.kids.c)[0];
    assert w == Cons(w.c, w.info, w.kids, w.next);
    FirstDom(w, t, st, z);
    FitShed(w, t, st, z, y, h);
    FirstStays(w, t, st, z, h);
    assert Proper(w, t, y, h);
    NoChild(w, t, y, rank, z.dom, h);
    assert ParentOf(w, h).Some?;
    var q := ParentOf(w, h).value;
    ParentIsNone(w, None, h);
    assert Falls(w, t, rank, z.dom, y) && Outranks(rank, z.dom, y, Some(q));
    assert q != y;
    assert CanMove(Cut(w, h), y, Some(q));
    LeaveStep(w, t, st, z, rank, a, q);
  }

  lemma TurnRefuses<N>(w: Forest<N>, t: RefMap<N>, st: seq<N>, z: Zone<N>, rank: N -> nat, a: set<N>)
    requires Goes(w, t, st, z, rank, a) && st != [] && w.kids.Cons? && RefsOf(t, w.kids.c) == []
             && Refusing(w.kids.info)
    requires Turn(w.c, w.info, w.kids, w.next, t).Freed?
    ensures var r := Turn(w.c, w.info, w.kids, w.next, t); Carries(w, t, r.w, r.t, z.dom, st, a, z.home)
  {
    assert w == Cons(w.c, w.info, w.kids, w.next);
    FirstDom(w, t, st, z);
    FormerIs(w, t, st, z);
    NewParentOk(w, t, st, z);
    RefuseStep(w, t, st, z, rank, a, Former(w, w.info));
  }

  lemma CarriesOn<N>(w: Forest<N>, t: RefMap<N>, m: Forest<N>, u: RefMap<N>, v: Forest<N>, s: RefMap<N>, st: seq<N>,
                     z: Zone<N>, a: set<N>)
    requires Carries(w, t, m, u, z.dom, st, a, z.home) && st != [] && Carries(m, u, v, s, z.dom, st[1..], a, z.home)
    ensures Carries(w, t, v, s, z.dom, st[1..], a, z.home)
  {
    hide Solves, Same;
    CarriesTwice(w, t, m, u, v, s, z.dom, st[1..], a, z.home);
  }

  lemma DrainCarries<N>(w: Forest<N>, t: RefMap<N>, st: seq<N>, z: Zone<N>, rank: N -> nat, a: set<N>)
    requires Goes(w, t, st, z, rank, a) && st != []
    ensures var r := Drain(w.c, w.info, w.kids, w.next, t);
            r.Freed? ==> Carries(w, t, r.w, r.t, z.dom, st[1..], a, z.home)
    decreases Count(w), Count(w.kids), 1
  {
    if w.kids.Nil? {
      EndStep(w, t, st, z, rank, a);
    } else {
      var m := Turn(w.c, w.info, w.kids, w.next, t);
      TurnKeeps(w, t, st, z);
      TurnCarries(w, t, st, z, rank, a);
      if m.Freed? {
        DrainCarries(m.w, m.t, st, z, rank, a);
        var r, n := Drain(w.c, w.info, w.kids, w.next, t), Drain(w.c, w.info, m.w.kids, m.w.next, m.t);
        assert r == Also(n, m.freed);
        hide Goes, Carries, Drain, Turn;
        if r.Freed? { CarriesOn(w, t, m.w, m.t, n.w, n.t, st, z, a); }
      }
    }
  }
}
