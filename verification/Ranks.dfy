/**
 Acyclic references: if chunks below a chunk can be given ranks that fall from every one of them to its parent and to
 the holders of its handles, freeing the chunk never hangs anything below itself.
 */
module Ranks {
  import opened Forests
  import opened Transfers
  import opened Releases
  import opened RefMaps
  import opened Ownership
  import opened Owners
  import opened Drains
  import opened Stacks
  import opened DrainFacts
  import opened Keeping

  /** The rank falls from `x` to `o`, if that is one of the chunks `dom`. */
  ghost predicate Outranks<N>(rank: N -> nat, dom: set<N>, x: N, o: Option<N>) {
    o.Some? && o.value in dom ==> rank(x) > rank(o.value)
  }

  /** From `x` the rank falls to its owners: its parent and the holders of its handles. */
  ghost predicate Falls<N>(w: Forest<N>, t: RefMap<N>, rank: N -> nat, dom: set<N>, x: N) {
    Outranks(rank, dom, x, ParentOf(w, x)) && forall h :: h in RefsOf(t, x) ==> Outranks(rank, dom, x, ParentOf(w, h))
  }

  /** No chunk below `c` owns itself, be it through other chunks below `c`: the rank falls from every owned one to its
      owners. */
  ghost predicate Ranked<N>(w: Forest<N>, t: RefMap<N>, c: N, rank: N -> nat)
    requires c in Ids(w)
  {
    forall x :: x in Ids(Find(w, c).kids) ==> Falls(w, t, rank, TreeIds(w, c), x)
  }

  // ---------- what the loop keeps ----------

  ghost predicate Ladder<N>(w: Forest<N>, t: RefMap<N>, rank: N -> nat, dom: set<N>) {
    forall x :: x in Ids(w) && x in dom ==> Falls(w, t, rank, dom, x)
  }

  ghost predicate Steps<N>(st: seq<N>, rank: N -> nat) {
    forall j :: 0 < j < |st| ==> rank(st[j - 1]) > rank(st[j])
  }

  /** Parents stay, or there is none any more; lists only shrink. */
  ghost predicate Eased<N>(w: Forest<N>, t: RefMap<N>, v: Forest<N>, s: RefMap<N>) {
    && Ids(v) <= Ids(w)
    && (forall x :: x in Ids(v) ==> ParentOf(v, x) == ParentOf(w, x) || ParentOf(v, x).None?)
    && (forall x, h :: x in s && h in RefsOf(s, x) ==> h in RefsOf(t, x) && h in Ids(v))
  }

  lemma LadderEased<N>(w: Forest<N>, t: RefMap<N>, v: Forest<N>, s: RefMap<N>, rank: N -> nat, dom: set<N>)
    requires Ladder(w, t, rank, dom) && Eased(w, t, v, s)
    ensures Ladder(v, s, rank, dom)
  {
    forall x | x in Ids(v) && x in dom ensures Falls(v, s, rank, dom, x) {
      assert Falls(w, t, rank, dom, x);
      forall h | h in RefsOf(s, x) ensures Outranks(rank, dom, x, ParentOf(v, h)) {
        assert Outranks(rank, dom, x, ParentOf(w, h));
      }
    }
  }

  lemma NamedThere<N>(w: Forest<N>, t: RefMap<N>)
    requires Named(w, t)
    ensures forall x, h :: h in RefsOf(t, x) ==> h in Ids(w)
  {
    forall x, h | h in RefsOf(t, x) ensures h in Ids(w) { assert Proper(w, t, x, h); }
  }

  lemma PurgedLess<N>(t: RefMap<N>, gone: set<N>)
    ensures forall x, h :: h in RefsOf(Purged(t, gone), x) ==> h in RefsOf(t, x)
  {
    forall x, h | h in RefsOf(Purged(t, gone), x) ensures h in RefsOf(t, x) { PurgedMember(t, gone, x, h); }
  }

  lemma ShedEased<N>(w: Forest<N>, t: RefMap<N>, st: seq<N>, z: Zone<N>, y: N, h: N)
    requires Fit(w, t, st, z) && h in RefsOf(t, y)
    ensures Eased(w, t, Cut(w, h), Purged(t, {h}))
  {
    FitShed(w, t, st, z, y, h);
    NamedThere(Cut(w, h), Purged(t, {h}));
    PurgedLess(t, {h});
    forall x | x in Ids(Cut(w, h)) ensures ParentOf(Cut(w, h), x) == ParentOf(w, x) { LeafGone(w, h, x); }
  }

  lemma LeftEased<N>(w: Forest<N>, t: RefMap<N>, y: N)
    requires Distinct(w) && Neat(w) && Named(w, t) && y in Ids(w)
    ensures Eased(w, t, Left(w, y), Purged(t, {y}))
  {
    LeftFacts(w, y);
    LeftNamed(w, t, y);
    NamedThere(Left(w, y), Purged(t, {y}));
    PurgedLess(t, {y});
    forall x | x in Ids(w) && x != y ensures ParentOf(Left(w, y), x) == ParentOf(w, x) { LeftInfo(w, y, x); }
  }

  lemma EndEased<N>(w: Forest<N>, t: RefMap<N>, st: seq<N>, z: Zone<N>)
    requires Fit(w, t, st, z) && st != [] && w.kids.Nil?
    ensures Eased(w, t, w.next, t)
  {
    FitEnd(w, t, st, z);
    NamedThere(w.next, t);
  }

  lemma RootedEased<N>(w: Forest<N>, t: RefMap<N>, st: seq<N>, z: Zone<N>)
    requires Fit(w, t, st, z) && z.home.None? && |st| == 1 && w.kids.Cons?
    ensures Eased(w, t, Settled(w, w.kids.c, None), t)
  {
    var k, v := w.kids, Settled(w, w.kids.c, None);
    FitRooted(w, t, st, z);
    NamedThere(v, t);
    assert v == Cons(w.c, w.info, k.next, Cons(k.c, k.info, k.kids, w.next));
    forall x | x in Ids(v) ensures ParentOf(v, x) == ParentOf(w, x) || ParentOf(v, x).None? {
      assert x in Ids(k) ==> ParentOf(w, x) == ParentIn(k, Some(w.c), x);
      assert x !in Ids(k.next) && x != w.c ==> ParentOf(v, x) == ParentIn(v.next, None, x);
    }
  }

  /** The first child of the innermost chunk goes below `q`, to which its rank falls. */
  lemma LadderSettled<N>(w: Forest<N>, t: RefMap<N>, st: seq<N>, z: Zone<N>, q: N, rank: N -> nat)
    requires Fit(w, t, st, z) && st != [] && w.kids.Cons? && q in Ids(w) - TreeIds(w, w.kids.c)
    requires forall x :: w.kids.c !in RefsOf(t, x)
    requires Ladder(w, t, rank, z.dom) && Outranks(rank, z.dom, w.kids.c, Some(q))
    ensures Ladder(Moved(w, w.kids.c, Some(q)), t, rank, z.dom)
  {
    var y, v := w.kids.c, Moved(w, w.kids.c, Some(q));
    MovedFacts(w, y, Some(q));
    forall x | x in Ids(v) && x in z.dom ensures Falls(v, t, rank, z.dom, x) {
      assert Falls(w, t, rank, z.dom, x);
      MovedParent(w, y, Some(q), x);
      forall h | h in RefsOf(t, x) ensures Outranks(rank, z.dom, x, ParentOf(v, h)) {
        assert Proper(w, t, x, h) && Outranks(rank, z.dom, x, ParentOf(w, h));
        MovedParent(w, y, Some(q), h);
      }
    }
  }

  // ---------- ranks inside a tree ----------

  lemma {:induction false} RankBelow<N>(k: Forest<N>, y: N, rank: N -> nat, dom: set<N>, q: N)
    requires Distinct(k) && Ids(k) <= dom && y in dom && q in Ids(k)
    requires forall x :: x in Ids(k) ==> Outranks(rank, dom, x, ParentIn(k, Some(y), x))
    ensures rank(q) > rank(y)
  {
    assert Outranks(rank, dom, k.c, ParentIn(k, Some(y), k.c));
    if q in Ids(k.kids) {
      forall x | x in Ids(k.kids) ensures Outranks(rank, dom, x, ParentIn(k.kids, Some(k.c), x)) {
        assert Outranks(rank, dom, x, ParentIn(k, Some(y), x));
      }
      RankBelow(k.kids, k.c, rank, dom, q);
    } else if q != k.c {
      forall x | x in Ids(k.next) ensures Outranks(rank, dom, x, ParentIn(k.next, Some(y), x)) {
        assert Outranks(rank, dom, x, ParentIn(k, Some(y), x));
      }
      RankBelow(k.next, y, rank, dom, q);
    }
  }

  lemma TreeRank<N>(w: Forest<N>, t: RefMap<N>, y: N, rank: N -> nat, dom: set<N>, q: N)
    requires Distinct(w) && Ladder(w, t, rank, dom) && y in Ids(w) && TreeIds(w, y) <= dom && q in Ids(Find(w, y).kids)
    ensures rank(q) > rank(y)
  {
    var k := Find(w, y).kids;
    TreeFacts(w, y);
    forall x | x in Ids(k) ensures Outranks(rank, dom, x, ParentIn(k, Some(y), x)) {
      TreeParent(w, None, y, x);
      assert Falls(w, t, rank, dom, x);
    }
    RankBelow(k, y, rank, dom, q);
  }

  lemma {:induction false} ParentBelow<N>(k: Forest<N>, y: N, x: N)
    requires x in Ids(k)
    ensures ParentIn(k, Some(y), x).Some? && ParentIn(k, Some(y), x).value in {y} + Ids(k)
  {
    if k.c != x {
      if x in Ids(k.kids) { ParentBelow(k.kids, k.c, x); } else { ParentBelow(k.next, y, x); }
    }
  }

  /** No handle to `y` is below `y`. */
  lemma NoChild<N>(w: Forest<N>, t: RefMap<N>, y: N, rank: N -> nat, dom: set<N>, h: N)
    requires Distinct(w) && Ladder(w, t, rank, dom) && y in Ids(w) && TreeIds(w, y) <= dom && h in RefsOf(t, y)
             && h != y
    ensures h !in TreeIds(w, y)
  {
    if h in Ids(Find(w, y).kids) {
      TreeParent(w, None, y, h);
      ParentBelow(Find(w, y).kids, y, h);
      assert Falls(w, t, rank, dom, y) && Outranks(rank, dom, y, ParentOf(w, h));
      if ParentOf(w, h).value != y { TreeRank(w, t, y, rank, dom, ParentOf(w, h).value); }
      assert false;
    }
  }

  // ---------- freeing ----------

  ghost predicate Climbs<N>(r: Result<N>, rank: N -> nat, dom: set<N>) {
    !r.Hung? && (r.Freed? || r.Kept? ==> Ladder(r.w, r.t, rank, dom))
  }

  ghost predicate Set<N>(w: Forest<N>, t: RefMap<N>, st: seq<N>, z: Zone<N>, rank: N -> nat) {
    Fit(w, t, st, z) && Ladder(w, t, rank, z.dom) && Steps(st, rank)
  }

  lemma FirstDom<N>(w: Forest<N>, t: RefMap<N>, st: seq<N>, z: Zone<N>)
    requires Fit(w, t, st, z) && st != [] && w.kids.Cons?
    ensures var y := w.kids.c;
            && y in Ids(w) && Find(w, y) == w.kids && TreeIds(w, y) <= z.dom
            && ParentOf(w, y) == Some(st[0]) && st[0] in z.dom
  {
    FirstGone(w, st, z);
  }

  /** The child joins the stack. */
  lemma SetLeft<N>(w: Forest<N>, t: RefMap<N>, st: seq<N>, z: Zone<N>, rank: N -> nat)
    requires Set(w, t, st, z, rank) && st != [] && w.kids.Cons?
    ensures var y := w.kids.c; y in Ids(w) && Set(Left(w, y), Purged(t, {y}), [y] + st, z, rank)
  {
    var y := w.kids.c;
    FirstDom(w, t, st, z);
    FitLeft(w, t, st, z);
    LeftEased(w, t, y);
    LadderEased(w, t, Left(w, y), Purged(t, {y}), rank, z.dom);
    assert Falls(w, t, rank, z.dom, y);
    hide Fit, Ladder;
    var up := [y] + st;
    forall j | 0 < j < |up| ensures rank(up[j - 1]) > rank(up[j]) {
      if j > 1 { assert up[j - 1] == st[j - 2] && up[j] == st[j - 1]; }
    }
  }

  lemma TryClimbs<N>(w: Forest<N>, t: RefMap<N>, st: seq<N>, z: Zone<N>, rank: N -> nat)
    requires Set(w, t, st, z, rank) && st != [] && w.kids.Cons?
    ensures w.kids.c in Ids(w) && Climbs(TryFree(w, t, w.kids.c), rank, z.dom)
    decreases Count(w), Count(w.kids.kids), 2
  {
    var y, hs := w.kids.c, RefsOf(t, w.kids.c);
    FirstDom(w, t, st, z);
    if hs != [] {
      var h := hs[0];
      assert Proper(w, t, y, h);
      NoChild(w, t, y, rank, z.dom, h);
      ShedEased(w, t, st, z, y, h);
      LadderEased(w, t, Cut(w, h), Purged(t, {h}), rank, z.dom);
    } else if !Refusing(Find(w, y).info) {
      LeftFacts(w, y);
      SetLeft(w, t, st, z, rank);
      var v := Left(w, y);
      DrainClimbs(v, Purged(t, {y}), [y] + st, z, rank);
    }
  }

  /** The new parent of a child that could not be freed. */
  lemma NewRank<N>(w: Forest<N>, t: RefMap<N>, st: seq<N>, z: Zone<N>, rank: N -> nat, v: Forest<N>, s: RefMap<N>,
                   f: set<N>)
    requires Set(w, t, st, z, rank) && st != [] && w.kids.Cons? && (AsksParent(w, t, w.kids) ==> SeesOwn(w, w.info))
    requires RefsOf(t, w.kids.c) != [] || w.kids.info.des != NoDestructor
    requires Fine(w, t, w.kids.c, st, z, z.dom, Kept(v, s, f)) && Ladder(v, s, rank, z.dom)
    ensures var y, o := w.kids.c, NewParent(w, t, w.info, w.kids.c);
            Outranks(rank, z.dom, y, o) && (o.Some? ==> o.value in Ids(v) && o.value !in TreeIds(v, y))
  {
    var y, o := w.kids.c, NewParent(w, t, w.info, w.kids.c);
    FirstDom(w, t, st, z);
    FirstDom(v, s, st, z);
    NewParentOk(w, t, st, z);
    assert Falls(w, t, rank, z.dom, y) && Outranks(rank, z.dom, y, Some(st[0]));
    if Holder(w, t, y).None? {
      FormerIs(w, t, st, z);
      if |st| > 1 {
        assert rank(st[1 - 1]) > rank(st[1]);
        NotOnStack(v, st, z, st[1]);
        if st[1] in Ids(v.kids) { ParentBelow(v.kids, v.c, st[1]); }
      }
    }
    hide Ladder;
    if o.Some? && o.value in Ids(Find(v, y).kids) {
      TreeRank(v, s, y, rank, z.dom, o.value);
    }
  }

  /** A child that stays is no handle. */
  lemma KeptUnlisted<N>(w: Forest<N>, t: RefMap<N>, y: N, s: RefMap<N>, gone: set<N>)
    requires Named(w, t) && s == Purged(t, gone) && y in Ids(w) && (RefsOf(t, y) != [] || Refusing(Find(w, y).info))
    ensures forall x :: y !in RefsOf(s, x)
  {
    forall x ensures y !in RefsOf(s, x) {
      PurgedLess(t, gone);
      assert y in RefsOf(t, x) ==> Proper(w, t, x, y);
    }
  }

  lemma TurnClimbs<N>(w: Forest<N>, t: RefMap<N>, st: seq<N>, z: Zone<N>, rank: N -> nat)
    requires Set(w, t, st, z, rank) && st != [] && w.kids.Cons?
    ensures Climbs(Turn(w.c, w.info, w.kids, w.next, t), rank, z.dom)
    decreases Count(w), Count(w.kids), 0
  {
    var y := w.kids.c;
    assert w == Cons(w.c, w.info, w.kids, w.next);
    TryFacts(w, t, st, z);
    TryClimbs(w, t, st, z, rank);
    FirstGone(w, st, z);
    var r := TryFree(w, t, y);
    if r.Kept? && (AsksParent(w, t, w.kids) ==> SeesOwn(w, w.info)) {
      KeptWhy(w, t, y);
      NewRank(w, t, st, z, rank, r.w, r.t, r.freed);
      KeptUnlisted(w, t, y, r.t, r.freed);
      NewParentOk(w, t, st, z);
      hide Set, TryFree, Fit, AsksParent, NewParent;
      KeptClimbs(r.w, r.t, st, z, rank, NewParent(w, t, w.info, y));
    }
    hide Ladder, Fit, Fine, TryFree, NewParent;
  }

  lemma KeptClimbs<N>(v: Forest<N>, s: RefMap<N>, st: seq<N>, z: Zone<N>, rank: N -> nat, o: Option<N>)
    requires Fit(v, s, st, z) && Ladder(v, s, rank, z.dom) && st != [] && v.kids.Cons?
    requires Outranks(rank, z.dom, v.kids.c, o) && (forall x :: v.kids.c !in RefsOf(s, x))
    requires o.Some? ==> o.value in Ids(v) && o.value !in TreeIds(v, v.kids.c)
    requires o.None? ==> z.home.None? && |st| == 1
    ensures v.kids.c in Ids(v) && Ladder(Settled(v, v.kids.c, o), s, rank, z.dom)
  {
    if o.Some? {
      LadderSettled(v, s, st, z, o.value, rank);
    } else {
      RootedEased(v, s, st, z);
      LadderEased(v, s, Settled(v, v.kids.c, None), s, rank, z.dom);
    }
  }

  lemma DrainClimbs<N>(w: Forest<N>, t: RefMap<N>, st: seq<N>, z: Zone<N>, rank: N -> nat)
    requires Set(w, t, st, z, rank) && st != []
    ensures Climbs(Drain(w.c, w.info, w.kids, w.next, t), rank, z.dom)
    decreases Count(w), Count(w.kids), 1
  {
    if w.kids.Nil? {
      EndEased(w, t, st, z);
      LadderEased(w, t, w.next, t, rank, z.dom);
    } else {
      var r := Turn(w.c, w.info, w.kids, w.next, t);
      TurnKeeps(w, t, st, z);
      TurnClimbs(w, t, st, z, rank);
      if r.Freed? { DrainClimbs(r.w, r.t, st, z, rank); }
    }
  }

  // ---------- the whole call ----------

  lemma RankedCut<N>(w: Forest<N>, t: RefMap<N>, c: N, h: N, rank: N -> nat)
    requires AtRest(w, t) && c in Ids(w) && h in RefsOf(t, c) && h in TreeIds(w, c) && Ranked(w, t, c, rank)
    ensures c in Ids(Cut(w, h)) && Ranked(Cut(w, h), Purged(t, {h}), c, rank)
  {
    var v, s := Cut(w, h), Purged(t, {h});
    FitShed(w, t, [], Nowhere(), c, h);
    ShedEased(w, t, [], Nowhere(), c, h);
    assert Proper(w, t, c, h);
    TreeLess(w, h, c);
    TreeFacts(v, c);
    forall x | x in Ids(Find(v, c).kids) ensures Falls(v, s, rank, TreeIds(v, c), x) {
      assert Falls(w, t, rank, TreeIds(w, c), x);
      forall g | g in RefsOf(s, x) ensures Outranks(rank, TreeIds(v, c), x, ParentOf(v, g)) {
        assert Outranks(rank, TreeIds(w, c), x, ParentOf(w, g));
      }
    }
  }

  lemma SetFirst<N>(w: Forest<N>, t: RefMap<N>, c: N, rank: N -> nat)
    requires AtRest(w, t) && c in Ids(w) && RefsOf(t, c) == [] && Ranked(w, t, c, rank)
    ensures Set(Left(w, c), Purged(t, {c}), [c], ZoneOf(w, c), rank)
  {
    var v, s, dom := Left(w, c), Purged(t, {c}), TreeIds(w, c);
    FitFirst(w, t, c);
    LeftEased(w, t, c);
    TreeFacts(w, c);
    forall x | x in Ids(v) && x in dom ensures Falls(v, s, rank, dom, x) {
      if x != c {
        assert Falls(w, t, rank, dom, x);
        forall h | h in RefsOf(s, x) ensures Outranks(rank, dom, x, ParentOf(v, h)) {
          assert Outranks(rank, dom, x, ParentOf(w, h));
        }
      } else {
        PurgedLess(t, {c});
      }
    }
  }

  /** With acyclic references nothing is ever hung below itself. */
  lemma RankedFree<N>(w: Forest<N>, t: RefMap<N>, c: N, rank: N -> nat)
    requires AtRest(w, t) && c in Ids(w) && Ranked(w, t, c, rank)
    ensures !TryFree(w, t, c).Hung?
    decreases Count(w)
  {
    var hs := RefsOf(t, c);
    if hs != [] {
      FitShed(w, t, [], Nowhere(), c, hs[0]);
      assert Proper(w, t, c, hs[0]);
      if hs[0] in TreeIds(w, c) {
        RankedCut(w, t, c, hs[0], rank);
        RankedFree(Cut(w, hs[0]), Purged(t, {hs[0]}), c, rank);
      }
    } else if !Refusing(Find(w, c).info) {
      LeftFacts(w, c);
      SetFirst(w, t, c, rank);
      DrainClimbs(Left(w, c), Purged(t, {c}), [c], ZoneOf(w, c), rank);
    }
  }

  /** So if, besides, the chunk before `c` is no handle to anything in its tree, the call comes to its end. */
  lemma RankedEnds<N>(w: Forest<N>, t: RefMap<N>, c: N, rank: N -> nat)
    requires Good(w, t) && c in Ids(w) && Ranked(w, t, c, rank)
    requires !(PrevOf(w, c).Some? && Grips(w, PrevOf(w, c).value, TreeIds(w, c)))
    ensures var r := TryFree(w, t, c); (r.Freed? || r.Kept?) && Good(r.w, r.t) && Ids(r.w) == Ids(w) - r.freed
  {
    GoodRests(w, t);
    RankedFree(w, t, c, rank);
    NotBlind(w, t, c);
    TryFirst(w, t, c);
    TryGood(w, t, c);
    hide Good, Ranked, AtRest, TryFree, Grips;
  }

  // ---------- references from outside ----------

  ghost function Depth<N>(k: Forest<N>, x: N): nat {
    match k
    case Nil => 0
    case Cons(c, _, kk, n) => if c == x then 1 else if x in Ids(kk) then 1 + Depth(kk, x) else Depth(n, x)
  }

  lemma {:induction false} DepthFalls<N>(k: Forest<N>, par: N, x: N)
    requires Distinct(k) && x in Ids(k) && par !in Ids(k)
    ensures var p := ParentIn(k, Some(par), x);
            p.Some? && (p == Some(par) || (p.value in Ids(k) && Depth(k, p.value) < Depth(k, x))) && Depth(k, x) > 0
  {
    if k.c != x {
      if x in Ids(k.kids) { DepthFalls(k.kids, k.c, x); } else { DepthFalls(k.next, par, x); }
    }
  }

  /** Whoever has its parent in the tree of `c` is below `c`. */
  lemma {:induction false} ChildInside<N>(f: Forest<N>, par: Option<N>, c: N, h: N)
    requires Distinct(f) && c in Ids(f) && h in Ids(f) && (par.Some? ==> par.value !in Ids(f))
    requires ParentIn(f, par, h).Some? && ParentIn(f, par, h).value in TreeIds(f, c)
    ensures h in Ids(Find(f, c).kids)
  {
    TreeFacts(f, c);
    if f.c == c {
      if h !in Ids(f.kids) && h != f.c { ParentFrom(f.next, par, h); }
    } else if c in Ids(f.kids) {
      if h in Ids(f.kids) {
        ChildInside(f.kids, Some(f.c), c, h);
      } else if h != f.c {
        TreeFacts(f.kids, c);
        ParentFrom(f.next, par, h);
      }
    } else if h in Ids(f.kids) {
      TreeFacts(f.next, c);
      ParentFrom(f.kids, Some(f.c), h);
    } else if h != f.c {
      ChildInside(f.next, par, c, h);
    }
  }

  lemma {:induction false} ParentFrom<N>(f: Forest<N>, par: Option<N>, h: N)
    requires h in Ids(f)
    ensures ParentIn(f, par, h) == par || (ParentIn(f, par, h).Some? && ParentIn(f, par, h).value in Ids(f))
  {
    if f.c != h {
      if h in Ids(f.kids) { ParentFrom(f.kids, Some(f.c), h); } else { ParentFrom(f.next, par, h); }
    }
  }

  /** If all handles to what is below `c` are outside its tree, the depth is such a rank. */
  lemma OutsideRanked<N>(w: Forest<N>, t: RefMap<N>, c: N)
    requires AtRest(w, t) && c in Ids(w)
    requires forall x, h :: x in Ids(Find(w, c).kids) && h in RefsOf(t, x) ==> h !in TreeIds(w, c)
    ensures Ranked(w, t, c, x => Depth(Find(w, c).kids, x))
  {
    var k, dom := Find(w, c).kids, TreeIds(w, c);
    var rank := x => Depth(k, x);
    TreeFacts(w, c);
    forall x | x in Ids(k) ensures Falls(w, t, rank, dom, x) {
      DepthFalls(k, c, x);
      TreeParent(w, None, c, x);
      DepthAbsent(k, c);
      forall h | h in RefsOf(t, x) ensures Outranks(rank, dom, x, ParentOf(w, h)) {
        assert Proper(w, t, x, h);
        if ParentOf(w, h).Some? && ParentOf(w, h).value in dom { ChildInside(w, None, c, h); }
      }
    }
  }

  lemma {:induction false} DepthAbsent<N>(k: Forest<N>, x: N)
    requires x !in Ids(k)
    ensures Depth(k, x) == 0
  {
    if k.Cons? { DepthAbsent(k.next, x); }
  }
}
