/**
 What becomes of every chunk below a freed one, in closed form. It depends on the handles that refer to the chunk, on
 the refusals and references above it, and on how many chunks between it and the outermost freed one are freed.
 */
module Fates {
  import opened Forests
  import opened Releases
  import opened RefMaps
  import opened Flows
  import opened FlowFacts

  /** Where its handles take a chunk, and which of them it keeps: to the parent of the first handle that has one; home,
      to the former parent of the outermost freed chunk; or nowhere, with all handles spent and so many levels left. */
  datatype Course<N> = ToHolder(q: N, left: seq<N>) | ToHome(left: seq<N>) | Unheld(level: nat)

  /** A handle without a parent only takes the chunk one level up. */
  ghost function CourseOf<N>(hs: seq<N>, rest: Forest<N>, d: nat): Course<N> {
    if d == 0 then ToHome(hs)
    else if hs == [] then Unheld(d)
    else if ParentOf(rest, hs[0]).Some? then ToHolder(ParentOf(rest, hs[0]).value, hs[1..])
    else CourseOf(hs[1..], rest, d - 1)
  }

  /** A chunk is gone, or it has a parent and a list of handles. */
  datatype End<N> = Dead | Lives(par: Option<N>, left: seq<N>)

  ghost function EndOf<N>(way: Course<N>, home: Option<N>): End<N> {
    match way
    case ToHolder(q, left) => Lives(Some(q), left)
    case ToHome(left) => Lives(home, left)
    case Unheld(_) => Lives(home, [])
  }

  /** What becomes of `x` in the list `k`, `d` levels below `home`: it dies if all handles of it and of everything above
      it get spent and nobody refuses. Otherwise it goes where its handles or its refusal take it, or stays below its
      parent. */
  ghost function FateIn<N>(k: Forest<N>, t: RefMap<N>, rest: Forest<N>, home: Option<N>, d: nat, x: N): End<N>
    requires x in Ids(k)
    decreases k, 0
  {
    if x == k.c || x in Ids(k.kids)
        then FateBelow(k.c, k.info, k.kids, t, rest, home, CourseOf(RefsOf(t, k.c), rest, d), x)
    else FateIn(k.next, t, rest, home, d, x)
  }

  /** The same for the tree of `c`, whose handles take it the way `way`. */
  ghost function FateBelow<N>(c: N, i: Info<N>, kids: Forest<N>, t: RefMap<N>, rest: Forest<N>, home: Option<N>,
                              way: Course<N>, x: N): End<N>
    requires x == c || x in Ids(kids)
    decreases kids, 1
  {
    if way.Unheld? && !Refusing(i) then
      if x == c then Dead else FateIn(kids, t, rest, home, way.level + 1, x)
    else
      if x == c then EndOf(way, home) else Lives(ParentIn(kids, Some(c), x), RefsOf(t, x))
  }

  /** The fate of a chunk in the first tree of the list. */
  lemma FateFirst<N>(k: Forest<N>, t: RefMap<N>, rest: Forest<N>, home: Option<N>, d: nat, x: N)
    requires k.Cons? && x in {k.c} + Ids(k.kids)
    ensures var way := CourseOf(RefsOf(t, k.c), rest, d);
            FateIn(k, t, rest, home, d, x) ==
              if way.Unheld? && !Refusing(k.info) then
                if x == k.c then Dead else FateIn(k.kids, t, rest, home, way.level + 1, x)
              else
                if x == k.c then EndOf(way, home) else Lives(ParentIn(k.kids, Some(k.c), x), RefsOf(t, x))
  {
    var way := CourseOf(RefsOf(t, k.c), rest, d);
    assert FateIn(k, t, rest, home, d, x) == FateBelow(k.c, k.info, k.kids, t, rest, home, way, x);
  }

  // ---------- what the fate depends on ----------

  ghost predicate Agree<N>(x: N, t: RefMap<N>, rest: Forest<N>, t': RefMap<N>, rest': Forest<N>) {
    RefsOf(t', x) == RefsOf(t, x) && forall h :: h in RefsOf(t, x) ==> ParentOf(rest', h) == ParentOf(rest, h)
  }

  lemma {:induction false} CourseSame<N>(hs: seq<N>, rest: Forest<N>, rest': Forest<N>, d: nat)
    requires forall h :: h in hs ==> ParentOf(rest', h) == ParentOf(rest, h)
    ensures CourseOf(hs, rest', d) == CourseOf(hs, rest, d)
  {
    if d > 0 && hs != [] { CourseSame(hs[1..], rest, rest', d - 1); }
  }

  lemma {:induction false} FateSame<N>(k: Forest<N>, t: RefMap<N>, rest: Forest<N>, t': RefMap<N>, rest': Forest<N>,
                                       home: Option<N>, d: nat, x: N)
    requires x in Ids(k) && forall y :: y in Ids(k) ==> Agree(y, t, rest, t', rest')
    ensures FateIn(k, t', rest', home, d, x) == FateIn(k, t, rest, home, d, x)
    decreases k, 0
  {
    if x == k.c || x in Ids(k.kids) {
      assert k.c in Ids(k) && Agree(k.c, t, rest, t', rest');
      CourseSame(RefsOf(t, k.c), rest, rest', d);
      BelowSame(k.c, k.info, k.kids, t, rest, t', rest', home, CourseOf(RefsOf(t, k.c), rest, d), x);
    } else {
      FateSame(k.next, t, rest, t', rest', home, d, x);
    }
  }

  lemma {:induction false} BelowSame<N>(c: N, i: Info<N>, kids: Forest<N>, t: RefMap<N>, rest: Forest<N>,
                                        t': RefMap<N>, rest': Forest<N>,
                                        home: Option<N>, way: Course<N>, x: N)
    requires (x == c || x in Ids(kids)) && forall y :: y in Ids(kids) ==> Agree(y, t, rest, t', rest')
    ensures FateBelow(c, i, kids, t', rest', home, way, x) == FateBelow(c, i, kids, t, rest, home, way, x)
    decreases kids, 1
  {
    if x != c && way.Unheld? { FateSame(kids, t, rest, t', rest', home, way.level + 1, x); }
  }

  /** The outlook of `x` in a state of the loop; the waiting siblings are one level up. */
  ghost function Outlook<N>(k: Forest<N>, s: Yard<N>, home: Option<N>, d: nat, x: N): End<N>
    requires d > 0
  {
    if x in Ids(k) then FateIn(k, s.refs, s.rest, home, d, x)
    else if x in Ids(s.list) then FateIn(s.list, s.refs, s.rest, home, d - 1, x)
    else if x in Ids(s.rest) then Lives(ParentOf(s.rest, x), RefsOf(s.refs, x))
    else Dead
  }

  ghost predicate Levels<N>(s: Yard<N>, to: Dest<N>, home: Option<N>, d: nat) {
    if to.Front? then d > 1 else d == 1 && to.par == home && s.list.Nil?
  }

  // ---------- agreement ----------

  /** The lists of chunks that lose no handle, and the places of these handles, stay as they are. */
  lemma AgreeKept<N>(k: Forest<N>, s: Yard<N>, k': Forest<N>, s': Yard<N>, to: Dest<N>, x: N)
    requires Inv(k, s, to) && Kept(k, s, k', s') && x in Ids(k) + Ids(s.list) && x !in Lost(k, s, k', s')
    requires forall h :: h in RefsOf(s.refs, x) ==> h !in Lost(k, s, k', s')
    ensures Agree(x, s.refs, s.rest, s'.refs, s'.rest)
  {
    PurgedSame(s.refs, Lost(k, s, k', s'), x);
    forall h | h in RefsOf(s.refs, x) ensures ParentOf(s'.rest, h) == ParentOf(s.rest, h) { assert Hold(s, x, h); }
  }

  /** A handle refers to one chunk. */
  lemma OneTarget<N>(k: Forest<N>, s: Yard<N>, to: Dest<N>, x: N, y: N, h: N)
    requires Inv(k, s, to) && x in Ids(k) + Ids(s.list) && y in Ids(k) + Ids(s.list)
    requires h in RefsOf(s.refs, x) && h in RefsOf(s.refs, y)
    ensures x == y
  {
    assert Hold(s, x, h) && Hold(s, y, h);
  }

  lemma AgreeList<N>(k: Forest<N>, s: Yard<N>, k': Forest<N>, s': Yard<N>, to: Dest<N>, x: N)
    requires Inv(k, s, to) && Kept(k, s, k', s') && x in Ids(s.list)
    ensures Agree(x, s.refs, s.rest, s'.refs, s'.rest)
  {
    forall h | h in RefsOf(s.refs, x) ensures h !in Lost(k, s, k', s') {
      assert x in Ids(k) + Ids(s.list) && Hold(s, x, h);
      forall y | y in Ids(k) ensures h !in RefsOf(s.refs, y) {
        if h in RefsOf(s.refs, y) { OneTarget(k, s, to, x, y, h); }
      }
    }
    AgreeKept(k, s, k', s', to, x);
  }

  lemma ListFate<N>(k: Forest<N>, s: Yard<N>, k': Forest<N>, s': Yard<N>, to: Dest<N>, home: Option<N>, d: nat, x: N)
    requires Inv(k, s, to) && Kept(k, s, k', s') && x in Ids(s.list)
    ensures FateIn(s.list, s'.refs, s'.rest, home, d, x) == FateIn(s.list, s.refs, s.rest, home, d, x)
  {
    forall y | y in Ids(s.list) ensures Agree(y, s.refs, s.rest, s'.refs, s'.rest) { AgreeList(k, s, k', s', to, y); }
    FateSame(s.list, s.refs, s.rest, s'.refs, s'.rest, home, d, x);
  }

  // ---------- one round ----------

  ghost predicate Stable<N>(k: Forest<N>, s: Yard<N>, to: Dest<N>, home: Option<N>, d: nat, x: N) {
    k.Cons? && Inv(k, s, to) && Levels(s, to, home, d) && x in Ids(k) + Ids(s.list)
  }

  /** The rest of the list, and what is below its first chunk, when that chunk goes elsewhere with at most one handle
      lost. */
  lemma NextAgree<N>(k: Forest<N>, s: Yard<N>, s': Yard<N>, to: Dest<N>, y: N)
    requires k.Cons? && Inv(k, s, to) && Kept(k, s, k.next, s') && y in Ids(k.next) + Ids(k.kids)
    requires forall z :: z in Lost(k, s, k.next, s') ==> z in RefsOf(s.refs, k.c)
    ensures Agree(y, s.refs, s.rest, s'.refs, s'.rest)
  {
    var lost := Lost(k, s, k.next, s');
    forall z | z in lost ensures z in Ids(s.rest) { assert k.c in Ids(k) + Ids(s.list) && Hold(s, k.c, z); }
    forall h | h in RefsOf(s.refs, y) ensures h !in lost {
      if h in lost { OneTarget(k, s, to, k.c, y, h); }
    }
    AgreeKept(k, s, k.next, s', to, y);
  }

  lemma NextFate<N>(k: Forest<N>, s: Yard<N>, s': Yard<N>, to: Dest<N>, home: Option<N>, d: nat, x: N)
    requires k.Cons? && Inv(k, s, to) && Kept(k, s, k.next, s') && x in Ids(k.next)
    requires forall z :: z in Lost(k, s, k.next, s') ==> z in RefsOf(s.refs, k.c)
    ensures FateIn(k.next, s'.refs, s'.rest, home, d, x) == FateIn(k.next, s.refs, s.rest, home, d, x)
  {
    forall y | y in Ids(k.next) ensures Agree(y, s.refs, s.rest, s'.refs, s'.rest) { NextAgree(k, s, s', to, y); }
    FateSame(k.next, s.refs, s.rest, s'.refs, s'.rest, home, d, x);
  }

  lemma RiseOutlook<N>(k: Forest<N>, s: Yard<N>, to: Dest<N>, home: Option<N>, d: nat, x: N)
    requires Stable(k, s, to, home, d, x) && RefsOf(s.refs, k.c) == [] && Refusing(k.info)
    ensures Outlook(k.next, Rise(s, to, k), home, d, x) == Outlook(k, s, home, d, x)
  {
    var s' := Rise(s, to, k);
    RiseKept(k, s, to);
    RiseAll(k, s, to);
    if x in Ids(k.next) {
      NextFate(k, s, s', to, home, d, x);
    } else if x in Ids(s.list) {
      ListFate(k, s, k.next, s', to, home, d - 1, x);
    } else {
      FateFirst(k, s.refs, s.rest, home, d, x);
      if to.Under? { HungTree(s.rest, to.par, k, x); } else { FateFirst(s'.list, s'.refs, s'.rest, home, d - 1, x); }
    }
  }

  lemma LeaveLost<N>(k: Forest<N>, s: Yard<N>, to: Dest<N>, h: N)
    requires k.Cons? && Inv(k, s, to) && h in RefsOf(s.refs, k.c)
    ensures Lost(k, s, k.next, Leave(Shed(s, h), to, k, ParentOf(s.rest, h))) == {h}
    ensures Leave(Shed(s, h), to, k, ParentOf(s.rest, h)).refs == Purged(s.refs, {h})
  {
    var m, q := Shed(s, h), ParentOf(s.rest, h);
    assert Hold(s, k.c, h);
    ShedIds(s.rest, h);
    ShedInv(k, s, h, to);
    assert Lost(k, s, k, m) == {h} && All(k, m) <= All(k, s);
    if q.None? {
      RiseAll(k, m, to);
    } else {
      HolderStays(k, s, to, h);
      HungIds(m.rest, q, k);
      assert All(k.next, Gone(m, q, k)) == All(k, m);
    }
    LostTwice(k, s, k, m, k.next, Leave(m, to, k, q));
  }

  lemma RiseAll<N>(k: Forest<N>, s: Yard<N>, to: Dest<N>)
    requires k.Cons? && Inv(k, s, to)
    ensures All(k.next, Rise(s, to, k)) == All(k, s)
  {
    if to.Under? { HungIds(s.rest, to.par, k); }
  }

  /** The child goes to the parent of its newest handle. */
  lemma HolderOutlook<N>(k: Forest<N>, s: Yard<N>, to: Dest<N>, home: Option<N>, d: nat, x: N, h: N)
    requires Stable(k, s, to, home, d, x) && RefsOf(s.refs, k.c) != [] && h == RefsOf(s.refs, k.c)[0]
             && ParentOf(s.rest, h).Some?
    requires x in {k.c} + Ids(k.kids)
    ensures Outlook(k.next, Leave(Shed(s, h), to, k, ParentOf(s.rest, h)), home, d, x) == Outlook(k, s, home, d, x)
  {
    var m, q := Shed(s, h), ParentOf(s.rest, h);
    assert Hold(s, k.c, h);
    ShedIds(s.rest, h);
    HolderStays(k, s, to, h);
    HungTree(m.rest, q, k, x);
    ShedRefs(k, s, to, x, h);
    FateFirst(k, s.refs, s.rest, home, d, x);
  }

  lemma ShedRefs<N>(k: Forest<N>, s: Yard<N>, to: Dest<N>, x: N, h: N)
    requires k.Cons? && Inv(k, s, to) && RefsOf(s.refs, k.c) != [] && h == RefsOf(s.refs, k.c)[0] && x in Ids(k)
    ensures RefsOf(Purged(s.refs, {h}), x) == if x == k.c then RefsOf(s.refs, x)[1..] else RefsOf(s.refs, x)
  {
    assert Hold(s, k.c, h);
    if x == k.c {
      WithoutFirst(RefsOf(s.refs, x));
    } else {
      assert h in RefsOf(s.refs, k.c);
      if h in RefsOf(s.refs, x) { OneTarget(k, s, to, k.c, x, h); }
      PurgedSame(s.refs, {h}, x);
    }
  }

  /** The handle had no parent: the child goes home. */
  lemma HomeOutlook<N>(k: Forest<N>, s: Yard<N>, to: Dest<N>, home: Option<N>, d: nat, x: N, h: N)
    requires Stable(k, s, to, home, d, x) && RefsOf(s.refs, k.c) != [] && h == RefsOf(s.refs, k.c)[0]
             && ParentOf(s.rest, h).None?
    requires x in {k.c} + Ids(k.kids) && to.Under?
    ensures Outlook(k.next, Rise(Shed(s, h), to, k), home, d, x) == Outlook(k, s, home, d, x)
  {
    var hs, m := RefsOf(s.refs, k.c), Shed(s, h);
    assert Hold(s, k.c, h);
    ShedIds(s.rest, h);
    ShedInv(k, s, h, to);
    assert CourseOf(hs[1..], s.rest, 0) == ToHome(hs[1..]);
    HungTree(m.rest, to.par, k, x);
    ShedRefs(k, s, to, x, h);
    FateFirst(k, s.refs, s.rest, home, d, x);
  }

  /** The handles that are left to a child that goes one level up. */
  lemma UpCourse<N>(k: Forest<N>, s: Yard<N>, h: N, d: nat)
    requires k.Cons? && Inv(k, s, Front) && RefsOf(s.refs, k.c) != [] && h == RefsOf(s.refs, k.c)[0]
             && ParentOf(s.rest, h).None? && d > 0
    ensures CourseOf(RefsOf(Shed(s, h).refs, k.c), Shed(s, h).rest, d - 1) == CourseOf(RefsOf(s.refs, k.c), s.rest, d)
  {
    var hs := RefsOf(s.refs, k.c);
    assert Hold(s, k.c, h);
    WithoutFirst(hs);
    assert RefsOf(Shed(s, h).refs, k.c) == hs[1..];
    ShedKept(k, s, h, Front);
    forall g | g in hs[1..] ensures ParentOf(Shed(s, h).rest, g) == ParentOf(s.rest, g) {
      ShedHeld(k, s, h, Front, k.c, g);
    }
    CourseSame(hs[1..], s.rest, Shed(s, h).rest, d - 1);
  }

  /** The handle had no parent: the child goes one level up. */
  lemma UpOutlook<N>(k: Forest<N>, s: Yard<N>, home: Option<N>, d: nat, x: N, h: N)
    requires Stable(k, s, Front, home, d, x) && RefsOf(s.refs, k.c) != [] && h == RefsOf(s.refs, k.c)[0]
             && ParentOf(s.rest, h).None?
    requires x in {k.c} + Ids(k.kids)
    ensures Outlook(k.next, Rise(Shed(s, h), Front, k), home, d, x) == Outlook(k, s, home, d, x)
  {
    var s' := Rise(Shed(s, h), Front, k);
    assert x !in Ids(k.next) && x in Ids(k);
    UpCourse(k, s, h, d);
    ShedRefs(k, s, Front, x, h);
    LeaveKept(k, s, Front, h);
    LeaveLost(k, s, Front, h);
    UpFate(k, s, s', home, d, x, h);
  }

  lemma UpFate<N>(k: Forest<N>, s: Yard<N>, s': Yard<N>, home: Option<N>, d: nat, x: N, h: N)
    requires k.Cons? && Inv(k, s, Front) && d > 0 && s'.list == Cons(k.c, k.info, k.kids, s.list)
             && x in {k.c} + Ids(k.kids)
    requires Kept(k, s, k.next, s') && forall z :: z in Lost(k, s, k.next, s') ==> z in RefsOf(s.refs, k.c)
    requires CourseOf(RefsOf(s'.refs, k.c), s'.rest, d - 1) == CourseOf(RefsOf(s.refs, k.c), s.rest, d)
    ensures FateIn(s'.list, s'.refs, s'.rest, home, d - 1, x) == FateIn(k, s.refs, s.rest, home, d, x)
  {
    forall y | y in Ids(k.kids) ensures Agree(y, s.refs, s.rest, s'.refs, s'.rest) { NextAgree(k, s, s', Front, y); }
    hide Kept, Lost, CourseOf, Inv, RefsOf, Agree;
    BelowSame(k.c, k.info, k.kids, s.refs, s.rest, s'.refs, s'.rest, home, CourseOf(RefsOf(s.refs, k.c), s.rest, d), x);
  }

  lemma LeaveOutlook<N>(k: Forest<N>, s: Yard<N>, to: Dest<N>, home: Option<N>, d: nat, x: N, h: N)
    requires Stable(k, s, to, home, d, x) && RefsOf(s.refs, k.c) != [] && h == RefsOf(s.refs, k.c)[0]
    ensures Outlook(k.next, Leave(Shed(s, h), to, k, ParentOf(s.rest, h)), home, d, x) == Outlook(k, s, home, d, x)
  {
    var s' := Leave(Shed(s, h), to, k, ParentOf(s.rest, h));
    if x in {k.c} + Ids(k.kids) {
      if ParentOf(s.rest, h).Some? {
        HolderOutlook(k, s, to, home, d, x, h);
      } else if to.Under? {
        HomeOutlook(k, s, to, home, d, x, h);
      } else {
        UpOutlook(k, s, home, d, x, h);
      }
    } else {
      LeaveKept(k, s, to, h);
      LeaveLost(k, s, to, h);
      if x in Ids(k.next) {
        NextFate(k, s, s', to, home, d, x);
      } else {
        ListFate(k, s, k.next, s', to, home, d - 1, x);
      }
    }
  }

  /** After the loop below a freed child, what is not settled waits among its former siblings. */
  lemma OuterOutlook<N>(k: Forest<N>, s: Yard<N>, home: Option<N>, d: nat, x: N, m: Yard<N>)
    requires k.Cons? && Apart(k, s) && d > 0 && x in Ids(k.kids) + Ids(k.next)
    ensures Outlook(m.list, Outer(s, m), home, d, x) == Outlook(Nil, m, home, d + 1, x)
  {
  }

  /** The child is freed; what is below it comes first. */
  lemma FreedOutlook<N>(k: Forest<N>, s: Yard<N>, to: Dest<N>, home: Option<N>, d: nat, x: N, m: Yard<N>)
    requires Stable(k, s, to, home, d, x) && RefsOf(s.refs, k.c) == [] && !Refusing(k.info) && FreedFirst(k, s, m, to)
    requires x in Ids(k.kids) + Ids(k.next) ==>
               Outlook(Nil, m, home, d + 1, x) == Outlook(k.kids, Inner(k, s), home, d + 1, x)
    ensures Outlook(m.list, Outer(s, m), home, d, x) == Outlook(k, s, home, d, x)
  {
    if x in Ids(k.kids) + Ids(k.next) {
      InnerOutlook(k, s, to, home, d, x);
      OuterOutlook(k, s, home, d, x, m);
    } else if x == k.c {
      FreedGone(k, s, to, m);
      FateFirst(k, s.refs, s.rest, home, d, x);
    } else {
      WaitingOutlook(k, s, to, home, d, x, m);
    }
  }

  lemma InnerOutlook<N>(k: Forest<N>, s: Yard<N>, to: Dest<N>, home: Option<N>, d: nat, x: N)
    requires Stable(k, s, to, home, d, x) && RefsOf(s.refs, k.c) == [] && !Refusing(k.info)
             && x in Ids(k.kids) + Ids(k.next)
    ensures Outlook(k.kids, Inner(k, s), home, d + 1, x) == Outlook(k, s, home, d, x)
  {
    if x in Ids(k.kids) {
      FateFirst(k, s.refs, s.rest, home, d, x);
      InnerFate(k.kids, k, s, to, home, d + 1, x);
    } else {
      InnerFate(k.next, k, s, to, home, d, x);
    }
  }

  lemma WaitingOutlook<N>(k: Forest<N>, s: Yard<N>, to: Dest<N>, home: Option<N>, d: nat, x: N, m: Yard<N>)
    requires Stable(k, s, to, home, d, x) && FreedFirst(k, s, m, to) && x in Ids(s.list)
    ensures Outlook(m.list, Outer(s, m), home, d, x) == Outlook(k, s, home, d, x)
  {
    FreedLost(k, s, m, to);
    FreedKept(k, s, m, to);
    hide KeptPlaces, KeptRefs, KeptGrips;
    ListFate(k, s, m.list, Outer(s, m), to, home, d - 1, x);
  }

  lemma FreedGone<N>(k: Forest<N>, s: Yard<N>, to: Dest<N>, m: Yard<N>)
    requires FreedFirst(k, s, m, to)
    ensures k.c !in Ids(m.list) && k.c !in Ids(s.list) && k.c !in Ids(m.rest)
  {
    FreedLost(k, s, m, to);
    assert k.c in Lost(k, s, m.list, Outer(s, m));
  }

  lemma InnerFate<N>(f: Forest<N>, k: Forest<N>, s: Yard<N>, to: Dest<N>, home: Option<N>, d: nat, x: N)
    requires k.Cons? && Inv(k, s, to) && (f == k.kids || f == k.next) && x in Ids(f)
    ensures FateIn(f, Inner(k, s).refs, s.rest, home, d, x) == FateIn(f, s.refs, s.rest, home, d, x)
  {
    forall y | y in Ids(f) ensures Agree(y, s.refs, s.rest, Inner(k, s).refs, s.rest) {
      forall h | h in RefsOf(s.refs, y) ensures h != k.c { assert y in Ids(k) + Ids(s.list) && Hold(s, y, h); }
      PurgedSame(s.refs, {k.c}, y);
    }
    FateSame(f, s.refs, s.rest, Inner(k, s).refs, s.rest, home, d, x);
  }

  lemma RoundOutlook<N>(k: Forest<N>, s: Yard<N>, to: Dest<N>, home: Option<N>, d: nat, x: N)
    requires Stable(k, s, to, home, d, x)
    ensures var r := Round(k, s, to);
            Outlook(r.0, r.1, home, d, x) == Outlook(k, s, home, d, x) && Levels(r.1, to, home, d)
    decreases Count(k), 0
  {
    var hs := RefsOf(s.refs, k.c);
    if hs != [] {
      LeaveOutlook(k, s, to, home, d, x, hs[0]);
    } else if Refusing(k.info) {
      RiseOutlook(k, s, to, home, d, x);
    } else {
      var m := Flow(k.kids, Inner(k, s), Front);
      InnerInv(k, s, to);
      FlowKept(k.kids, Inner(k, s), Front);
      if x in Ids(k.kids) + Ids(k.next) { FlowOutlook(k.kids, Inner(k, s), Front, home, d + 1, x); }
      FreedOutlook(k, s, to, home, d, x, m);
    }
  }

  /** Who has left the list is not touched again. */
  lemma SettledOutlook<N>(k: Forest<N>, s: Yard<N>, to: Dest<N>, k': Forest<N>, s': Yard<N>, k'': Forest<N>,
                          s'': Yard<N>, x: N)
    requires Inv(k, s, to) && Kept(k, s, k', s') && Kept(k', s', k'', s'') && x in Ids(k) + Ids(s.list)
             && x !in Ids(k') + Ids(s'.list)
    requires Inv(k', s', to)
    ensures x in Ids(s'.rest) ==> x in Ids(s''.rest) && x !in Ids(k'') + Ids(s''.list)
                                  && ParentOf(s''.rest, x) == ParentOf(s'.rest, x)
                                  && RefsOf(s''.refs, x) == RefsOf(s'.refs, x)
    ensures x !in Ids(s'.rest) ==> x !in All(k'', s'')
  {
    if x in Ids(s'.rest) {
      forall y | y in Ids(k') ensures x !in RefsOf(s'.refs, y) {
        PurgedMember(s.refs, Lost(k, s, k', s'), y, x);
        assert y in Ids(k) + Ids(s.list);
        assert x in RefsOf(s.refs, y) ==> Hold(s, y, x);
      }
      assert !Grips(k', s'.refs, x);
      SettledRefs(k, s, to, k', s', k'', s'', x);
    }
  }

  lemma SettledRefs<N>(k: Forest<N>, s: Yard<N>, to: Dest<N>, k': Forest<N>, s': Yard<N>, k'': Forest<N>, s'': Yard<N>,
                       x: N)
    requires Inv(k, s, to) && Kept(k, s, k', s') && Kept(k', s', k'', s'') && x in Ids(k) + Ids(s.list)
             && x !in Ids(k') + Ids(s'.list)
    requires Inv(k', s', to) && x in Ids(s'.rest) && x in All(k'', s'')
    ensures RefsOf(s''.refs, x) == RefsOf(s'.refs, x)
  {
    var lost, lost' := Lost(k, s, k', s'), Lost(k', s', k'', s'');
    forall h | h in RefsOf(s'.refs, x) ensures h !in lost' {
      PurgedMember(s.refs, lost, x, h);
      assert Hold(s, x, h);
      forall y | y in Ids(k') ensures h !in RefsOf(s'.refs, y) {
        PurgedMember(s.refs, lost, y, h);
        if h in RefsOf(s.refs, y) { OneTarget(k, s, to, x, y, h); }
      }
      assert !Grips(k', s'.refs, h);
    }
    PurgedSame(s'.refs, lost', x);
  }

  /** The loop brings about what the handles, the refusals and the references say from the start. */
  lemma FlowOutlook<N>(k: Forest<N>, s: Yard<N>, to: Dest<N>, home: Option<N>, d: nat, x: N)
    requires Inv(k, s, to) && Levels(s, to, home, d) && x in Ids(k) + Ids(s.list)
    ensures Outlook(Nil, Flow(k, s, to), home, d, x) == Outlook(k, s, home, d, x)
    decreases Count(k), 1
  {
    if k.Cons? {
      var r, s' := Round(k, s, to), Flow(k, s, to);
      RoundKept(k, s, to);
      RoundOutlook(k, s, to, home, d, x);
      FlowKept(r.0, r.1, to);
      if x in Ids(r.0) + Ids(r.1.list) {
        FlowOutlook(r.0, r.1, to, home, d, x);
      } else {
        SettledOutlook(k, s, to, r.0, r.1, Nil, s', x);
      }
    }
  }
}
