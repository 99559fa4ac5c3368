/** Whom the chunks belong to after a chunk has been freed, and the simple case in which every handle has a parent. */
module Heirs {
  import opened Forests
  import opened Transfers
  import opened Releases
  import opened RefMaps
  import opened Flows
  import opened Fates
  import opened Ownership
  import opened Owners
  import opened Aftermaths

  // ---------- when every handle has a parent ----------

  ghost predicate AllHeld<N>(k: Forest<N>, t: RefMap<N>, w: Forest<N>) {
    forall x, h :: x in Ids(k) && h in RefsOf(t, x) ==> ParentOf(w, h).Some?
  }

  /** Neither does `a` refuse nor does anybody refer to it. */
  ghost predicate Passing<N>(k: Forest<N>, t: RefMap<N>, a: N) {
    a in Ids(k) && !Refusing(Find(k, a).info) && RefsOf(t, a) == []
  }

  /** Nothing on the way down to `x`, which itself does not count, refuses or is referred to. */
  ghost predicate Reached<N>(k: Forest<N>, t: RefMap<N>, x: N) {
    forall a :: a in Ids(k) && a != x && Above(k, a, x) ==> Passing(k, t, a)
  }

  lemma {:induction false} AboveKids<N>(k: Forest<N>, a: N, x: N)
    requires Distinct(k) && k.Cons? && x in Ids(k.kids) && a in Ids(k)
    ensures Above(k, a, x) <==> a == k.c || (a in Ids(k.kids) && Above(k.kids, a, x))
    ensures a in Ids(k.kids) ==> Find(k, a) == Find(k.kids, a)
  {
    if a in Ids(k.next) && a != k.c && a !in Ids(k.kids) { TreeFacts(k.next, a); }
  }

  lemma {:induction false} AboveNext<N>(k: Forest<N>, a: N, x: N)
    requires Distinct(k) && k.Cons? && x in Ids(k.next) && a in Ids(k)
    ensures Above(k, a, x) <==> a in Ids(k.next) && Above(k.next, a, x)
    ensures a in Ids(k.next) ==> Find(k, a) == Find(k.next, a)
  {
    if a in Ids(k.kids) { TreeFacts(k.kids, a); }
  }

  lemma AboveFirst<N>(k: Forest<N>, a: N)
    requires Distinct(k) && k.Cons? && a in Ids(k) && a != k.c
    ensures !Above(k, a, k.c)
  {
    if a in Ids(k.kids) { TreeFacts(k.kids, a); } else { TreeFacts(k.next, a); }
  }

  lemma ReachedKids<N>(k: Forest<N>, t: RefMap<N>, x: N)
    requires Distinct(k) && k.Cons? && x in Ids(k.kids)
    ensures Reached(k, t, x) <==> Passing(k, t, k.c) && Reached(k.kids, t, x)
    ensures Passing(k, t, x) <==> Passing(k.kids, t, x)
  {
    forall a | a in Ids(k)
      ensures Above(k, a, x) <==> a == k.c || (a in Ids(k.kids) && Above(k.kids, a, x))
      ensures a in Ids(k.kids) ==> (Passing(k, t, a) <==> Passing(k.kids, t, a))
    {
      AboveKids(k, a, x);
    }
    assert Above(k, k.c, x);
    hide Above, Passing;
  }

  lemma ReachedNext<N>(k: Forest<N>, t: RefMap<N>, x: N)
    requires Distinct(k) && k.Cons? && x in Ids(k.next)
    ensures Reached(k, t, x) <==> Reached(k.next, t, x)
    ensures Passing(k, t, x) <==> Passing(k.next, t, x)
  {
    forall a | a in Ids(k)
      ensures Above(k, a, x) <==> a in Ids(k.next) && Above(k.next, a, x)
      ensures a in Ids(k.next) ==> (Passing(k, t, a) <==> Passing(k.next, t, a))
    {
      AboveNext(k, a, x);
    }
    hide Above, Passing;
  }

  lemma ReachedFirst<N>(k: Forest<N>, t: RefMap<N>)
    requires Distinct(k) && k.Cons?
    ensures Reached(k, t, k.c)
  {
    forall a | a in Ids(k) && a != k.c ensures !Above(k, a, k.c) { AboveFirst(k, a); }
  }

  /** The fate of a chunk in the simple case. */
  ghost function PlainFate<N>(k: Forest<N>, t: RefMap<N>, w: Forest<N>, home: Option<N>, par: Option<N>, x: N): End<N>
    requires x in Ids(k)
  {
    if !Reached(k, t, x) then Lives(ParentIn(k, par, x), RefsOf(t, x))
    else if RefsOf(t, x) != [] then Lives(ParentOf(w, RefsOf(t, x)[0]), RefsOf(t, x)[1..])
    else if Refusing(Find(k, x).info) then Lives(home, [])
    else Dead
  }

  /** If every handle has a parent, exactly those chunks die that are reached without passing a refusing or referenced
      one. A referenced chunk that is reached loses its newest handle and goes below the parent of that handle; a
      refusing one goes home; all others stay below their parents. */
  lemma {:induction false} FateIsPlain<N>(k: Forest<N>, t: RefMap<N>, w: Forest<N>, home: Option<N>, par: Option<N>,
                                          d: nat, x: N)
    requires Distinct(k) && x in Ids(k) && d > 0 && AllHeld(k, t, w)
    ensures FateIn(k, t, w, home, d, x) == PlainFate(k, t, w, home, par, x)
  {
    var way := CourseOf(RefsOf(t, k.c), w, d);
    assert k.c in Ids(k);
    assert RefsOf(t, k.c) != [] ==> way.ToHolder?;
    if x == k.c {
      FateFirst(k, t, w, home, d, x);
      ReachedFirst(k, t);
    } else if x in Ids(k.kids) {
      FateFirst(k, t, w, home, d, x);
      ReachedKids(k, t, x);
      if Passing(k, t, k.c) { FateIsPlain(k.kids, t, w, home, Some(k.c), way.level + 1, x); }
    } else {
      ReachedNext(k, t, x);
      FateIsPlain(k.next, t, w, home, par, d, x);
    }
  }

  // ---------- handles ----------

  /** A chunk that does not refuse and that nobody refers to dies or stays below its parent. */
  lemma {:induction false} Follows<N>(k: Forest<N>, t: RefMap<N>, w: Forest<N>, home: Option<N>, par: Option<N>,
                                      d: nat, x: N)
    requires x in Ids(k) && d > 0 && RefsOf(t, x) == [] && Distinct(k) && !Refusing(Find(k, x).info)
    ensures FateIn(k, t, w, home, d, x) == Dead || FateIn(k, t, w, home, d, x) == Lives(ParentIn(k, par, x), [])
  {
    var way := CourseOf(RefsOf(t, k.c), w, d);
    if x == k.c {
      FateFirst(k, t, w, home, d, x);
    } else if x in Ids(k.kids) {
      FateFirst(k, t, w, home, d, x);
      if way.Unheld? { Follows(k.kids, t, w, home, Some(k.c), way.level + 1, x); }
    } else {
      Follows(k.next, t, w, home, par, d, x);
    }
  }

  /** A handle that is still there hangs where it hung. */
  lemma HandleStays<N>(w: Forest<N>, t: RefMap<N>, c: N, h: N)
    requires CanGo(w, t, c) && h in Ids(w) && IsHandle(w, h) && h in Ids(Aftermath(w, t, c).rest)
    ensures ParentOf(Aftermath(w, t, c).rest, h) == ParentOf(w, h)
  {
    var k := Find(w, c).kids;
    if h in Ids(k) {
      AftermathEnd(w, t, c, h);
      TreeFacts(w, c);
      FindInTree(w, c, h);
      Follows(k, t, w, ParentOf(w, c), Some(c), 1, h);
      TreeParent(w, None, c, h);
    } else {
      AftermathGood(w, t, c);
      AftermathElse(w, t, c, h);
    }
  }

  lemma HandleIn<N>(w: Forest<N>, t: RefMap<N>, x: N, h: N)
    requires RefsOk(w, t) && h in RefsOf(t, x)
    ensures h in Ids(w) && IsHandle(w, h)
  {
    hide NoDup, Filed;
  }

  /** Of the handles to a chunk below `c`, exactly those are left that its fate leaves it. */
  lemma HandlesLeft<N>(w: Forest<N>, t: RefMap<N>, c: N, x: N, h: N)
    requires CanGo(w, t, c) && x in Ids(Find(w, c).kids) && h in RefsOf(t, x)
    ensures var e := FateIn(Find(w, c).kids, t, w, ParentOf(w, c), 1, x);
            h in Ids(Aftermath(w, t, c).rest) <==> e.Lives? && h in e.left
  {
    var y, gone := Aftermath(w, t, c), GoneWith(w, t, c);
    AftermathEnd(w, t, c, x);
    AftermathGood(w, t, c);
    HandleIn(w, t, x, h);
    TreeFacts(w, c);
    hide Good, CanGo, FateIn, Aftermath, Purged;
    if x !in gone { PurgedMember(t, gone, x, h); }
  }

  // ---------- owners ----------

  lemma HolderAfter<N>(w: Forest<N>, t: RefMap<N>, c: N, x: N, h: N)
    requires CanGo(w, t, c) && x in Aftermath(w, t, c).refs && h in Aftermath(w, t, c).refs[x]
    ensures ParentOf(Aftermath(w, t, c).rest, h) == ParentOf(w, h)
  {
    var y := Aftermath(w, t, c);
    AftermathGood(w, t, c);
    HandleIn(y.rest, y.refs, x, h);
    PurgedMember(t, GoneWith(w, t, c), x, h);
    HandleIn(w, t, x, h);
    hide Good, Aftermath, Purged;
    HandleStays(w, t, c, h);
  }

  lemma HoldersAfter<N>(w: Forest<N>, t: RefMap<N>, c: N, x: N)
    requires CanGo(w, t, c) && x in Aftermath(w, t, c).refs
    ensures var y := Aftermath(w, t, c); Holders(y.rest, y.refs[x]) == Holders(w, y.refs[x])
  {
    var y := Aftermath(w, t, c);
    hide CanGo, Aftermath;
    forall h | h in y.refs[x] ensures ParentOf(y.rest, h) == ParentOf(w, h) { HolderAfter(w, t, c, x, h); }
    HoldersSame(w, y.rest, y.refs[x]);
  }

  /** A survivor from below `c` belongs to its new parent and to the parents of the handles it has left. */
  lemma OwnersBelow<N>(w: Forest<N>, t: RefMap<N>, c: N, x: N)
    requires CanGo(w, t, c) && x in Ids(Find(w, c).kids)
    ensures var y, e := Aftermath(w, t, c), FateIn(Find(w, c).kids, t, w, ParentOf(w, c), 1, x);
            && (e.Lives? <==> x in y.refs)
            && (e.Lives? ==> OwnersOf(y.rest, y.refs, x) == multiset{e.par} + Holders(w, e.left))
  {
    AftermathEnd(w, t, c, x);
    AftermathGood(w, t, c);
    if x in Aftermath(w, t, c).refs { HoldersAfter(w, t, c, x); }
  }

  /** A chunk that was not below `c` keeps its parent, and of its other owners those whose handles are still there. */
  lemma OwnersElse<N>(w: Forest<N>, t: RefMap<N>, c: N, x: N)
    requires CanGo(w, t, c) && x in Ids(w) - TreeIds(w, c) && x in Aftermath(w, t, c).refs
    ensures var y := Aftermath(w, t, c);
            OwnersOf(y.rest, y.refs, x) == multiset{ParentOf(w, x)} + Holders(w, Without(t[x], GoneWith(w, t, c)))
  {
    AftermathGood(w, t, c);
    AftermathElse(w, t, c, x);
    HoldersAfter(w, t, c, x);
  }

  /** In the simple case a referenced chunk that is reached loses one owner, its parent, which is gone. */
  lemma OneOwnerGone<N>(w: Forest<N>, t: RefMap<N>, c: N, x: N)
    requires CanGo(w, t, c) && AllHeld(Find(w, c).kids, t, w) && x in Ids(Find(w, c).kids)
    requires Reached(Find(w, c).kids, t, x) && RefsOf(t, x) != []
    ensures var y := Aftermath(w, t, c);
            x in y.refs && y.refs[x] == t[x][1..] && ParentOf(y.rest, x) == ParentOf(w, t[x][0])
            && OwnersOf(y.rest, y.refs, x) == OwnersOf(w, t, x) - multiset{ParentOf(w, x)}
  {
    var k, y := Find(w, c).kids, Aftermath(w, t, c);
    TreeFacts(w, c);
    AftermathEnd(w, t, c, x);
    FateIsPlain(k, t, w, ParentOf(w, c), Some(c), 1, x);
    OwnersBelow(w, t, c, x);
  }
}
