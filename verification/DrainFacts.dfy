/** What freeing keeps, wherever the handles are: the forest stays one, and the lists forget exactly what is gone. */
module DrainFacts {
  import opened Forests
  import opened Transfers
  import opened Releases
  import opened RefMaps
  import opened Ownership
  import opened Drains
  import opened Stacks

  /** A reference handle to one of the chunks `dom`. */
  ghost predicate Grips<N>(w: Forest<N>, x: N, dom: set<N>) {
    x in Ids(w) && IsHandle(w, x) && Find(w, x).info.des.target in dom
  }

  /** From `w` and `t` to `v` and `s` the chunks `gone` have gone, with all their handles. The others keep their fields,
      and outside `dom` their parents; outside `dom` only handles to `dom` go. */
  ghost predicate Thin<N>(w: Forest<N>, t: RefMap<N>, v: Forest<N>, s: RefMap<N>, gone: set<N>, dom: set<N>) {
    && gone <= Ids(w) && Ids(v) == Ids(w) - gone && s == Purged(t, gone)
    && (forall x, h :: x in gone && h in RefsOf(t, x) ==> h in gone)
    && (forall x :: x in Ids(v) && x in Ids(w) ==> Find(v, x).info == Find(w, x).info)
    && (forall x :: x in Ids(v) && x !in dom ==> ParentOf(v, x) == ParentOf(w, x))
    && (forall x :: x in gone && x !in dom ==> Grips(w, x, dom))
  }

  /** The code has come to a point where it reads the old predecessor, which is gone. */
  ghost predicate Unseen<N>(w: Forest<N>, v: Forest<N>, gone: set<N>, z: Zone<N>, dom: set<N>) {
    && gone <= Ids(w) && Ids(v) == Ids(w) - gone && z.old'.Some? && z.old'.value !in Ids(v)
    && (forall x :: x in gone && x !in dom ==> Grips(w, x, dom))
  }

  lemma ThinNone<N>(w: Forest<N>, t: RefMap<N>, dom: set<N>)
    ensures Thin(w, t, w, t, {}, dom)
  {
    PurgedNone(t);
  }

  lemma ThinTwice<N>(w: Forest<N>, t: RefMap<N>, m: Forest<N>, u: RefMap<N>, v: Forest<N>, s: RefMap<N>,
                     a: set<N>, b: set<N>, dom: set<N>)
    requires Thin(w, t, m, u, a, dom) && Thin(m, u, v, s, b, dom)
    ensures Thin(w, t, v, s, a + b, dom)
  {
    PurgedTwice(t, a, b);
    forall x, h | x in a + b && h in RefsOf(t, x) ensures h in a + b {
      if x !in a { PurgedMember(t, a, x, h); }
    }
  }

  lemma ThinMore<N>(w: Forest<N>, t: RefMap<N>, v: Forest<N>, s: RefMap<N>, gone: set<N>, dom: set<N>, more: set<N>)
    requires Thin(w, t, v, s, gone, dom) && dom <= more
    ensures Thin(w, t, v, s, gone, more)
  {
  }

  // ---------- the steps ----------

  lemma ThinShed<N>(w: Forest<N>, t: RefMap<N>, st: seq<N>, z: Zone<N>, y: N, h: N, dom: set<N>)
    requires Fit(w, t, st, z) && h in RefsOf(t, y) && y in dom
    ensures Thin(w, t, Cut(w, h), Purged(t, {h}), {h}, dom) && Grips(w, h, dom)
  {
    FitShed(w, t, st, z, y, h);
    assert Proper(w, t, y, h);
    forall x | x in Ids(w) && x != h
      ensures Find(Cut(w, h), x).info == Find(w, x).info && ParentOf(Cut(w, h), x) == ParentOf(w, x)
    {
      LeafGone(w, h, x);
    }
  }

  lemma ThinMoved<N>(w: Forest<N>, t: RefMap<N>, y: N, q: N, dom: set<N>)
    requires Distinct(w) && CanMove(w, y, Some(q)) && y in dom
    ensures Thin(w, t, Moved(w, y, Some(q)), t, {}, dom)
  {
    var v := Moved(w, y, Some(q));
    MovedFacts(w, y, Some(q));
    PurgedNone(t);
    forall x | x in Ids(w)
      ensures Find(v, x).info == Find(w, x).info && (x != y ==> ParentOf(v, x) == ParentOf(w, x))
    {
      MovedInfo(w, y, Some(q), x);
      MovedParent(w, y, Some(q), x);
    }
  }

  lemma ThinRooted<N>(w: Forest<N>, t: RefMap<N>, st: seq<N>, z: Zone<N>)
    requires Fit(w, t, st, z) && z.home.None? && |st| == 1 && w.kids.Cons?
    ensures Thin(w, t, Settled(w, w.kids.c, None), t, {}, z.dom)
  {
    FitRooted(w, t, st, z);
    PurgedNone(t);
    var k, v := w.kids, Settled(w, w.kids.c, None);
    forall x | x in Ids(w) ensures Find(v, x).info == Find(w, x).info {}
    forall x | x in Ids(w) && x !in z.dom ensures ParentOf(v, x) == ParentOf(w, x) {
      assert x !in Ids(k) && x != w.c;
      assert ParentIn(Cons(k.c, k.info, k.kids, w.next), None, x) == ParentIn(w.next, None, x);
    }
  }

  /** A chunk that has left and is then freed. */
  lemma ThinLeft<N>(w: Forest<N>, t: RefMap<N>, y: N, v: Forest<N>, s: RefMap<N>, gone: set<N>, dom: set<N>)
    requires Distinct(w) && Neat(w) && y in Ids(w) && y in dom && y in gone && RefsOf(t, y) == []
    requires Thin(Left(w, y), Purged(t, {y}), v, s, gone, dom)
    ensures Thin(w, t, v, s, gone, dom)
  {
    LeftFacts(w, y);
    PurgedTwice(t, {y}, gone);
    assert {y} + gone == gone;
    forall x | x in Ids(w) && x != y
      ensures Find(Left(w, y), x).info == Find(w, x).info && ParentOf(Left(w, y), x) == ParentOf(w, x)
    {
      LeftInfo(w, y, x);
    }
    forall x, h | x in gone && h in RefsOf(t, x) ensures h in gone { PurgedMember(t, {y}, x, h); }
  }

  lemma Unnamed<N>(w: Forest<N>, t: RefMap<N>, c: N)
    requires Named(w, t) && c in Ids(w) && !IsHandle(w, c)
    ensures forall x :: x in t ==> c !in t[x]
  {
    forall x | x in t ensures c !in t[x] { assert c in RefsOf(t, x) ==> Proper(w, t, x, c); }
  }

  lemma ThinEnd<N>(w: Forest<N>, t: RefMap<N>, st: seq<N>, z: Zone<N>)
    requires Fit(w, t, st, z) && st != [] && w.kids.Nil?
    ensures Thin(w, t, w.next, t, {w.c}, z.dom)
  {
    FitEnd(w, t, st, z);
    Unnamed(w, t, w.c);
    PurgedKey(t, w.c);
  }

  // ---------- all together ----------

  /** A call that ended in `r` has kept what it should. */
  ghost predicate Fine<N>(w: Forest<N>, t: RefMap<N>, y: N, st: seq<N>, z: Zone<N>, dom: set<N>, r: Result<N>) {
    match r
    case Freed(v, s, f) => Fit(v, s, st, z) && Thin(w, t, v, s, f, dom) && y in f
    case Kept(v, s, f) =>
      && Fit(v, s, st, z) && Thin(w, t, v, s, f, dom) && y in Ids(v)
      && (forall h :: h in f ==> h in Ids(w) && IsHandle(w, h))
      && (if RefsOf(t, y) == [] then v == w && f == {} else f != {}) && (st != [] ==> v.kids.Cons? && v.kids.c == y)
    case Hung(v, s, f, x, q) =>
      Distinct(v) && f <= Ids(w) && Ids(v) == Ids(w) - f && x in Ids(v) && q in Ids(Find(v, x).kids)
    case Blind(v, s, f) => Unseen(w, v, f, z, dom)
    case Odd => false
  }

  lemma ShedFacts<N>(w: Forest<N>, t: RefMap<N>, y: N, h: N, st: seq<N>, z: Zone<N>, dom: set<N>)
    requires Fit(w, t, st, z) && h in RefsOf(t, y) && y in dom
    ensures Grips(w, h, dom) && Thin(w, t, Cut(w, h), Purged(t, {h}), {h}, dom) && Ids(Cut(w, h)) == Ids(w) - {h}
    ensures forall g :: g in Ids(Cut(w, h)) && IsHandle(Cut(w, h), g) ==> IsHandle(w, g)
    ensures forall g :: Grips(Cut(w, h), g, dom) ==> Grips(w, g, dom)
  {
    FitShed(w, t, st, z, y, h);
    ThinShed(w, t, st, z, y, h, dom);
    assert Proper(w, t, y, h);
    forall g | g in Ids(Cut(w, h)) ensures Find(Cut(w, h), g).info == Find(w, g).info { LeafGone(w, h, g); }
  }

  /** What a handle that has gone adds. */
  lemma FineShed<N>(w: Forest<N>, t: RefMap<N>, y: N, h: N, st: seq<N>, z: Zone<N>, dom: set<N>, r: Result<N>)
    requires Fit(w, t, st, z) && y in Ids(w) && y in dom && h in RefsOf(t, y) && h != y
    requires Fine(Cut(w, h), Purged(t, {h}), y, st, z, dom, r)
    ensures Fine(w, t, y, st, z, dom, Also(r, {h}))
  {
    hide Fit, Thin, IsHandle, Purged;
    ShedFacts(w, t, y, h, st, z, dom);
    match r
    case Freed(v, s, f) => ThinTwice(w, t, Cut(w, h), Purged(t, {h}), v, s, {h}, f, dom);
    case Kept(v, s, f) => ThinTwice(w, t, Cut(w, h), Purged(t, {h}), v, s, {h}, f, dom);
    case Hung(v, s, f, x, q) =>
    case Blind(v, s, f) =>
    case Odd =>
  }

  /** Old links that lead nowhere are those of the outermost chunk. */
  lemma UnseenNow<N>(w: Forest<N>, t: RefMap<N>, st: seq<N>, z: Zone<N>, dom: set<N>)
    requires Fit(w, t, st, z) && !Sighted(w)
    ensures st != [] && Unseen(w, w, {}, z, dom)
  {
    var x :| x in Ids(w) && !SeesOwn(w, Find(w, x).info);
    StackTied(w, st, z, x);
    assert x in st;
    var j :| 0 <= j < |st| && st[j] == x;
    StackTies(w, st, z, j);
  }

  /** A child of the innermost chunk: `Fine` for all calls that free it. */
  lemma TryFacts<N>(w: Forest<N>, t: RefMap<N>, st: seq<N>, z: Zone<N>)
    requires Fit(w, t, st, z) && st != [] && w.kids.Cons?
    ensures w.kids.c in Ids(w) && Fine(w, t, w.kids.c, st, z, z.dom, TryFree(w, t, w.kids.c))
    decreases Count(w), Count(w.kids.kids), 2
  {
    var y, hs := w.kids.c, RefsOf(t, w.kids.c);
    FirstGone(w, st, z);
    if hs != [] {
      var h := hs[0];
      FitShed(w, t, st, z, y, h);
      FirstStays(w, t, st, z, h);
      if Strays(w, y, h) && !Sighted(w) {
        UnseenNow(w, t, st, z, z.dom);
      } else if h in TreeIds(w, y) {
        TryFacts(Cut(w, h), Purged(t, {h}), st, z);
        FineShed(w, t, y, h, st, z, z.dom, TryFree(Cut(w, h), Purged(t, {h}), y));
      } else {
        ShedFacts(w, t, y, h, st, z, z.dom);
      }
    } else if Refusing(Find(w, y).info) {
      ThinNone(w, t, z.dom);
    } else {
      LeftFacts(w, y);
      FitLeft(w, t, st, z);
      var v, s := Left(w, y), Purged(t, {y});
      DrainKeeps(v, s, [y] + st, z);
      FineLeft(w, t, y, st, z, z.dom, Drain(v.c, v.info, v.kids, v.next, s));
    }
  }

  /** The child stays the first one when a handle goes. */
  lemma FirstStays<N>(w: Forest<N>, t: RefMap<N>, st: seq<N>, z: Zone<N>, h: N)
    requires Fit(w, t, st, z) && st != [] && w.kids.Cons? && h in RefsOf(t, w.kids.c)
    ensures var v := Cut(w, h);
            h != w.kids.c && v.Cons? && v.kids.Cons? && v.kids.c == w.kids.c && Count(v.kids.kids) <= Count(w.kids.kids)
  {
    FitShed(w, t, st, z, w.kids.c, h);
    assert Proper(w, t, w.kids.c, h);
    assert w.c == st[0] && w.c in st && h != w.c;
    assert h != w.kids.c;
    assert Distinct(w.kids) && Distinct(w.kids.kids);
    hide Fit, Proper, Stack, Named;
    if h in Ids(w.kids.kids) { CountCut(w.kids.kids, h); } else { CutAbsent(w.kids.kids, h); }
  }

  /** What the end of a chunk that has left means for the forest it has left. */
  lemma FineLeft<N>(w: Forest<N>, t: RefMap<N>, y: N, st: seq<N>, z: Zone<N>, dom: set<N>, r: Result<N>)
    requires Distinct(w) && Neat(w) && y in Ids(w) && y in dom && RefsOf(t, y) == []
    requires Ended(Left(w, y), Purged(t, {y}), [y] + st, z, dom, r)
    ensures Fine(w, t, y, st, z, dom, r)
  {
    LeftFacts(w, y);
    assert ([y] + st)[1..] == st;
    hide Fit, Thin;
    if r.Freed? { ThinLeft(w, t, y, r.w, r.t, r.freed, dom); }
    if r.Blind? {
      forall x | x in r.freed && x !in dom ensures Grips(w, x, dom) {
        assert Grips(Left(w, y), x, dom);
        LeftInfo(w, y, x);
      }
    }
  }

  /** The innermost chunk has gone, or the code has come to a point where it goes wrong. */
  ghost predicate Ended<N>(w: Forest<N>, t: RefMap<N>, st: seq<N>, z: Zone<N>, dom: set<N>, r: Result<N>)
    requires st != []
  {
    !r.Kept? && Fine(w, t, st[0], st[1..], z, dom, r)
  }

  // ---------- one round ----------

  lemma {:induction false} CountIds<N>(f: Forest<N>)
    requires Distinct(f)
    ensures Count(f) == |Ids(f)|
  {
    if f.Cons? {
      CountIds(f.kids);
      CountIds(f.next);
    }
  }

  lemma CountThin<N>(w: Forest<N>, t: RefMap<N>, v: Forest<N>, s: RefMap<N>, gone: set<N>, dom: set<N>)
    requires Distinct(w) && Distinct(v) && Thin(w, t, v, s, gone, dom)
    ensures Count(v) + |gone| == Count(w)
  {
    CountIds(w);
    CountIds(v);
    assert Ids(w) == Ids(v) + gone;
  }

  /** The old links of the innermost chunk lead to the next one, or home. */
  lemma FormerIs<N>(w: Forest<N>, t: RefMap<N>, st: seq<N>, z: Zone<N>)
    requires Fit(w, t, st, z) && st != [] && SeesOwn(w, w.info)
    ensures var o := Former(w, w.info);
            && o == (if |st| > 1 then Some(st[1]) else z.home)
            && (o.Some? ==>
                  o.value in Ids(w.next) && !IsHandle(w, o.value) && o.value != w.c && o.value !in Ids(w.kids))
  {
    if |st| > 1 {
      var up := st[1..];
      assert up != [] && up[0] == st[1] && Stack(w.next, up, z);
      assert Find(w, st[1]) == Find(w.next, st[1]) == w.next;
    } else if z.old'.Some? {
      assert z.old'.value in Ids(w.next);
    }
  }

  /** Where a child goes that could not be freed. */
  lemma NewParentOk<N>(w: Forest<N>, t: RefMap<N>, st: seq<N>, z: Zone<N>)
    requires Fit(w, t, st, z) && st != [] && w.kids.Cons? && (AsksParent(w, t, w.kids) ==> SeesOwn(w, w.info))
    requires RefsOf(t, w.kids.c) != [] || w.kids.info.des != NoDestructor
    ensures var o := NewParent(w, t, w.info, w.kids.c);
            && (o.None? ==> |st| == 1 && z.home.None?)
            && (o.Some? ==> o.value in Ids(w) && !IsHandle(w, o.value))
            && (o.Some? && RefsOf(t, w.kids.c) == [] ==> o.value != w.c && o.value !in Ids(w.kids))
  {
    var q := Holder(w, t, w.kids.c);
    if q.Some? {
      var h := RefsOf(t, w.kids.c)[0];
      assert Proper(w, t, w.kids.c, h);
      ParentIsNone(w, None, h);
    } else {
      FormerIs(w, t, st, z);
    }
  }

  /** One round has kept what it should, and made progress. */
  ghost predicate Turned<N>(w: Forest<N>, t: RefMap<N>, st: seq<N>, z: Zone<N>, r: Result<N>)
    requires w.Cons?
  {
    match r
    case Freed(v, s, f) => Fit(v, s, st, z) && Thin(w, t, v, s, f, z.dom) && Fewer(w.c, w.info, w.kids, w.next, v)
    case Kept(v, s, f) => false
    case Hung(v, s, f, x, q) =>
      Distinct(v) && f <= Ids(w) && Ids(v) == Ids(w) - f && x in Ids(v) && q in Ids(Find(v, x).kids)
    case Blind(v, s, f) => Unseen(w, v, f, z, z.dom)
    case Odd => false
  }

  lemma SameFront<N>(w: Forest<N>, t: RefMap<N>, st: seq<N>, z: Zone<N>, v: Forest<N>, s: RefMap<N>, f: set<N>)
    requires Fit(w, t, st, z) && st != [] && Fit(v, s, st, z) && Thin(w, t, v, s, f, z.dom)
    ensures v.Cons? && v.c == w.c && v.info == w.info && Count(v) + |f| == Count(w)
  {
    assert v.c in Ids(v) && v.c in Ids(w);
    CountThin(w, t, v, s, f, z.dom);
  }

  /** The child is hung below `q`. */
  lemma SettledFine<N>(w: Forest<N>, t: RefMap<N>, st: seq<N>, z: Zone<N>, v: Forest<N>, s: RefMap<N>, f: set<N>, q: N)
    requires Fit(w, t, st, z) && st != [] && w.kids.Cons? && Fine(w, t, w.kids.c, st, z, z.dom, Kept(v, s, f))
    requires q in Ids(v) - TreeIds(v, w.kids.c) && !IsHandle(v, q)
    requires RefsOf(t, w.kids.c) == [] ==> q != w.c && q !in Ids(w.kids)
    ensures Turned(w, t, st, z, Freed(Moved(v, w.kids.c, Some(q)), s, f))
  {
    var y := w.kids.c;
    var m := Moved(v, y, Some(q));
    hide Fit, Thin, Fine, Moved, TreeIds, Fewer;
    ChildThere(w, t, st, z);
    KeptParts(w, t, y, st, z, v, s, f);
    FitSettled(v, s, st, z, q);
    FitDistinct(v, s, st, z);
    ThinMoved(v, s, y, q, z.dom);
    ThinTwice(w, t, v, s, m, s, f, {}, z.dom);
    assert f + {} == f;
    if RefsOf(t, y) == [] { FewerBelow(w, t, st, z, q); }
    FewerNow(w, t, st, z, m, s, f);
  }

  lemma KeptParts<N>(w: Forest<N>, t: RefMap<N>, y: N, st: seq<N>, z: Zone<N>, v: Forest<N>, s: RefMap<N>, f: set<N>)
    requires Fine(w, t, y, st, z, z.dom, Kept(v, s, f))
    ensures Fit(v, s, st, z) && Thin(w, t, v, s, f, z.dom) && y in Ids(v)
            && (if RefsOf(t, y) == [] then v == w && f == {} else f != {})
            && (st != [] ==> v.kids.Cons? && v.kids.c == y)
  {
  }

  lemma FewerNow<N>(w: Forest<N>, t: RefMap<N>, st: seq<N>, z: Zone<N>, m: Forest<N>, s: RefMap<N>, f: set<N>)
    requires Fit(w, t, st, z) && st != [] && Fit(m, s, st, z) && Thin(w, t, m, s, f, z.dom)
    requires f != {} || (m.Cons? && Count(m.kids) < Count(w.kids))
    ensures w.Cons? && Fewer(w.c, w.info, w.kids, w.next, m)
  {
    SameFront(w, t, st, z, m, s, f);
    assert f != {} ==> |f| > 0;
  }

  lemma ChildThere<N>(w: Forest<N>, t: RefMap<N>, st: seq<N>, z: Zone<N>)
    requires Fit(w, t, st, z) && st != [] && w.kids.Cons?
    ensures w.kids.c in Ids(w) && w.kids.c in z.dom
  {
  }

  lemma FitDistinct<N>(w: Forest<N>, t: RefMap<N>, st: seq<N>, z: Zone<N>)
    requires Fit(w, t, st, z)
    ensures Distinct(w)
  {
  }

  /** There are fewer chunks below the innermost one when its first child goes elsewhere. */
  lemma FewerBelow<N>(w: Forest<N>, t: RefMap<N>, st: seq<N>, z: Zone<N>, q: N)
    requires Fit(w, t, st, z) && st != [] && w.kids.Cons? && w.kids.c in Ids(w) && q != w.c && q !in Ids(w.kids)
    ensures var m := Moved(w, w.kids.c, Some(q)); m.Cons? && Count(m.kids) < Count(w.kids)
  {
    FirstGone(w, st, z);
    GraftAbsent(w.kids.next, q, w.kids.c, w.kids.info, w.kids.kids);
  }

  lemma RootedFine<N>(w: Forest<N>, t: RefMap<N>, st: seq<N>, z: Zone<N>, v: Forest<N>, s: RefMap<N>, f: set<N>)
    requires Fit(w, t, st, z) && |st| == 1 && z.home.None? && w.kids.Cons?
    requires Fine(w, t, w.kids.c, st, z, z.dom, Kept(v, s, f))
    ensures Turned(w, t, st, z, Freed(Settled(v, w.kids.c, None), s, f))
  {
    var y := w.kids.c;
    var m := Settled(v, y, None);
    FitRooted(v, s, st, z);
    ThinRooted(v, s, st, z);
    ThinTwice(w, t, v, s, m, s, f, {}, z.dom);
    assert f + {} == f;
    SameFront(w, t, st, z, m, s, f);
    hide Fit, Thin;
  }

  lemma KeptFine<N>(w: Forest<N>, t: RefMap<N>, st: seq<N>, z: Zone<N>, v: Forest<N>, s: RefMap<N>, f: set<N>)
    requires Fit(w, t, st, z) && st != [] && w.kids.Cons? && (AsksParent(w, t, w.kids) ==> SeesOwn(w, w.info))
    requires RefsOf(t, w.kids.c) != [] || w.kids.info.des != NoDestructor
    requires Fine(w, t, w.kids.c, st, z, z.dom, Kept(v, s, f))
    ensures var o := NewParent(w, t, w.info, w.kids.c);
            !(o.Some? && o.value in Ids(Find(v, w.kids.c).kids)) ==>
              Turned(w, t, st, z, Freed(Settled(v, w.kids.c, o), s, f))
  {
    var y, o := w.kids.c, NewParent(w, t, w.info, w.kids.c);
    NewParentOk(w, t, st, z);
    if o.None? {
      RootedFine(w, t, st, z, v, s, f);
    } else {
      assert o.value in Ids(v) && Find(v, o.value).info == Find(w, o.value).info;
      if o == Some(y) {
        SameFront(w, t, st, z, v, s, f);
        assert |f| > 0;
      } else if o.value !in Ids(Find(v, y).kids) {
        SettledFine(w, t, st, z, v, s, f, o.value);
      }
    }
  }

  /** A chunk that stays has handles or refuses. */
  lemma KeptWhy<N>(w: Forest<N>, t: RefMap<N>, y: N)
    requires y in Ids(w) && TryFree(w, t, y).Kept?
    ensures RefsOf(t, y) != [] || Refusing(Find(w, y).info)
    decreases Count(w)
  {
    if RefsOf(t, y) == [] && !Refusing(Find(w, y).info) {
      DrainEnds(y, Leaving(w, y), Find(w, y).kids, Cut(w, y), Purged(t, {y}));
    }
  }

  lemma {:induction false} DrainEnds<N>(c: N, i: Info<N>, k: Forest<N>, rest: Forest<N>, t: RefMap<N>)
    ensures !Drain(c, i, k, rest, t).Kept?
    decreases 1 + Count(k) + Count(rest), Count(k)
  {
    if k.Cons? {
      hide AsksParent, SeesOwn, NewParent, Settled;
      var r := Turn(c, i, k, rest, t);
      if r.Freed? && Fewer(c, i, k, rest, r.w) { DrainEnds(c, i, r.w.kids, r.w.next, r.t); }
    }
  }

  /** The child has gone. */
  lemma FreedFine<N>(w: Forest<N>, t: RefMap<N>, st: seq<N>, z: Zone<N>, y: N, r: Result<N>)
    requires Fit(w, t, st, z) && st != [] && Fine(w, t, y, st, z, z.dom, r) && !r.Kept?
    ensures Turned(w, t, st, z, r)
  {
    hide Fit, Thin;
    if r.Freed? {
      SameFront(w, t, st, z, r.w, r.t, r.freed);
      assert |r.freed| > 0;
    }
  }

  lemma BlindFine<N>(w: Forest<N>, t: RefMap<N>, st: seq<N>, z: Zone<N>)
    requires Fit(w, t, st, z) && w.Cons? && !SeesOwn(w, w.info)
    ensures Turned(w, t, st, z, Blind(w, t, {}))
  {
    assert w.c in Ids(w) && Find(w, w.c) == w;
    UnseenNow(w, t, st, z, z.dom);
  }

  lemma KeptThere<N>(w: Forest<N>, t: RefMap<N>, y: N, st: seq<N>, z: Zone<N>, r: Result<N>)
    requires Fine(w, t, y, st, z, z.dom, r) && r.Kept?
    ensures y in Ids(r.w)
  {
  }

  lemma HungFine<N>(w: Forest<N>, t: RefMap<N>, y: N, st: seq<N>, z: Zone<N>, r: Result<N>, q: N)
    requires Fine(w, t, y, st, z, z.dom, r) && r.Kept? && q in Ids(Find(r.w, y).kids)
    ensures Turned(w, t, st, z, Hung(r.w, r.t, r.freed, y, q))
  {
  }

  lemma TurnKeeps<N>(w: Forest<N>, t: RefMap<N>, st: seq<N>, z: Zone<N>)
    requires Fit(w, t, st, z) && st != [] && w.kids.Cons?
    ensures Turned(w, t, st, z, Turn(w.c, w.info, w.kids, w.next, t))
    decreases Count(w), Count(w.kids), 0
  {
    var y := w.kids.c;
    assert y != w.c && w == Cons(w.c, w.info, w.kids, w.next);
    FirstGone(w, st, z);
    hide Fit, Thin, Fine, Turned, Fewer, AsksParent, SeesOwn, NewParent, Settled, TryFree;
    TryFacts(w, t, st, z);
    var r := TryFree(w, t, y);
    if AsksParent(w, t, w.kids) && !SeesOwn(w, w.info) {
      BlindFine(w, t, st, z);
    } else if r.Kept? {
      KeptWhy(w, t, y);
      KeptThere(w, t, y, st, z, r);
      KeptFine(w, t, st, z, r.w, r.t, r.freed);
      var o := NewParent(w, t, w.info, y);
      if o.Some? && o.value in Ids(Find(r.w, y).kids) { HungFine(w, t, y, st, z, r, o.value); }
    } else {
      FreedFine(w, t, st, z, y, r);
    }
  }

  lemma DrainKeeps<N>(w: Forest<N>, t: RefMap<N>, st: seq<N>, z: Zone<N>)
    requires Fit(w, t, st, z) && st != []
    ensures Ended(w, t, st, z, z.dom, Drain(w.c, w.info, w.kids, w.next, t))
    decreases Count(w), Count(w.kids), 1
  {
    if w.kids.Nil? {
      FitEnd(w, t, st, z);
      ThinEnd(w, t, st, z);
    } else {
      var r := Turn(w.c, w.info, w.kids, w.next, t);
      TurnKeeps(w, t, st, z);
      if r.Freed? {
        DrainKeeps(r.w, r.t, st, z);
        EndedAlso(w, t, st, z, r.w, r.t, r.freed, Drain(w.c, w.info, r.w.kids, r.w.next, r.t));
      }
    }
  }

  lemma EndedAlso<N>(w: Forest<N>, t: RefMap<N>, st: seq<N>, z: Zone<N>, v: Forest<N>, s: RefMap<N>, f: set<N>,
                     r: Result<N>)
    requires Thin(w, t, v, s, f, z.dom) && st != [] && Ended(v, s, st, z, z.dom, r)
    ensures Ended(w, t, st, z, z.dom, Also(r, f))
  {
    if r.Freed? { ThinTwice(w, t, v, s, r.w, r.t, f, r.freed, z.dom); }
    assert forall x :: Grips(v, x, z.dom) ==> Grips(w, x, z.dom);
    hide Fit, Grips;
  }

  // ---------- forests at rest ----------

  ghost function Nowhere<N>(): Zone<N> {
    Zone({}, None, None)
  }

  /** No chunk is being freed, handles have no children, and the lists name handles of their chunks. */
  ghost predicate AtRest<N>(w: Forest<N>, t: RefMap<N>) {
    Fit(w, t, [], Nowhere())
  }

  /** A handle goes when it is freed. */
  lemma TryHandle<N>(w: Forest<N>, t: RefMap<N>, st: seq<N>, z: Zone<N>, y: N, h: N)
    requires Fit(w, t, st, z) && h in RefsOf(t, y)
    ensures h in Ids(w) && TryFree(w, t, h) == Freed(Cut(w, h), Purged(t, {h}), {h})
  {
    FitShed(w, t, st, z, y, h);
    assert Proper(w, t, y, h);
  }

  lemma Elsewhere<N>(w: Forest<N>, t: RefMap<N>, y: N, z: Zone<N>, z': Zone<N>, dom: set<N>, r: Result<N>)
    requires Fine(w, t, y, [], z, dom, r) && z.old' == z'.old' && Outer(z')
    ensures Fine(w, t, y, [], z', dom, r)
  {
    hide Distinct, Neat, Named, Thin;
  }

  /** A chunk keeps its predecessor when something below it goes. */
  lemma {:induction false} CutPrev<N>(f: Forest<N>, prev: Option<N>, h: N, y: N)
    requires Distinct(f) && y in Ids(f) && h in Ids(Find(f, y).kids)
    ensures y in Ids(Cut(f, h)) && PrevIn(Cut(f, h), prev, y) == PrevIn(f, prev, y)
  {
    TreeFacts(f, y);
    if f.c != y {
      if y in Ids(f.kids) {
        TreeFacts(f.kids, y);
        CutPrev(f.kids, None, h, y);
      } else {
        TreeFacts(f.next, y);
        CutAbsent(f.kids, h);
        CutPrev(f.next, Some(f.c), h, y);
      }
    }
  }

  lemma FineMore<N>(w: Forest<N>, t: RefMap<N>, y: N, st: seq<N>, z: Zone<N>, dom: set<N>, more: set<N>, r: Result<N>)
    requires Fine(w, t, y, st, z, dom, r) && dom <= more
    ensures Fine(w, t, y, st, z, more, r)
  {
    hide Fit;
    if r.Freed? || r.Kept? { ThinMore(w, t, r.w, r.t, r.freed, dom, more); }
    hide Thin;
  }

  lemma TreeLess<N>(w: Forest<N>, h: N, y: N)
    requires Distinct(w) && h in Ids(w) && y in Ids(Cut(w, h))
    ensures y in Ids(w) && TreeIds(Cut(w, h), y) <= TreeIds(w, y)
  {
    CutFacts(w, h);
    TreeFacts(Cut(w, h), y);
    forall q | q in TreeIds(Cut(w, h), y) ensures q in TreeIds(w, y) { CutInTree(w, h, y, q); }
  }

  lemma OwnZone<N>(w: Forest<N>, t: RefMap<N>, y: N)
    requires AtRest(w, t) && y in Ids(w)
    ensures Fit(w, t, [], ZoneOf(w, y)) && Sighted(w)
  {
    FitFirst(w, t, y);
    forall x | x in Ids(w) ensures SeesOwn(w, Find(w, x).info) { CalmTree(w, x); }
  }

  /** Freeing a chunk of a forest at rest: `Fine`, whoever refers to what. */
  lemma TryFirst<N>(w: Forest<N>, t: RefMap<N>, y: N)
    requires AtRest(w, t) && y in Ids(w)
    ensures Fine(w, t, y, [], ZoneOf(w, y), TreeIds(w, y), TryFree(w, t, y))
    decreases Count(w)
  {
    var hs, dom, z := RefsOf(t, y), TreeIds(w, y), ZoneOf(w, y);
    OwnZone(w, t, y);
    if hs != [] {
      var h := hs[0];
      FitShed(w, t, [], Nowhere(), y, h);
      FitShed(w, t, [], z, y, h);
      ShedFacts(w, t, y, h, [], z, dom);
      HandleOther(w, t, y, h);
      if h in dom { TryShed(w, t, y, h); }
      hide Fit, Thin;
    } else if Refusing(Find(w, y).info) {
      ThinNone(w, t, dom);
    } else {
      TryLeft(w, t, y);
    }
  }

  /** The handle was below the chunk: again. */
  lemma TryShed<N>(w: Forest<N>, t: RefMap<N>, y: N, h: N)
    requires AtRest(w, t) && y in Ids(w) && Fit(w, t, [], ZoneOf(w, y)) && h in RefsOf(t, y) && h in TreeIds(w, y)
             && h != y
    requires AtRest(Cut(w, h), Purged(t, {h})) && y in Ids(Cut(w, h)) && Count(Cut(w, h)) < Count(w)
    ensures Fine(w, t, y, [], ZoneOf(w, y), TreeIds(w, y), Also(TryFree(Cut(w, h), Purged(t, {h}), y), {h}))
    decreases Count(w), 0
  {
    var v, s, dom, z := Cut(w, h), Purged(t, {h}), TreeIds(w, y), ZoneOf(w, y);
    var r := TryFree(v, s, y);
    TryFirst(v, s, y);
    CutPrev(w, None, h, y);
    CutParent(w, None, h, y);
    TreeLess(w, h, y);
    hide Fit, Fine, AtRest, TreeIds;
    Elsewhere(v, s, y, ZoneOf(v, y), z, TreeIds(v, y), r);
    FineMore(v, s, y, [], z, TreeIds(v, y), dom, r);
    FineShed(w, t, y, h, [], z, dom, r);
  }

  lemma HandleOther<N>(w: Forest<N>, t: RefMap<N>, y: N, h: N)
    requires Named(w, t) && h in RefsOf(t, y)
    ensures h != y
  {
    assert Proper(w, t, y, h);
  }

  lemma TryLeft<N>(w: Forest<N>, t: RefMap<N>, y: N)
    requires AtRest(w, t) && y in Ids(w) && RefsOf(t, y) == [] && !Refusing(Find(w, y).info)
    ensures Fine(w, t, y, [], ZoneOf(w, y), TreeIds(w, y), TryFree(w, t, y))
  {
    LeftFacts(w, y);
    FitFirst(w, t, y);
    var v, s, z := Left(w, y), Purged(t, {y}), ZoneOf(w, y);
    hide Fit, Fine;
    DrainKeeps(v, s, [y], z);
    assert [y] + [] == [y];
    FineLeft(w, t, y, [], z, z.dom, Drain(v.c, v.info, v.kids, v.next, s));
  }

  // ---------- no chunk is lost ----------

  /** The forest when the call is over, or when it has just hung a chunk below its own descendant. */
  ghost function ForestAfter<N>(r: Result<N>): Forest<N> {
    match r
    case Freed(w, _, _) => w
    case Kept(w, _, _) => w
    case Hung(w, _, _, y, q) => if y in Ids(w) then Moved(w, y, Some(q)) else w
    case Blind(w, _, _) => w
    case Odd => Nil
  }

  /** The old predecessor is there throughout if it is no handle to anything in the tree of the chunk. */
  lemma NotBlind<N>(w: Forest<N>, t: RefMap<N>, y: N)
    requires AtRest(w, t) && y in Ids(w) && !(PrevOf(w, y).Some? && Grips(w, PrevOf(w, y).value, TreeIds(w, y)))
    ensures !TryFree(w, t, y).Blind?
  {
    TryFirst(w, t, y);
    PrevParent(w, None, None, y);
    OwnZone(w, t, y);
  }

  /** Every chunk is in the forest or has been freed, exactly when no chunk has been hung below its own descendant. */
  lemma NoneLost<N>(w: Forest<N>, t: RefMap<N>, y: N)
    requires AtRest(w, t) && y in Ids(w)
    ensures var r := TryFree(w, t, y); !r.Odd? && (Ids(w) == Ids(ForestAfter(r)) + r.freed <==> !r.Hung?)
  {
    var r := TryFree(w, t, y);
    TryFirst(w, t, y);
    if r.Hung? {
      TreeFacts(r.w, r.y);
      MoveKeepsAll(r.w, r.y, Some(r.q));
      CutFacts(r.w, r.y);
      assert r.y in Ids(w) && r.y !in Ids(ForestAfter(r)) && r.y !in r.freed;
    }
  }
}
