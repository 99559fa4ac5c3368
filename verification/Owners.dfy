/** The lists of reference handles agree with the handles in the forest, and what that gives for owners. */
module Owners {
  import opened Forests
  import opened Transfers
  import opened Releases
  import opened RefMaps
  import opened Realloc
  import opened Ownership

  /** Whatever is in the list of `x` is a handle to `x`. */
  ghost predicate Listed<N>(w: Forest<N>, t: RefMap<N>) {
    forall x, h :: x in t && h in t[x] ==> h in Ids(w) && Find(w, h).info.des == Handle(x)
  }

  /** Every handle is in the list of its target; nobody refers to handles. */
  ghost predicate Filed<N>(w: Forest<N>, t: RefMap<N>) {
    forall h :: h in Ids(w) && IsHandle(w, h) ==>
      h in t && t[h] == [] && Find(w, h).info.des.target in t && h in t[Find(w, h).info.des.target]
  }

  ghost predicate RefsOk<N>(w: Forest<N>, t: RefMap<N>) {
    t.Keys == Ids(w) && Listed(w, t) && Filed(w, t) && forall x :: x in t ==> NoDup(t[x])
  }

  ghost predicate Good<N>(w: Forest<N>, t: RefMap<N>) {
    Distinct(w) && Tidy(w) && RefsOk(w, t)
  }

  // ---------- what keeps the lists right ----------

  lemma RefsMoved<N>(w: Forest<N>, t: RefMap<N>, x: N, par: Option<N>)
    requires Distinct(w) && CanMove(w, x, par) && RefsOk(w, t)
    ensures RefsOk(Moved(w, x, par), t)
  {
    MovedFacts(w, x, par);
    forall y | y in Ids(w) ensures y in Ids(Moved(w, x, par)) && Find(Moved(w, x, par), y).info == Find(w, y).info {
      MovedInfo(w, x, par, y);
    }
  }

  ghost predicate CanHang<N>(w: Forest<N>, par: Option<N>, c: N) {
    Distinct(w) && c !in Ids(w) && (par.Some? ==> par.value in Ids(w))
  }

  lemma HangFacts<N>(w: Forest<N>, par: Option<N>, c: N, i: Info<N>, y: N)
    requires CanHang(w, par, c) && y in Ids(w) + {c}
    ensures Ids(Hang(w, par, c, i, Nil)) == Ids(w) + {c} && Distinct(Hang(w, par, c, i, Nil))
    ensures Find(Hang(w, par, c, i, Nil), y).info == if y == c then i else Find(w, y).info
    ensures ParentOf(Hang(w, par, c, i, Nil), y) == if y == c then par else ParentOf(w, y)
  {
    if par.Some? {
      GraftFacts(w, par.value, c, i, Nil);
      GraftedInfo(w, par.value, c, i, Nil, y);
      GraftParent(w, None, par.value, c, i, Nil, y);
    }
  }

  lemma HangAll<N>(w: Forest<N>, par: Option<N>, c: N, i: Info<N>)
    requires CanHang(w, par, c)
    ensures Ids(Hang(w, par, c, i, Nil)) == Ids(w) + {c} && Find(Hang(w, par, c, i, Nil), c).info == i
    ensures forall y :: y in Ids(w) ==> Find(Hang(w, par, c, i, Nil), y).info == Find(w, y).info
  {
    HangFacts(w, par, c, i, c);
    forall y | y in Ids(w) ensures Find(Hang(w, par, c, i, Nil), y).info == Find(w, y).info {
      HangFacts(w, par, c, i, y);
    }
  }

  lemma RefsHung<N>(w: Forest<N>, t: RefMap<N>, par: Option<N>, c: N, i: Info<N>)
    requires CanHang(w, par, c) && RefsOk(w, t) && !i.des.Handle?
    ensures RefsOk(Hang(w, par, c, i, Nil), t[c := []])
  {
    HangAll(w, par, c, i);
    var v, s := Hang(w, par, c, i, Nil), t[c := []];
    assert Listed(v, s);
    assert Filed(v, s) by {
      forall h | h in Ids(v) && IsHandle(v, h)
        ensures h in s && s[h] == [] && Find(v, h).info.des.target in s && h in s[Find(v, h).info.des.target]
      {
        assert h in Ids(w) && IsHandle(w, h);
      }
    }
  }

  /** The lists after a new handle `h` to `p`. */
  ghost function Filing<N>(t: RefMap<N>, p: N, h: N): RefMap<N>
    requires p in t
  {
    t[h := []][p := [h] + t[p]]
  }

  lemma ListedReferenced<N>(w: Forest<N>, t: RefMap<N>, v: Forest<N>, p: N, h: N)
    requires RefsOk(w, t) && p in Ids(w) && h !in Ids(w) && Ids(v) == Ids(w) + {h} && Find(v, h).info.des == Handle(p)
    requires forall y :: y in Ids(w) ==> Find(v, y).info == Find(w, y).info
    ensures Listed(v, Filing(t, p, h))
  {
    hide NoDup, Filed;
  }

  lemma FiledReferenced<N>(w: Forest<N>, t: RefMap<N>, v: Forest<N>, p: N, h: N)
    requires RefsOk(w, t) && p in Ids(w) && !IsHandle(w, p) && h !in Ids(w) && Ids(v) == Ids(w) + {h}
             && Find(v, h).info.des == Handle(p)
    requires forall y :: y in Ids(w) ==> Find(v, y).info == Find(w, y).info
    ensures Filed(v, Filing(t, p, h))
  {
    hide NoDup, Listed;
    var s := Filing(t, p, h);
    forall g | g in Ids(v) && IsHandle(v, g)
      ensures g in s && s[g] == [] && Find(v, g).info.des.target in s && g in s[Find(v, g).info.des.target]
    {
      if g != h { assert g in Ids(w) && IsHandle(w, g) && g != p; }
    }
  }

  lemma RefsReferenced<N>(w: Forest<N>, t: RefMap<N>, par: Option<N>, p: N, h: N, i: Info<N>)
    requires CanHang(w, par, h) && RefsOk(w, t) && i.des == Handle(p) && p in Ids(w) && !IsHandle(w, p)
    ensures RefsOk(Hang(w, par, h, i, Nil), Filing(t, p, h))
  {
    HangAll(w, par, h, i);
    var v, s := Hang(w, par, h, i, Nil), Filing(t, p, h);
    ListedReferenced(w, t, v, p, h);
    FiledReferenced(w, t, v, p, h);
    assert h !in t[p];
    hide Listed, Filed;
    assert ([h] + t[p])[1..] == t[p];
  }

  /** `v` is `w` without `gone`, and all handles of what has gone have gone with it. */
  ghost predicate Thinned<N>(w: Forest<N>, t: RefMap<N>, v: Forest<N>, gone: set<N>) {
    && Ids(v) == Ids(w) - gone && (forall y :: y in Ids(v) ==> Find(v, y).info.des == Find(w, y).info.des)
    && forall x, h :: x in gone && h in RefsOf(t, x) ==> h in gone
  }

  lemma ListedPurged<N>(w: Forest<N>, t: RefMap<N>, v: Forest<N>, gone: set<N>)
    requires Listed(w, t) && Thinned(w, t, v, gone)
    ensures Listed(v, Purged(t, gone))
  {
    var s := Purged(t, gone);
    forall x, h | x in s && h in s[x] ensures h in Ids(v) && Find(v, h).info.des == Handle(x) {
      PurgedMember(t, gone, x, h);
    }
  }

  lemma FiledPurged<N>(w: Forest<N>, t: RefMap<N>, v: Forest<N>, gone: set<N>)
    requires t.Keys == Ids(w) && Filed(w, t) && Thinned(w, t, v, gone)
    ensures Filed(v, Purged(t, gone))
  {
    var s := Purged(t, gone);
    forall h | h in Ids(v) && IsHandle(v, h)
      ensures h in s && s[h] == [] && Find(v, h).info.des.target in s && h in s[Find(v, h).info.des.target]
    {
      var x := Find(w, h).info.des.target;
      assert IsHandle(w, h) && h in RefsOf(t, x);
      PurgedMember(t, gone, x, h);
    }
  }

  lemma RefsPurged<N>(w: Forest<N>, t: RefMap<N>, v: Forest<N>, gone: set<N>)
    requires RefsOk(w, t) && Thinned(w, t, v, gone)
    ensures RefsOk(v, Purged(t, gone))
  {
    hide NoDup, Listed, Filed;
    PurgedNoDup(t, gone);
    ListedPurged(w, t, v, gone);
    FiledPurged(w, t, v, gone);
  }

  lemma WithDesAll<N>(w: Forest<N>, c: N, d: Destructor<N>)
    requires c in Ids(w)
    ensures Ids(WithDes(w, c, d)) == Ids(w) && Find(WithDes(w, c, d), c).info.des == d
    ensures forall y :: y in Ids(w) - {c} ==> Find(WithDes(w, c, d), y).info.des == Find(w, y).info.des
  {
    WithDesFacts(w, c, d);
    WithDesInfo(w, c, d, c);
    forall y | y in Ids(w) - {c} ensures Find(WithDes(w, c, d), y).info.des == Find(w, y).info.des {
      WithDesInfo(w, c, d, y);
    }
  }

  lemma RefsRetitled<N>(w: Forest<N>, t: RefMap<N>, c: N, d: Destructor<N>)
    requires RefsOk(w, t) && c in Ids(w) && !IsHandle(w, c) && !d.Handle?
    ensures RefsOk(WithDes(w, c, d), t)
  {
    WithDesAll(w, c, d);
    ListedRetitled(w, WithDes(w, c, d), t, c);
    FiledRetitled(w, WithDes(w, c, d), t, c);
    hide Listed, Filed, NoDup;
  }

  /** `v` differs from `w` only in the destructor of `c`, which is no handle in either. */
  ghost predicate AlikeBut<N>(w: Forest<N>, v: Forest<N>, c: N) {
    && c in Ids(w) && Ids(v) == Ids(w) && !IsHandle(w, c) && !IsHandle(v, c)
    && forall y :: y in Ids(w) - {c} ==> Find(v, y).info.des == Find(w, y).info.des
  }

  lemma ListedRetitled<N>(w: Forest<N>, v: Forest<N>, t: RefMap<N>, c: N)
    requires Listed(w, t) && AlikeBut(w, v, c)
    ensures Listed(v, t)
  {
    forall x, h | x in t && h in t[x] ensures h in Ids(v) && Find(v, h).info.des == Handle(x) {
      assert h != c;
    }
  }

  lemma FiledRetitled<N>(w: Forest<N>, v: Forest<N>, t: RefMap<N>, c: N)
    requires Filed(w, t) && AlikeBut(w, v, c)
    ensures Filed(v, t)
  {
    forall h | h in Ids(v) && IsHandle(v, h)
      ensures h in t && t[h] == [] && Find(v, h).info.des.target in t && h in t[Find(v, h).info.des.target]
    {
      assert h in Ids(w) && IsHandle(w, h);
    }
  }

  lemma RenamedAll<N>(w: Forest<N>, a: N, b: N, size: nat)
    requires Distinct(w) && a in Ids(w) && b !in Ids(w)
    ensures Ids(Renamed(w, a, b, size)) == Ids(w) - {a} + {b}
    ensures Find(Renamed(w, a, b, size), b).info.des == Find(w, a).info.des
    ensures forall y :: y in Ids(w) - {a} ==> Find(Renamed(w, a, b, size), y).info.des == Find(w, y).info.des
  {
    RenamedIds(w, a, b, size);
    RenamedInfo(w, a, b, size, a);
    forall y | y in Ids(w) - {a} ensures Find(Renamed(w, a, b, size), y).info.des == Find(w, y).info.des {
      RenamedInfo(w, a, b, size, y);
    }
  }

  /** The lists `s` are those of `t`, with an empty one for `b` instead of that of `a`. */
  ghost predicate Relabelled<N>(t: RefMap<N>, s: RefMap<N>, a: N, b: N) {
    && s.Keys == t.Keys - {a} + {b} && b in s && s[b] == []
    && forall x :: x in t && x != a ==> x in s && s[x] == t[x]
  }

  lemma ListedRenamed<N>(w: Forest<N>, t: RefMap<N>, v: Forest<N>, s: RefMap<N>, a: N, b: N)
    requires Listed(w, t) && a in Ids(w) && !IsHandle(w, a) && Ids(v) == Ids(w) - {a} + {b} && Relabelled(t, s, a, b)
    requires forall y :: y in Ids(w) - {a} ==> Find(v, y).info.des == Find(w, y).info.des
    ensures Listed(v, s)
  {
    forall x, h | x in s && h in s[x] ensures h in Ids(v) && Find(v, h).info.des == Handle(x) {
      assert x in t && h in t[x] && h != a;
    }
  }

  lemma FiledRenamed<N>(w: Forest<N>, t: RefMap<N>, v: Forest<N>, s: RefMap<N>, a: N, b: N)
    requires t.Keys == Ids(w) && Filed(w, t) && a in Ids(w) && b !in Ids(w) && t[a] == [] && !IsHandle(w, a)
    requires Ids(v) == Ids(w) - {a} + {b} && Relabelled(t, s, a, b) && Find(v, b).info.des == Find(w, a).info.des
    requires forall y :: y in Ids(w) - {a} ==> Find(v, y).info.des == Find(w, y).info.des
    ensures Filed(v, s)
  {
    forall h | h in Ids(v) && IsHandle(v, h)
      ensures h in s && s[h] == [] && Find(v, h).info.des.target in s && h in s[Find(v, h).info.des.target]
    {
      assert h in Ids(w) && IsHandle(w, h);
    }
  }

  lemma RefsRenamed<N>(w: Forest<N>, t: RefMap<N>, a: N, b: N, size: nat)
    requires Distinct(w) && RefsOk(w, t) && a in Ids(w) && b !in Ids(w) && t[a] == [] && !IsHandle(w, a)
    ensures RefsOk(Renamed(w, a, b, size), (t - {a})[b := []])
  {
    var v, s := Renamed(w, a, b, size), (t - {a})[b := []];
    RenamedAll(w, a, b, size);
    assert Relabelled(t, s, a, b);
    ListedRenamed(w, t, v, s, a, b);
    FiledRenamed(w, t, v, s, a, b);
    hide Listed, Filed;
  }

  // ---------- dropping a reference ----------

  /** The lists after the handle `h` to `p` has been freed. */
  ghost function Dropped<N>(t: RefMap<N>, p: N, h: N): RefMap<N> {
    Unlisted(t, p, h) - {h}
  }

  lemma DroppedPurged<N>(w: Forest<N>, t: RefMap<N>, p: N, h: N)
    requires RefsOk(w, t) && p in t && h in t[p]
    ensures Dropped(t, p, h) == Purged(t, {h})
  {
    forall x | x in t && h in t[x] ensures x == p { assert Find(w, h).info.des == Handle(x) == Handle(p); }
    PurgedOne(t, p, h);
  }

  /** A handle is a leaf that nobody refers to: freeing it cuts it out and takes it out of one list. */
  lemma DropFacts<N>(w: Forest<N>, t: RefMap<N>, p: N, h: N)
    requires Distinct(w) && Tidy(w) && RefsOk(w, t) && p in t && h in t[p]
    ensures h in Ids(w) && Find(w, h).kids == Nil && t[h] == [] && Find(w, h).info.des == Handle(p)
    ensures RefsOk(Cut(w, h), Dropped(t, p, h)) && Tidy(Cut(w, h)) && Distinct(Cut(w, h))
    ensures h != p && Ids(Cut(w, h)) == Ids(w) - {h}
  {
    HandleFacts(w, t, p, h);
    TidyCut(w, h);
    CutFacts(w, h);
    DroppedPurged(w, t, p, h);
    forall y | y in Ids(Cut(w, h)) ensures Find(Cut(w, h), y).info.des == Find(w, y).info.des { CutInfo(w, h, y); }
    assert Thinned(w, t, Cut(w, h), {h});
    hide RefsOk, Tidy, Distinct, Cut, Dropped, Purged, Thinned;
    RefsPurged(w, t, Cut(w, h), {h});
  }

  lemma HandleFacts<N>(w: Forest<N>, t: RefMap<N>, p: N, h: N)
    requires Distinct(w) && Tidy(w) && RefsOk(w, t) && p in t && h in t[p]
    ensures h in Ids(w) && Find(w, h).kids == Nil && t[h] == [] && Find(w, h).info.des == Handle(p) && h != p
  {
    assert IsHandle(w, h);
    TidyTree(w, h);
    hide NoDup, Distinct;
  }

  lemma DroppedList<N>(t: RefMap<N>, p: N, h: N, x: N)
    requires x in t && x != h
    ensures Dropped(t, p, h)[x] == if x == p then Minus(t[p], h) else t[x]
  {
  }

  // ---------- owners ----------

  /** The parents of the handles in a list. */
  ghost function Holders<N>(w: Forest<N>, hs: seq<N>): multiset<Option<N>> {
    if hs == [] then multiset{} else multiset{ParentOf(w, hs[0])} + Holders(w, hs[1..])
  }

  /** Whom a chunk belongs to. */
  ghost function OwnersOf<N>(w: Forest<N>, t: RefMap<N>, p: N): multiset<Option<N>>
    requires p in t
  {
    multiset{ParentOf(w, p)} + Holders(w, t[p])
  }

  lemma {:induction false} MinusAbsent<N>(s: seq<N>, h: N)
    requires h !in s
    ensures Minus(s, h) == s
  {
    if s != [] { MinusAbsent(s[1..], h); }
  }

  lemma {:induction false} HoldersMinus<N>(w: Forest<N>, hs: seq<N>, h: N)
    requires NoDup(hs) && h in hs
    ensures Holders(w, hs) == Holders(w, Minus(hs, h)) + multiset{ParentOf(w, h)}
  {
    if hs[0] == h {
      MinusAbsent(hs[1..], h);
    } else {
      HoldersMinus(w, hs[1..], h);
      assert Minus(hs, h)[1..] == Minus(hs[1..], h);
    }
  }

  lemma {:induction false} HoldersSame<N>(w: Forest<N>, v: Forest<N>, hs: seq<N>)
    requires forall h :: h in hs ==> ParentOf(v, h) == ParentOf(w, h)
    ensures Holders(v, hs) == Holders(w, hs)
  {
    if hs != [] { HoldersSame(w, v, hs[1..]); }
  }

  /** The first handle that hangs below `o`, or the length of the list. */
  ghost function FirstBelow<N>(w: Forest<N>, hs: seq<N>, o: Option<N>): (j: nat)
    ensures j <= |hs| && (j < |hs| ==> ParentOf(w, hs[j]) == o) && (j < |hs| <==> o in Holders(w, hs))
  {
    if hs == [] || ParentOf(w, hs[0]) == o then 0 else 1 + FirstBelow(w, hs[1..], o)
  }

  /** The handle that `talloc_unlink` drops: one below `o` if there is one, else the newest. */
  ghost function Spent<N>(w: Forest<N>, hs: seq<N>, o: Option<N>): (h: N)
    requires hs != []
    ensures h in hs
  {
    if o in Holders(w, hs) then hs[FirstBelow(w, hs, o)] else hs[0]
  }

  /** `o` has no reference to `p`, and the newest one comes from `p` itself. */
  ghost predicate SelfHeld<N>(w: Forest<N>, t: RefMap<N>, p: N, o: Option<N>)
    requires p in t && t[p] != []
  {
    o !in Holders(w, t[p]) && ParentOf(w, t[p][0]) == Some(p)
  }

  /** The forest after a chunk with references has been unlinked from `o`. A chunk that would have to go below itself
      stays where it is (talloc.c:452-454). */
  ghost function Unlinked<N>(w: Forest<N>, t: RefMap<N>, p: N, o: Option<N>): Forest<N>
    requires p in t && t[p] != [] && p in Ids(Cut(w, Spent(w, t[p], o)))
  {
    var h := Spent(w, t[p], o);
    if o in Holders(w, t[p]) || SelfHeld(w, t, p, o) then Cut(w, h) else Moved(Cut(w, h), p, ParentOf(w, h))
  }

  /** The owner that the chunk loses. */
  ghost function LostOwner<N>(w: Forest<N>, t: RefMap<N>, p: N, o: Option<N>): Option<N>
    requires p in t && t[p] != []
  {
    if SelfHeld(w, t, p, o) then Some(p) else o
  }

  lemma HolderElsewhere<N>(w: Forest<N>, t: RefMap<N>, p: N, h: N)
    requires Distinct(w) && Tidy(w) && RefsOk(w, t) && p in t && h in t[p]
    ensures h in Ids(w)
    ensures ParentOf(w, h).Some? ==>
              ParentOf(w, h).value in Ids(Cut(w, h)) && !IsHandle(Cut(w, h), ParentOf(w, h).value)
  {
    DropFacts(w, t, p, h);
    ParentElsewhere(w, None, h);
    ParentNoHandle(w, None, h);
    if ParentOf(w, h).Some? { CutInfo(w, h, ParentOf(w, h).value); }
  }

  lemma ListedIds<N>(w: Forest<N>, t: RefMap<N>, x: N)
    requires Listed(w, t) && x in t
    ensures forall y :: y in t[x] ==> y in Ids(w)
  {
  }

  lemma {:induction false} CutHolders<N>(w: Forest<N>, h: N, hs: seq<N>)
    requires Distinct(w) && h in Ids(w) && forall y :: y in hs ==> y in Ids(Cut(w, h))
    ensures Holders(Cut(w, h), hs) == Holders(w, hs)
  {
    if hs != [] {
      CutParent(w, None, h, hs[0]);
      CutHolders(w, h, hs[1..]);
    }
  }

  lemma DroppedHolders<N>(w: Forest<N>, t: RefMap<N>, p: N, h: N, x: N)
    requires Distinct(w) && Tidy(w) && RefsOk(w, t) && p in t && h in t[p] && x in t && x != h
    ensures x in Dropped(t, p, h) && ParentOf(Cut(w, h), x) == ParentOf(w, x)
    ensures Holders(Cut(w, h), Dropped(t, p, h)[x]) == Holders(w, Dropped(t, p, h)[x])
  {
    DropFacts(w, t, p, h);
    CutParent(w, None, h, x);
    ListedIds(Cut(w, h), Dropped(t, p, h), x);
    CutHolders(w, h, Dropped(t, p, h)[x]);
  }

  /** Dropping a handle takes its parent out of the owners of its target, and leaves all other owners alone. */
  lemma DroppedOwners<N>(w: Forest<N>, t: RefMap<N>, p: N, h: N, x: N)
    requires Distinct(w) && Tidy(w) && RefsOk(w, t) && p in t && h in t[p] && x in t && x != h
    ensures x in Dropped(t, p, h)
    ensures OwnersOf(w, t, x) ==
            OwnersOf(Cut(w, h), Dropped(t, p, h), x) + if x == p then multiset{ParentOf(w, h)} else multiset{}
  {
    DroppedHolders(w, t, p, h, x);
    DroppedList(t, p, h, x);
    if x == p { HoldersMinus(w, t[p], h); }
  }

  lemma NotListed<N>(w: Forest<N>, t: RefMap<N>, p: N, x: N)
    requires RefsOk(w, t) && p in Ids(w) && !IsHandle(w, p) && x in t
    ensures p !in t[x] && forall y :: y in t[x] ==> y in Ids(w)
  {
  }

  lemma {:induction false} MovedHolders<N>(w: Forest<N>, p: N, par: Option<N>, hs: seq<N>)
    requires Distinct(w) && CanMove(w, p, par) && p !in hs && forall y :: y in hs ==> y in Ids(w)
    ensures Holders(Moved(w, p, par), hs) == Holders(w, hs)
  {
    if hs != [] {
      MovedParent(w, p, par, hs[0]);
      MovedHolders(w, p, par, hs[1..]);
    }
  }

  /** A move changes one owner of the moved chunk, its parent. */
  lemma MovedOwners<N>(w: Forest<N>, t: RefMap<N>, p: N, par: Option<N>, x: N)
    requires Distinct(w) && RefsOk(w, t) && CanMove(w, p, par) && !IsHandle(w, p) && x in t
    ensures OwnersOf(Moved(w, p, par), t, x) ==
            if x == p then OwnersOf(w, t, x) - multiset{ParentOf(w, p)} + multiset{par} else OwnersOf(w, t, x)
  {
    NotListed(w, t, p, x);
    MovedHolders(w, p, par, t[x]);
    MovedParent(w, p, par, x);
  }

  /** The new parent of an unlinked chunk is not below it. */
  ghost predicate CanUnlink<N>(w: Forest<N>, t: RefMap<N>, p: N, o: Option<N>)
    requires p in t && t[p] != []
  {
    p in Ids(w) && (o in Holders(w, t[p]) || ParentOf(w, t[p][0]).None?
        || ParentOf(w, t[p][0]).value !in Ids(Find(w, p).kids))
  }

  lemma UnlinkedFacts<N>(w: Forest<N>, t: RefMap<N>, p: N, o: Option<N>)
    requires Distinct(w) && Tidy(w) && RefsOk(w, t) && p in t && t[p] != [] && CanUnlink(w, t, p, o)
    ensures var h := Spent(w, t[p], o);
            h in Ids(w) && h != p && p in Ids(Cut(w, h)) && !IsHandle(Cut(w, h), p)
            && (o !in Holders(w, t[p]) && !SelfHeld(w, t, p, o) ==> CanMove(Cut(w, h), p, ParentOf(w, h)))
            && (o !in Holders(w, t[p]) && ParentOf(w, h).Some? ==> !IsHandle(Cut(w, h), ParentOf(w, h).value))
  {
    var h := Spent(w, t[p], o);
    DropFacts(w, t, p, h);
    HolderElsewhere(w, t, p, h);
    CutInfo(w, h, p);
    if o !in Holders(w, t[p]) && ParentOf(w, h).Some? { CutInTree(w, h, p, ParentOf(w, h).value); }
  }

  /** The owner that gave its handle takes the place of the parent. */
  lemma Exchanged<T>(all: multiset<T>, rest: multiset<T>, parent: T, holder: T)
    requires all == rest + multiset{holder} && parent in rest
    ensures rest - multiset{parent} + multiset{holder} == all - multiset{parent}
  {
  }

  lemma RelinkedOwners<N>(w: Forest<N>, t: RefMap<N>, p: N, h: N, x: N)
    requires Distinct(w) && Tidy(w) && RefsOk(w, t) && p in t && h in t[p] && x in t && x != h
    requires h in Ids(w) && p in Ids(Cut(w, h)) && !IsHandle(Cut(w, h), p) && CanMove(Cut(w, h), p, ParentOf(w, h))
    ensures x in Dropped(t, p, h)
    ensures OwnersOf(Moved(Cut(w, h), p, ParentOf(w, h)), Dropped(t, p, h), x) ==
            if x == p then OwnersOf(w, t, p) - multiset{ParentOf(w, p)} else OwnersOf(w, t, x)
  {
    DropFacts(w, t, p, h);
    DroppedOwners(w, t, p, h, x);
    MovedOwners(Cut(w, h), Dropped(t, p, h), p, ParentOf(w, h), x);
    CutParent(w, None, h, p);
    if x == p {
      Exchanged(OwnersOf(w, t, p), OwnersOf(Cut(w, h), Dropped(t, p, h), p), ParentOf(w, p), ParentOf(w, h));
    }
  }

  lemma HeldOwners<N>(w: Forest<N>, t: RefMap<N>, p: N, h: N, x: N)
    requires Distinct(w) && Tidy(w) && RefsOk(w, t) && p in t && h in t[p] && x in t && x != h
    ensures x in Dropped(t, p, h)
    ensures OwnersOf(Cut(w, h), Dropped(t, p, h), x) ==
            if x == p then OwnersOf(w, t, p) - multiset{ParentOf(w, h)} else OwnersOf(w, t, x)
  {
    DroppedOwners(w, t, p, h, x);
    hide Cut, Dropped, Holders, RefsOk, Tidy;
  }

  /** Unlinking a chunk that has another owner takes away one occurrence of one owner. */
  lemma UnlinkedOwners<N>(w: Forest<N>, t: RefMap<N>, p: N, o: Option<N>, x: N)
    requires Distinct(w) && Tidy(w) && RefsOk(w, t) && p in t && t[p] != [] && CanUnlink(w, t, p, o)
    requires o in OwnersOf(w, t, p) && x in t && x != Spent(w, t[p], o)
    ensures p in Ids(Cut(w, Spent(w, t[p], o))) && x in Dropped(t, p, Spent(w, t[p], o))
    ensures OwnersOf(Unlinked(w, t, p, o), Dropped(t, p, Spent(w, t[p], o)), x) ==
            if x == p then OwnersOf(w, t, p) - multiset{LostOwner(w, t, p, o)} else OwnersOf(w, t, x)
  {
    var h := Spent(w, t[p], o);
    UnlinkedFacts(w, t, p, o);
    if o in Holders(w, t[p]) || SelfHeld(w, t, p, o) {
      HeldOwners(w, t, p, h, x);
    } else {
      RelinkedOwners(w, t, p, h, x);
    }
  }

  /** The bookkeeping is right after unlinking. */
  lemma UnlinkedOk<N>(w: Forest<N>, t: RefMap<N>, p: N, o: Option<N>)
    requires Distinct(w) && Tidy(w) && RefsOk(w, t) && p in t && t[p] != [] && CanUnlink(w, t, p, o)
    ensures p in Ids(Cut(w, Spent(w, t[p], o)))
    ensures var v := Unlinked(w, t, p, o);
            Distinct(v) && Tidy(v) && RefsOk(v, Dropped(t, p, Spent(w, t[p], o)))
                && Ids(v) == Ids(w) - {Spent(w, t[p], o)}
  {
    var h := Spent(w, t[p], o);
    UnlinkedFacts(w, t, p, o);
    DropFacts(w, t, p, h);
    if o !in Holders(w, t[p]) && !SelfHeld(w, t, p, o) {
      MovedFacts(Cut(w, h), p, ParentOf(w, h));
      TidyMoved(Cut(w, h), p, ParentOf(w, h));
      RefsMoved(Cut(w, h), Dropped(t, p, h), p, ParentOf(w, h));
    }
  }

  /** Unlinking loses nothing but the handle exactly when the new parent is not below the chunk; otherwise the chunk and
      everything below it is cut off. */
  lemma UnlinkedIff<N>(w: Forest<N>, t: RefMap<N>, p: N, o: Option<N>)
    requires Distinct(w) && Tidy(w) && RefsOk(w, t) && p in t && t[p] != []
    ensures p in Ids(Cut(w, Spent(w, t[p], o)))
    ensures Ids(Unlinked(w, t, p, o)) == Ids(w) - {Spent(w, t[p], o)} <==> CanUnlink(w, t, p, o)
    ensures !CanUnlink(w, t, p, o) ==> Unlinked(w, t, p, o) == Cut(Cut(w, Spent(w, t[p], o)), p)
  {
    var h := Spent(w, t[p], o);
    DropFacts(w, t, p, h);
    HolderElsewhere(w, t, p, h);
    TreeFacts(w, p);
    if o !in Holders(w, t[p]) && !SelfHeld(w, t, p, o) {
      MoveKeepsAll(Cut(w, h), p, ParentOf(w, h));
      if ParentOf(w, h).Some? { CutInTree(w, h, p, ParentOf(w, h).value); }
    }
  }

  /** Unlinking takes one occurrence of `o` away exactly when the newest handle is not below the chunk itself; otherwise
      the chunk loses itself as an owner and keeps `o`. */
  lemma OwnerLawIff<N>(w: Forest<N>, t: RefMap<N>, p: N, o: Option<N>)
    requires Distinct(w) && Tidy(w) && RefsOk(w, t) && p in t && t[p] != [] && CanUnlink(w, t, p, o)
             && o in OwnersOf(w, t, p)
    ensures p in Ids(Cut(w, Spent(w, t[p], o))) && p in Dropped(t, p, Spent(w, t[p], o))
    ensures OwnersOf(Unlinked(w, t, p, o), Dropped(t, p, Spent(w, t[p], o)), p) == OwnersOf(w, t, p) - multiset{o}
            <==> !SelfHeld(w, t, p, o)
  {
    var h := Spent(w, t[p], o);
    UnlinkedFacts(w, t, p, o);
    UnlinkedOwners(w, t, p, o, p);
    if SelfHeld(w, t, p, o) {
      ParentElsewhere(w, None, p);
      CutFacts(w, p);
      var m := OwnersOf(w, t, p);
      assert o != Some(p) && (m - multiset{o})[o] == m[o] - 1 && (m - multiset{Some(p)})[o] == m[o];
    }
  }

  // ---------- reference, then unlink ----------

  lemma {:induction false} CutGraft<N>(w: Forest<N>, q: N, h: N, i: Info<N>)
    requires h !in Ids(w)
    ensures Cut(Graft(w, q, h, i, Nil), h) == w
  {
    if w.Cons? {
      if w.c == q {
        CutAbsent(w.kids, h);
        CutAbsent(w.next, h);
      } else {
        CutGraft(w.kids, q, h, i);
        CutGraft(w.next, q, h, i);
      }
    }
  }

  lemma DroppedFiling<N>(t: RefMap<N>, p: N, h: N)
    requires p in t && h !in t && h !in t[p]
    ensures Dropped(Filing(t, p, h), p, h) == t
  {
    var s := Filing(t, p, h);
    forall x | x in t ensures Dropped(s, p, h)[x] == t[x] {
      DroppedList(s, p, h, x);
      if x == p {
        assert ([h] + t[p])[1..] == t[p];
        MinusAbsent(t[p], h);
      }
    }
  }

  /** A reference followed by an unlink from the same context restores the forest and the lists. */
  lemma ReferenceUnlink<N>(w: Forest<N>, t: RefMap<N>, o: Option<N>, p: N, h: N, i: Info<N>)
    requires CanHang(w, o, h) && RefsOk(w, t) && p in Ids(w) && i.des == Handle(p)
    ensures var v, s := Hang(w, o, h, i, Nil), Filing(t, p, h);
            p in s && s[p] != [] && Spent(v, s[p], o) == h && o in Holders(v, s[p]) && p in Ids(Cut(v, h))
            && Unlinked(v, s, p, o) == w && Dropped(s, p, h) == t
  {
    HangFacts(w, o, h, i, h);
    if o.Some? { CutGraft(w, o.value, h, i); }
    DroppedFiling(t, p, h);
  }
}
