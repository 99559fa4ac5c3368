/**
 References between chunks that are freed together. Inputs on which `talloc_free` hangs a chunk below itself and loses
 it: no handle is below its own target, but two chunks below the freed one refer to each other, and one refuses. And
 inputs on which all goes well, although a handle and its target are both below the freed chunk.
 */
module Tangles {
  import opened Forests
  import opened Transfers
  import opened Releases
  import opened RefMaps
  import opened Ownership
  import opened Owners
  import opened Drains
  import opened Stacks
  import opened DrainFacts
  import opened Keeping
  import opened Ranks
  import opened Survivors
  import opened Legacies
  import Freeing
  import Chunks

  /** `c` has the children `b` and `a`; below `b` is the handle `g` to `a`, and below `a` the handle `h` to `b`. */
  datatype Names<N> = Names(c: N, a: N, b: N, g: N, h: N)

  ghost predicate Different<N>(n: Names<N>) {
    && n.c != n.a && n.c != n.b && n.c != n.g && n.c != n.h && n.a != n.b && n.a != n.g && n.a != n.h
    && n.b != n.g && n.b != n.h && n.g != n.h
  }

  function Plain<N>(d: Destructor<N>): Info<N> {
    Info(8, d, false, Tied)
  }

  function Leaf<N>(h: N, target: N): Forest<N> {
    Cons(h, Info(24, Handle(target), false, Tied), Nil, Nil)
  }

  /** `a` refuses. */
  function TreeA<N>(n: Names<N>, k: Forest<N>): Forest<N> {
    Cons(n.a, Plain(Refuses), k, Nil)
  }

  function TreeB<N>(n: Names<N>, k: Forest<N>, next: Forest<N>): Forest<N> {
    Cons(n.b, Plain(NoDestructor), k, next)
  }

  function Kids<N>(n: Names<N>): Forest<N> {
    TreeB(n, Leaf(n.g, n.a), TreeA(n, Leaf(n.h, n.b)))
  }

  function Knot<N>(n: Names<N>): Forest<N> {
    Cons(n.c, Plain(NoDestructor), Kids(n), Nil)
  }

  ghost function Lists<N>(n: Names<N>): RefMap<N> {
    map[n.c := [], n.a := [n.g], n.b := [n.h], n.g := [], n.h := []]
  }

  // ---------- the input ----------

  lemma KnotFacts<N>(n: Names<N>)
    requires Different(n)
    ensures var w := Knot(n);
            && Ids(w) == {n.c, n.a, n.b, n.g, n.h} && Distinct(w) && Tidy(w)
            && Find(w, n.c) == w && Find(w, n.a).info == Plain(Refuses) && Find(w, n.b).info == Plain(NoDestructor)
            && Find(w, n.g).info.des == Handle(n.a) && Find(w, n.h).info.des == Handle(n.b)
            && n.g !in TreeIds(w, n.a) && n.h !in TreeIds(w, n.b)
  {
    var a := TreeA(n, Leaf(n.h, n.b));
    assert Ids(a) == {n.a, n.h} && Ids(Kids(n)) == {n.b, n.g, n.a, n.h};
    assert Distinct(a) && Distinct(Kids(n)) && Tidy(a);
    assert Find(a, n.h) == Leaf(n.h, n.b) && Find(Kids(n), n.h) == Find(a, n.h);
    assert Find(Kids(n), n.g) == Leaf(n.g, n.a) && Find(Kids(n), n.a) == a;
  }

  lemma OneHandle<N>(h: N, gone: set<N>)
    ensures Without([h], gone) == (if h in gone then [] else [h]) && NoDup([h])
  {
    assert [h][1..] == [];
  }

  /** The input is a state that the allocator's own calls lead to. */
  lemma KnotGood<N>(n: Names<N>)
    requires Different(n)
    ensures Good(Knot(n), Lists(n))
  {
    KnotFacts(n);
    OneHandle(n.g, {});
    OneHandle(n.h, {});
    hide Knot, NoDup;
    var w, t := Knot(n), Lists(n);
    forall x, z | x in t && z in t[x] ensures (x == n.a && z == n.g) || (x == n.b && z == n.h) {}
    assert Filed(w, t);
  }

  // ---------- the call ----------

  /** `c` with the children `k` while it is being freed. */
  function Waiting<N>(n: Names<N>, k: Forest<N>): Forest<N> {
    Cons(n.c, Info(8, NoDestructor, true, Loose(None, None)), k, Nil)
  }

  /** The lists without `c`; then without the handle to `b`; then without both handles. */
  ghost function Lists1<N>(n: Names<N>): RefMap<N> {
    Purged(Lists(n), {n.c})
  }

  ghost function Lists2<N>(n: Names<N>): RefMap<N> {
    Purged(Lists1(n), {n.h})
  }

  ghost function Lists3<N>(n: Names<N>): RefMap<N> {
    Purged(Lists2(n), {n.g})
  }

  lemma ListsFacts<N>(n: Names<N>)
    requires Different(n)
    ensures RefsOf(Lists(n), n.c) == [] && RefsOf(Lists1(n), n.b) == [n.h] && RefsOf(Lists2(n), n.a) == [n.g]
            && RefsOf(Lists3(n), n.a) == []
  {
    OneHandle(n.h, {n.c});
    OneHandle(n.g, {n.c});
    OneHandle(n.g, {n.h});
    OneHandle(n.g, {n.g});
    hide Without;
    assert Lists1(n)[n.a] == [n.g] && Lists2(n)[n.a] == [n.g];
  }

  /** One step of every function on a list, to be put together below. */
  lemma About<N>(c: N, i: Info<N>, k: Forest<N>, next: Forest<N>, par: Option<N>, x: N)
    ensures var f := Cons(c, i, k, next);
            && Ids(f) == {c} + Ids(k) + Ids(next) && Count(f) == 1 + Count(k) + Count(next)
            && Cut(f, x) == (if x == c then next else Cons(c, i, Cut(k, x), Cut(next, x)))
            && ParentIn(f, par, x) == (if x == c then par else if x in Ids(k) then ParentIn(k, Some(c), x)
                                       else ParentIn(next, par, x))
            && (x in Ids(f) ==> Find(f, x) == if x == c then f else if x in Ids(k) then Find(k, x) else Find(next, x))
  {
  }

  lemma AboutLeaf<N>(h: N, target: N, par: Option<N>, x: N)
    ensures var f := Leaf(h, target);
            && Ids(f) == {h} && Count(f) == 1 && Cut(f, x) == (if x == h then Nil else f)
            && (x == h ==> ParentIn(f, par, x) == par && Find(f, x) == f)
  {
    About(h, Info(24, Handle(target), false, Tied), Nil, Nil, par, x);
  }

  /** `b` loses its handle ... */
  lemma CutToB<N>(n: Names<N>)
    requires Different(n)
    ensures var w, v := Waiting(n, Kids(n)), Waiting(n, TreeB(n, Leaf(n.g, n.a), TreeA(n, Nil)));
            && Ids(w) == {n.c, n.b, n.g, n.a, n.h} && Cut(w, n.h) == v && Count(v) < Count(w) && n.b in Ids(v)
            && Find(w, n.b) == Kids(n) && ParentOf(w, n.h) == Some(n.a) && n.h !in TreeIds(w, n.b)
  {
    var leafG, leafH := Leaf(n.g, n.a), Leaf(n.h, n.b);
    AboutLeaf(n.g, n.a, Some(n.b), n.h);
    AboutLeaf(n.h, n.b, Some(n.a), n.h);
    About(n.a, Plain(Refuses), leafH, Nil, Some(n.c), n.h);
    About(n.a, Plain(Refuses), Nil, Nil, Some(n.c), n.h);
    About(n.b, Plain(NoDestructor), leafG, TreeA(n, leafH), Some(n.c), n.h);
    About(n.b, Plain(NoDestructor), leafG, TreeA(n, Nil), Some(n.c), n.h);
    About(n.c, Waiting(n, Nil).info, Kids(n), Nil, None, n.h);
    hide Cut, Find, Ids, Count, ParentIn;
    About(n.b, Plain(NoDestructor), leafG, TreeA(n, leafH), Some(n.c), n.b);
    About(n.c, Waiting(n, Nil).info, Kids(n), Nil, None, n.b);
    About(n.c, Waiting(n, Nil).info, Cut(Kids(n), n.h), Nil, None, n.b);
  }

  lemma TryB<N>(n: Names<N>)
    requires Different(n)
    ensures var w := Waiting(n, Kids(n));
            && n.b in Ids(w) && Holder(w, Lists1(n), n.b) == Some(n.a)
            && TryFree(w, Lists1(n), n.b) == Kept(Waiting(n, TreeB(n, Leaf(n.g, n.a), TreeA(n, Nil))), Lists2(n), {n.h})
  {
    ListsFacts(n);
    CutToB(n);
    KnotSighted(n);
    hide Purged, Lists1, Cut, Find, Ids, Count, ParentIn, Sighted, Waiting, Kids;
  }

  lemma KnotSighted<N>(n: Names<N>)
    requires Different(n)
    ensures Sighted(Waiting(n, Kids(n)))
  {
    var w, k := Waiting(n, Kids(n)), Kids(n);
    KnotFacts(n);
    assert Knot(n).kids == k && Tidy(k) && Distinct(Knot(n));
    TidyCalm(k);
    forall x | x in Ids(w) ensures SeesOwn(w, Find(w, x).info) {
      if x in Ids(k) { CalmTree(k, x); }
    }
  }

  /** ... and goes below `a`. */
  lemma SettleB<N>(n: Names<N>)
    requires Different(n)
    ensures var v := Waiting(n, TreeB(n, Leaf(n.g, n.a), TreeA(n, Nil)));
            && n.b in Ids(v) && Settled(v, n.b, Some(n.a)) == Waiting(n, TreeA(n, TreeB(n, Leaf(n.g, n.a), Nil)))
            && n.a !in Ids(Find(v, n.b).kids)
  {
    var v, k := Waiting(n, TreeB(n, Leaf(n.g, n.a), TreeA(n, Nil))), TreeB(n, Leaf(n.g, n.a), TreeA(n, Nil));
    AboutLeaf(n.g, n.a, None, n.b);
    About(n.b, Plain(NoDestructor), Leaf(n.g, n.a), TreeA(n, Nil), None, n.b);
    About(n.c, Waiting(n, Nil).info, k, Nil, None, n.b);
    assert Cut(v, n.b) == Waiting(n, TreeA(n, Nil));
    hide Cut, Find, Ids, ParentIn;
    var i, l := Plain(NoDestructor), Leaf(n.g, n.a);
    assert Graft(TreeA(n, Nil), n.a, n.b, i, l) == TreeA(n, Cons(n.b, i, l, Nil));
    assert Graft(Waiting(n, TreeA(n, Nil)), n.a, n.b, i, l) == Waiting(n, TreeA(n, Cons(n.b, i, l, Nil)));
  }

  lemma FirstRound<N>(n: Names<N>)
    requires Different(n)
    ensures Turn(n.c, Waiting(n, Nil).info, Kids(n), Nil, Lists1(n))
            == Freed(Waiting(n, TreeA(n, TreeB(n, Leaf(n.g, n.a), Nil))), Lists2(n), {n.h})
  {
    TryB(n);
    SettleB(n);
    hide TryFree, Settled, Holder, Lists1, Lists2, Find, Ids, TreeA;
  }

  // ---------- the second round ----------

  /** `a` loses its handle, which is below `a` by now, and refuses ... */
  lemma CutToA<N>(n: Names<N>)
    requires Different(n)
    ensures var w, v := Waiting(n, TreeA(n, TreeB(n, Leaf(n.g, n.a), Nil))), Waiting(n, TreeA(n, TreeB(n, Nil, Nil)));
            && n.a in Ids(w) && Cut(w, n.g) == v && Count(v) < Count(w) && n.a in Ids(v)
            && ParentOf(w, n.g) == Some(n.b)
            && n.g in TreeIds(w, n.a) && Find(v, n.a).info == Plain(Refuses) && n.b in Ids(Find(v, n.a).kids)
            && Find(w, n.a) == w.kids
  {
    var w, v := Waiting(n, TreeA(n, TreeB(n, Leaf(n.g, n.a), Nil))), Waiting(n, TreeA(n, TreeB(n, Nil, Nil)));
    AboutLeaf(n.g, n.a, Some(n.b), n.g);
    About(n.b, Plain(NoDestructor), Leaf(n.g, n.a), Nil, Some(n.a), n.g);
    About(n.b, Plain(NoDestructor), Nil, Nil, Some(n.a), n.g);
    About(n.a, Plain(Refuses), TreeB(n, Leaf(n.g, n.a), Nil), Nil, Some(n.c), n.g);
    About(n.a, Plain(Refuses), TreeB(n, Nil, Nil), Nil, Some(n.c), n.g);
    About(n.c, w.info, w.kids, Nil, None, n.g);
    hide Cut, Find, Ids, Count, ParentIn;
    About(n.c, w.info, w.kids, Nil, None, n.a);
    About(n.c, w.info, v.kids, Nil, None, n.a);
    About(n.a, Plain(Refuses), TreeB(n, Leaf(n.g, n.a), Nil), Nil, None, n.a);
    About(n.a, Plain(Refuses), TreeB(n, Nil, Nil), Nil, None, n.a);
  }

  lemma TryA<N>(n: Names<N>)
    requires Different(n)
    ensures var w := Waiting(n, TreeA(n, TreeB(n, Leaf(n.g, n.a), Nil)));
            && n.a in Ids(w) && Holder(w, Lists2(n), n.a) == Some(n.b)
            && TryFree(w, Lists2(n), n.a) == Kept(Waiting(n, TreeA(n, TreeB(n, Nil, Nil))), Lists3(n), {n.g})
  {
    ListsFacts(n);
    CutToA(n);
    hide Purged, Lists2, Cut, Find, Ids, Count, ParentIn, Sighted, Waiting;
    var v := Waiting(n, TreeA(n, TreeB(n, Nil, Nil)));
    assert TryFree(v, Lists3(n), n.a) == Kept(v, Lists3(n), {});
  }

  /** ... and is to go below `b`, which is below `a`. */
  lemma SecondRound<N>(n: Names<N>)
    requires Different(n)
    ensures Turn(n.c, Waiting(n, Nil).info, TreeA(n, TreeB(n, Leaf(n.g, n.a), Nil)), Nil, Lists2(n))
            == Hung(Waiting(n, TreeA(n, TreeB(n, Nil, Nil))), Lists3(n), {n.g}, n.a, n.b)
  {
    CutToA(n);
    TryA(n);
    hide TryFree, Settled, Holder, Lists2, Lists3, Find, Ids;
  }

  // ---------- the call ----------

  lemma Counts<N>(n: Names<N>)
    ensures Count(Kids(n)) == 4 && Count(TreeA(n, TreeB(n, Leaf(n.g, n.a), Nil))) == 3
  {
    var l, m := Leaf(n.g, n.a), Leaf(n.h, n.b);
    assert Count(l) == 1 && Count(m) == 1 && Count(TreeA(n, m)) == 2 && Count(TreeB(n, l, Nil)) == 2;
  }

  lemma BothRounds<N>(n: Names<N>)
    requires Different(n)
    ensures Drain(n.c, Waiting(n, Nil).info, Kids(n), Nil, Lists1(n))
            == Hung(Waiting(n, TreeA(n, TreeB(n, Nil, Nil))), Lists3(n), {n.h, n.g}, n.a, n.b)
  {
    FirstRound(n);
    SecondRound(n);
    Counts(n);
    hide Turn, Lists1, Lists2, Lists3, Count;
  }

  lemma KnotLost<N>(n: Names<N>)
    requires Different(n)
    ensures var v := Waiting(n, TreeA(n, TreeB(n, Nil, Nil)));
            n.a in Ids(v) && Moved(v, n.a, Some(n.b)) == Waiting(n, Nil)
  {
    var v := Waiting(n, TreeA(n, TreeB(n, Nil, Nil)));
    About(n.c, v.info, v.kids, Nil, None, n.a);
    About(n.a, Plain(Refuses), TreeB(n, Nil, Nil), Nil, None, n.a);
    GraftAbsent(Waiting(n, Nil), n.b, n.a, v.kids.info, v.kids.kids);
  }

  /** No handle is below its own target; and yet freeing `c` ends with `a` below `b` and `b` below `a`, and both are
      lost. */
  lemma KnotHangs<N>(n: Names<N>)
    requires Different(n)
    ensures var w, t := Knot(n), Lists(n);
            && Good(w, t) && {n.c, n.a, n.b} <= Ids(w) && n.g !in TreeIds(w, n.a) && n.h !in TreeIds(w, n.b)
            && TryFree(w, t, n.c) == Hung(Waiting(n, TreeA(n, TreeB(n, Nil, Nil))), Lists3(n), {n.h, n.g}, n.a, n.b)
            && ForestAfter(TryFree(w, t, n.c)) == Waiting(n, Nil)
  {
    KnotGood(n);
    KnotFacts(n);
    ListsFacts(n);
    BothRounds(n);
    KnotLost(n);
    assert Left(Knot(n), n.c) == Waiting(n, Kids(n));
    hide Purged, Drain, Lists, Good, Left;
    GoodRests(Knot(n), Lists(n));
    IsLoop(Knot(n), Lists(n), n.c);
  }

  /** On the heap this is what `Freeing.FreeUntilHung` does, after one round. */
  lemma KnotReached(n: Names<Chunks.Chunk>)
    requires Different(n)
    ensures var w, t := Left(Knot(n), n.c), Purged(Lists(n), {n.c});
            && n.c in Ids(Knot(n)) && Fit(w, t, [n.c], ZoneOf(Knot(n), n.c))
            && var r := Freeing.Onward(w, t, 1); r.Freed? && Freeing.Hangs(r.w, r.t)
  {
    KnotGood(n);
    KnotFacts(n);
    ListsFacts(n);
    GoodRests(Knot(n), Lists(n));
    FitFirst(Knot(n), Lists(n), n.c);
    FirstRound(n);
    SecondRound(n);
    TryA(n);
    assert Left(Knot(n), n.c) == Waiting(n, Kids(n));
    var v := Waiting(n, TreeA(n, TreeB(n, Leaf(n.g, n.a), Nil)));
    hide Knot, Lists, Left, Kids, TreeA, Turn, TryFree, Fit, Purged;
    assert Freeing.Onward(v, Lists2(n), 0) == Freed(v, Lists2(n), {});
  }

  // ---------- where all goes well ----------

  /** `c` has the children `a` and `b`; below `a` is the handle `h` to `b`. */
  function Bridge<N>(n: Names<N>): Forest<N> {
    Cons(n.c, Plain(NoDestructor), Cons(n.a, Plain(NoDestructor), Leaf(n.h, n.b), TreeB(n, Nil, Nil)), Nil)
  }

  ghost function BridgeLists<N>(n: Names<N>): RefMap<N> {
    map[n.c := [], n.a := [], n.b := [n.h], n.h := []]
  }

  ghost function BridgeRank<N>(n: Names<N>): N -> nat {
    x => if x == n.c then 0 else if x == n.a then 1 else 2
  }

  lemma BridgeFacts<N>(n: Names<N>)
    requires Different(n)
    ensures var w := Bridge(n);
            && Ids(w) == {n.c, n.a, n.b, n.h} && Distinct(w) && Tidy(w) && Find(w, n.c) == w
            && TreeIds(w, n.c) == Ids(w)
            && Find(w, n.a).info == Plain(NoDestructor) && Find(w, n.b).info == Plain(NoDestructor)
            && Find(w, n.h).info.des == Handle(n.b)
            && ParentOf(w, n.a) == Some(n.c) && ParentOf(w, n.b) == Some(n.c) && ParentOf(w, n.h) == Some(n.a)
            && ParentOf(w, n.c) == None
  {
    var b := TreeB(n, Nil, Nil);
    var a := Cons(n.a, Plain(NoDestructor), Leaf(n.h, n.b), b);
    assert Ids(Leaf(n.h, n.b)) == {n.h} && ParentIn(a, Some(n.c), n.a) == Some(n.c);
    assert Ids(b) == {n.b} && Ids(a) == {n.a, n.h, n.b} && Distinct(b) && Distinct(a) && Tidy(b) && Tidy(a);
    assert Find(Leaf(n.h, n.b), n.h) == Leaf(n.h, n.b) && Find(a, n.b) == b;
    AboutLeaf(n.h, n.b, Some(n.a), n.h);
    About(n.a, Plain(NoDestructor), Leaf(n.h, n.b), b, Some(n.c), n.h);
    About(n.a, Plain(NoDestructor), Leaf(n.h, n.b), b, Some(n.c), n.b);
    assert ParentIn(b, Some(n.c), n.b) == Some(n.c);
  }

  lemma BridgeGood<N>(n: Names<N>)
    requires Different(n)
    ensures Good(Bridge(n), BridgeLists(n))
  {
    BridgeFacts(n);
    OneHandle(n.h, {});
    hide Bridge, NoDup;
    var w, t := Bridge(n), BridgeLists(n);
    forall x, z | x in t && z in t[x] ensures x == n.b && z == n.h {}
    assert Filed(w, t);
  }

  lemma BridgeLeaves<N>(n: Names<N>)
    requires Different(n)
    ensures Leaves(Bridge(n), BridgeLists(n), n.c, BridgeRank(n))
  {
    var w, t, rank := Bridge(n), BridgeLists(n), BridgeRank(n);
    BridgeFacts(n);
    BridgeGood(n);
    GoodRests(w, t);
    forall x | x in Ids(w.kids) ensures Falls(w, t, rank, TreeIds(w, n.c), x) { TreeFacts(w, n.c); }
    hide AtRest, Bridge;
  }

  lemma BridgeDies<N>(n: Names<N>)
    requires Different(n)
    ensures var w, t, rank := Bridge(n), BridgeLists(n), BridgeRank(n);
            && {n.a, n.b, n.c} <= Ids(w) && Leaves(w, t, n.c, rank) && {n.a, n.b} !! Lasting(w, t, n.c, rank)
            && TreeIds(w, n.c) == Ids(w) && !IsHandle(w, n.a) && !IsHandle(w, n.b)
  {
    var w, t, rank := Bridge(n), BridgeLists(n), BridgeRank(n);
    BridgeFacts(n);
    BridgeLeaves(n);
    assert !Lives(w, t, n.c, rank, n.a);
    assert !Lives(w, t, n.c, rank, n.b);
    hide Leaves, Lives;
  }

  /** The handle to `b` is below `c`, like `b` itself, and everything goes. */
  lemma BridgeGoes<N>(n: Names<N>)
    requires Different(n)
    ensures var w, t := Bridge(n), BridgeLists(n);
            && Good(w, t) && n.b in Ids(w.kids) && n.h in RefsOf(t, n.b) && n.c in Ids(w) && n.h in TreeIds(w, n.c)
            && TryFree(w, t, n.c).Freed? && TryFree(w, t, n.c).w == Nil
  {
    var w, t, rank := Bridge(n), BridgeLists(n), BridgeRank(n);
    BridgeFacts(n);
    BridgeGood(n);
    BridgeDies(n);
    GoodRests(w, t);
    NotBlind(w, t, n.c);
    hide Leaves, AtRest, TryFree, Lasting;
    Finish(w, t, n.c, rank);
    TryGood(w, t, n.c);
    TryFirst(w, t, n.c);
    Legacy(w, t, n.c, rank, n.a);
    Legacy(w, t, n.c, rank, n.b);
    assert n.h !in Ids(TryFree(w, t, n.c).w);
  }
}
