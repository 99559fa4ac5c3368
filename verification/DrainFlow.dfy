/** When all references to what is below a chunk come from outside its tree, freeing it is the loop of `Flows`. */
module DrainFlow {
  import opened Forests
  import opened Transfers
  import opened Releases
  import opened RefMaps
  import opened Flows
  import opened FlowFacts
  import opened FlowFrames
  import opened Ownership
  import opened Owners
  import opened Aftermaths
  import S = Stacks
  import F = DrainFacts
  import D = Drains

  /** The old links of a chunk with children `k` lead to `par`: through its old predecessor, as long as it is there. */
  ghost predicate Stale<N>(k: Forest<N>, rest: Forest<N>, tie: Tie<N>, par: Option<N>) {
    match tie
    case Tied => false
    case Loose(None, parent) => parent == par
    case Loose(Some(s), _) => s !in Ids(k) && (s in Ids(rest) ==> ParentOf(rest, s) == par)
  }

  ghost predicate Unnamed<N>(t: RefMap<N>, c: N) {
    forall x :: x in t ==> c !in t[x]
  }

  /** The state of the loop. */
  ghost predicate Ready<N>(c: N, i: Info<N>, k: Forest<N>, rest: Forest<N>, par: Option<N>, t: RefMap<N>) {
    && Inv(k, Yard(Nil, rest, t), Under(par)) && c !in Ids(k) && c !in Ids(rest)
    && i.tie.Loose? && i.tie.prev != Some(c) && Stale(k, rest, i.tie, par) && Unnamed(t, c)
  }

  /** The state after one round. */
  lemma AfterRound<N>(c: N, i: Info<N>, k: Forest<N>, rest: Forest<N>, par: Option<N>, t: RefMap<N>)
    requires k.Cons? && Ready(c, i, k, rest, par, t)
    ensures var r := Round(k, Yard(Nil, rest, t), Under(par));
            r.1.list == Nil && Ready(c, i, r.0, r.1.rest, par, r.1.refs)
  {
    var s := Yard(Nil, rest, t);
    var r := Round(k, s, Under(par));
    RoundKept(k, s, Under(par));
    assert r.1.list == Nil;
    assert All(k, s) == Ids(k) + Ids(rest);
    forall x | x in r.1.refs ensures c !in r.1.refs[x] { PurgedMember(t, Lost(k, s, r.0, r.1), x, c); }
  }

  lemma NestedInv<N>(k: Forest<N>, s: Yard<N>, c: N, i: Info<N>)
    requires Inv(k, s, Front) && c !in All(k, s) && Unnamed(s.refs, c)
    ensures Inv(k, Nested(s, c, i), Under(Some(c)))
  {
    var n := Nested(s, c, i);
    assert All(k, n) == All(k, s) + {c};
    assert Honest(k, n) by {
      forall x, z | x in n.refs && z in RefsOf(n.refs, x) && z in All(k, n) ensures InfoAt(k, n, z).des == Handle(x) {
        assert z in All(k, s) && InfoAt(k, n, z) == InfoAt(k, s, z);
      }
    }
    assert Held(k, n) by {
      forall x, h | x in Ids(k) + Ids(n.list) && h in RefsOf(n.refs, x) ensures Hold(n, x, h) {
        assert x in Ids(k) + Ids(s.list) && Hold(s, x, h);
      }
    }
  }

  /** The heap as the loop sees it. */
  lemma InLoop<N>(c: N, i: Info<N>, k: Forest<N>, rest: Forest<N>)
    requires k.Cons? && Distinct(Cons(c, i, k, rest))
    ensures var w := Cons(c, i, k, rest);
            && k.c in Ids(w) && Find(w, k.c) == k && ParentOf(w, k.c) == Some(c) && PrevOf(w, k.c) == None
            && Cut(w, k.c) == Cons(c, i, k.next, rest)
  {
    assert Distinct(k) && k.c in Ids(k) && k.c !in Ids(rest) && k.c != c;
    assert ParentIn(k, Some(c), k.c) == Some(c) && PrevIn(k, None, k.c) == None;
    CutAbsent(rest, k.c);
    assert Cut(k, k.c) == k.next;
  }

  /** The call ended with the forest and the lists of `y`. */
  ghost predicate Same<N>(r: D.Result<N>, y: Yard<N>) {
    r.Freed? && r.w == y.rest && r.t == y.refs
  }

  /** Nothing that stands in its list together with all that is above it is below a chunk that is being freed. */
  lemma {:induction false} GripOut<N>(f: Forest<N>, h: N)
    requires Gripped(f, h)
    ensures !D.Covered(f, h)
  {
    GripFind(f, h);
    if f.c != h && h !in Ids(f.kids) { GripOut(f.next, h); }
  }

  // ---------- one round ----------

  lemma SettledUnder<N>(c: N, i: Info<N>, k: Forest<N>, rest: Forest<N>, o: Option<N>)
    requires k.Cons? && Distinct(Cons(c, i, k, rest)) && (o.Some? ==> o.value in Ids(rest))
    ensures k.c in Ids(Cons(c, i, k, rest))
    ensures D.Settled(Cons(c, i, k, rest), k.c, o) == Cons(c, i, k.next, Hang(rest, o, k.c, k.info, k.kids))
  {
    InLoop(c, i, k, rest);
    if o.Some? { GraftAbsent(k.next, o.value, k.c, k.info, k.kids); }
  }

  /** The code is about to read the old predecessor, and that is gone. */
  ghost predicate Missing<N>(i: Info<N>, k: Forest<N>, s: Yard<N>) {
    i.tie.Loose? && Asks(k, s) && i.tie.prev.Some? && i.tie.prev.value !in Ids(s.rest)
  }

  /** What the loop does with the first child, and what `Round` says. */
  ghost predicate TurnAgrees<N>(c: N, i: Info<N>, k: Forest<N>, rest: Forest<N>, par: Option<N>, t: RefMap<N>)
    requires k.Cons?
  {
    var s, y := Yard(Nil, rest, t), D.Turn(c, i, k, rest, t);
    var r := Round(k, s, Under(par));
    if Missing(i, k, s) then y.Blind? else Same(y, Yard(Nil, Cons(c, i, r.0, r.1.rest), r.1.refs))
  }

  /** A child stays: where it goes. */
  lemma TurnKept<N>(c: N, i: Info<N>, k: Forest<N>, rest: Forest<N>, par: Option<N>, t: RefMap<N>, v: Forest<N>,
                    u: RefMap<N>)
    requires k.Cons? && Ready(c, i, k, rest, par, t) && !Missing(i, k, Yard(Nil, rest, t))
    requires k.c in Ids(Cons(c, i, k, rest))
    requires D.AsksParent(Cons(c, i, k, rest), t, k) == Asks(k, Yard(Nil, rest, t))
    requires var r, q := D.TryFree(Cons(c, i, k, rest), t, k.c), D.Holder(Cons(c, i, k, rest), t, k.c);
             && r.Kept? && r.w == Cons(c, i, k, v) && r.t == u && Distinct(Cons(c, i, k, v))
             && if q.Some? then q.value in Ids(v)
                else Asks(k, Yard(Nil, rest, t)) && (par.Some? ==> par.value in Ids(v))
    ensures var q := D.Holder(Cons(c, i, k, rest), t, k.c);
            var o := if q.Some? then q else par;
            Same(D.Turn(c, i, k, rest, t), Yard(Nil, Cons(c, i, k.next, Hang(v, o, k.c, k.info, k.kids)), u))
  {
    var w := Cons(c, i, k, rest);
    var q := D.Holder(w, t, k.c);
    var o := if q.Some? then q else par;
    InLoop(c, i, k, rest);
    InLoop(c, i, k, v);
    SettledUnder(c, i, k, v, o);
    assert D.NewParent(w, t, i, k.c) == o;
    assert o.Some? ==> o.value in Ids(v) && o.value !in Ids(k);
    hide Ready, Inv, D.TryFree, D.Settled, D.NewParent, D.AsksParent, Asks;
  }

  /** The newest handle of a child. */
  lemma HandleOut<N>(c: N, i: Info<N>, k: Forest<N>, rest: Forest<N>, par: Option<N>, t: RefMap<N>)
    requires k.Cons? && Ready(c, i, k, rest, par, t) && RefsOf(t, k.c) != []
    ensures var w, h, o := Cons(c, i, k, rest), RefsOf(t, k.c)[0], ParentOf(rest, RefsOf(t, k.c)[0]);
            && h in Ids(rest) && k.c in Ids(w) && h !in TreeIds(w, k.c) && !D.Covered(w, h)
            && D.Holder(w, t, k.c) == o && Cut(w, h) == Cons(c, i, k, Cut(rest, h))
            && Distinct(Cut(w, h)) && Count(Cut(w, h)) < Count(w)
            && (o.Some? ==> o.value in Ids(Cut(rest, h))) && (par.Some? ==> par.value in Ids(Cut(rest, h)))
  {
    var s, h := Yard(Nil, rest, t), RefsOf(t, k.c)[0];
    assert Hold(s, k.c, h);
    InLoop(c, i, k, rest);
    GripOut(rest, h);
    GripFind(rest, h);
    CutAbsent(k, h);
    ShedIds(rest, h);
    S.CountCut(rest, h);
    if ParentOf(rest, h).Some? { HolderStays(k, s, Under(par), h); }
    assert k.c in Ids(k) + Ids(s.list);
  }

  lemma SameAsks<N>(c: N, i: Info<N>, k: Forest<N>, rest: Forest<N>, par: Option<N>, t: RefMap<N>)
    requires k.Cons? && Ready(c, i, k, rest, par, t)
    ensures k.c in Ids(Cons(c, i, k, rest)) && D.AsksParent(Cons(c, i, k, rest), t, k) == Asks(k, Yard(Nil, rest, t))
    ensures D.AsksParent(Cons(c, i, k, rest), t, k) && !D.SeesOwn(Cons(c, i, k, rest), i) <==>
              Missing(i, k, Yard(Nil, rest, t))
  {
    if RefsOf(t, k.c) != [] { HandleOut(c, i, k, rest, par, t); }
  }

  lemma TurnLeave<N>(c: N, i: Info<N>, k: Forest<N>, rest: Forest<N>, par: Option<N>, t: RefMap<N>)
    requires k.Cons? && Ready(c, i, k, rest, par, t) && RefsOf(t, k.c) != []
    ensures TurnAgrees(c, i, k, rest, par, t)
  {
    SameAsks(c, i, k, rest, par, t);
    HandleOut(c, i, k, rest, par, t);
    InLoop(c, i, k, rest);
    var h := RefsOf(t, k.c)[0];
    InLoop(c, i, k, Cut(rest, h));
    if !Missing(i, k, Yard(Nil, rest, t)) { TurnKept(c, i, k, rest, par, t, Cut(rest, h), Purged(t, {h})); }
    hide Ready, Inv, D.AsksParent;
  }

  lemma TurnRefuse<N>(c: N, i: Info<N>, k: Forest<N>, rest: Forest<N>, par: Option<N>, t: RefMap<N>)
    requires k.Cons? && Ready(c, i, k, rest, par, t) && RefsOf(t, k.c) == [] && Refusing(k.info)
    ensures TurnAgrees(c, i, k, rest, par, t)
  {
    SameAsks(c, i, k, rest, par, t);
    InLoop(c, i, k, rest);
    if !Missing(i, k, Yard(Nil, rest, t)) { TurnKept(c, i, k, rest, par, t, rest, t); }
    hide Ready, Inv, D.AsksParent;
  }

  /** A child that is freed: its own loop. */
  lemma TurnFree<N>(c: N, i: Info<N>, k: Forest<N>, rest: Forest<N>, par: Option<N>, t: RefMap<N>)
    requires k.Cons? && Ready(c, i, k, rest, par, t) && RefsOf(t, k.c) == [] && !Refusing(k.info)
    ensures TurnAgrees(c, i, k, rest, par, t)
    decreases Count(k), 0
  {
    SameAsks(c, i, k, rest, par, t);
    InLoop(c, i, k, rest);
    var w, s := Cons(c, i, k, rest), Yard(Nil, rest, t);
    var n := Inner(k, s);
    InnerReady(c, i, k, rest, par, t);
    SeesNone(k.kids, Nested(n, c, i), Some(c));
    DrainIs(k.c, D.Leaving(w, k.c), k.kids, Cons(c, i, k.next, rest), Some(c), Purged(t, {k.c}));
    FlowInside(k.kids, n, c, i);
    assert Nested(n, c, i) == Yard(Nil, Cons(c, i, k.next, rest), Purged(t, {k.c}));
    assert D.TryFree(w, t, k.c) == D.Drain(k.c, D.Leaving(w, k.c), k.kids, Cons(c, i, k.next, rest), Purged(t, {k.c}));
    assert D.Leaving(w, k.c).tie.prev == None;
    hide Ready, Inv, D.AsksParent;
  }

  lemma InnerReady<N>(c: N, i: Info<N>, k: Forest<N>, rest: Forest<N>, par: Option<N>, t: RefMap<N>)
    requires k.Cons? && Ready(c, i, k, rest, par, t)
    ensures var w, n := Cons(c, i, k, rest), Inner(k, Yard(Nil, rest, t));
            && k.c in Ids(w)
            && Ready(k.c, D.Leaving(w, k.c), k.kids, Cons(c, i, k.next, rest), Some(c), Purged(t, {k.c}))
            && Inv(k.kids, n, Front) && c !in All(k.kids, n)
  {
    var s := Yard(Nil, rest, t);
    InLoop(c, i, k, rest);
    InnerInv(k, s, Under(par));
    var n := Inner(k, s);
    forall x | x in n.refs ensures c !in n.refs[x] && k.c !in n.refs[x] {
      PurgedMember(t, {k.c}, x, c);
      PurgedMember(t, {k.c}, x, k.c);
    }
    NestedInv(k.kids, n, c, i);
  }

  lemma TurnIs<N>(c: N, i: Info<N>, k: Forest<N>, rest: Forest<N>, par: Option<N>, t: RefMap<N>)
    requires k.Cons? && Ready(c, i, k, rest, par, t)
    ensures TurnAgrees(c, i, k, rest, par, t)
    decreases Count(k), 1
  {
    if RefsOf(t, k.c) != [] {
      TurnLeave(c, i, k, rest, par, t);
    } else if Refusing(k.info) {
      TurnRefuse(c, i, k, rest, par, t);
    } else {
      TurnFree(c, i, k, rest, par, t);
    }
  }

  lemma RoundLess<N>(c: N, i: Info<N>, k: Forest<N>, rest: Forest<N>, par: Option<N>, t: RefMap<N>)
    requires k.Cons? && Ready(c, i, k, rest, par, t)
    ensures var r := Round(k, Yard(Nil, rest, t), Under(par)); D.Fewer(c, i, k, rest, Cons(c, i, r.0, r.1.rest))
  {
    var s := Yard(Nil, rest, t);
    var r := Round(k, s, Under(par));
    RoundKept(k, s, Under(par));
    var a, b := Cons(c, i, k, rest), Cons(c, i, r.0, r.1.rest);
    assert Ids(b) <= Ids(a) by { assert All(r.0, r.1) <= All(k, s); }
    F.CountIds(a);
    F.CountIds(b);
    Smaller(Ids(b), Ids(a));
  }

  lemma Smaller<N>(a: set<N>, b: set<N>)
    requires a <= b
    ensures |a| <= |b|
  {
    assert b == a + (b - a);
  }

  /** The loop ends as `Flow` says if the old predecessor is there whenever it is read; otherwise it reads it when it is
      gone. */
  lemma DrainIs<N>(c: N, i: Info<N>, k: Forest<N>, rest: Forest<N>, par: Option<N>, t: RefMap<N>)
    requires Ready(c, i, k, rest, par, t)
    ensures var s, y := Yard(Nil, rest, t), D.Drain(c, i, k, rest, t);
            if Sees(k, s, par, i.tie.prev) then Same(y, Flow(k, s, Under(par))) else y.Blind?
    decreases Count(k), 2
  {
    if k.Cons? {
      var s := Yard(Nil, rest, t);
      var r := Round(k, s, Under(par));
      TurnIs(c, i, k, rest, par, t);
      AfterRound(c, i, k, rest, par, t);
      RoundLess(c, i, k, rest, par, t);
      DrainIs(c, i, r.0, r.1.rest, par, r.1.refs);
    }
  }

  // ---------- the whole call ----------

  lemma StartReady<N>(w: Forest<N>, t: RefMap<N>, c: N)
    requires CanGo(w, t, c)
    ensures Ready(c, D.Leaving(w, c), Find(w, c).kids, Cut(w, c), ParentOf(w, c), Purged(t, {c}))
  {
    StartInv(w, t, c);
    TreeFacts(w, c);
    CutFacts(w, c);
    S.PrevParent(w, None, None, c);
    var prev := PrevOf(w, c);
    if prev.Some? && prev.value in Ids(Cut(w, c)) { CutParent(w, None, c, prev.value); }
    forall x | x in Purged(t, {c}) ensures c !in Purged(t, {c})[x] { PurgedMember(t, {c}, x, c); }
    hide Inv, Outside;
  }

  /** When all references to what is below `c` come from outside its tree, the call ends, and ends as `Aftermath` says,
      if and only if the old predecessor is there whenever it is asked for the former parent. */
  lemma TryIs<N>(w: Forest<N>, t: RefMap<N>, c: N)
    requires CanGo(w, t, c) && !Refusing(Find(w, c).info)
    ensures var r := D.TryFree(w, t, c);
            if Sees(Find(w, c).kids, YardOf(w, t, c), ParentOf(w, c), PrevOf(w, c)) then Same(r, Aftermath(w, t, c))
            else r.Blind?
  {
    StartReady(w, t, c);
    S.CountCut(w, c);
    DrainIs(c, D.Leaving(w, c), Find(w, c).kids, Cut(w, c), ParentOf(w, c), Purged(t, {c}));
    hide Ready, Outside;
  }
}
