/**
 Freeing a chunk when all references to what is below it come from outside its tree: which chunks go, where the others
 end up, and whom they belong to.
 */
module Aftermaths {
  import opened Forests
  import opened Transfers
  import opened Releases
  import opened RefMaps
  import opened Flows
  import opened FlowFacts
  import opened Fates
  import opened Ownership
  import opened Owners

  /** The references to what is below `c` come from outside the tree of `c`. */
  ghost predicate Outside<N>(w: Forest<N>, t: RefMap<N>, c: N)
    requires c in Ids(w)
  {
    forall x, h :: x in Ids(Find(w, c).kids) && h in RefsOf(t, x) ==> h !in TreeIds(w, c)
  }

  ghost predicate CanGo<N>(w: Forest<N>, t: RefMap<N>, c: N) {
    Good(w, t) && c in Ids(w) && RefsOf(t, c) == [] && Outside(w, t, c)
  }

  // ---------- the state before the loop ----------

  lemma {:induction false} TidyGrip<N>(f: Forest<N>, h: N)
    requires Tidy(f) && h in Ids(f) && IsHandle(f, h)
    ensures Gripped(f, h)
  {
    if f.c != h {
      if h in Ids(f.kids) { TidyGrip(f.kids, h); } else { TidyGrip(f.next, h); }
    }
  }

  lemma PieceInfo<N>(w: Forest<N>, t: RefMap<N>, c: N, z: N)
    requires Distinct(w) && c in Ids(w) && z in Ids(w) && z != c
    ensures z in All(Find(w, c).kids, YardOf(w, t, c)) && InfoAt(Find(w, c).kids, YardOf(w, t, c), z) == Find(w, z).info
  {
    TreeFacts(w, c);
    CutFacts(w, c);
    if z in Ids(Find(w, c).kids) { FindInTree(w, c, z); } else { CutInfo(w, c, z); }
  }

  lemma StartApart<N>(w: Forest<N>, t: RefMap<N>, c: N)
    requires Distinct(w) && Tidy(w) && c in Ids(w)
    ensures Apart(Find(w, c).kids, YardOf(w, t, c)) && Calm(Find(w, c).kids)
    ensures All(Find(w, c).kids, YardOf(w, t, c)) == Ids(w) - {c}
  {
    TreeFacts(w, c);
    CutFacts(w, c);
    TidyTree(w, c);
    TidyCalm(Find(w, c).kids);
  }

  lemma StartHonest<N>(w: Forest<N>, t: RefMap<N>, c: N)
    requires CanGo(w, t, c)
    ensures Honest(Find(w, c).kids, YardOf(w, t, c)) && NoDups(YardOf(w, t, c).refs)
  {
    var k, s := Find(w, c).kids, YardOf(w, t, c);
    PurgedNoDup(t, {c});
    StartApart(w, t, c);
    forall x, z | x in s.refs && z in RefsOf(s.refs, x) && z in All(k, s) ensures InfoAt(k, s, z).des == Handle(x) {
      PurgedMember(t, {c}, x, z);
      PieceInfo(w, t, c, z);
    }
  }

  lemma StartHeld<N>(w: Forest<N>, t: RefMap<N>, c: N, x: N, h: N)
    requires CanGo(w, t, c) && x in Ids(Find(w, c).kids) && h in RefsOf(YardOf(w, t, c).refs, x)
    ensures Hold(YardOf(w, t, c), x, h)
  {
    TreeFacts(w, c);
    CutFacts(w, c);
    PurgedMember(t, {c}, x, h);
    assert x in t && h in t[x] && h in Ids(Cut(w, c)) && IsHandle(w, h) && Find(w, h).info.des == Handle(x)
           && t[h] == [];
    hide Listed, Filed, NoDup, Outside;
    CutInfo(w, c, h);
    TidyCut(w, c);
    TidyGrip(Cut(w, c), h);
    PurgedSame(t, {c}, h);
  }

  lemma StartInv<N>(w: Forest<N>, t: RefMap<N>, c: N)
    requires CanGo(w, t, c)
    ensures Inv(Find(w, c).kids, YardOf(w, t, c), Under(ParentOf(w, c)))
  {
    var k, s := Find(w, c).kids, YardOf(w, t, c);
    StartApart(w, t, c);
    StartHonest(w, t, c);
    assert Held(k, s) by {
      forall x, h | x in Ids(k) + Ids(s.list)
          && h in RefsOf(s.refs, x) ensures Hold(s, x, h) { StartHeld(w, t, c, x, h); }
    }
    assert DestOk(k, s, Under(ParentOf(w, c))) by {
      ParentElsewhere(w, None, c);
      ParentNoHandle(w, None, c);
      if ParentOf(w, c).Some? {
        var p := ParentOf(w, c).value;
        CutInfo(w, c, p);
        forall x | x in Ids(k) + Ids(s.list) ensures p !in RefsOf(s.refs, x) {
          assert p in RefsOf(s.refs, x) ==> Hold(s, x, p);
        }
      }
    }
  }

  // ---------- tidiness ----------

  ghost predicate Neat<N>(k: Forest<N>, s: Yard<N>, to: Dest<N>) {
    && Tidy(k) && Tidy(s.list) && Tidy(s.rest)
    && (to.Under? && to.par.Some? ==> to.par.value in Ids(s.rest) && !IsHandle(s.rest, to.par.value))
  }

  lemma LeaveNeat<N>(k: Forest<N>, s: Yard<N>, to: Dest<N>, h: N)
    requires k.Cons? && Inv(k, s, to) && Neat(k, s, to) && h in RefsOf(s.refs, k.c)
    ensures Neat(k.next, Leave(Shed(s, h), to, k, ParentOf(s.rest, h)), to)
  {
    var m, q := Shed(s, h), ParentOf(s.rest, h);
    ShedKept(k, s, h, to);
    ShedInv(k, s, h, to);
    TidyCut(s.rest, h);
    assert Hold(s, k.c, h);
    ShedIds(s.rest, h);
    assert Neat(k, m, to) by {
      if to.Under? && to.par.Some? { assert k.c in Ids(k) + Ids(s.list); ShedRest(s.rest, h, to.par.value); }
    }
    if q.None? {
      RiseNeat(k, m, to);
    } else {
      HolderStays(k, s, to, h);
      ParentNoHandle(s.rest, None, h);
      ShedRest(s.rest, h, q.value);
      TidyGraft(m.rest, q.value, k.c, k.info, k.kids);
      if to.Under? && to.par.Some? { HungRest(m.rest, q, k, to.par.value); }
    }
  }

  lemma RiseNeat<N>(k: Forest<N>, s: Yard<N>, to: Dest<N>)
    requires k.Cons? && Inv(k, s, to) && Neat(k, s, to)
    ensures Neat(k.next, Rise(s, to, k), to)
  {
    if to.Under? && to.par.Some? {
      TidyGraft(s.rest, to.par.value, k.c, k.info, k.kids);
      HungRest(s.rest, to.par, k, to.par.value);
    }
  }

  lemma RoundNeat<N>(k: Forest<N>, s: Yard<N>, to: Dest<N>)
    requires k.Cons? && Inv(k, s, to) && Neat(k, s, to)
    ensures Neat(Round(k, s, to).0, Round(k, s, to).1, to)
    decreases Count(k), 0
  {
    var hs, r := RefsOf(s.refs, k.c), Round(k, s, to);
    if hs != [] {
      LeaveNeat(k, s, to, hs[0]);
    } else if Refusing(k.info) {
      RiseNeat(k, s, to);
    } else {
      InnerInv(k, s, to);
      FlowNeat(k.kids, Inner(k, s), Front);
      RoundKept(k, s, to);
      if to.Under? && to.par.Some? { assert InfoAt(r.0, r.1, to.par.value) == InfoAt(k, s, to.par.value); }
    }
  }

  lemma FlowNeat<N>(k: Forest<N>, s: Yard<N>, to: Dest<N>)
    requires Inv(k, s, to) && Neat(k, s, to)
    ensures Neat(Nil, Flow(k, s, to), to)
    decreases Count(k), 1
  {
    if k.Cons? {
      RoundKept(k, s, to);
      RoundNeat(k, s, to);
      FlowNeat(Round(k, s, to).0, Round(k, s, to).1, to);
    }
  }

  lemma {:induction false} FlowList<N>(k: Forest<N>, s: Yard<N>, par: Option<N>)
    ensures Flow(k, s, Under(par)).list == s.list
    decreases Count(k)
  {
    if k.Cons? { FlowList(Round(k, s, Under(par)).0, Round(k, s, Under(par)).1, par); }
  }

  // ---------- afterwards ----------

  /** Everything that is gone after `c` has been freed. */
  ghost function GoneWith<N>(w: Forest<N>, t: RefMap<N>, c: N): set<N>
    requires c in Ids(w)
  {
    Ids(w) - Ids(Aftermath(w, t, c).rest)
  }

  lemma GoneSets<N>(w: Forest<N>, k: Forest<N>, s: Yard<N>, y: Yard<N>, c: N)
    requires All(k, s) == Ids(w) - {c} && All(Nil, y) <= All(k, s) && c in Ids(w) && y.list == Nil
    ensures Ids(w) - Ids(y.rest) == {c} + Lost(k, s, Nil, y) && Ids(y.rest) <= Ids(w) && c !in Ids(y.rest)
  {
  }

  lemma AftermathKept<N>(w: Forest<N>, t: RefMap<N>, c: N)
    requires CanGo(w, t, c)
    ensures var k, s, y := Find(w, c).kids, YardOf(w, t, c), Aftermath(w, t, c);
            && Inv(k, s, Under(ParentOf(w, c))) && Kept(k, s, Nil, y) && y.list == Nil && Distinct(y.rest)
            && GoneWith(w, t, c) == {c} + Lost(k, s, Nil, y) && Ids(y.rest) <= Ids(w) && c !in Ids(y.rest)
  {
    var k, s := Find(w, c).kids, YardOf(w, t, c);
    StartInv(w, t, c);
    StartApart(w, t, c);
    FlowKept(k, s, Under(ParentOf(w, c)));
    FlowList(k, s, ParentOf(w, c));
    GoneSets(w, k, s, Aftermath(w, t, c), c);
    hide Kept, CanGo, Lost, KeptGrips, Honest, Held, DestOk, NoDups, Aftermath, YardOf;
  }

  /** Freeing keeps the forest tidy and the lists right; the lists forget exactly what is gone. */
  lemma AftermathGood<N>(w: Forest<N>, t: RefMap<N>, c: N)
    requires CanGo(w, t, c)
    ensures var y := Aftermath(w, t, c);
            Good(y.rest, y.refs) && y.refs == Purged(t, GoneWith(w, t, c)) && Ids(y.rest) <= Ids(w) - {c}
            && Thinned(w, t, y.rest, GoneWith(w, t, c))
  {
    var k, s, y, gone := Find(w, c).kids, YardOf(w, t, c), Aftermath(w, t, c), GoneWith(w, t, c);
    AftermathKept(w, t, c);
    AftermathTidy(w, t, c);
    var lost := Lost(k, s, Nil, y);
    PurgedTwice(t, {c}, lost);
    assert Thinned(w, t, y.rest, gone) by {
      forall z | z in Ids(y.rest) ensures Find(y.rest, z).info.des == Find(w, z).info.des {
        PieceInfo(w, t, c, z);
        assert InfoAt(Nil, y, z) == InfoAt(k, s, z);
      }
      forall x, h | x in gone && h in RefsOf(t, x) ensures h in gone { PurgedMember(t, {c}, x, h); }
    }
    RefsPurged(w, t, y.rest, gone);
  }

  lemma AftermathTidy<N>(w: Forest<N>, t: RefMap<N>, c: N)
    requires CanGo(w, t, c)
    ensures Tidy(Aftermath(w, t, c).rest)
  {
    var k, s := Find(w, c).kids, YardOf(w, t, c);
    StartInv(w, t, c);
    TidyTree(w, c);
    TidyCut(w, c);
    ParentElsewhere(w, None, c);
    ParentNoHandle(w, None, c);
    CutFacts(w, c);
    if ParentOf(w, c).Some? { CutInfo(w, c, ParentOf(w, c).value); }
    FlowNeat(k, s, Under(ParentOf(w, c)));
  }

  /** What has become of `x`. */
  ghost function EndIn<N>(w: Forest<N>, t: RefMap<N>, x: N): End<N> {
    if x in Ids(w) then Lives(ParentOf(w, x), RefsOf(t, x)) else Dead
  }

  lemma StartAgree<N>(w: Forest<N>, t: RefMap<N>, c: N, x: N)
    requires CanGo(w, t, c) && x in Ids(Find(w, c).kids)
    ensures Agree(x, t, w, YardOf(w, t, c).refs, YardOf(w, t, c).rest)
  {
    TreeFacts(w, c);
    CutFacts(w, c);
    PurgedSame(t, {c}, x);
    forall h | h in RefsOf(t, x) ensures ParentOf(Cut(w, c), h) == ParentOf(w, h) { CutParent(w, None, c, h); }
  }

  /** Everything below `c` meets the fate that its handles, the references and the refusals say; survivors keep their
      fields. */
  lemma AftermathEnd<N>(w: Forest<N>, t: RefMap<N>, c: N, x: N)
    requires CanGo(w, t, c) && x in Ids(Find(w, c).kids)
    ensures var y := Aftermath(w, t, c);
            && EndIn(y.rest, y.refs, x) == FateIn(Find(w, c).kids, t, w, ParentOf(w, c), 1, x)
            && (x in Ids(y.rest) ==> x in Ids(w) && Find(y.rest, x).info == Find(w, x).info)
  {
    var k, s, y := Find(w, c).kids, YardOf(w, t, c), Aftermath(w, t, c);
    AftermathKept(w, t, c);
    forall z | z in Ids(k) ensures Agree(z, t, w, s.refs, s.rest) { StartAgree(w, t, c, z); }
    FateSame(k, t, w, s.refs, s.rest, ParentOf(w, c), 1, x);
    FlowOutlook(k, s, Under(ParentOf(w, c)), ParentOf(w, c), 1, x);
    TreeFacts(w, c);
    PieceInfo(w, t, c, x);
    if x in Ids(y.rest) { assert InfoAt(Nil, y, x) == InfoAt(k, s, x); }
  }

  /** Outside the tree of `c` only handles to chunks below `c` go; everything else keeps its parent and its fields. */
  lemma AftermathElse<N>(w: Forest<N>, t: RefMap<N>, c: N, x: N)
    requires CanGo(w, t, c) && x in Ids(w) - TreeIds(w, c)
    ensures var y := Aftermath(w, t, c);
            if x in Ids(y.rest) then ParentOf(y.rest, x) == ParentOf(w, x) && Find(y.rest, x).info == Find(w, x).info
            else Grips(Find(w, c).kids, t, x)
  {
    var k, s, y := Find(w, c).kids, YardOf(w, t, c), Aftermath(w, t, c);
    AftermathKept(w, t, c);
    TreeFacts(w, c);
    CutFacts(w, c);
    PieceInfo(w, t, c, x);
    if x in Ids(y.rest) {
      CutParent(w, None, c, x);
      assert InfoAt(Nil, y, x) == InfoAt(k, s, x);
    } else {
      var z :| z in Ids(k) && x in RefsOf(s.refs, z);
      PurgedMember(t, {c}, z, x);
    }
  }
}
