/** What every round of the loop keeps: no chunk is lost except those that go, and the lists forget exactly those. */
module FlowFacts {
  import opened Forests
  import opened Transfers
  import opened Releases
  import opened RefMaps
  import opened Flows

  ghost function All<N>(k: Forest<N>, s: Yard<N>): set<N> {
    Ids(k) + Ids(s.list) + Ids(s.rest)
  }

  ghost function InfoAt<N>(k: Forest<N>, s: Yard<N>, z: N): Info<N>
    requires z in All(k, s)
  {
    if z in Ids(k) then Find(k, z).info else if z in Ids(s.list) then Find(s.list, z).info else Find(s.rest, z).info
  }

  // ---------- the state of the loop ----------

  ghost predicate Apart<N>(k: Forest<N>, s: Yard<N>) {
    && Distinct(k) && Distinct(s.list) && Distinct(s.rest)
    && Ids(k) !! Ids(s.list) && Ids(k) !! Ids(s.rest) && Ids(s.list) !! Ids(s.rest)
  }

  /** `h` is a handle to `x`, outside, that nobody refers to. */
  ghost predicate Hold<N>(s: Yard<N>, x: N, h: N) {
    h in Ids(s.rest) && Gripped(s.rest, h) && RefsOf(s.refs, h) == [] && Find(s.rest, h).info.des == Handle(x)
  }

  /** All references to the children and to what is below them come from outside. */
  ghost predicate Held<N>(k: Forest<N>, s: Yard<N>) {
    forall x, h :: x in Ids(k) + Ids(s.list) && h in RefsOf(s.refs, x) ==> Hold(s, x, h)
  }

  /** Chunks that are listed are handles to the chunk they are listed for. */
  ghost predicate Honest<N>(k: Forest<N>, s: Yard<N>) {
    forall x, z :: x in s.refs && z in RefsOf(s.refs, x) && z in All(k, s) ==> InfoAt(k, s, z).des == Handle(x)
  }

  ghost predicate NoDups<N>(t: RefMap<N>) {
    forall x :: x in t ==> NoDup(t[x])
  }

  ghost predicate DestOk<N>(k: Forest<N>, s: Yard<N>, to: Dest<N>) {
    to.Under? && to.par.Some? ==>
      to.par.value in Ids(s.rest) && forall x :: x in Ids(k) + Ids(s.list) ==> to.par.value !in RefsOf(s.refs, x)
  }

  ghost predicate Inv<N>(k: Forest<N>, s: Yard<N>, to: Dest<N>) {
    Apart(k, s) && Calm(k) && Calm(s.list) && NoDups(s.refs) && Honest(k, s) && Held(k, s) && DestOk(k, s, to)
  }

  // ---------- from one state to a later one ----------

  ghost function Lost<N>(k: Forest<N>, s: Yard<N>, k': Forest<N>, s': Yard<N>): set<N> {
    All(k, s) - All(k', s')
  }

  /** The handles of these chunks. */
  ghost predicate Grips<N>(k: Forest<N>, t: RefMap<N>, h: N) {
    exists x :: x in Ids(k) && h in RefsOf(t, x)
  }

  ghost predicate KeptSets<N>(k: Forest<N>, s: Yard<N>, k': Forest<N>, s': Yard<N>) {
    && All(k', s') <= All(k, s) && Ids(k') <= Ids(k) && Ids(s'.list) <= Ids(k) + Ids(s.list)
    && Ids(s.list) <= Ids(s'.list)
    && (forall z :: z in Ids(s.rest) && z in All(k', s') ==> z in Ids(s'.rest))
    && (forall z :: z in Lost(k, s, k', s') && z !in Ids(k) ==> Grips(k, s.refs, z))
  }

  ghost predicate KeptRefs<N>(k: Forest<N>, s: Yard<N>, k': Forest<N>, s': Yard<N>) {
    && s'.refs == Purged(s.refs, Lost(k, s, k', s'))
    && forall x, h :: x in Lost(k, s, k', s') && h in RefsOf(s.refs, x) ==> h in Lost(k, s, k', s')
  }

  ghost predicate KeptPlaces<N>(k: Forest<N>, s: Yard<N>, k': Forest<N>, s': Yard<N>) {
    && (forall z :: z in All(k', s') && z in All(k, s) ==> InfoAt(k', s', z) == InfoAt(k, s, z))
    && (forall z :: z in Ids(s.rest) && z in Ids(s'.rest) ==> ParentOf(s'.rest, z) == ParentOf(s.rest, z))
  }

  ghost predicate KeptGrips<N>(s: Yard<N>, s': Yard<N>, to: Dest<N>) {
    forall z :: z in Ids(s.rest) && z in Ids(s'.rest) && Gripped(s.rest, z) && to != Under(Some(z)) ==>
        Gripped(s'.rest, z)
  }

  ghost predicate Kept<N>(k: Forest<N>, s: Yard<N>, k': Forest<N>, s': Yard<N>) {
    KeptSets(k, s, k', s') && KeptRefs(k, s, k', s') && KeptPlaces(k, s, k', s')
  }

  lemma KeptNone<N>(k: Forest<N>, s: Yard<N>)
    ensures Kept(k, s, k, s)
  {
    assert Lost(k, s, k, s) == {};
    PurgedNone(s.refs);
  }

  lemma GripsMore<N>(k: Forest<N>, s: Yard<N>, k': Forest<N>, s': Yard<N>, h: N)
    requires KeptSets(k, s, k', s') && KeptRefs(k, s, k', s') && Grips(k', s'.refs, h)
    ensures Grips(k, s.refs, h)
  {
    var x :| x in Ids(k') && h in RefsOf(s'.refs, x);
    PurgedMember(s.refs, Lost(k, s, k', s'), x, h);
  }

  lemma LostTwice<N>(k: Forest<N>, s: Yard<N>, l: Forest<N>, m: Yard<N>, k': Forest<N>, s': Yard<N>)
    requires All(k', s') <= All(l, m) <= All(k, s)
    ensures Lost(k, s, k', s') == Lost(k, s, l, m) + Lost(l, m, k', s')
  {
  }

  lemma KeptSetsTwice<N>(k: Forest<N>, s: Yard<N>, l: Forest<N>, m: Yard<N>, k': Forest<N>, s': Yard<N>)
    requires KeptSets(k, s, l, m) && KeptRefs(k, s, l, m) && KeptSets(l, m, k', s')
    ensures KeptSets(k, s, k', s')
  {
    LostTwice(k, s, l, m, k', s');
    forall z | z in Lost(k, s, k', s') && z !in Ids(k) ensures Grips(k, s.refs, z) {
      if z in Lost(l, m, k', s') { GripsMore(k, s, l, m, z); }
    }
  }

  lemma KeptRefsTwice<N>(k: Forest<N>, s: Yard<N>, l: Forest<N>, m: Yard<N>, k': Forest<N>, s': Yard<N>)
    requires KeptSets(k, s, l, m) && KeptRefs(k, s, l, m) && KeptSets(l, m, k', s') && KeptRefs(l, m, k', s')
    ensures KeptRefs(k, s, k', s')
  {
    var a, b := Lost(k, s, l, m), Lost(l, m, k', s');
    LostTwice(k, s, l, m, k', s');
    PurgedTwice(s.refs, a, b);
    forall x, h | x in a + b && h in RefsOf(s.refs, x) ensures h in a + b {
      if x !in a { PurgedMember(s.refs, a, x, h); }
    }
  }

  lemma KeptPlacesTwice<N>(k: Forest<N>, s: Yard<N>, l: Forest<N>, m: Yard<N>, k': Forest<N>, s': Yard<N>)
    requires KeptSets(k, s, l, m) && KeptPlaces(k, s, l, m) && KeptSets(l, m, k', s') && KeptPlaces(l, m, k', s')
    ensures KeptPlaces(k, s, k', s')
  {
  }

  lemma KeptTwice<N>(k: Forest<N>, s: Yard<N>, l: Forest<N>, m: Yard<N>, k': Forest<N>, s': Yard<N>)
    requires Kept(k, s, l, m) && Kept(l, m, k', s')
    ensures Kept(k, s, k', s')
  {
    hide KeptSets, KeptRefs, KeptPlaces;
    KeptSetsTwice(k, s, l, m, k', s');
    KeptRefsTwice(k, s, l, m, k', s');
    KeptPlacesTwice(k, s, l, m, k', s');
  }

  lemma KeptGripsTwice<N>(k: Forest<N>, s: Yard<N>, l: Forest<N>, m: Yard<N>, k': Forest<N>, s': Yard<N>, to: Dest<N>)
    requires KeptSets(k, s, l, m) && KeptSets(l, m, k', s') && KeptGrips(s, m, to) && KeptGrips(m, s', to)
    ensures KeptGrips(s, s', to)
  {
    hide Gripped;
    forall z | z in Ids(s.rest) && z in Ids(s'.rest) && Gripped(s.rest, z)
        && to != Under(Some(z)) ensures Gripped(s'.rest, z) {
      assert z in Ids(m.rest);
    }
  }

  // ---------- a handle goes ----------

  lemma ShedRest<N>(f: Forest<N>, h: N, g: N)
    requires Distinct(f) && Gripped(f, h) && g in Ids(f) && g != h
    ensures Ids(Cut(f, h)) == Ids(f) - {h} && Distinct(Cut(f, h)) && h in Ids(f)
    ensures ParentOf(Cut(f, h), g) == ParentOf(f, g) && Find(Cut(f, h), g).info == Find(f, g).info
    ensures Gripped(f, g) ==> Gripped(Cut(f, h), g)
  {
    GripFind(f, h);
    CutFacts(f, h);
    CutParent(f, None, h, g);
    CutInfo(f, h, g);
    if Gripped(f, g) { GripCut(f, h, g); }
  }

  lemma ShedIds<N>(f: Forest<N>, h: N)
    requires Distinct(f) && Gripped(f, h)
    ensures h in Ids(f) && Ids(Cut(f, h)) == Ids(f) - {h} && Distinct(Cut(f, h))
  {
    GripFind(f, h);
    CutFacts(f, h);
  }

  lemma ShedKept<N>(k: Forest<N>, s: Yard<N>, h: N, to: Dest<N>)
    requires k.Cons? && Inv(k, s, to) && h in RefsOf(s.refs, k.c)
    ensures Kept(k, s, k, Shed(s, h)) && KeptGrips(s, Shed(s, h), to)
  {
    var s' := Shed(s, h);
    assert Hold(s, k.c, h);
    ShedIds(s.rest, h);
    assert Lost(k, s, k, s') == {h};
    assert KeptSets(k, s, k, s') by { assert Grips(k, s.refs, h); }
    assert KeptPlaces(k, s, k, s') && KeptGrips(s, s', to) by {
      forall z | z in Ids(s.rest) && z != h
        ensures ParentOf(s'.rest, z) == ParentOf(s.rest, z) && Find(s'.rest, z).info == Find(s.rest, z).info
        ensures Gripped(s.rest, z) ==> Gripped(s'.rest, z)
      {
        ShedRest(s.rest, h, z);
      }
    }
  }

  /** The lists after something is gone are as honest as before. */
  lemma HonestKept<N>(k: Forest<N>, s: Yard<N>, k': Forest<N>, s': Yard<N>)
    requires Honest(k, s) && NoDups(s.refs) && Kept(k, s, k', s')
    ensures Honest(k', s') && NoDups(s'.refs)
  {
    PurgedNoDup(s.refs, Lost(k, s, k', s'));
    forall x, z | x in s'.refs && z in RefsOf(s'.refs, x)
        && z in All(k', s') ensures InfoAt(k', s', z).des == Handle(x) {
      PurgedMember(s.refs, Lost(k, s, k', s'), x, z);
    }
  }

  lemma ShedHeld<N>(k: Forest<N>, s: Yard<N>, h: N, to: Dest<N>, x: N, g: N)
    requires k.Cons? && Inv(k, s, to) && h in RefsOf(s.refs, k.c)
    requires x in Ids(k) + Ids(s.list) && g in RefsOf(Shed(s, h).refs, x)
    ensures Hold(Shed(s, h), x, g) && g in RefsOf(s.refs, x)
  {
    assert Hold(s, k.c, h);
    ShedIds(s.rest, h);
    PurgedMember(s.refs, {h}, x, g);
    ShedRest(s.rest, h, g);
  }

  lemma ShedInv<N>(k: Forest<N>, s: Yard<N>, h: N, to: Dest<N>)
    requires k.Cons? && Inv(k, s, to) && h in RefsOf(s.refs, k.c)
    ensures Inv(k, Shed(s, h), to)
  {
    var s' := Shed(s, h);
    assert Hold(s, k.c, h);
    ShedIds(s.rest, h);
    ShedKept(k, s, h, to);
    HonestKept(k, s, k, s');
    forall x, g | x in Ids(k) + Ids(s'.list) && g in RefsOf(s'.refs, x) ensures Hold(s', x, g)
        && g in RefsOf(s.refs, x) {
      ShedHeld(k, s, h, to, x, g);
    }
    assert Held(k, s');
    assert DestOk(k, s', to) by {
      if to.Under? && to.par.Some? { assert k.c in Ids(k) + Ids(s.list); }
    }
  }

  // ---------- the first child goes elsewhere ----------

  ghost predicate CanTake<N>(f: Forest<N>, o: Option<N>, k: Forest<N>) {
    k.Cons? && Distinct(f) && Distinct(k) && Ids(k) !! Ids(f) && (o.Some? ==> o.value in Ids(f))
  }

  lemma HungIds<N>(f: Forest<N>, o: Option<N>, k: Forest<N>)
    requires CanTake(f, o, k)
    ensures var g := Hang(f, o, k.c, k.info, k.kids); Ids(g) == Ids(f) + {k.c} + Ids(k.kids) && Distinct(g)
  {
    if o.Some? { GraftFacts(f, o.value, k.c, k.info, k.kids); }
  }

  lemma HungRest<N>(f: Forest<N>, o: Option<N>, k: Forest<N>, z: N)
    requires CanTake(f, o, k) && z in Ids(f)
    ensures var g := Hang(f, o, k.c, k.info, k.kids);
            z in Ids(g) && ParentOf(g, z) == ParentOf(f, z) && Find(g, z).info == Find(f, z).info
            && (Gripped(f, z) && o != Some(z) ==> Gripped(g, z))
  {
    if o.Some? {
      GraftParent(f, None, o.value, k.c, k.info, k.kids, z);
      GraftedInfo(f, o.value, k.c, k.info, k.kids, z);
      if Gripped(f, z) && o != Some(z) { GripGraft(f, o.value, k.c, k.info, k.kids, z); }
    }
  }

  lemma HungTree<N>(f: Forest<N>, o: Option<N>, k: Forest<N>, z: N)
    requires CanTake(f, o, k) && z in {k.c} + Ids(k.kids)
    ensures var g := Hang(f, o, k.c, k.info, k.kids);
            z in Ids(g) && Find(g, z).info == Find(k, z).info
            && ParentOf(g, z) == if z == k.c then o else ParentIn(k.kids, Some(k.c), z)
  {
    if o.Some? {
      GraftParent(f, None, o.value, k.c, k.info, k.kids, z);
      GraftedInfo(f, o.value, k.c, k.info, k.kids, z);
    }
  }

  ghost function Gone<N>(s: Yard<N>, o: Option<N>, k: Forest<N>): Yard<N>
    requires k.Cons?
  {
    s.(rest := Hang(s.rest, o, k.c, k.info, k.kids))
  }

  /** The first child goes below `o`, or to the top level. */
  lemma GoneKept<N>(k: Forest<N>, s: Yard<N>, o: Option<N>)
    requires k.Cons? && Apart(k, s) && (o.Some? ==> o.value in Ids(s.rest))
    ensures Kept(k, s, k.next, Gone(s, o, k)) && KeptGrips(s, Gone(s, o, k), Under(o)) && Apart(k.next, Gone(s, o, k))
  {
    var s' := Gone(s, o, k);
    HungIds(s.rest, o, k);
    assert All(k.next, s') == All(k, s);
    assert Lost(k, s, k.next, s') == {};
    PurgedNone(s.refs);
    assert KeptPlaces(k, s, k.next, s') && KeptGrips(s, s', Under(o)) by {
      forall z | z in All(k, s) ensures InfoAt(k.next, s', z) == InfoAt(k, s, z) {
        if z in Ids(s.rest) {
          HungRest(s.rest, o, k, z);
        } else if z in {k.c} + Ids(k.kids) {
          HungTree(s.rest, o, k, z);
        }
      }
      forall z | z in Ids(s.rest) ensures ParentOf(s'.rest, z) == ParentOf(s.rest, z) { HungRest(s.rest, o, k, z); }
      forall z | z in Ids(s.rest) && Gripped(s.rest, z) && o != Some(z) ensures Gripped(s'.rest, z) {
        HungRest(s.rest, o, k, z);
      }
    }
  }

  lemma GoneInv<N>(k: Forest<N>, s: Yard<N>, o: Option<N>, to: Dest<N>)
    requires k.Cons? && Inv(k, s, to) && (o.Some? ==> o.value in Ids(s.rest))
    requires o.Some? ==> forall x :: x in Ids(k.next) + Ids(s.list) ==> o.value !in RefsOf(s.refs, x)
    ensures Inv(k.next, Gone(s, o, k), to)
  {
    var s' := Gone(s, o, k);
    GoneKept(k, s, o);
    HungIds(s.rest, o, k);
    HonestKept(k, s, k.next, s');
    forall x, g | x in Ids(k.next) + Ids(s.list) && g in RefsOf(s.refs, x) ensures Hold(s', x, g) {
      assert x in Ids(k) + Ids(s.list) && Hold(s, x, g);
      HungRest(s.rest, o, k, g);
    }
    assert s'.refs == s.refs && s'.list == s.list;
    assert Held(k.next, s');
  }

  ghost function Waits<N>(s: Yard<N>, k: Forest<N>): Yard<N>
    requires k.Cons?
  {
    s.(list := Cons(k.c, k.info, k.kids, s.list))
  }

  /** The first child goes to the siblings that wait. */
  lemma WaitsKept<N>(k: Forest<N>, s: Yard<N>)
    requires k.Cons? && Apart(k, s)
    ensures Kept(k, s, k.next, Waits(s, k)) && Apart(k.next, Waits(s, k))
  {
    var s' := Waits(s, k);
    assert All(k.next, s') == All(k, s);
    assert Lost(k, s, k.next, s') == {};
    PurgedNone(s.refs);
  }

  lemma WaitsInv<N>(k: Forest<N>, s: Yard<N>, to: Dest<N>)
    requires k.Cons? && Inv(k, s, to)
    ensures Inv(k.next, Waits(s, k), to)
  {
    var s' := Waits(s, k);
    WaitsKept(k, s);
    HonestKept(k, s, k.next, s');
    assert Ids(k.next) + Ids(s'.list) == Ids(k) + Ids(s.list);
    assert s'.refs == s.refs && s'.rest == s.rest;
    assert Held(k.next, s') by {
      forall x, h | x in Ids(k.next) + Ids(s'.list)
          && h in RefsOf(s'.refs, x) ensures Hold(s', x, h) { assert Hold(s, x, h); }
    }
  }

  lemma RiseKept<N>(k: Forest<N>, s: Yard<N>, to: Dest<N>)
    requires k.Cons? && Inv(k, s, to)
    ensures Kept(k, s, k.next, Rise(s, to, k)) && KeptGrips(s, Rise(s, to, k), to) && Inv(k.next, Rise(s, to, k), to)
  {
    if to.Front? {
      WaitsKept(k, s);
      WaitsInv(k, s, to);
    } else {
      GoneKept(k, s, to.par);
      GoneInv(k, s, to.par, to);
    }
  }

  // ---------- one round, and all ----------

  lemma HolderStays<N>(k: Forest<N>, s: Yard<N>, to: Dest<N>, h: N)
    requires k.Cons? && Inv(k, s, to) && h in RefsOf(s.refs, k.c) && ParentOf(s.rest, h).Some?
    ensures var q := ParentOf(s.rest, h).value;
            q in Ids(Shed(s, h).rest) && !Gripped(s.rest, q) && forall x :: x in Ids(k) + Ids(s.list) ==>
                q !in RefsOf(s.refs, x)
  {
    assert Hold(s, k.c, h);
    ShedIds(s.rest, h);
    ParentElsewhere(s.rest, None, h);
    ParentHasKids(s.rest, None, h);
    var q := ParentOf(s.rest, h).value;
    forall x | x in Ids(k) + Ids(s.list) ensures q !in RefsOf(s.refs, x) {
      assert q in RefsOf(s.refs, x) ==> Hold(s, x, q);
    }
  }

  lemma LeaveHolder<N>(k: Forest<N>, s: Yard<N>, to: Dest<N>, h: N)
    requires k.Cons? && Inv(k, s, to) && h in RefsOf(s.refs, k.c) && ParentOf(s.rest, h).Some?
    ensures var m, q := Shed(s, h), ParentOf(s.rest, h).value;
            q in Ids(m.rest) && forall x :: x in Ids(k.next) + Ids(m.list) ==> q !in RefsOf(m.refs, x)
  {
    var m, q := Shed(s, h), ParentOf(s.rest, h).value;
    HolderStays(k, s, to, h);
    forall x | x in Ids(k.next) + Ids(m.list) ensures q !in RefsOf(m.refs, x) {
      if x in m.refs { PurgedMember(s.refs, {h}, x, q); }
    }
  }

  lemma LeaveKept<N>(k: Forest<N>, s: Yard<N>, to: Dest<N>, h: N)
    requires k.Cons? && Inv(k, s, to) && h in RefsOf(s.refs, k.c)
    ensures var s' := Leave(Shed(s, h), to, k, ParentOf(s.rest, h)); Kept(k, s, k.next, s') && Inv(k.next, s', to)
  {
    var m, q := Shed(s, h), ParentOf(s.rest, h);
    ShedKept(k, s, h, to);
    ShedInv(k, s, h, to);
    if q.None? {
      RiseKept(k, m, to);
    } else {
      LeaveHolder(k, s, to, h);
      GoneKept(k, m, q);
      GoneInv(k, m, q, to);
    }
    hide Kept, Inv;
    KeptTwice(k, s, k, m, k.next, Leave(m, to, k, q));
  }

  lemma LeaveGrips<N>(k: Forest<N>, s: Yard<N>, to: Dest<N>, h: N)
    requires k.Cons? && Inv(k, s, to) && h in RefsOf(s.refs, k.c)
    ensures KeptGrips(s, Leave(Shed(s, h), to, k, ParentOf(s.rest, h)), to)
  {
    var m, q := Shed(s, h), ParentOf(s.rest, h);
    ShedKept(k, s, h, to);
    ShedInv(k, s, h, to);
    if q.None? {
      RiseKept(k, m, to);
      KeptGripsTwice(k, s, k, m, k.next, Leave(m, to, k, q), to);
    } else {
      HolderStays(k, s, to, h);
      GoneKept(k, m, q);
      hide Inv, KeptPlaces, KeptRefs, Gripped;
      forall z | z in Ids(s.rest) && z in Ids(Gone(m, q, k).rest) && Gripped(s.rest, z) && to != Under(Some(z))
        ensures Gripped(Gone(m, q, k).rest, z)
      {
        assert z in Ids(m.rest) && q != Some(z);
      }
    }
  }

  lemma InnerInv<N>(k: Forest<N>, s: Yard<N>, to: Dest<N>)
    requires k.Cons? && Inv(k, s, to)
    ensures Inv(k.kids, Inner(k, s), Front)
  {
    var m := Inner(k, s);
    PurgedNoDup(s.refs, {k.c});
    forall x, z | x in m.refs && z in RefsOf(m.refs, x)
        && z in All(k.kids, m) ensures InfoAt(k.kids, m, z).des == Handle(x) {
      PurgedMember(s.refs, {k.c}, x, z);
      assert InfoAt(k.kids, m, z) == InfoAt(k, s, z);
    }
    forall x, h | x in Ids(k.kids) + Ids(m.list) && h in RefsOf(m.refs, x) ensures Hold(m, x, h) {
      PurgedMember(s.refs, {k.c}, x, h);
      assert x in Ids(k) + Ids(s.list) && Hold(s, x, h);
    }
  }

  /** The state after a child has been freed. */
  ghost function Outer<N>(s: Yard<N>, m: Yard<N>): Yard<N> {
    Yard(s.list, m.rest, m.refs)
  }

  ghost predicate FreedFirst<N>(k: Forest<N>, s: Yard<N>, m: Yard<N>, to: Dest<N>) {
    k.Cons? && Inv(k, s, to) && RefsOf(s.refs, k.c) == [] && Kept(k.kids, Inner(k, s), Nil, m)
        && KeptGrips(Inner(k, s), m, Front) && Inv(Nil, m, Front)
  }

  lemma FreedLost<N>(k: Forest<N>, s: Yard<N>, m: Yard<N>, to: Dest<N>)
    requires FreedFirst(k, s, m, to)
    ensures Lost(k, s, m.list, Outer(s, m)) == {k.c} + Lost(k.kids, Inner(k, s), Nil, m)
    ensures KeptSets(k, s, m.list, Outer(s, m)) && KeptRefs(k, s, m.list, Outer(s, m)) && Apart(m.list, Outer(s, m))
  {
    var i, s' := Inner(k, s), Outer(s, m);
    var lost := Lost(k.kids, i, Nil, m);
    assert All(Nil, m) == Ids(m.list) + Ids(m.rest);
    assert Lost(k, s, m.list, s') == {k.c} + lost;
    PurgedTwice(s.refs, {k.c}, lost);
    assert KeptSets(k, s, m.list, s') by {
      forall z | z in lost && z !in Ids(k) ensures Grips(k, s.refs, z) {
        var x :| x in Ids(k.kids) && z in RefsOf(i.refs, x);
        PurgedMember(s.refs, {k.c}, x, z);
      }
    }
    assert KeptRefs(k, s, m.list, s') by {
      forall x, h | x in {k.c} + lost && h in RefsOf(s.refs, x) ensures h in {k.c} + lost {
        PurgedMember(s.refs, {k.c}, x, h);
      }
    }
  }

  lemma FreedKept<N>(k: Forest<N>, s: Yard<N>, m: Yard<N>, to: Dest<N>)
    requires FreedFirst(k, s, m, to)
    ensures Kept(k, s, m.list, Outer(s, m)) && KeptGrips(s, Outer(s, m), to)
  {
    FreedLost(k, s, m, to);
    var i, s' := Inner(k, s), Outer(s, m);
    assert KeptPlaces(k, s, m.list, s') by {
      forall z | z in All(m.list, s') ensures InfoAt(m.list, s', z) == InfoAt(k, s, z) {
        if z in Ids(m.list) + Ids(m.rest) {
          assert InfoAt(Nil, m, z) == InfoAt(k.kids, i, z);
        }
      }
    }
  }

  lemma FreedInv<N>(k: Forest<N>, s: Yard<N>, m: Yard<N>, to: Dest<N>)
    requires FreedFirst(k, s, m, to)
    ensures Inv(m.list, Outer(s, m), to)
  {
    var s' := Outer(s, m);
    FreedLost(k, s, m, to);
    FreedKept(k, s, m, to);
    HonestKept(k, s, m.list, s');
    forall x, h | x in Ids(m.list) + Ids(s.list) && h in RefsOf(m.refs, x) ensures Hold(s', x, h)
        && h in RefsOf(s.refs, x) {
      PurgedMember(s.refs, Lost(k, s, m.list, s'), x, h);
      if x in Ids(m.list) {
        assert Hold(m, x, h);
      } else {
        assert Hold(s, x, h);
        FrameHold(k, s, m, to, x, h);
      }
    }
    assert Held(m.list, s');
    assert DestOk(m.list, s', to) by {
      if to.Under? && to.par.Some? { assert !Grips(k, s.refs, to.par.value); }
    }
  }

  lemma FrameHold<N>(k: Forest<N>, s: Yard<N>, m: Yard<N>, to: Dest<N>, x: N, h: N)
    requires FreedFirst(k, s, m, to) && x in Ids(s.list) && h in RefsOf(m.refs, x) && h in RefsOf(s.refs, x)
    ensures Hold(Outer(s, m), x, h)
  {
    FreedLost(k, s, m, to);
    assert Hold(s, x, h);
    var lost := Lost(k, s, m.list, Outer(s, m));
    PurgedMember(s.refs, lost, x, h);
    assert h in Ids(m.rest);
    assert InfoAt(Nil, m, h) == InfoAt(k.kids, Inner(k, s), h);
    PurgedSame(s.refs, lost, h);
  }

  lemma RoundKept<N>(k: Forest<N>, s: Yard<N>, to: Dest<N>)
    requires k.Cons? && Inv(k, s, to)
    ensures var r := Round(k, s, to); Kept(k, s, r.0, r.1) && KeptGrips(s, r.1, to) && Inv(r.0, r.1, to)
    decreases Count(k), 0
  {
    var hs := RefsOf(s.refs, k.c);
    if hs != [] {
      LeaveKept(k, s, to, hs[0]);
      LeaveGrips(k, s, to, hs[0]);
    } else if Refusing(k.info) {
      RiseKept(k, s, to);
    } else {
      InnerInv(k, s, to);
      FlowKept(k.kids, Inner(k, s), Front);
      var m := Flow(k.kids, Inner(k, s), Front);
      FreedKept(k, s, m, to);
      FreedInv(k, s, m, to);
    }
  }

  lemma FlowKept<N>(k: Forest<N>, s: Yard<N>, to: Dest<N>)
    requires Inv(k, s, to)
    ensures Kept(k, s, Nil, Flow(k, s, to)) && KeptGrips(s, Flow(k, s, to), to) && Inv(Nil, Flow(k, s, to), to)
    decreases Count(k), 1
  {
    if k.Nil? {
      KeptNone(k, s);
    } else {
      var r := Round(k, s, to);
      RoundKept(k, s, to);
      FlowKept(r.0, r.1, to);
      KeptTwice(k, s, r.0, r.1, Nil, Flow(k, s, to));
      KeptGripsTwice(k, s, r.0, r.1, Nil, Flow(k, s, to), to);
    }
  }
}
