/** Children of children: the loop inside the loop leaves the chunks that are being freed further up alone. */
module FlowFrames {
  import opened Forests
  import opened Releases
  import opened RefMaps
  import opened Flows
  import opened FlowFacts

  /** One more top-level chunk `c` with children `n`. */
  ghost function Boxed<N>(s: Yard<N>, c: N, i: Info<N>, n: Forest<N>): Yard<N> {
    s.(rest := Cons(c, i, n, s.rest))
  }

  ghost predicate Foreign<N>(k: Forest<N>, s: Yard<N>, c: N, n: Forest<N>) {
    c !in All(k, s) && Ids(n) !! All(k, s) && c !in Ids(n)
  }

  lemma BoxedLeave<N>(k: Forest<N>, s: Yard<N>, to: Dest<N>, c: N, i: Info<N>, n: Forest<N>, h: N)
    requires k.Cons? && Inv(k, s, to) && Foreign(k, s, c, n) && h in RefsOf(s.refs, k.c)
    ensures ParentOf(Boxed(s, c, i, n).rest, h) == ParentOf(s.rest, h)
    ensures Shed(Boxed(s, c, i, n), h) == Boxed(Shed(s, h), c, i, n)
    ensures var q := ParentOf(s.rest, h);
            q.Some? ==> Leave(Boxed(Shed(s, h), c, i, n), to, k, q) == Boxed(Leave(Shed(s, h), to, k, q), c, i, n)
  {
    assert Hold(s, k.c, h);
    CutAbsent(n, h);
    if ParentOf(s.rest, h).Some? {
      HolderStays(k, s, to, h);
      ShedIds(s.rest, h);
      GraftAbsent(n, ParentOf(s.rest, h).value, k.c, k.info, k.kids);
    }
  }

  lemma RoundFrame<N>(k: Forest<N>, s: Yard<N>, c: N, i: Info<N>, n: Forest<N>)
    requires k.Cons? && Inv(k, s, Front) && Foreign(k, s, c, n)
    ensures var r := Round(k, s, Front); Round(k, Boxed(s, c, i, n), Front) == (r.0, Boxed(r.1, c, i, n))
    decreases Count(k), 0
  {
    var hs := RefsOf(s.refs, k.c);
    if hs != [] {
      BoxedLeave(k, s, Front, c, i, n, hs[0]);
    } else if !Refusing(k.info) {
      InnerInv(k, s, Front);
      assert Inner(k, Boxed(s, c, i, n)) == Boxed(Inner(k, s), c, i, n);
      FlowFrame(k.kids, Inner(k, s), c, i, n);
    }
  }

  lemma FlowFrame<N>(k: Forest<N>, s: Yard<N>, c: N, i: Info<N>, n: Forest<N>)
    requires Inv(k, s, Front) && Foreign(k, s, c, n)
    ensures Flow(k, Boxed(s, c, i, n), Front) == Boxed(Flow(k, s, Front), c, i, n)
    decreases Count(k), 1
  {
    if k.Cons? {
      var r := Round(k, s, Front);
      RoundFrame(k, s, c, i, n);
      RoundKept(k, s, Front);
      FlowFrame(r.0, r.1, c, i, n);
    }
  }

  /** The yard as seen from a child of `c`: the waiting siblings are the other children of `c`. */
  ghost function Nested<N>(s: Yard<N>, c: N, i: Info<N>): Yard<N> {
    Yard(Nil, Cons(c, i, s.list, s.rest), s.refs)
  }

  lemma RoundInside<N>(k: Forest<N>, s: Yard<N>, c: N, i: Info<N>)
    requires k.Cons? && Inv(k, s, Front) && c !in All(k, s)
    ensures var r := Round(k, s, Front); Round(k, Nested(s, c, i), Under(Some(c))) == (r.0, Nested(r.1, c, i))
  {
    var hs := RefsOf(s.refs, k.c);
    if hs != [] {
      InsideLeave(k, s, c, i, hs[0]);
    } else if !Refusing(k.info) {
      InnerInv(k, s, Front);
      assert Inner(k, Nested(s, c, i)) == Boxed(Inner(k, s), c, i, s.list);
      FlowFrame(k.kids, Inner(k, s), c, i, s.list);
    }
  }

  lemma InsideLeave<N>(k: Forest<N>, s: Yard<N>, c: N, i: Info<N>, h: N)
    requires k.Cons? && Inv(k, s, Front) && c !in All(k, s) && h in RefsOf(s.refs, k.c)
    ensures var q := ParentOf(s.rest, h);
            ParentOf(Nested(s, c, i).rest, h) == q
            && Leave(Shed(Nested(s, c, i), h), Under(Some(c)), k, q) == Nested(Leave(Shed(s, h), Front, k, q), c, i)
  {
    assert Hold(s, k.c, h);
    CutAbsent(s.list, h);
    if ParentOf(s.rest, h).Some? {
      HolderStays(k, s, Front, h);
      ShedIds(s.rest, h);
      GraftAbsent(s.list, ParentOf(s.rest, h).value, k.c, k.info, k.kids);
    }
  }

  /** Freeing a child of `c` puts what cannot be freed in front of the other children of `c`. */
  lemma FlowInside<N>(k: Forest<N>, s: Yard<N>, c: N, i: Info<N>)
    requires Inv(k, s, Front) && c !in All(k, s)
    ensures Flow(k, Nested(s, c, i), Under(Some(c))) == Nested(Flow(k, s, Front), c, i)
    decreases Count(k)
  {
    if k.Cons? {
      var r := Round(k, s, Front);
      RoundInside(k, s, c, i);
      RoundKept(k, s, Front);
      FlowInside(r.0, r.1, c, i);
    }
  }
}
