/** Freeing a chunk with acyclic references below it, as a whole: who survives, and who owns the survivors. */
module Legacies {
  import opened Forests
  import opened Transfers
  import opened Releases
  import opened RefMaps
  import opened Ownership
  import opened Owners
  import opened Drains
  import opened Stacks
  import opened DrainFacts
  import opened Keeping
  import opened Ranks
  import opened Survivors

  // ---------- the chunks that last ----------

  /** An owner of a chunk below `c` that lasts. */
  ghost predicate LivesOn<N>(w: Forest<N>, t: RefMap<N>, c: N, rank: N -> nat, x: N, o: Option<N>)
    requires c in Ids(w) && Ranked(w, t, c, rank) && x in Ids(Find(w, c).kids) && Outranks(rank, TreeIds(w, c), x, o)
    decreases rank(x), 0
  {
    o.None? || o.value !in TreeIds(w, c) || (o.value in Ids(Find(w, c).kids) && Lives(w, t, c, rank, o.value))
  }

  /** A chunk below `c` lasts if it refuses or one of its owners lasts. */
  ghost predicate Lives<N>(w: Forest<N>, t: RefMap<N>, c: N, rank: N -> nat, x: N)
    requires c in Ids(w) && Ranked(w, t, c, rank) && x in Ids(Find(w, c).kids)
    decreases rank(x), 1
  {
    assert Falls(w, t, rank, TreeIds(w, c), x);
    || (x in Ids(w) && Refusing(Find(w, x).info))
    || LivesOn(w, t, c, rank, x, ParentOf(w, x))
    || exists h :: h in RefsOf(t, x) && LivesOn(w, t, c, rank, x, ParentOf(w, h))
  }

  ghost function Lasting<N>(w: Forest<N>, t: RefMap<N>, c: N, rank: N -> nat): set<N>
    requires c in Ids(w) && Ranked(w, t, c, rank)
  {
    set x | x in Ids(w) && x in Ids(Find(w, c).kids) && !IsHandle(w, x) && Lives(w, t, c, rank, x)
  }

  lemma {:induction false} HeldSome<N>(w: Forest<N>, dom: set<N>, a: set<N>, hs: seq<N>)
    ensures Held(w, dom, a, hs) != [] <==> exists h :: h in hs && Up(dom, a, ParentOf(w, h))
  {
    if hs != [] {
      HeldSome(w, dom, a, hs[1..]);
      assert forall h :: h in hs <==> h == hs[0] || h in hs[1..];
    }
  }

  lemma LivesUp<N>(w: Forest<N>, t: RefMap<N>, c: N, rank: N -> nat, x: N, y: N)
    requires AtRest(w, t) && c in Ids(w) && Ranked(w, t, c, rank) && x in Ids(Find(w, c).kids) && y in Ids(w)
    requires Outranks(rank, TreeIds(w, c), x, ParentOf(w, y))
    ensures LivesOn(w, t, c, rank, x, ParentOf(w, y)) <==> Up(TreeIds(w, c), Lasting(w, t, c, rank), ParentOf(w, y))
  {
    ParentIsNone(w, None, y);
    TreeFacts(w, c);
  }

  /** There is such a set of lasting chunks. */
  lemma LastingSolves<N>(w: Forest<N>, t: RefMap<N>, c: N, rank: N -> nat)
    requires AtRest(w, t) && c in Ids(w) && Ranked(w, t, c, rank)
    ensures Solves(w, t, TreeIds(w, c), [c], Lasting(w, t, c, rank))
  {
    var dom, a := TreeIds(w, c), Lasting(w, t, c, rank);
    TreeFacts(w, c);
    forall x | x in Ids(w) && x in dom ensures x in a <==> x !in [c] && !IsHandle(w, x) && Lasts(w, t, dom, a, x) {
      if x != c {
        assert Falls(w, t, rank, dom, x);
        LivesUp(w, t, c, rank, x, x);
        forall h | h in RefsOf(t, x)
          ensures LivesOn(w, t, c, rank, x, ParentOf(w, h)) <==> Up(dom, a, ParentOf(w, h))
        {
          assert Proper(w, t, x, h);
          LivesUp(w, t, c, rank, x, h);
        }
        HeldSome(w, dom, a, RefsOf(t, x));
      }
    }
  }

  // ---------- the call ----------

  /** The chunk `c` goes if it is freed now: nobody refers to it and it does not refuse. The references below it are
      acyclic and not held by NULL. */
  ghost predicate Leaves<N>(w: Forest<N>, t: RefMap<N>, c: N, rank: N -> nat) {
    && AtRest(w, t) && c in Ids(w) && !IsHandle(w, c) && RefsOf(t, c) == [] && !Refusing(Find(w, c).info)
    && Ranked(w, t, c, rank)
    && forall x, h :: x in Ids(Find(w, c).kids) && h in RefsOf(t, x) ==> ParentOf(w, h).Some?
  }

  lemma Start<N>(w: Forest<N>, t: RefMap<N>, c: N, rank: N -> nat)
    requires Leaves(w, t, c, rank)
    ensures var v, s, z, a := Left(w, c), Purged(t, {c}), ZoneOf(w, c), Lasting(w, t, c, rank);
            Carries(w, t, v, s, z.dom, [c], a, z.home) && Goes(v, s, [c], z, rank, a)
  {
    var v, s, z, a := Left(w, c), Purged(t, {c}), ZoneOf(w, c), Lasting(w, t, c, rank);
    var dom := z.dom;
    LastingSolves(w, t, c, rank);
    SetFirst(w, t, c, rank);
    LeftFacts(w, c);
    LeftHolding(w, t, c);
    forall g ensures c !in RefsOf(t, g) { assert c in RefsOf(t, g) ==> Proper(w, t, g, c); }
    assert Heeds(w, t, dom);
    StillHeeds(w, t, v, s, dom);
    forall x | x in Ids(v) && x != c ensures Akin(w, t, v, s, dom, a, x) { LeftAlike(w, t, c, dom, a, x); }
    hide Set, EndOf, Lasts, Akin, Left, Ranked;
    StepCarries(w, t, v, s, dom, [c], [c], a, z.home, c);
  }

  // ---------- the end ----------

  /** What is left of the torn down chunks lasts. */
  lemma {:induction false} LeftLasts<N>(v: Forest<N>, s: RefMap<N>, dom: set<N>, rank: N -> nat, a: set<N>, x: N)
    requires AtRest(v, s) && Ladder(v, s, rank, dom) && Solves(v, s, dom, [], a) && x in Ids(v) && x in dom
             && !IsHandle(v, x)
    ensures x in a
    decreases rank(x)
  {
    ParentIsNone(v, None, x);
    assert Falls(v, s, rank, dom, x);
    var p := ParentOf(v, x);
    if p.Some? && p.value in dom { LeftLasts(v, s, dom, rank, a, p.value); }
  }

  lemma OwnersUp<N>(v: Forest<N>, s: RefMap<N>, dom: set<N>, rank: N -> nat, a: set<N>, x: N)
    requires AtRest(v, s) && Ladder(v, s, rank, dom) && Solves(v, s, dom, [], a) && x in Ids(v)
    ensures Up(dom, a, ParentOf(v, x))
  {
    ParentIsNone(v, None, x);
    var p := ParentOf(v, x);
    if p.Some? && p.value in dom { LeftLasts(v, s, dom, rank, a, p.value); }
  }

  lemma EndIsNow<N>(v: Forest<N>, s: RefMap<N>, dom: set<N>, rank: N -> nat, a: set<N>, home: Option<N>, x: N)
    requires AtRest(v, s) && Ladder(v, s, rank, dom) && Solves(v, s, dom, [], a) && x in Ids(v)
    ensures EndOf(v, s, dom, a, home, x) == Belonging(ParentOf(v, x), RefsOf(s, x))
  {
    OwnersUp(v, s, dom, rank, a, x);
    forall h | h in RefsOf(s, x) ensures Up(dom, a, ParentOf(v, h)) {
      assert Proper(v, s, x, h);
      OwnersUp(v, s, dom, rank, a, h);
    }
    HeldAll(v, dom, a, RefsOf(s, x));
  }

  lemma IsLoop<N>(w: Forest<N>, t: RefMap<N>, c: N)
    requires AtRest(w, t) && c in Ids(w) && RefsOf(t, c) == [] && !Refusing(Find(w, c).info)
    ensures var v := Left(w, c); TryFree(w, t, c) == Drain(v.c, v.info, v.kids, v.next, Purged(t, {c}))
  {
    LeftFacts(w, c);
  }

  /** The call ends with the chunk freed, unless it reads a freed predecessor. */
  lemma Finish<N>(w: Forest<N>, t: RefMap<N>, c: N, rank: N -> nat)
    requires Leaves(w, t, c, rank)
    ensures var r, dom, a := TryFree(w, t, c), TreeIds(w, c), Lasting(w, t, c, rank);
            && (r.Freed? || r.Blind?)
            && (r.Freed? ==> Carries(w, t, r.w, r.t, dom, [], a, ParentOf(w, c)) && Ladder(r.w, r.t, rank, dom)
                             && AtRest(r.w, r.t))
  {
    var v, s, z, a := Left(w, c), Purged(t, {c}), ZoneOf(w, c), Lasting(w, t, c, rank);
    var r := TryFree(w, t, c);
    Start(w, t, c, rank);
    TryFirst(w, t, c);
    RankedFree(w, t, c, rank);
    IsLoop(w, t, c);
    DrainEnds(v.c, v.info, v.kids, v.next, s);
    DrainCarries(v, s, [c], z, rank, a);
    DrainClimbs(v, s, [c], z, rank);
    assert [c][1..] == [];
    hide Goes, Solves, Ranked, Ladder, TryFree, Left, Drain;
    if r.Freed? { CarriesOn(w, t, v, s, r.w, r.t, [c], z, a); }
  }

  /** What is left of the forest: all chunks outside the tree of `c`, and those below `c` that last. */
  lemma Legacy<N>(w: Forest<N>, t: RefMap<N>, c: N, rank: N -> nat, x: N)
    requires Leaves(w, t, c, rank) && TryFree(w, t, c).Freed? && x in Ids(w) && x != c && !IsHandle(w, x)
    ensures var r, dom, a := TryFree(w, t, c), TreeIds(w, c), Lasting(w, t, c, rank);
            && (x in Ids(r.w) <==> x !in dom || x in a)
            && (x in Ids(r.w) ==> EndOf(w, t, dom, a, ParentOf(w, c), x) == Belonging(ParentOf(r.w, x), RefsOf(r.t, x)))
  {
    var r, dom, a := TryFree(w, t, c), TreeIds(w, c), Lasting(w, t, c, rank);
    Finish(w, t, c, rank);
    TryFirst(w, t, c);
    if x in Ids(r.w) {
      assert Find(r.w, x).info == Find(w, x).info;
      if x in dom { LeftLasts(r.w, r.t, dom, rank, a, x); }
      EndIsNow(r.w, r.t, dom, rank, a, ParentOf(w, c), x);
    }
  }

  // ---------- owners ----------

  /** The owners of `x` that last. */
  ghost function Heritage<N>(w: Forest<N>, t: RefMap<N>, dom: set<N>, a: set<N>, x: N): multiset<Option<N>> {
    (if Up(dom, a, ParentOf(w, x)) then multiset{ParentOf(w, x)} else multiset{})
    + Holders(w, Held(w, dom, a, RefsOf(t, x)))
  }

  lemma {:induction false} HolderCount<N>(w: Forest<N>, hs: seq<N>)
    ensures |Holders(w, hs)| == |hs|
  {
    if hs != [] { HolderCount(w, hs[1..]); }
  }

  lemma EndOwners<N>(w: Forest<N>, t: RefMap<N>, dom: set<N>, a: set<N>, home: Option<N>, x: N)
    ensures var e, all := EndOf(w, t, dom, a, home, x), Heritage(w, t, dom, a, x);
            && multiset{e.parent} + Holders(w, e.handles) == (if all != multiset{} then all else multiset{home})
            && (all == multiset{} ==> !Up(dom, a, ParentOf(w, x)) && Held(w, dom, a, RefsOf(t, x)) == [])
  {
    HolderCount(w, Held(w, dom, a, RefsOf(t, x)));
  }

  lemma LegacyHolders<N>(w: Forest<N>, t: RefMap<N>, c: N, rank: N -> nat, x: N)
    requires Leaves(w, t, c, rank) && TryFree(w, t, c).Freed? && x in TryFree(w, t, c).t
    ensures var r := TryFree(w, t, c); Holders(r.w, r.t[x]) == Holders(w, r.t[x])
  {
    var r := TryFree(w, t, c);
    Finish(w, t, c, rank);
    forall h | h in r.t[x] ensures ParentOf(r.w, h) == ParentOf(w, h) { assert h in RefsOf(r.t, x); }
    HoldersSame(w, r.w, r.t[x]);
  }

  lemma LegacyRefuses<N>(w: Forest<N>, t: RefMap<N>, c: N, rank: N -> nat, x: N)
    requires Leaves(w, t, c, rank) && TryFree(w, t, c).Freed? && x in Ids(w) && x in Ids(TryFree(w, t, c).w)
    requires x != c && !IsHandle(w, x)
    requires Heritage(w, t, TreeIds(w, c), Lasting(w, t, c, rank), x) == multiset{}
    ensures Refusing(Find(w, x).info)
  {
    var r, dom, a := TryFree(w, t, c), TreeIds(w, c), Lasting(w, t, c, rank);
    Finish(w, t, c, rank);
    LastingSolves(w, t, c, rank);
    EndOwners(w, t, dom, a, ParentOf(w, c), x);
    Legacy(w, t, c, rank, x);
    if x !in dom {
      TryFirst(w, t, c);
      OwnersUp(r.w, r.t, dom, rank, a, x);
    }
  }

  /** A surviving chunk belongs to exactly those of its owners that last; if none does, it has refused, and belongs to
      the former parent of `c`. */
  lemma LegacyOwners<N>(w: Forest<N>, t: RefMap<N>, c: N, rank: N -> nat, x: N)
    requires Leaves(w, t, c, rank) && TryFree(w, t, c).Freed? && x in Ids(w) && x != c && !IsHandle(w, x)
    requires x in Ids(TryFree(w, t, c).w) && x in TryFree(w, t, c).t
    ensures var r, all := TryFree(w, t, c), Heritage(w, t, TreeIds(w, c), Lasting(w, t, c, rank), x);
            && (all == multiset{} ==> Refusing(Find(w, x).info))
            && OwnersOf(r.w, r.t, x) == if all != multiset{} then all else multiset{ParentOf(w, c)}
  {
    var r, dom, a := TryFree(w, t, c), TreeIds(w, c), Lasting(w, t, c, rank);
    Legacy(w, t, c, rank, x);
    LegacyHolders(w, t, c, rank, x);
    EndOwners(w, t, dom, a, ParentOf(w, c), x);
    if Heritage(w, t, dom, a, x) == multiset{} { LegacyRefuses(w, t, c, rank, x); }
    hide Leaves, TryFree, EndOf, Heritage;
  }
}
