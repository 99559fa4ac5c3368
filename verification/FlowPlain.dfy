/** Without references the loop does what `Keep` and `Handed` say. */
module FlowPlain {
  import opened Forests
  import opened Transfers
  import opened Releases
  import opened RefMaps
  import opened Flows

  lemma PurgedNoRefs<N>(t: RefMap<N>, s: set<N>, gone: set<N>)
    requires NoRefs(t, s)
    ensures NoRefs(Purged(t, gone), s)
  {
  }

  ghost predicate Plain<N>(k: Forest<N>, s: Yard<N>) {
    Distinct(k) && NoRefs(s.refs, Ids(k))
  }

  lemma PlainInner<N>(k: Forest<N>, s: Yard<N>)
    requires k.Cons? && Plain(k, s)
    ensures var m := Keep(k.kids, k.next);
            var t := Purged(Purged(s.refs, {k.c}), Freed(k.kids));
            Count(m) < Count(k) && Ids(m) <= Ids(k) && Plain(m, s.(refs := t)) && Plain(k.kids, Inner(k, s))
  {
    KeepFacts(k.kids, k.next);
    KeepCount(k.kids, k.next);
    PurgedNoRefs(s.refs, Ids(k), {k.c});
    PurgedNoRefs(Purged(s.refs, {k.c}), Ids(k), Freed(k.kids));
  }

  lemma PurgedFreed<N>(t: RefMap<N>, k: Forest<N>)
    requires k.Cons? && !Refusing(k.info)
    ensures Purged(Purged(Purged(t, {k.c}), Freed(k.kids)), Freed(Keep(k.kids, k.next))) == Purged(t, Freed(k))
  {
    KeepFreed(k.kids, k.next);
    PurgedTwice(t, {k.c}, Freed(k.kids));
    PurgedTwice(t, {k.c} + Freed(k.kids), Freed(k.next));
  }

  /** One round. */
  lemma PlainRound<N>(k: Forest<N>, s: Yard<N>, to: Dest<N>)
    requires k.Cons? && Plain(k, s)
    ensures Refusing(k.info) ==> Round(k, s, to) == (k.next, Rise(s, to, k)) && Freed(k) == Freed(k.next)
    ensures !Refusing(k.info) ==>
              var m := Flow(k.kids, Inner(k, s), Front); Round(k, s, to) == (m.list, Yard(s.list, m.rest, m.refs))
  {
    assert k.c in Ids(k) && RefsOf(s.refs, k.c) == [];
    assert {} + Freed(k.next) == Freed(k.next);
  }

  lemma FrontPlain<N>(k: Forest<N>, s: Yard<N>)
    requires Plain(k, s)
    ensures Flow(k, s, Front) == Yard(Keep(k, s.list), s.rest, Purged(s.refs, Freed(k)))
    decreases Count(k)
  {
    if k.Nil? {
      PurgedNone(s.refs);
    } else {
      PlainRound(k, s, Front);
      if Refusing(k.info) {
        FrontPlain(k.next, Rise(s, Front, k));
      } else {
        PlainInner(k, s);
        FrontPlain(k.kids, Inner(k, s));
        var t := Purged(Purged(s.refs, {k.c}), Freed(k.kids));
        FrontPlain(Keep(k.kids, k.next), s.(refs := t));
        KeepStep(k, s.list);
        PurgedFreed(s.refs, k);
      }
    }
  }

  ghost predicate Reachable<N>(k: Forest<N>, s: Yard<N>, par: Option<N>) {
    Distinct(s.rest) && Ids(k) !! Ids(s.rest) && (par.Some? ==> par.value in Ids(s.rest))
  }

  lemma RiseReachable<N>(k: Forest<N>, s: Yard<N>, par: Option<N>)
    requires k.Cons? && Distinct(k) && Reachable(k, s, par)
    ensures Reachable(k.next, Rise(s, Under(par), k), par)
  {
    if par.Some? { GraftFacts(s.rest, par.value, k.c, k.info, k.kids); }
  }

  lemma UnderPlain<N>(k: Forest<N>, s: Yard<N>, par: Option<N>)
    requires Plain(k, s) && Reachable(k, s, par)
    ensures Flow(k, s, Under(par)) == Yard(s.list, Handed(s.rest, par, k), Purged(s.refs, Freed(k)))
    decreases Count(k)
  {
    if k.Nil? {
      PurgedNone(s.refs);
      if par.Some? { NothingHanded(s.rest, par.value); }
    } else {
      PlainRound(k, s, Under(par));
      hide Round, Handed, Purged, Keep;
      if Refusing(k.info) {
        RefusingChild(s.rest, par, k);
        RiseReachable(k, s, par);
        UnderPlain(k.next, Rise(s, Under(par), k), par);
      } else {
        PlainInner(k, s);
        FrontPlain(k.kids, Inner(k, s));
        var t := Purged(Purged(s.refs, {k.c}), Freed(k.kids));
        UnderPlain(Keep(k.kids, k.next), s.(refs := t), par);
        FreedChild(s.rest, par, k);
        PurgedFreed(s.refs, k);
      }
    }
  }

  /** If nobody refers to anything below `c`, the forest is `Released`. */
  lemma AftermathPlain<N>(w: Forest<N>, t: RefMap<N>, c: N)
    requires Distinct(w) && c in Ids(w) && NoRefs(t, Ids(Find(w, c).kids))
    ensures Aftermath(w, t, c) == Yard(Nil, Released(w, c), Purged(t, {c} + Freed(Find(w, c).kids)))
  {
    var k := Find(w, c).kids;
    TreeFacts(w, c);
    CutFacts(w, c);
    ParentElsewhere(w, None, c);
    PurgedNoRefs(t, Ids(k), {c});
    UnderPlain(k, YardOf(w, t, c), ParentOf(w, c));
    PurgedTwice(t, {c}, Freed(k));
  }
}
