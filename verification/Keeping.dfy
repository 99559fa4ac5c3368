/** Freeing keeps the forest and the lists in order, whoever refers to what, as long as it comes to an end. */
module Keeping {
  import opened Forests
  import opened Transfers
  import opened Releases
  import opened RefMaps
  import opened Ownership
  import opened Owners
  import opened Drains
  import opened Stacks
  import opened DrainFacts

  lemma {:induction false} TidyIff<N>(f: Forest<N>)
    ensures Tidy(f) <==> Calm(f) && Neat(f)
  {
    if f.Cons? {
      TidyIff(f.kids);
      TidyIff(f.next);
    }
  }

  lemma GoodRests<N>(w: Forest<N>, t: RefMap<N>)
    requires Good(w, t)
    ensures AtRest(w, t)
  {
    TidyIff(w);
    forall x, h | x in t && h in RefsOf(t, x) ensures Proper(w, t, x, h) {
      assert h in Ids(w) && IsHandle(w, h);
    }
  }

  /** A forest at rest has no old links. */
  lemma CalmSees<N>(w: Forest<N>)
    requires Calm(w)
    ensures Sighted(w)
  {
    forall x | x in Ids(w) ensures SeesOwn(w, Find(w, x).info) { CalmTree(w, x); }
  }

  /** Whether a chunk has been freed or has stayed, the forest is good again. */
  lemma TryGood<N>(w: Forest<N>, t: RefMap<N>, y: N)
    requires Good(w, t) && y in Ids(w)
    ensures var r := TryFree(w, t, y); r.Freed? || r.Kept? ==> Good(r.w, r.t)
  {
    var r := TryFree(w, t, y);
    GoodRests(w, t);
    TryFirst(w, t, y);
    if r.Freed? || r.Kept? {
      TidyIff(r.w);
      hide TryFree, Stack, Named, Neat, Distinct, Calm;
      RefsPurged(w, t, r.w, r.freed);
    }
  }
}
