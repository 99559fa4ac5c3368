/** What holds after outermost calls of `resolveInstance`, for every graph and every order of calls. */
module HeapRuns {
  import opened HeapGraph
  import opened HeapWalk

  // ---------- any graph ----------

  /** Between outermost calls: what has been seen is finished, was scanned once, and is closed under references; the log
      holds the reference slots of the scanned objects, and nothing else. */
  ghost predicate AtRest(d: Dump, s: State) {
    && Fits(d, s) && Zeros(d, s) && Once(s.finished) && s.seen == Elements(s.finished)
    && Followed(d, s.finished, s.seen)
    && (forall x :: x in s.finished ==> Local(d, x)) && s.log == AllArcs(d, s.finished)
  }

  lemma FollowedMore(d: Dump, xs: seq<HObject>, ys: seq<HObject>, seen: set<HObject>, more: set<HObject>)
    requires Followed(d, xs, seen) && Followed(d, ys, more) && seen <= more
    ensures Followed(d, xs + ys, more)
  {
  }

  lemma OnceMore(xs: seq<HObject>, ys: seq<HObject>)
    requires Once(xs) && Once(ys) && Elements(xs) !! Elements(ys)
    ensures Once(xs + ys) && Elements(xs + ys) == Elements(xs) + Elements(ys)
  {
    forall i, j | 0 <= i < j < |xs + ys| ensures (xs + ys)[i] != (xs + ys)[j] {
      if i < |xs| <= j { assert xs[i] in Elements(xs) && ys[j - |xs|] in Elements(ys); }
    }
  }

  /** An outermost call ends with the resolved objects closed under references and all arcs accounted for. */
  lemma VisitRests(d: Dump, s: State, q: HObject)
    requires AtRest(d, s) && q in d.objects.Values
    ensures AtRest(d, Visit(d, s, q)) && q in Visit(d, s, q).seen
  {
    var s' := Visit(d, s, q);
    var xs := VisitScans(d, s, q, q);
    OnceMore(s.finished, xs);
    FollowedMore(d, s.finished, xs, s.seen, s'.seen);
    AllConcat(d, s.finished, xs);
    InTable(d, s'.finished);
    VisitZeros(d, s, q, xs);
  }

  lemma VisitZeros(d: Dump, s: State, q: HObject, xs: seq<HObject>)
    requires Fits(d, s) && Zeros(d, s) && q in d.objects.Values && Scanned(d, s, Visit(d, s, q), xs, q)
    ensures Zeros(d, Visit(d, s, q))
  {
  }

  // ---------- graphs without cycles ----------

  ghost function SumsOf(d: Dump, rank: map<HObject, nat>): Sums
    requires Ranked(d, rank)
  {
    Sums(map x | x in d.objects.Values :: Tot(d, rank, x), map x | x in d.objects.Values :: rank[x])
  }

  lemma {:induction false} SumsAgree(d: Dump, rank: map<HObject, nat>, keys: seq<int>, bound: nat)
    requires Ranked(d, rank) && forall k :: k in keys && k in d.objects ==> rank[d.objects[k]] < bound
    ensures TotOf(d, rank, keys, bound) == SumKeys(d, SumsOf(d, rank), keys)
  {
    if keys != [] { SumsAgree(d, rank, keys[1..], bound); }
  }

  lemma TotAdds(d: Dump, rank: map<HObject, nat>, h: HObject)
    requires Ranked(d, rank) && h in d.objects.Values
    ensures Adds(d, SumsOf(d, rank), h)
  {
    SumsAgree(d, rank, Refs(d, h), rank[h]);
  }

  lemma TotBalanced(d: Dump, rank: map<HObject, nat>)
    requires Ranked(d, rank)
    ensures Balanced(d, SumsOf(d, rank))
  {
    forall h | h in d.objects.Values ensures Adds(d, SumsOf(d, rank), h) { TotAdds(d, rank, h); }
  }

  /** Every finished object has the total of the plain recursive definition. */
  ghost predicate Totals(d: Dump, s: State, rank: map<HObject, nat>)
    requires Fits(d, s) && Ranked(d, rank)
  {
    forall x :: x in s.seen ==> SumOf(s, x) == Tot(d, rank, x)
  }

  lemma VisitTotals(d: Dump, s: State, q: HObject, rank: map<HObject, nat>)
    requires AtRest(d, s) && Ranked(d, rank) && Totals(d, s, rank) && q in d.objects.Values
    ensures Totals(d, Visit(d, s, q), rank) && SumOf(Visit(d, s, q), q) == Tot(d, rank, q)
  {
    TotBalanced(d, rank);
    var g := SumsOf(d, rank);
    assert forall x :: x in s.finished <==> x in s.seen;
    assert Sane(d, s, g, g.rank[q], {});
    VisitTotal(d, s, q, g);
    VisitRests(d, s, q);
  }

  // ---------- any order ----------

  ghost function Start(d: Dump): State {
    State({}, [], multiset{}, map h | h in d.objects.Values :: 0, map h | h in d.objects.Values :: 0)
  }

  ghost function VisitAll(d: Dump, s: State, hs: seq<HObject>): (s': State)
    requires Fits(d, s) && Elements(hs) <= d.objects.Values
    ensures Fits(d, s')
    decreases hs
  {
    if hs == [] then s else
      assert hs[0] in Elements(hs) && Elements(hs[1..]) <= Elements(hs);
      VisitAll(d, Visit(d, s, hs[0]), hs[1..])
  }

  lemma {:induction false} VisitAllRests(d: Dump, s: State, hs: seq<HObject>)
    requires AtRest(d, s) && Elements(hs) <= d.objects.Values
    ensures AtRest(d, VisitAll(d, s, hs)) && s.seen + Elements(hs) <= VisitAll(d, s, hs).seen
    decreases hs
  {
    if hs != [] {
      assert hs[0] in Elements(hs) && Elements(hs) == {hs[0]} + Elements(hs[1..]);
      VisitRests(d, s, hs[0]);
      VisitAllRests(d, Visit(d, s, hs[0]), hs[1..]);
    }
  }

  lemma {:induction false} VisitAllTotals(d: Dump, s: State, hs: seq<HObject>, rank: map<HObject, nat>)
    requires AtRest(d, s) && Elements(hs) <= d.objects.Values && Ranked(d, rank) && Totals(d, s, rank)
    ensures Totals(d, VisitAll(d, s, hs), rank)
    decreases hs
  {
    if hs != [] {
      assert hs[0] in Elements(hs) && Elements(hs) == {hs[0]} + Elements(hs[1..]);
      VisitTotals(d, s, hs[0], rank);
      VisitRests(d, s, hs[0]);
      VisitAllTotals(d, Visit(d, s, hs[0]), hs[1..], rank);
    }
  }

  /** Whatever the order of the calls, the objects have the same totals. */
  lemma AnyOrder(d: Dump, xs: seq<HObject>, ys: seq<HObject>, h: HObject, rank: map<HObject, nat>)
    requires WellFormed(d) && Known(d) && Ranked(d, rank) && Elements(xs) <= d.objects.Values
             && Elements(ys) <= d.objects.Values
    requires h in xs && h in ys
    ensures h in VisitAll(d, Start(d), xs).seen && h in VisitAll(d, Start(d), ys).seen
    ensures SumOf(VisitAll(d, Start(d), xs), h) == SumOf(VisitAll(d, Start(d), ys), h) == Tot(d, rank, h)
  {
    VisitAllRests(d, Start(d), xs);
    VisitAllRests(d, Start(d), ys);
    VisitAllTotals(d, Start(d), xs, rank);
    VisitAllTotals(d, Start(d), ys, rank);
    assert h in Elements(xs) && h in Elements(ys);
  }
}
