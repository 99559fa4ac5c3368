/** Outermost calls: resolving the objects of a table one after the other (phat.c:936-954). */
module ResolveRuns {
  import opened Formats
  import opened Layout
  import opened HeapGraph
  import opened HeapWalk
  import opened HeapRuns
  import opened Arcs
  import opened Resolver

  /** One outermost call. */
  method Outermost(u: Session, h: HObject, ghost s: State) returns (r: nat)
    requires AtRest(u.d, s) && u.Held(s) && h in u.d.objects.Values
    modifies u, u.d.objects.Values, u.d.classes.Values, Records(u.d.classes)
    ensures u.Held(Visit(u.d, s, h)) && AtRest(u.d, Visit(u.d, s, h)) && r == Wrap(SumOf(Visit(u.d, s, h), h))
  {
    r := u.ResolveInstance(h, s);
    VisitRests(u.d, s, h);
  }

  /** Resolve the objects in the order given. */
  method ResolveInstances(u: Session, hs: seq<HObject>, ghost s: State)
    requires AtRest(u.d, s) && u.Held(s) && Elements(hs) <= u.d.objects.Values
    modifies u, u.d.objects.Values, u.d.classes.Values, Records(u.d.classes)
    ensures u.Held(VisitAll(u.d, s, hs)) && AtRest(u.d, VisitAll(u.d, s, hs))
  {
    ghost var m := s;
    assert hs[0..] == hs;
    for i := 0 to |hs|
      invariant AtRest(u.d, m) && u.Held(m) && VisitAll(u.d, m, hs[i..]) == VisitAll(u.d, s, hs)
    {
      assert hs[i] in Elements(hs) && hs[i..][1..] == hs[i + 1..];
      var r := Outermost(u, hs[i], m);
      m := Visit(u.d, m, hs[i]);
    }
  }

  /** What the heap holds when the table has been resolved: arcs count the reference slots of the resolved objects, and
      these are closed under references. */
  lemma Outcome(u: Session, s: State, a: CInfo, b: CInfo)
    requires AtRest(u.d, s) && u.Held(s) && a in u.d.classes.Values && b in u.d.classes.Values
    ensures Tally(a.children, b) == AllArcs(u.d, s.finished)[(a, b)]
    ensures forall h :: h in u.d.objects.Values ==> (h.resolved <==> h in s.finished)
    ensures forall h, k :: h in u.d.objects.Values && h.resolved && k in Refs(u.d, h) && k in u.d.objects ==>
            u.d.objects[k].resolved
  {
    assert forall h :: h in u.d.objects.Values ==> ObjectHeld(h, s);
    assert forall h :: h in s.finished <==> h in s.seen;
  }

  lemma HeldTotal(h: HObject, s: State, total: nat)
    requires h in s.osize && h in s.csize && ObjectHeld(h, s) && SumOf(s, h) == total
    ensures (h.osize + h.csize) % TWO64 == total % TWO64
  {
    WrapSum(s.osize[h], s.csize[h]);
    WrapMod(total);
  }

  /** On a graph without cycles every resolved object holds its total, cut to 64 bits, whatever the order. */
  lemma OutcomeTotals(u: Session, hs: seq<HObject>, h: HObject, rank: map<HObject, nat>)
    requires Known(u.d) && Ranked(u.d, rank) && Elements(hs) <= u.d.objects.Values && h in hs
    requires u.Held(VisitAll(u.d, Start(u.d), hs))
    ensures (h.osize + h.csize) % TWO64 == Tot(u.d, rank, h) % TWO64
  {
    var s := VisitAll(u.d, Start(u.d), hs);
    AnyOrder(u.d, hs, hs, h, rank);
    assert h in Elements(hs);
    hide VisitAll, Tot, ObjectHeld, SumOf;
    ObjectNow(u, s, h);
    HeldTotal(h, s, Tot(u.d, rank, h));
  }

  lemma ObjectNow(u: Session, s: State, h: HObject)
    requires u.Held(s) && h in u.d.objects.Values
    ensures h in s.osize && h in s.csize && ObjectHeld(h, s)
  {
  }
}
