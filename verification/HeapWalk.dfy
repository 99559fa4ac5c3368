/**
 The depth-first walk of `resolveInstance` as a function on values: which objects have been seen, which are
 finished and in what order, the sizes so far (not yet cut to 64 bits), and the references followed.
 */
module HeapWalk {
  import opened Layout
  import opened HeapGraph

  datatype State = State(
    seen: set<HObject>,
    finished: seq<HObject>,
    log: multiset<(CInfo, CInfo)>,
    osize: map<HObject, nat>,
    csize: map<HObject, nat>)

  /** The state speaks about the objects of the dump. */
  ghost predicate Fits(d: Dump, s: State) {
    && WellFormed(d) && Known(d) && s.seen <= d.objects.Values
    && s.osize.Keys == d.objects.Values && s.csize.Keys == d.objects.Values
  }

  ghost function Marked(s: State, h: HObject): State {
    s.(seen := s.seen + {h})
  }

  /** The total of the target goes to `h`, and one reference to the log. */
  ghost function Credited(d: Dump, s: State, h: HObject, q: HObject, r: nat): State
    requires Fits(d, s) && h in d.objects.Values && q in d.objects.Values
  {
    s.(csize := s.csize[h := s.csize[h] + r], log := s.log + multiset{(ClassOf(d, h), ClassOf(d, q))})
  }

  ghost function Done(d: Dump, s: State, h: HObject): State
    requires Fits(d, s) && h in d.objects.Values
  {
    s.(osize := s.osize[h := Self(d, h)], finished := s.finished + [h])
  }

  ghost function SumOf(s: State, h: HObject): nat
    requires h in s.osize && h in s.csize
  {
    s.osize[h] + s.csize[h]
  }

  /** `resolveInstance`: an object that was seen before is not scanned again. */
  ghost function Visit(d: Dump, s: State, h: HObject): (s': State)
    requires Fits(d, s) && h in d.objects.Values
    ensures Fits(d, s') && s.seen <= s'.seen && h in s'.seen
    decreases d.objects.Values - s.seen, 0, 0
  {
    if h in s.seen then s else Done(d, FollowAll(d, Marked(s, h), h, Refs(d, h)), h)
  }

  ghost function FollowOne(d: Dump, s: State, h: HObject, k: int): (s': State)
    requires Fits(d, s) && h in s.seen
    ensures Fits(d, s') && s.seen <= s'.seen
    decreases d.objects.Values - s.seen, 1, 0
  {
    if k !in d.objects then s else
      var v := Visit(d, s, d.objects[k]);
      Credited(d, v, h, d.objects[k], SumOf(v, d.objects[k]))
  }

  ghost function FollowAll(d: Dump, s: State, h: HObject, keys: seq<int>): (s': State)
    requires Fits(d, s) && h in s.seen
    ensures Fits(d, s') && s.seen <= s'.seen
    decreases d.objects.Values - s.seen, 2, |keys|
  {
    if keys == [] then s else FollowAll(d, FollowOne(d, s, h, keys[0]), h, keys[1..])
  }

  // ---------- what a walk does ----------

  ghost function Elements(hs: seq<HObject>): set<HObject> {
    set h | h in hs
  }

  ghost predicate Once(hs: seq<HObject>) {
    forall i, j :: 0 <= i < j < |hs| ==> hs[i] != hs[j]
  }

  /** The references of these objects lead to seen objects. */
  ghost predicate Followed(d: Dump, hs: seq<HObject>, seen: set<HObject>) {
    forall h, k :: h in hs && k in d.objects && Local(d, h) && k in Refs(d, h) ==> d.objects[k] in seen
  }

  /** From `s` to `s'` the objects `new'` were scanned, each once, and nothing else; `h` may still be in progress. */
  ghost predicate Scanned(d: Dump, s: State, s': State, new': seq<HObject>, h: HObject) {
    && Fits(d, s) && Fits(d, s') && s'.finished == s.finished + new' && Once(new')
    && s.seen !! Elements(new') && s'.seen == s.seen + Elements(new') && Followed(d, new', s'.seen)
    && (forall x :: x in s.seen && x != h ==> s'.osize[x] == s.osize[x] && s'.csize[x] == s.csize[x])
    && (forall x :: x in d.objects.Values && x !in s'.seen ==> s'.osize[x] == s.osize[x] && s'.csize[x] == s.csize[x])
    && (h in s.seen ==> s'.osize[h] == s.osize[h])
  }

  lemma InTable(d: Dump, hs: seq<HObject>)
    requires WellFormed(d) && Elements(hs) <= d.objects.Values
    ensures forall h :: h in hs ==> Local(d, h)
  {
    forall h | h in hs ensures Local(d, h) { assert h in Elements(hs); }
  }

  /** Two stretches of a walk, one after the other. */
  lemma ScannedTwice(d: Dump, s: State, m: State, s': State, xs: seq<HObject>, ys: seq<HObject>, h: HObject)
    requires Scanned(d, s, m, xs, h) && Scanned(d, m, s', ys, h)
    ensures Scanned(d, s, s', xs + ys, h)
  {
    assert Elements(xs + ys) == Elements(xs) + Elements(ys);
    forall i, j | 0 <= i < j < |xs + ys| ensures (xs + ys)[i] != (xs + ys)[j] {
      if i < |xs| <= j { assert xs[i] in Elements(xs) && ys[j - |xs|] in Elements(ys); }
    }
  }

  lemma {:induction false} FollowAllSees(d: Dump, s: State, h: HObject, keys: seq<int>, k: int)
    requires Fits(d, s) && h in s.seen && k in keys && k in d.objects
    ensures d.objects[k] in FollowAll(d, s, h, keys).seen
    decreases |keys|
  {
    var m := FollowOne(d, s, h, keys[0]);
    if keys[0] != k { FollowAllSees(d, m, h, keys[1..], k); }
  }

  /** The scan of `q` ends. */
  lemma ScanEnds(d: Dump, s: State, q: HObject, m: State, new': seq<HObject>, h: HObject)
    requires Fits(d, s) && q in d.objects.Values && q !in s.seen
    requires m == FollowAll(d, Marked(s, q), q, Refs(d, q)) && Scanned(d, Marked(s, q), m, new', q)
    ensures Scanned(d, s, Done(d, m, q), new' + [q], h)
  {
    assert Elements(new' + [q]) == Elements(new') + {q};
    forall k | k in Refs(d, q) && k in d.objects ensures d.objects[k] in m.seen {
      FollowAllSees(d, Marked(s, q), q, Refs(d, q), k);
    }
    FollowedSnoc(d, new', q, m.seen);
    OnceSnoc(new', q);
  }

  lemma FollowedSnoc(d: Dump, hs: seq<HObject>, q: HObject, seen: set<HObject>)
    requires Followed(d, hs, seen) && Local(d, q) && forall k :: k in Refs(d, q) && k in d.objects ==>
             d.objects[k] in seen
    ensures Followed(d, hs + [q], seen)
  {
  }

  lemma OnceSnoc(hs: seq<HObject>, q: HObject)
    requires Once(hs) && q !in Elements(hs)
    ensures Once(hs + [q])
  {
    forall i | 0 <= i < |hs| ensures hs[i] != q { assert hs[i] in Elements(hs); }
  }

  /** What is credited to `h` changes nothing else. */
  lemma CreditedScanned(d: Dump, s: State, v: State, new': seq<HObject>, h: HObject, q: HObject, r: nat)
    requires Scanned(d, s, v, new', h) && h in s.seen && q in d.objects.Values
    ensures Scanned(d, s, Credited(d, v, h, q, r), new', h)
  {
  }

  lemma NothingScanned(d: Dump, s: State, h: HObject)
    requires Fits(d, s)
    ensures Scanned(d, s, s, [], h)
  {
  }

  // ---------- the log ----------

  /** From `s` to `s'` the references of `new'` were logged, and `more`. */
  ghost predicate Logged(d: Dump, s: State, s': State, new': seq<HObject>, more: multiset<(CInfo, CInfo)>) {
    Known(d) && (forall x :: x in new' ==> Local(d, x)) && s'.log == s.log + AllArcs(d, new') + more
  }

  lemma LoggedTwice(d: Dump, s: State, m: State, s': State, xs: seq<HObject>, ys: seq<HObject>,
                    a: multiset<(CInfo, CInfo)>, b: multiset<(CInfo, CInfo)>)
    requires Logged(d, s, m, xs, a) && Logged(d, m, s', ys, b)
    ensures Logged(d, s, s', xs + ys, a + b)
  {
    AllConcat(d, xs, ys);
  }

  lemma LogEnds(d: Dump, s: State, m: State, new': seq<HObject>, q: HObject)
    requires Local(d, q) && Logged(d, s, m, new', if Known(d) then ObjectArcs(d, q) else multiset{})
    ensures Logged(d, s, m, new' + [q], multiset{})
  {
    AllConcat(d, new', [q]);
    assert AllArcs(d, [q]) == ObjectArcs(d, q) + AllArcs(d, [q][1..]);
  }

  // ---------- the walk ----------

  lemma VisitScans(d: Dump, s: State, q: HObject, h: HObject) returns (new': seq<HObject>)
    requires Fits(d, s) && q in d.objects.Values
    ensures Scanned(d, s, Visit(d, s, q), new', h) && Logged(d, s, Visit(d, s, q), new', multiset{})
    decreases d.objects.Values - s.seen, 0, 0
  {
    if q in s.seen {
      new' := [];
      NothingScanned(d, s, h);
    } else {
      var m := FollowAll(d, Marked(s, q), q, Refs(d, q));
      new' := FollowAllScans(d, Marked(s, q), q, Refs(d, q));
      ScanEnds(d, s, q, m, new', h);
      LogEnds(d, Marked(s, q), m, new', q);
      new' := new' + [q];
    }
  }

  lemma FollowAllScans(d: Dump, s: State, h: HObject, keys: seq<int>) returns (new': seq<HObject>)
    requires Fits(d, s) && h in s.seen
    ensures Scanned(d, s, FollowAll(d, s, h, keys), new', h)
    ensures Logged(d, s, FollowAll(d, s, h, keys), new', ArcsOf(d, ClassOf(d, h), keys))
    decreases d.objects.Values - s.seen, 2, |keys|
  {
    new' := [];
    if keys == [] {
      NothingScanned(d, s, h);
    } else {
      var m := FollowOne(d, s, h, keys[0]);
      var xs := FollowOneScans(d, s, h, keys[0]);
      var ys := FollowAllScans(d, m, h, keys[1..]);
      ScannedTwice(d, s, m, FollowAll(d, s, h, keys), xs, ys, h);
      LoggedTwice(d, s, m, FollowAll(d, s, h, keys), xs, ys, ArcAt(d, ClassOf(d, h), keys[0]),
                  ArcsOf(d, ClassOf(d, h), keys[1..]));
      new' := xs + ys;
    }
  }

  lemma FollowOneScans(d: Dump, s: State, h: HObject, k: int) returns (new': seq<HObject>)
    requires Fits(d, s) && h in s.seen
    ensures Scanned(d, s, FollowOne(d, s, h, k), new', h)
    ensures Logged(d, s, FollowOne(d, s, h, k), new', ArcAt(d, ClassOf(d, h), k))
    decreases d.objects.Values - s.seen, 1, 0
  {
    new' := [];
    if k in d.objects {
      var q := d.objects[k];
      new' := VisitScans(d, s, q, h);
      var v := Visit(d, s, q);
      CreditedScanned(d, s, v, new', h, q, SumOf(v, q));
    } else {
      NothingScanned(d, s, h);
    }
  }

  // ---------- totals on graphs without cycles ----------

  /** Objects that have not been seen have sizes zero. */
  ghost predicate Zeros(d: Dump, s: State)
    requires Fits(d, s)
  {
    forall x :: x in d.objects.Values && x !in s.seen ==> s.osize[x] == 0 && s.csize[x] == 0
  }

  /** Totals and ranks for the objects of a graph. */
  datatype Sums = Sums(tot: map<HObject, nat>, rank: map<HObject, nat>)

  ghost predicate For(d: Dump, g: Sums) {
    g.tot.Keys == d.objects.Values && g.rank.Keys == d.objects.Values
  }

  /** Finished objects have their totals; the others in progress, except `but`, are above `bound`. */
  ghost predicate Sane(d: Dump, s: State, g: Sums, bound: nat, but: set<HObject>)
    requires Fits(d, s) && For(d, g)
  {
    && Zeros(d, s)
    && (forall x :: x in s.finished ==> x in s.seen && SumOf(s, x) == g.tot[x])
    && (forall x :: x in s.seen && x !in s.finished && x !in but ==> g.rank[x] > bound)
  }

  lemma SaneMarked(d: Dump, s: State, q: HObject, g: Sums)
    requires Fits(d, s) && For(d, g) && q in d.objects.Values && q !in s.seen && Sane(d, s, g, g.rank[q], {})
    ensures Sane(d, Marked(s, q), g, g.rank[q], {q}) && q !in s.finished && s.csize[q] == 0
  {
  }

  lemma SaneDone(d: Dump, m: State, q: HObject, g: Sums)
    requires Fits(d, m) && For(d, g) && q in m.seen && q !in m.finished && Sane(d, m, g, g.rank[q], {q})
    requires (Self(d, q) + m.csize[q]) == g.tot[q]
    ensures Sane(d, Done(d, m, q), g, g.rank[q], {}) && SumOf(Done(d, m, q), q) == g.tot[q]
  {
  }

  lemma SaneBelow(d: Dump, s: State, h: HObject, q: HObject, g: Sums)
    requires Fits(d, s) && For(d, g) && h in s.seen && q in d.objects.Values && g.rank[q] < g.rank[h]
    requires Sane(d, s, g, g.rank[h], {h})
    ensures Sane(d, s, g, g.rank[q], {})
  {
  }

  lemma SaneBack(d: Dump, s: State, v: State, new': seq<HObject>, h: HObject, bound: nat, g: Sums)
    requires Fits(d, s) && For(d, g) && h in s.seen && h !in s.finished && Sane(d, s, g, g.rank[h], {h})
    requires Scanned(d, s, v, new', h) && Sane(d, v, g, bound, {})
    ensures Sane(d, v, g, g.rank[h], {h}) && h !in v.finished
  {
    assert forall x :: x in new' <==> x in Elements(new');
    assert forall x :: x in v.finished <==> x in s.finished || x in new';
  }

  lemma SaneCredited(d: Dump, v: State, h: HObject, q: HObject, r: nat, bound: nat, g: Sums)
    requires Fits(d, v) && For(d, g) && h in v.seen && h !in v.finished && q in d.objects.Values
             && Sane(d, v, g, bound, {h})
    ensures Sane(d, Credited(d, v, h, q, r), g, bound, {h})
  {
  }

  ghost function TotAtKey(d: Dump, g: Sums, k: int): nat
    requires For(d, g)
  {
    if k in d.objects then g.tot[d.objects[k]] else 0
  }

  ghost function SumKeys(d: Dump, g: Sums, keys: seq<int>): nat
    requires For(d, g)
  {
    if keys == [] then 0 else TotAtKey(d, g, keys[0]) + SumKeys(d, g, keys[1..])
  }

  /** The total of `h` is its own size and the totals of its targets, which have lower ranks. */
  ghost predicate Adds(d: Dump, g: Sums, h: HObject)
    requires For(d, g) && h in d.objects.Values
  {
    && Local(d, h) && g.tot[h] == Self(d, h) + SumKeys(d, g, Refs(d, h))
    && forall k :: k in Refs(d, h) && k in d.objects ==> g.rank[d.objects[k]] < g.rank[h]
  }

  ghost predicate Balanced(d: Dump, g: Sums) {
    For(d, g) && forall h {:trigger Adds(d, g, h)} :: h in d.objects.Values ==> Adds(d, g, h)
  }

  /** The walk returns the total, provided the totals add up along the references and ranks go down. */
  lemma VisitTotal(d: Dump, s: State, q: HObject, g: Sums)
    requires Fits(d, s) && Balanced(d, g) && q in d.objects.Values && Sane(d, s, g, g.rank[q], {})
    ensures SumOf(Visit(d, s, q), q) == g.tot[q] && Sane(d, Visit(d, s, q), g, g.rank[q], {})
    decreases d.objects.Values - s.seen, 0, 0
  {
    if q !in s.seen {
      var s1 := Marked(s, q);
      var m := FollowAll(d, s1, q, Refs(d, q));
      assert Adds(d, g, q);
      SaneMarked(d, s, q, g);
      FollowAllTotal(d, s1, q, Refs(d, q), g);
      SaneDone(d, m, q, g);
    }
  }

  lemma FollowAllTotal(d: Dump, s: State, h: HObject, keys: seq<int>, g: Sums)
    requires Fits(d, s) && Balanced(d, g) && h in s.seen && h !in s.finished && Sane(d, s, g, g.rank[h], {h})
    requires forall k :: k in keys && k in d.objects ==> g.rank[d.objects[k]] < g.rank[h]
    ensures Sane(d, FollowAll(d, s, h, keys), g, g.rank[h], {h}) && h !in FollowAll(d, s, h, keys).finished
    ensures FollowAll(d, s, h, keys).csize[h] == (s.csize[h] + SumKeys(d, g, keys))
    decreases d.objects.Values - s.seen, 2, |keys|
  {
    if keys != [] {
      var m := FollowOne(d, s, h, keys[0]);
      assert keys[0] in keys;
      FollowOneTotal(d, s, h, keys[0], g);
      FollowAllTotal(d, m, h, keys[1..], g);
    }
  }

  lemma FollowOneTotal(d: Dump, s: State, h: HObject, k: int, g: Sums)
    requires Fits(d, s) && Balanced(d, g) && h in s.seen && h !in s.finished && Sane(d, s, g, g.rank[h], {h})
    requires k in d.objects ==> g.rank[d.objects[k]] < g.rank[h]
    ensures Sane(d, FollowOne(d, s, h, k), g, g.rank[h], {h}) && h !in FollowOne(d, s, h, k).finished
    ensures FollowOne(d, s, h, k).csize[h] == (s.csize[h] + TotAtKey(d, g, k))
    decreases d.objects.Values - s.seen, 1, 0
  {
    if k in d.objects {
      var q := d.objects[k];
      SaneBelow(d, s, h, q, g);
      VisitTotal(d, s, q, g);
      CreditTotal(d, s, h, q, g);
    }
  }

  /** What `h` is credited with for the target `q`. */
  lemma CreditTotal(d: Dump, s: State, h: HObject, q: HObject, g: Sums)
    requires Fits(d, s) && For(d, g) && h in s.seen && h !in s.finished && Sane(d, s, g, g.rank[h], {h})
    requires q in d.objects.Values && g.rank[q] < g.rank[h]
    requires SumOf(Visit(d, s, q), q) == g.tot[q] && Sane(d, Visit(d, s, q), g, g.rank[q], {})
    ensures Sane(d, Credited(d, Visit(d, s, q), h, q, SumOf(Visit(d, s, q), q)), g, g.rank[h], {h})
    ensures h !in Visit(d, s, q).finished && Visit(d, s, q).csize[h] == s.csize[h]
  {
    var v := Visit(d, s, q);
    var xs := VisitScans(d, s, q, q);
    var ys := VisitScans(d, s, q, h);
    SaneBack(d, s, v, ys, h, g.rank[q], g);
    SaneCredited(d, v, h, q, SumOf(v, q), g.rank[h], g);
  }
}
